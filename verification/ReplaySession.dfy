/**
The pauseable replay session as an object that owns a simulation engine. Each
method is proved against the lifecycle function that specifies it.
*/
module Replay {
  import opened Domain
  import opened EngineSpec
  import opened Options
  import opened ReplaySpec
  import opened Simulation

  class HistoricalReplaySession {
    const world: World
    const bars: seq<Bar>
    const engine: SimulationEngine
    var cursor: nat
    var status: Status
    var transitions: seq<Transition>
    var failureReason: Option<Cause>

    function View(): Session
      reads this, engine
    {
      Session(status, cursor, transitions, failureReason, engine.Capture())
    }

    ghost predicate Valid()
      reads this, engine
    {
      && bars != [] && cursor <= |bars|
      && engine.world == world && !engine.deliveringEvent
    }

    /** Opens a session over validated bars and records their validation. */
    constructor (world: World, requested: Setup, warnings: seq<Warning>)
      requires requested.validatedBars != []
      ensures Valid() && fresh(engine)
      ensures this.world == world && this.bars == requested.validatedBars
      ensures View() == Open(world, Effective(requested), warnings).session
    {
      this.world := world;
      this.bars := requested.validatedBars;
      var owned := new SimulationEngine(world, requested, warnings);
      this.engine := owned;
      cursor, status, transitions, failureReason := 0, Created, [], None;
      new;
      hide Deliver;
      engine.DeliverEvent(Event(Lifecycle, bars[0].timestamp));
      var error := MoveTo(Validated, ValidatedInput, bars[0].timestamp);
    }

    method MoveTo(target: Status, cause: Cause, timestamp: int) returns (error: Option<SessionError>)
      requires Valid()
      modifies this, engine
      ensures Valid()
      ensures var r := Move(world, old(View()), target, cause, timestamp);
        View() == r.session && error == r.error
    {
      hide Deliver;
      if target !in LegalTargets(status) {
        return Some(IllegalTransition);
      }
      transitions := transitions + [Transition(timestamp, status, target, cause)];
      status := target;
      engine.DeliverEvent(Event(Lifecycle, timestamp));
      error := None;
    }

    method Require(expected: Status, target: Status, cause: Cause) returns (error: Option<SessionError>)
      requires Valid()
      modifies this, engine
      ensures Valid()
      ensures var r := RequireThenMove(world, bars, old(View()), expected, target, cause);
        View() == r.session && error == r.error
    {
      hide Move;
      if status != expected {
        return Some(WrongStatus);
      }
      error := MoveTo(target, cause, TransitionTimestamp(bars, View()));
    }

    method Start() returns (error: Option<SessionError>)
      requires Valid()
      modifies this, engine
      ensures Valid()
      ensures var r := Apply(world, bars, old(View()), Command.Start);
        View() == r.session && error == r.error
    {
      hide RequireThenMove;
      error := Require(Validated, Running, SessionStarted);
    }

    method Pause() returns (error: Option<SessionError>)
      requires Valid()
      modifies this, engine
      ensures Valid()
      ensures var r := Apply(world, bars, old(View()), Command.Pause);
        View() == r.session && error == r.error
    {
      hide RequireThenMove;
      error := Require(Running, Paused, ManualPause);
    }

    method Resume() returns (error: Option<SessionError>)
      requires Valid()
      modifies this, engine
      ensures Valid()
      ensures var r := Apply(world, bars, old(View()), Command.Resume);
        View() == r.session && error == r.error
    {
      hide RequireThenMove;
      error := Require(Paused, Running, ManualResume);
    }

    method Stop() returns (error: Option<SessionError>)
      requires Valid()
      modifies this, engine
      ensures Valid()
      ensures var r := Apply(world, bars, old(View()), Command.Stop);
        View() == r.session && error == r.error
    {
      hide Move, ExpirePending;
      if status == Stopped {
        return None;
      }
      if status !in ACTIVE {
        return Some(WrongStatus);
      }
      var timestamp := TransitionTimestamp(bars, View());
      engine.ExpirePendingSignal(timestamp);
      error := MoveTo(Stopped, ManualStop, timestamp);
    }

    method ActivateKillSwitch() returns (error: Option<SessionError>)
      requires Valid()
      modifies this, engine
      ensures Valid()
      ensures var r := Apply(world, bars, old(View()), Kill);
        View() == r.session && error == r.error
    {
      hide Move, EngineSpec.ActivateKillSwitch;
      if status == SessionHalted {
        return None;
      }
      if status !in ACTIVE {
        return Some(WrongStatus);
      }
      var timestamp := TransitionTimestamp(bars, View());
      engine.ActivateKillSwitch(timestamp);
      error := MoveTo(SessionHalted, ManualKillSwitch, timestamp);
    }

    method FailRuntime() returns (error: Option<SessionError>)
      requires Valid()
      modifies this, engine
      ensures Valid()
      ensures var r := Apply(world, bars, old(View()), Command.FailRuntime);
        View() == r.session && error == r.error
    {
      hide Move, ExpirePending;
      if status == Failed {
        return None;
      }
      if status !in ACTIVE {
        return Some(WrongStatus);
      }
      failureReason := Some(RuntimeFailed);
      var timestamp := TransitionTimestamp(bars, View());
      engine.ExpirePendingSignal(timestamp);
      error := MoveTo(Failed, RuntimeFailed, timestamp);
    }

    method CompleteSession() returns (error: Option<SessionError>)
      requires Valid()
      modifies this, engine
      ensures Valid()
      ensures var r := Complete(world, bars, old(View()));
        View() == r.session && error == r.error
    {
      hide Move, ExpirePending;
      var timestamp := TransitionTimestamp(bars, View());
      engine.ExpirePendingSignal(timestamp);
      error := MoveTo(Completed, AllBarsProcessed, timestamp);
    }

    /** Delivers one bar to the engine and settles the session on its outcome. */
    method Step() returns (error: Option<SessionError>)
      requires Valid()
      modifies this, engine
      ensures Valid()
      ensures var r := Apply(world, bars, old(View()), Command.Step);
        View() == r.session && error == r.error
    {
      hide Move, ExpirePending, ProcessBar, Complete;
      if status != Running {
        return Some(WrongStatus);
      }
      if cursor >= |bars| {
        error := CompleteSession();
        return;
      }
      var bar := bars[cursor];
      var failed := engine.ProcessBar(bar);
      if failed.Some? {
        failureReason := Some(BarProcessingFailed(failed.value));
        error := MoveTo(Failed, BarProcessingFailed(failed.value), bar.timestamp);
        if error == None {
          error := Some(BarFailed(failed.value));
        }
        return;
      }
      cursor := cursor + 1;
      if engine.haltState.active {
        engine.ExpirePendingSignal(bar.timestamp);
        error := MoveTo(SessionHalted, RiskCircuitBreaker, TransitionTimestamp(bars, View()));
      } else if cursor == |bars| {
        error := CompleteSession();
      } else {
        error := None;
      }
    }

    /**
    Runs a validated or paused session to its end. The sleeper between two bars is
    foreign code: `waitRaises` says after which bar it raises. `calls` are the public
    calls the loop amounts to, `n` the steps among them.
    */
    method RunToCompletion(waitRaises: nat -> bool)
      returns (error: Option<SessionError>, ghost calls: seq<Command>, ghost n: nat, ghost raised: bool)
      requires Valid()
      modifies this, engine
      ensures Valid()
      ensures View() == ApplyAll(world, bars, old(View()), calls)
      ensures RanOut(world, bars, old(View()), waitRaises, n, raised, calls)
      ensures status !in ACTIVE
      ensures error == if raised then Some(WaitRaised) else LastError(world, bars, old(View()), calls)
    {
      hide Apply, ApplyAll, UnderWay, RanOut, LastError;
      ghost var start := View();
      error, n, raised, calls := None, 0, false, OpeningCalls(status);
      StartRuns(start);
      BeginsUnderWay(world, bars, start, waitRaises);
      if status == Validated {
        error := Start();
      } else if status == Paused {
        error := Resume();
      }
      while status == Running
        invariant Valid() && !raised
        invariant UnderWay(world, bars, start, waitRaises, n, calls, View(), error)
        invariant n > 0 && status == Running ==> !waitRaises(cursor)
        invariant status == Running || status !in ACTIVE
        decreases |bars| - cursor, status == Running
      {
        ghost var before := View();
        StepsUnderWay(world, bars, start, waitRaises, n, calls, before, error);
        error := Step();
        StepProgresses(before);
        calls, n := calls + [Command.Step], n + 1;
        if status == Running && waitRaises(cursor) {
          before := View();
          RaisedRanOut(world, bars, start, waitRaises, n, calls, before, error);
          FailureEnds(before);
          error := FailRuntime();
          return Some(WaitRaised), calls + [Command.FailRuntime], n, true;
        }
      }
      EndsRanOut(world, bars, start, waitRaises, n, calls, View(), error);
      UnderWayNow(start, waitRaises, n, calls, View(), error);
    }

    lemma UnderWayNow(
      start: Session, waitRaises: nat -> bool, n: nat, calls: seq<Command>, now: Session, error: Option<SessionError>)
      requires bars != [] && start.cursor <= |bars|
      requires UnderWay(world, bars, start, waitRaises, n, calls, now, error)
      ensures now == ApplyAll(world, bars, start, calls) && error == LastError(world, bars, start, calls)
    {
      hide ApplyAll, LastError;
    }

    lemma StartRuns(s: Session)
      requires bars != [] && s.cursor <= |bars|
      ensures s.status == Validated ==> Apply(world, bars, s, Command.Start).session.status == Running
      ensures s.status == Paused ==> Apply(world, bars, s, Command.Resume).session.status == Running
    {
      hide Deliver;
    }

    /** A step of a running session either takes in a bar or ends the session. */
    lemma StepProgresses(s: Session)
      requires bars != [] && s.cursor <= |bars| && s.status == Running
      ensures var t := Apply(world, bars, s, Command.Step).session;
        && (t.status == Running || t.status !in ACTIVE)
        && (t.status == Running ==> t.cursor == s.cursor + 1)
    {
      hide ProcessBar, ExpirePending, Deliver;
    }

    lemma FailureEnds(s: Session)
      requires bars != [] && s.cursor <= |bars| && s.status == Running
      ensures Apply(world, bars, s, Command.FailRuntime).session.status == Failed
    {
      hide ExpirePending, Deliver;
    }
  }
}
