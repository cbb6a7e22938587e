/**
The session lifecycle over every sequence of public calls, whatever the strategy and
the sink do to the engine.
*/
module ReplayLifecycle {
  import opened Domain
  import opened EngineSpec
  import opened Options
  import opened ReplaySpec
  import Causality

  // ---------- the lifecycle invariant ----------

  /** The transitions form a path from Created to the current status inside the legal relation. */
  ghost predicate LegalPath(transitions: seq<Transition>, status: Status) {
    && transitions != []
    && transitions[0].source == Created
    && transitions[|transitions| - 1].target == status
    && (forall i :: 0 <= i < |transitions| ==> transitions[i].target in LegalTargets(transitions[i].source))
    && (forall i :: 0 < i < |transitions| ==> transitions[i].source == transitions[i - 1].target)
  }

  function LastCause(s: Session): Option<Cause> {
    if s.transitions == [] then None else Some(s.transitions[|s.transitions| - 1].cause)
  }

  /**
  A legal path to the status. An active session has bars left and is not halted, a completed
  one has processed all of them, and no ended one has a pending target, unless a bar failed.
  */
  ghost predicate SessionLegal(bars: seq<Bar>, s: Session) {
    && s.status != Created
    && LegalPath(s.transitions, s.status)
    && s.cursor <= |bars|
    && (s.status in ACTIVE ==> s.cursor < |bars| && !s.engine.halt.active && !s.engine.failed)
    && (s.status == Completed ==> s.cursor == |bars| && !s.engine.halt.active)
    && (s.status in {Stopped, SessionHalted, Completed} ==> s.engine.pending == None)
    && (s.status == Failed && s.failure == Some(RuntimeFailed) ==> s.engine.pending == None)
    && (s.status == SessionHalted ==> s.engine.halt.active)
    && (EndsSession(LastCause(s)) ==> s.status !in ACTIVE)
  }

  predicate EndsSession(cause: Option<Cause>) {
    cause.Some? && (cause.value == RiskCircuitBreaker || cause.value.BarProcessingFailed?)
  }

  // ---------- what single steps keep ----------

  /** A legal move extends the path and leaves the engine alone but for its warnings. */
  lemma MoveKeeps(world: World, s: Session, target: Status, cause: Cause, timestamp: int)
    requires target in LegalTargets(s.status)
    ensures var m := Move(world, s, target, cause, timestamp);
      && m.error == None
      && m.session == s.(status := target, transitions := m.session.transitions, engine := m.session.engine)
      && m.session.transitions == s.transitions + [Transition(timestamp, s.status, target, cause)]
      && m.session.engine == s.engine.(warnings := m.session.engine.warnings)
      && LastCause(m.session) == Some(cause)
      && (LegalPath(s.transitions, s.status) ==> LegalPath(m.session.transitions, target))
  {
    hide Deliver;
    Causality.DeliverKeeps(world, s.engine, Event(Lifecycle, timestamp));
  }

  lemma FailedBarRestores(world: World, s: State, bar: Bar)
    requires !s.failed && ProcessBar(world, s, bar).error.Some?
    ensures ProcessBar(world, s, bar).state == s.(failed := true)
  {
    hide Advance;
  }

  // ---------- every call keeps the lifecycle legal ----------

  lemma OpenLegal(world: World, setup: Setup, warnings: seq<Warning>)
    requires setup.validatedBars != []
    ensures Open(world, setup, warnings).error == None
    ensures SessionLegal(setup.validatedBars, Open(world, setup, warnings).session)
    ensures Open(world, setup, warnings).session.status == Validated
  {
    var start := Initial(setup, warnings);
    var timestamp := setup.validatedBars[0].timestamp;
    Causality.DeliverKeeps(world, start, Event(Lifecycle, timestamp));
    var created := Session(Created, 0, [], None, Deliver(world, start, Event(Lifecycle, timestamp)));
    hide Deliver;
    Causality.DeliverKeeps(world, created.engine, Event(Lifecycle, timestamp));
  }

  /** Moves out of an active status into one whose demands the engine meets. */
  lemma MoveLegal(world: World, bars: seq<Bar>, s: Session, target: Status, cause: Cause, timestamp: int)
    requires LegalPath(s.transitions, s.status) && s.cursor <= |bars|
    requires target in LegalTargets(s.status) && target != Created
    requires target in ACTIVE ==> s.cursor < |bars| && !s.engine.halt.active && !s.engine.failed
    requires target == Completed ==> s.cursor == |bars| && !s.engine.halt.active
    requires target == SessionHalted ==> s.engine.halt.active
    requires target in {Stopped, SessionHalted, Completed} ==> s.engine.pending == None
    requires target == Failed && s.failure == Some(RuntimeFailed) ==> s.engine.pending == None
    requires EndsSession(Some(cause)) ==> target !in ACTIVE
    ensures Move(world, s, target, cause, timestamp).error == None
    ensures SessionLegal(bars, Move(world, s, target, cause, timestamp).session)
  {
    MoveKeeps(world, s, target, cause, timestamp);
    hide Move, LegalPath;
  }

  /** The same after the pending target was cancelled. */
  lemma ExpireAndMoveLegal(world: World, bars: seq<Bar>, s: Session, target: Status, cause: Cause, timestamp: int)
    requires LegalPath(s.transitions, s.status) && s.cursor <= |bars|
    requires target in LegalTargets(s.status) && target !in ACTIVE && target != Created
    requires target == Completed ==> s.cursor == |bars| && !s.engine.halt.active
    requires target == SessionHalted ==> s.engine.halt.active
    ensures Move(world, Expire(world, s, timestamp), target, cause, timestamp).error == None
    ensures SessionLegal(bars, Move(world, Expire(world, s, timestamp), target, cause, timestamp).session)
  {
    Causality.ExpireKeeps(world, s.engine, timestamp);
    hide Move, LegalPath, ExpirePending, SessionLegal;
    MoveLegal(world, bars, Expire(world, s, timestamp), target, cause, timestamp);
  }

  lemma KillLegal(world: World, bars: seq<Bar>, s: Session, timestamp: int)
    requires SessionLegal(bars, s) && s.status in ACTIVE
    ensures var m := Move(world, s.(engine := ActivateKillSwitch(world, s.engine, timestamp)), SessionHalted,
                          ManualKillSwitch, timestamp);
      m.error == None && SessionLegal(bars, m.session)
  {
    Causality.KillKeeps(world, s.engine, timestamp);
    hide Move, LegalPath, ActivateKillSwitch;
    MoveLegal(world, bars, s.(engine := ActivateKillSwitch(world, s.engine, timestamp)),
              SessionHalted, ManualKillSwitch, timestamp);
  }

  lemma AfterBarLegal(world: World, bars: seq<Bar>, s: Session, timestamp: int)
    requires LegalPath(s.transitions, s.status) && s.status == Running && 0 < s.cursor <= |bars|
    requires !EndsSession(LastCause(s))
    requires !s.engine.failed && timestamp == bars[s.cursor - 1].timestamp
    ensures var r := AfterBar(world, bars, s, timestamp);
      SessionLegal(bars, r.session) && r.error == None
  {
    hide LegalPath, Move, Expire;
    if s.engine.halt.active {
      ExpireAndMoveLegal(world, bars, s, SessionHalted, RiskCircuitBreaker, timestamp);
    } else if s.cursor == |bars| {
      ExpireAndMoveLegal(world, bars, s, Completed, AllBarsProcessed, timestamp);
    }
  }

  lemma FailedBarLegal(world: World, bars: seq<Bar>, s: Session, error: StepError, timestamp: int)
    requires SessionLegal(bars, s) && s.status == Running
    ensures var failed := s.(engine := s.engine.(failed := true), failure := Some(BarProcessingFailed(error)));
      var m := Move(world, failed, Failed, BarProcessingFailed(error), timestamp);
      m.error == None && SessionLegal(bars, m.session)
  {
    hide Move, LegalPath;
    MoveLegal(world, bars, s.(engine := s.engine.(failed := true), failure := Some(BarProcessingFailed(error))),
              Failed, BarProcessingFailed(error), timestamp);
  }

  lemma StepLegal(world: World, bars: seq<Bar>, s: Session)
    requires bars != [] && SessionLegal(bars, s) && s.status == Running
    ensures s.cursor < |bars|
    ensures var r := StepBar(world, bars, s);
      && SessionLegal(bars, r.session)
      && (r.error == None || r.error.value.BarFailed?)
  {
    hide ProcessBar, LegalPath, Move, AfterBar, SessionLegal;
    RunningFacts(bars, s);
    var bar := bars[s.cursor];
    Causality.ProcessBarSetup(world, s.engine, bar);
    var p := ProcessBar(world, s.engine, bar);
    if p.error.Some? {
      FailedBarRestores(world, s.engine, bar);
      FailedBarLegal(world, bars, s, p.error.value, bar.timestamp);
    } else {
      AfterBarLegal(world, bars, s.(engine := p.state, cursor := s.cursor + 1), bar.timestamp);
    }
  }

  lemma RunningFacts(bars: seq<Bar>, s: Session)
    requires SessionLegal(bars, s) && s.status == Running
    ensures LegalPath(s.transitions, s.status) && s.cursor < |bars|
    ensures !s.engine.halt.active && !s.engine.failed && !EndsSession(LastCause(s))
  {
    hide LegalPath;
  }

  /**
  Any public call keeps the lifecycle legal. It never raises the illegal-transition error,
  and in a terminal status it changes nothing.
  */
  lemma ApplyLegal(world: World, bars: seq<Bar>, s: Session, command: Command)
    requires bars != [] && SessionLegal(bars, s)
    ensures s.cursor <= |bars|
    ensures var r := Apply(world, bars, s, command);
      && SessionLegal(bars, r.session)
      && r.error != Some(IllegalTransition)
      && (s.status !in ACTIVE ==> r.session == s)
  {
    hide LegalPath, Move, StepBar, Expire, ActivateKillSwitch;
    if s.status in ACTIVE {
      var timestamp := TransitionTimestamp(bars, s);
      match command {
        case Start => if s.status == Validated { MoveLegal(world, bars, s, Running, SessionStarted, timestamp); }
        case Pause => if s.status == Running { MoveLegal(world, bars, s, Paused, ManualPause, timestamp); }
        case Resume => if s.status == Paused { MoveLegal(world, bars, s, Running, ManualResume, timestamp); }
        case Stop => ExpireAndMoveLegal(world, bars, s, Stopped, ManualStop, timestamp);
        case Kill => KillLegal(world, bars, s, timestamp);
        case Step =>
          if s.status == Running {
            StepLegal(world, bars, s);
          } else {
            assert StepBar(world, bars, s) == Reply(s, Some(WrongStatus)) by { StepNeedsRunning(world, bars, s); }
          }
        case FailRuntime =>
          ExpireAndMoveLegal(world, bars, s.(failure := Some(RuntimeFailed)), Failed, RuntimeFailed, timestamp);
      }
    } else {
      StepNeedsRunning(world, bars, s);
    }
  }

  lemma StepNeedsRunning(world: World, bars: seq<Bar>, s: Session)
    requires bars != [] && s.cursor <= |bars| && s.status != Running
    ensures StepBar(world, bars, s) == Reply(s, Some(WrongStatus))
  {
  }

  /** Every sequence of public calls, from a freshly opened session, is a legal lifecycle. */
  lemma {:induction false} LifecycleLegal(
    world: World, setup: Setup, warnings: seq<Warning>, commands: seq<Command>)
    requires setup.validatedBars != []
    ensures Open(world, setup, warnings).session.cursor <= |setup.validatedBars|
    ensures SessionLegal(setup.validatedBars,
      ApplyAll(world, setup.validatedBars, Open(world, setup, warnings).session, commands))
    decreases |commands|
  {
    OpenLegal(world, setup, warnings);
    hide LegalPath, Open, Apply;
    var bars := setup.validatedBars;
    var s := Open(world, setup, warnings).session;
    if commands != [] {
      var front := commands[..|commands| - 1];
      LifecycleLegal(world, setup, warnings, front);
      hide SessionLegal;
      ApplyLegal(world, bars, ApplyAll(world, bars, s, front), commands[|commands| - 1]);
    }
  }
}
