/**
What each public call of a replay session does, as a table: from which status it works, where
it leads, what it records, and what it leaves alone.
*/
module ReplayCalls {
  import opened Domain
  import opened EngineSpec
  import opened Options
  import opened ReplayLifecycle
  import opened ReplaySpec
  import BarOutcomes
  import Causality

  /** The moves a session may make. */
  lemma LegalMoves(source: Status, target: Status)
    ensures target in LegalTargets(source) <==>
      || (source.Created? && (target.Validated? || target.Failed?))
      || (source.Validated? && (target.Running? || target.Stopped? || target.SessionHalted? || target.Failed?))
      || (source.Running?
          && (target.Paused? || target.Stopped? || target.Completed? || target.SessionHalted? || target.Failed?))
      || (source.Paused? && (target.Running? || target.Stopped? || target.SessionHalted? || target.Failed?))
  {
  }

  predicate CanGoOn(status: Status) { status.Validated? || status.Running? || status.Paused? }

  /** The time of the last processed bar, or of the first bar before any. */
  function TimeOf(bars: seq<Bar>, cursor: nat): int
    requires bars != [] && cursor <= |bars|
  {
    if cursor == 0 then bars[0].timestamp else bars[cursor - 1].timestamp
  }

  /** The engine is as it was, but for its warnings and what a control may change. */
  predicate SameBut(before: State, after: State, pending: Option<Signal>, halt: HaltState) {
    after == before.(warnings := after.warnings, pending := pending, halt := halt)
  }

  /** A move is announced to the sink last. */
  predicate Announced(world: World, controlled: State, after: State, time: int) {
    after == DeliverAll(world, controlled, [Event(Lifecycle, time)])
  }

  /** One more transition, and everything else as given. */
  predicate Moved(
    s: Session, t: Session, target: Status, cause: Cause, time: int, cursor: nat, failure: Option<Cause>)
  {
    && t.status == target && t.cursor == cursor && t.failure == failure
    && t.transitions == s.transitions + [Transition(time, s.status, target, cause)]
  }

  /** The outcome of a step that a running session makes. */
  predicate Stepped(world: World, bars: seq<Bar>, s: Session, r: Reply)
    requires s.cursor < |bars|
  {
    var bar := bars[s.cursor];
    var p := ProcessBar(world, s.engine, bar);
    var t, time := r.session, bar.timestamp;
    match p.error
    case Some(error) =>
      && r.error == Some(BarFailed(error))
      && Moved(s, t, Failed, BarProcessingFailed(error), time, s.cursor, Some(BarProcessingFailed(error)))
      && SameBut(p.state, t.engine, p.state.pending, p.state.halt)
      && Announced(world, p.state, t.engine, time)
    case None =>
      && r.error == None
      && (if p.state.halt.active then
            && Moved(s, t, SessionHalted, RiskCircuitBreaker, time, s.cursor + 1, s.failure)
            && SameBut(p.state, t.engine, None, p.state.halt)
            && Announced(world, ExpirePending(world, p.state, time), t.engine, time)
          else if s.cursor + 1 == |bars| then
            && Moved(s, t, Completed, AllBarsProcessed, time, s.cursor + 1, s.failure)
            && SameBut(p.state, t.engine, None, p.state.halt)
            && Announced(world, ExpirePending(world, p.state, time), t.engine, time)
          else t == s.(engine := p.state, cursor := s.cursor + 1))
  }

  /** A call that moves the session: the move, what is left of the engine, and the announcement. */
  predicate Works(
    world: World, s: Session, r: Reply, target: Status, cause: Cause, time: int, failure: Option<Cause>,
    controlled: State, pending: Option<Signal>, halt: HaltState)
  {
    && r.error == None
    && Moved(s, r.session, target, cause, time, s.cursor, failure)
    && SameBut(s.engine, r.session.engine, pending, halt)
    && Announced(world, controlled, r.session.engine, time)
  }

  /** The table of calls. */
  predicate CallFollows(world: World, bars: seq<Bar>, s: Session, command: Command, r: Reply)
    requires bars != [] && s.cursor <= |bars| && (s.status.Running? ==> s.cursor < |bars|)
  {
    var engine, time := s.engine, TimeOf(bars, s.cursor);
    var refused := r == Reply(s, Some(WrongStatus));
    var nothing := r == Reply(s, None);
    match command
    case Start =>
      if s.status.Validated? then
        Works(world, s, r, Running, SessionStarted, time, s.failure, engine, engine.pending, engine.halt)
      else refused
    case Pause =>
      if s.status.Running? then
        Works(world, s, r, Paused, ManualPause, time, s.failure, engine, engine.pending, engine.halt)
      else refused
    case Resume =>
      if s.status.Paused? then
        Works(world, s, r, Running, ManualResume, time, s.failure, engine, engine.pending, engine.halt)
      else refused
    case Stop =>
      if CanGoOn(s.status) then
        Works(world, s, r, Stopped, ManualStop, time, s.failure, ExpirePending(world, engine, time), None, engine.halt)
      else if s.status.Stopped? then nothing else refused
    case Kill =>
      if CanGoOn(s.status) then
        Works(world, s, r, SessionHalted, ManualKillSwitch, time, s.failure, ActivateKillSwitch(world, engine, time),
              None, if engine.halt.active then engine.halt else HaltState(true, Some(time), [KillSwitch]))
      else if s.status.SessionHalted? then nothing else refused
    case FailRuntime =>
      if CanGoOn(s.status) then
        Works(world, s, r, Failed, RuntimeFailed, time, Some(RuntimeFailed), ExpirePending(world, engine, time), None,
              engine.halt)
      else if s.status.Failed? then nothing else refused
    case Step => if s.status.Running? then Stepped(world, bars, s, r) else refused
  }

  lemma MoveFollows(world: World, s: Session, target: Status, cause: Cause, time: int)
    requires target in LegalTargets(s.status)
    ensures var m := Move(world, s, target, cause, time);
      && m.error == None
      && Moved(s, m.session, target, cause, time, s.cursor, s.failure)
      && SameBut(s.engine, m.session.engine, s.engine.pending, s.engine.halt)
      && Announced(world, s.engine, m.session.engine, time)
  {
    MoveKeeps(world, s, target, cause, time);
    BarOutcomes.DeliversOne(world, s.engine, Event(Lifecycle, time));
    hide LegalPath, Deliver, DeliverAll;
  }

  /** Cancelling the pending target first. */
  lemma ExpireFollows(world: World, s: Session, target: Status, cause: Cause, time: int, at: int)
    requires target in LegalTargets(s.status)
    ensures var m := Move(world, Expire(world, s, at), target, cause, time);
      && m.error == None
      && Moved(s, m.session, target, cause, time, s.cursor, s.failure)
      && SameBut(s.engine, m.session.engine, None, s.engine.halt)
      && Announced(world, ExpirePending(world, s.engine, at), m.session.engine, time)
  {
    Causality.ExpireKeeps(world, s.engine, at);
    hide Move, ExpirePending, DeliverAll;
    MoveFollows(world, Expire(world, s, at), target, cause, time);
  }

  lemma StepFollows(world: World, bars: seq<Bar>, s: Session)
    requires bars != [] && s.status.Running? && s.cursor < |bars|
    ensures Stepped(world, bars, s, StepBar(world, bars, s))
  {
    hide ProcessBar, Move, ExpirePending, DeliverAll;
    var bar := bars[s.cursor];
    var p := ProcessBar(world, s.engine, bar);
    if p.error.Some? {
      var cause := BarProcessingFailed(p.error.value);
      MoveFollows(world, s.(engine := p.state, failure := Some(cause)), Failed, cause, bar.timestamp);
    } else {
      var advanced := s.(engine := p.state, cursor := s.cursor + 1);
      if p.state.halt.active {
        ExpireFollows(world, advanced, SessionHalted, RiskCircuitBreaker, bar.timestamp, bar.timestamp);
      } else if advanced.cursor == |bars| {
        ExpireFollows(world, advanced, Completed, AllBarsProcessed, bar.timestamp, bar.timestamp);
      }
    }
  }

  /** Every call on a session that a sequence of calls can reach follows the table. */
  lemma CallsFollowTable(world: World, bars: seq<Bar>, s: Session, command: Command)
    requires bars != [] && SessionLegal(bars, s)
    ensures s.cursor <= |bars| && (s.status.Running? ==> s.cursor < |bars|)
    ensures CallFollows(world, bars, s, command, Apply(world, bars, s, command))
  {
    hide LegalPath, Move, StepBar, ExpirePending, ActivateKillSwitch, Stepped, DeliverAll;
    var time := TransitionTimestamp(bars, s);
    if CanGoOn(s.status) {
      match command {
        case Start => if s.status.Validated? { MoveFollows(world, s, Running, SessionStarted, time); }
        case Pause => if s.status.Running? { MoveFollows(world, s, Paused, ManualPause, time); }
        case Resume => if s.status.Paused? { MoveFollows(world, s, Running, ManualResume, time); }
        case Stop => ExpireFollows(world, s, Stopped, ManualStop, time, time);
        case Kill =>
          Causality.KillKeeps(world, s.engine, time);
          var latched := s.(engine := ActivateKillSwitch(world, s.engine, time));
          MoveFollows(world, latched, SessionHalted, ManualKillSwitch, time);
        case FailRuntime =>
          ExpireFollows(world, s.(failure := Some(RuntimeFailed)), Failed, RuntimeFailed, time, time);
        case Step =>
          if s.status.Running? {
            StepFollows(world, bars, s);
          } else {
            StepNeedsRunning(world, bars, s);
          }
      }
    } else {
      StepNeedsRunning(world, bars, s);
    }
  }

  /** A session opens validated, at its first bar, over a new engine. */
  lemma OpensValidated(world: World, setup: Setup, warnings: seq<Warning>)
    requires setup.validatedBars != []
    ensures var r, time := Open(world, setup, warnings), setup.validatedBars[0].timestamp;
      && r.error == None && r.session.status.Validated? && r.session.cursor == 0 && r.session.failure == None
      && r.session.transitions == [Transition(time, Created, Validated, ValidatedInput)]
      && SameBut(Initial(setup, warnings), r.session.engine, None, NOT_HALTED)
      && r.session.engine
           == DeliverAll(world, Initial(setup, warnings), [Event(Lifecycle, time), Event(Lifecycle, time)])
  {
    var time := setup.validatedBars[0].timestamp;
    var start := Initial(setup, warnings);
    Causality.DeliverKeeps(world, start, Event(Lifecycle, time));
    DeliversTwo(world, start, Event(Lifecycle, time));
    hide Deliver, Move, DeliverAll;
    var created := Session(Created, 0, [], None, Deliver(world, start, Event(Lifecycle, time)));
    MoveFollows(world, created, Validated, ValidatedInput, time);
    assert [] + [Transition(time, Created, Validated, ValidatedInput)]
      == [Transition(time, Created, Validated, ValidatedInput)];
  }

  lemma DeliversTwo(world: World, s: State, event: Event)
    ensures DeliverAll(world, s, [event, event]) == DeliverAll(world, Deliver(world, s, event), [event])
  {
    assert [event, event][1..] == [event];
  }
}
