/**
The lifecycle of a historical replay: a state machine of session controls around
one simulation engine.
*/
module ReplaySpec {
  import opened Domain
  import opened EngineSpec
  import opened Options

  datatype Status = Created | Validated | Running | Paused | Stopped | Completed | SessionHalted | Failed

  function LegalTargets(status: Status): set<Status> {
    match status
    case Created => {Validated, Failed}
    case Validated => {Running, Stopped, SessionHalted, Failed}
    case Running => {Paused, Stopped, Completed, SessionHalted, Failed}
    case Paused => {Running, Stopped, SessionHalted, Failed}
    case Stopped => {}
    case Completed => {}
    case SessionHalted => {}
    case Failed => {}
  }

  datatype Cause =
    | ValidatedInput | SessionStarted | ManualPause | ManualResume | ManualStop | ManualKillSwitch
    | RiskCircuitBreaker | AllBarsProcessed | BarProcessingFailed(error: StepError) | RuntimeFailed

  datatype Transition = Transition(timestamp: int, source: Status, target: Status, cause: Cause)

  datatype Session = Session(
    status: Status,
    cursor: nat,
    transitions: seq<Transition>,
    failure: Option<Cause>,
    engine: State)

  datatype SessionError = WrongStatus | IllegalTransition | BarFailed(error: StepError) | WaitRaised

  /** The session after a call, and the error the call raised, if any. */
  datatype Reply = Reply(session: Session, error: Option<SessionError>)

  function TransitionTimestamp(bars: seq<Bar>, s: Session): int
    requires bars != [] && s.cursor <= |bars|
  {
    if s.cursor > 0 then bars[s.cursor - 1].timestamp else bars[0].timestamp
  }

  /** Moves to a target status if that is legal, and publishes a lifecycle event. */
  function Move(world: World, s: Session, target: Status, cause: Cause, timestamp: int): (r: Reply)
    ensures r.session.cursor == s.cursor
  {
    if target !in LegalTargets(s.status) then Reply(s, Some(IllegalTransition))
    else
      var transition := Transition(timestamp, s.status, target, cause);
      Reply(
        s.(status := target,
           transitions := s.transitions + [transition],
           engine := Deliver(world, s.engine, Event(Lifecycle, timestamp))),
        None)
  }

  /** A session over validated bars, as its constructor leaves it. */
  function Open(world: World, setup: Setup, warnings: seq<Warning>): Reply
    requires setup.validatedBars != []
  {
    var start := Initial(setup, warnings);
    var timestamp := setup.validatedBars[0].timestamp;
    var created := Session(Created, 0, [], None, Deliver(world, start, Event(Lifecycle, timestamp)));
    Move(world, created, Validated, ValidatedInput, timestamp)
  }

  datatype Command = Start | Pause | Resume | Stop | Kill | Step | FailRuntime

  const ACTIVE: set<Status> := {Validated, Running, Paused}

  function RequireThenMove(
    world: World, bars: seq<Bar>, s: Session, expected: Status, target: Status, cause: Cause): (r: Reply)
    requires bars != [] && s.cursor <= |bars|
    ensures r.session.cursor == s.cursor
  {
    if s.status != expected then Reply(s, Some(WrongStatus))
    else Move(world, s, target, cause, TransitionTimestamp(bars, s))
  }

  function Expire(world: World, s: Session, timestamp: int): Session {
    s.(engine := ExpirePending(world, s.engine, timestamp))
  }

  function Complete(world: World, bars: seq<Bar>, s: Session): (r: Reply)
    requires bars != [] && s.cursor <= |bars|
    ensures r.session.cursor == s.cursor
  {
    var timestamp := TransitionTimestamp(bars, s);
    Move(world, Expire(world, s, timestamp), Completed, AllBarsProcessed, timestamp)
  }

  /** A processed bar halts the session, completes it, or leaves it running. */
  function AfterBar(world: World, bars: seq<Bar>, s: Session, timestamp: int): (r: Reply)
    requires bars != [] && 0 < s.cursor <= |bars|
    ensures r.session.cursor == s.cursor
  {
    if s.engine.halt.active then
      Move(world, Expire(world, s, timestamp), SessionHalted, RiskCircuitBreaker, TransitionTimestamp(bars, s))
    else if s.cursor == |bars| then Complete(world, bars, s)
    else Reply(s, None)
  }

  function StepBar(world: World, bars: seq<Bar>, s: Session): (r: Reply)
    requires bars != [] && s.cursor <= |bars|
    ensures s.cursor <= r.session.cursor <= |bars|
  {
    if s.status != Running then Reply(s, Some(WrongStatus))
    else if s.cursor >= |bars| then Complete(world, bars, s)
    else
      var bar := bars[s.cursor];
      var processed := ProcessBar(world, s.engine, bar);
      match processed.error
      case Some(error) =>
        var failed := s.(engine := processed.state, failure := Some(BarProcessingFailed(error)));
        var moved := Move(world, failed, Failed, BarProcessingFailed(error), bar.timestamp);
        if moved.error.Some? then moved else Reply(moved.session, Some(BarFailed(error)))
      case None =>
        AfterBar(world, bars, s.(engine := processed.state, cursor := s.cursor + 1), bar.timestamp)
  }

  /** One public call. */
  function Apply(world: World, bars: seq<Bar>, s: Session, command: Command): (r: Reply)
    requires bars != [] && s.cursor <= |bars|
    ensures s.cursor <= r.session.cursor <= |bars|
  {
    match command
    case Start => RequireThenMove(world, bars, s, Validated, Running, SessionStarted)
    case Pause => RequireThenMove(world, bars, s, Running, Paused, ManualPause)
    case Resume => RequireThenMove(world, bars, s, Paused, Running, ManualResume)
    case Stop =>
      if s.status == Stopped then Reply(s, None)
      else if s.status !in ACTIVE then Reply(s, Some(WrongStatus))
      else
        var timestamp := TransitionTimestamp(bars, s);
        Move(world, Expire(world, s, timestamp), Stopped, ManualStop, timestamp)
    case Kill =>
      if s.status == SessionHalted then Reply(s, None)
      else if s.status !in ACTIVE then Reply(s, Some(WrongStatus))
      else
        var timestamp := TransitionTimestamp(bars, s);
        Move(world, s.(engine := ActivateKillSwitch(world, s.engine, timestamp)), SessionHalted,
             ManualKillSwitch, timestamp)
    case Step => StepBar(world, bars, s)
    case FailRuntime =>
      if s.status == Failed then Reply(s, None)
      else if s.status !in ACTIVE then Reply(s, Some(WrongStatus))
      else
        var timestamp := TransitionTimestamp(bars, s);
        Move(world, Expire(world, s.(failure := Some(RuntimeFailed)), timestamp), Failed, RuntimeFailed,
             timestamp)
  }

  /** The session after a sequence of public calls, whatever each of them raised. */
  function ApplyAll(world: World, bars: seq<Bar>, s: Session, commands: seq<Command>): Session
    requires bars != [] && s.cursor <= |bars|
    ensures ApplyAll(world, bars, s, commands).cursor <= |bars|
    decreases |commands|
  {
    if commands == [] then s
    else
      var before := ApplyAll(world, bars, s, commands[..|commands| - 1]);
      Apply(world, bars, before, commands[|commands| - 1]).session
  }

  // ---------- running to completion ----------

  /** The call that gets a session running. */
  function OpeningCalls(status: Status): seq<Command> {
    if status == Validated then [Command.Start] else if status == Paused then [Command.Resume] else []
  }

  function Steps(n: nat): seq<Command> { seq(n, _ => Command.Step) }

  /** The session after getting it running and n steps. */
  function AfterSteps(world: World, bars: seq<Bar>, s: Session, n: nat): Session
    requires bars != [] && s.cursor <= |bars|
  {
    ApplyAll(world, bars, s, OpeningCalls(s.status) + Steps(n))
  }

  /**
  Started or resumed, the session takes steps as long as it is running and the wait between
  two bars does not raise; a wait that raises ends it as a runtime failure.
  */
  ghost predicate RanOut(
    world: World, bars: seq<Bar>, s: Session, waitRaises: nat -> bool, n: nat, raised: bool, calls: seq<Command>)
    requires bars != [] && s.cursor <= |bars|
  {
    && calls == OpeningCalls(s.status) + Steps(n) + (if raised then [Command.FailRuntime] else [])
    && (forall k | 0 <= k < n ::
          && AfterSteps(world, bars, s, k).status == Running
          && (k > 0 ==> !waitRaises(AfterSteps(world, bars, s, k).cursor)))
    && var end := AfterSteps(world, bars, s, n);
       if raised then n > 0 && end.status == Running && waitRaises(end.cursor) else end.status != Running
  }

  /** After its opening call and n steps, with the outcome of the last call. */
  ghost predicate UnderWay(
    world: World, bars: seq<Bar>, s: Session, waitRaises: nat -> bool, n: nat, calls: seq<Command>, now: Session,
    error: Option<SessionError>)
    requires bars != [] && s.cursor <= |bars|
  {
    && calls == OpeningCalls(s.status) + Steps(n)
    && now == ApplyAll(world, bars, s, calls)
    && (forall k | 0 <= k < n ::
          && AfterSteps(world, bars, s, k).status == Running
          && (k > 0 ==> !waitRaises(AfterSteps(world, bars, s, k).cursor)))
    && error == LastError(world, bars, s, calls)
  }

  /** What the last of some calls raised. */
  function LastError(world: World, bars: seq<Bar>, s: Session, calls: seq<Command>): Option<SessionError>
    requires bars != [] && s.cursor <= |bars|
  {
    if calls == [] then None
    else Apply(world, bars, ApplyAll(world, bars, s, calls[..|calls| - 1]), calls[|calls| - 1]).error
  }

  lemma ApplyAllExtends(world: World, bars: seq<Bar>, s: Session, calls: seq<Command>, call: Command)
    requires bars != [] && s.cursor <= |bars|
    ensures ApplyAll(world, bars, s, calls + [call])
         == Apply(world, bars, ApplyAll(world, bars, s, calls), call).session
    ensures LastError(world, bars, s, calls + [call]) == Apply(world, bars, ApplyAll(world, bars, s, calls), call).error
  {
    hide Apply;
    assert (calls + [call])[..|calls|] == calls;
  }

  lemma BeginsUnderWay(world: World, bars: seq<Bar>, s: Session, waitRaises: nat -> bool)
    requires bars != [] && s.cursor <= |bars|
    ensures var calls := OpeningCalls(s.status);
      UnderWay(world, bars, s, waitRaises, 0, calls, ApplyAll(world, bars, s, calls), LastError(world, bars, s, calls))
    ensures s.status != Validated && s.status != Paused ==>
      ApplyAll(world, bars, s, OpeningCalls(s.status)) == s && LastError(world, bars, s, OpeningCalls(s.status)) == None
    ensures s.status == Validated ==>
      && ApplyAll(world, bars, s, OpeningCalls(s.status)) == Apply(world, bars, s, Command.Start).session
      && LastError(world, bars, s, OpeningCalls(s.status)) == Apply(world, bars, s, Command.Start).error
    ensures s.status == Paused ==>
      && ApplyAll(world, bars, s, OpeningCalls(s.status)) == Apply(world, bars, s, Command.Resume).session
      && LastError(world, bars, s, OpeningCalls(s.status)) == Apply(world, bars, s, Command.Resume).error
  {
    hide Apply;
    assert OpeningCalls(s.status) + Steps(0) == OpeningCalls(s.status);
    ApplyAllExtends(world, bars, s, [], Command.Start);
    ApplyAllExtends(world, bars, s, [], Command.Resume);
    assert [] + [Command.Start] == [Command.Start] && [] + [Command.Resume] == [Command.Resume];
  }

  lemma StepsUnderWay(
    world: World, bars: seq<Bar>, s: Session, waitRaises: nat -> bool, n: nat, calls: seq<Command>, now: Session,
    error: Option<SessionError>)
    requires bars != [] && s.cursor <= |bars|
    requires UnderWay(world, bars, s, waitRaises, n, calls, now, error)
    requires now.status == Running && (n > 0 ==> !waitRaises(now.cursor))
    ensures now.cursor <= |bars|
    ensures var r := Apply(world, bars, now, Command.Step);
      UnderWay(world, bars, s, waitRaises, n + 1, calls + [Command.Step], r.session, r.error)
  {
    hide Apply, ApplyAll, LastError;
    assert OpeningCalls(s.status) + Steps(n) + [Command.Step] == OpeningCalls(s.status) + Steps(n + 1);
    ApplyAllExtends(world, bars, s, calls, Command.Step);
  }

  /** Under way until it is not running any more: it has run out. */
  lemma EndsRanOut(
    world: World, bars: seq<Bar>, s: Session, waitRaises: nat -> bool, n: nat, calls: seq<Command>, now: Session,
    error: Option<SessionError>)
    requires bars != [] && s.cursor <= |bars|
    requires UnderWay(world, bars, s, waitRaises, n, calls, now, error) && now.status != Running
    ensures RanOut(world, bars, s, waitRaises, n, false, calls)
  {
    hide ApplyAll, LastError;
    assert calls + [] == calls;
  }

  lemma RaisedRanOut(
    world: World, bars: seq<Bar>, s: Session, waitRaises: nat -> bool, n: nat, calls: seq<Command>, now: Session,
    error: Option<SessionError>)
    requires bars != [] && s.cursor <= |bars|
    requires UnderWay(world, bars, s, waitRaises, n, calls, now, error)
    requires n > 0 && now.status == Running && waitRaises(now.cursor)
    ensures now.cursor <= |bars|
    ensures RanOut(world, bars, s, waitRaises, n, true, calls + [Command.FailRuntime])
    ensures ApplyAll(world, bars, s, calls + [Command.FailRuntime])
         == Apply(world, bars, now, Command.FailRuntime).session
  {
    hide Apply, ApplyAll, LastError;
    ApplyAllExtends(world, bars, s, calls, Command.FailRuntime);
  }
}
