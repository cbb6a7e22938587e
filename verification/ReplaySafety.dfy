/**
What every replay session records, whatever the strategy and the sink do: a sound engine,
one point per processed bar, and a risk halt at the first point that is halted.
*/
module ReplaySafety {
  import opened Domain
  import opened EngineSpec
  import opened Options
  import opened ReplayLifecycle
  import opened ReplaySpec
  import opened RunRecords
  import Causality
  import EngineInvariants

  /** The point at `index` is halted and every point before it is not. */
  predicate FirstHaltedAt(curve: seq<EquityPoint>, index: int) {
    && 0 <= index < |curve|
    && curve[index].halt.active
    && forall i :: 0 <= i < index ==> !curve[i].halt.active
  }

  /** The engine is in a reachable state and has recorded exactly the bars processed so far. */
  ghost predicate EngineSafe(bars: seq<Bar>, cursor: nat, engine: State)
    requires cursor <= |bars|
  {
    EngineInvariants.Sound(engine) && Follows(engine, bars[..cursor])
  }

  ghost predicate SessionSafe(bars: seq<Bar>, s: Session) {
    && s.cursor <= |bars|
    && EngineSafe(bars, s.cursor, s.engine)
    && (LastCause(s) == Some(RiskCircuitBreaker) ==> FirstHaltedAt(s.engine.journal.curve, s.cursor - 1))
  }

  /** Neither warnings, nor controls on the engine, nor its failure flag touch the record. */
  lemma SafeIgnoresControls(bars: seq<Bar>, cursor: nat, s: State, t: State)
    requires cursor <= |bars| && EngineSafe(bars, cursor, s)
    requires t == s.(pending := t.pending, halt := t.halt, warnings := t.warnings, failed := t.failed)
    requires t.pending == s.pending || t.pending == None
    requires s.halt.active ==> t.halt == s.halt
    ensures EngineSafe(bars, cursor, t)
  {
    hide EngineInvariants.Sound;
    EngineInvariants.SoundAfterControls(s, t);
  }

  lemma OpenSafe(world: World, setup: Setup, warnings: seq<Warning>)
    requires setup.validatedBars != [] && ValidConfig(setup.cfg)
    ensures SessionSafe(setup.validatedBars, Open(world, setup, warnings).session)
  {
    var start, bars := Initial(setup, warnings), setup.validatedBars;
    var timestamp := bars[0].timestamp;
    EngineInvariants.InitialSound(setup, warnings);
    InitialFollows(setup, warnings);
    assert bars[..0] == [];
    Causality.DeliverKeeps(world, start, Event(Lifecycle, timestamp));
    var created := Session(Created, 0, [], None, Deliver(world, start, Event(Lifecycle, timestamp)));
    hide Deliver, Initial, EngineSafe;
    assert EngineSafe(bars, 0, start) by { SafeInitially(bars, start); }
    SafeIgnoresControls(bars, 0, start, created.engine);
    MoveSafe(world, bars, created, Validated, ValidatedInput, timestamp);
  }

  lemma SafeInitially(bars: seq<Bar>, s: State)
    requires EngineInvariants.Sound(s) && Follows(s, bars[..0])
    ensures EngineSafe(bars, 0, s)
  {
  }

  lemma MoveSafe(world: World, bars: seq<Bar>, s: Session, target: Status, cause: Cause, timestamp: int)
    requires target in LegalTargets(s.status)
    requires s.cursor <= |bars| && EngineSafe(bars, s.cursor, s.engine)
    requires cause == RiskCircuitBreaker ==> FirstHaltedAt(s.engine.journal.curve, s.cursor - 1)
    ensures SessionSafe(bars, Move(world, s, target, cause, timestamp).session)
  {
    MoveKeeps(world, s, target, cause, timestamp);
    hide Move, LegalPath, EngineSafe, LastCause, FirstHaltedAt;
    SafeIgnoresControls(bars, s.cursor, s.engine, Move(world, s, target, cause, timestamp).session.engine);
  }

  lemma ExpireAndMoveSafe(world: World, bars: seq<Bar>, s: Session, target: Status, cause: Cause, timestamp: int)
    requires target in LegalTargets(s.status)
    requires s.cursor <= |bars| && EngineSafe(bars, s.cursor, s.engine)
    requires cause == RiskCircuitBreaker ==> FirstHaltedAt(s.engine.journal.curve, s.cursor - 1)
    ensures SessionSafe(bars, Move(world, Expire(world, s, timestamp), target, cause, timestamp).session)
  {
    Causality.ExpireKeeps(world, s.engine, timestamp);
    hide Move, ExpirePending, EngineSafe, FirstHaltedAt;
    var expired := Expire(world, s, timestamp);
    SafeIgnoresControls(bars, s.cursor, s.engine, expired.engine);
    MoveSafe(world, bars, expired, target, cause, timestamp);
  }

  lemma KillSafe(world: World, bars: seq<Bar>, s: Session, timestamp: int)
    requires s.status in ACTIVE && s.cursor <= |bars| && EngineSafe(bars, s.cursor, s.engine)
    ensures SessionSafe(bars,
      Move(world, s.(engine := ActivateKillSwitch(world, s.engine, timestamp)), SessionHalted,
           ManualKillSwitch, timestamp).session)
  {
    Causality.KillKeeps(world, s.engine, timestamp);
    hide Move, ActivateKillSwitch, EngineSafe;
    var killed := s.(engine := ActivateKillSwitch(world, s.engine, timestamp));
    SafeIgnoresControls(bars, s.cursor, s.engine, killed.engine);
    MoveSafe(world, bars, killed, SessionHalted, ManualKillSwitch, timestamp);
  }

  /** A processed bar is recorded; if it halts the engine, its point is the first halted one. */
  lemma BarSafe(world: World, bars: seq<Bar>, cursor: nat, engine: State)
    requires cursor < |bars| && EngineSafe(bars, cursor, engine) && !engine.halt.active
    requires ProcessBar(world, engine, bars[cursor]).error == None
    ensures var after := ProcessBar(world, engine, bars[cursor]).state;
      && EngineSafe(bars, cursor + 1, after)
      && (after.halt.active ==> FirstHaltedAt(after.journal.curve, cursor))
  {
    hide ProcessBar, EngineInvariants.Sound, Follows, FirstHaltedAt;
    EngineInvariants.ProcessBarSound(world, engine, bars[cursor]);
    BarFollows(world, engine, bars[..cursor], bars[cursor]);
    assert bars[..cursor] + [bars[cursor]] == bars[..cursor + 1];
    HaltedAtBar(world, bars[..cursor], engine, bars[cursor]);
  }

  lemma HaltedAtBar(world: World, front: seq<Bar>, engine: State, bar: Bar)
    requires EngineInvariants.Sound(engine) && Follows(engine, front) && !engine.halt.active
    requires ProcessBar(world, engine, bar).error == None
    ensures var after := ProcessBar(world, engine, bar).state;
      after.halt.active ==> FirstHaltedAt(after.journal.curve, |front|)
  {
    EngineInvariants.SoundParts(engine);
    EngineInvariants.HaltedPointsMeanHalted(engine);
    hide ProcessBar, EngineInvariants.Sound, EngineInvariants.CurveSound, JournalPrefix, PointFollows;
    ProcessBarGrows(world, engine, bar);
    CurvePrefix(engine.journal, ProcessBar(world, engine, bar).state.journal);
  }

  lemma CurvePrefix(front: Journal, whole: Journal)
    requires JournalPrefix(front, whole)
    ensures |front.curve| <= |whole.curve|
    ensures forall i :: 0 <= i < |front.curve| ==> whole.curve[i] == front.curve[i]
  {
  }

  lemma StepSafe(world: World, bars: seq<Bar>, s: Session)
    requires bars != [] && SessionLegal(bars, s) && SessionSafe(bars, s) && s.status == Running
    ensures s.cursor < |bars|
    ensures SessionSafe(bars, StepBar(world, bars, s).session)
  {
    hide ProcessBar, Move, Expire, EngineSafe, LegalPath, FirstHaltedAt;
    var bar := bars[s.cursor];
    var p := ProcessBar(world, s.engine, bar);
    if p.error.Some? {
      FailedBarRestores(world, s.engine, bar);
      SafeIgnoresControls(bars, s.cursor, s.engine, p.state);
      var cause := BarProcessingFailed(p.error.value);
      var failed := s.(engine := p.state, failure := Some(cause));
      MoveKeeps(world, failed, Failed, cause, bar.timestamp);
      MoveSafe(world, bars, failed, Failed, cause, bar.timestamp);
    } else {
      BarSafe(world, bars, s.cursor, s.engine);
      var advanced := s.(engine := p.state, cursor := s.cursor + 1);
      if advanced.engine.halt.active {
        ExpireAndMoveSafe(world, bars, advanced, SessionHalted, RiskCircuitBreaker, bar.timestamp);
      } else if advanced.cursor == |bars| {
        ExpireAndMoveSafe(world, bars, advanced, Completed, AllBarsProcessed, bar.timestamp);
      }
    }
  }

  lemma ApplySafe(world: World, bars: seq<Bar>, s: Session, command: Command)
    requires bars != [] && SessionLegal(bars, s) && SessionSafe(bars, s)
    ensures SessionSafe(bars, Apply(world, bars, s, command).session)
  {
    hide EngineSafe, LegalPath, Move, StepBar, Expire, ActivateKillSwitch, FirstHaltedAt;
    if s.status in ACTIVE {
      var timestamp := TransitionTimestamp(bars, s);
      match command {
        case Start => if s.status == Validated { MoveSafe(world, bars, s, Running, SessionStarted, timestamp); }
        case Pause => if s.status == Running { MoveSafe(world, bars, s, Paused, ManualPause, timestamp); }
        case Resume => if s.status == Paused { MoveSafe(world, bars, s, Running, ManualResume, timestamp); }
        case Stop => ExpireAndMoveSafe(world, bars, s, Stopped, ManualStop, timestamp);
        case Kill => KillSafe(world, bars, s, timestamp);
        case Step =>
          if s.status == Running {
            StepSafe(world, bars, s);
          } else {
            StepNeedsRunning(world, bars, s);
          }
        case FailRuntime =>
          ExpireAndMoveSafe(world, bars, s.(failure := Some(RuntimeFailed)), Failed, RuntimeFailed, timestamp);
      }
    } else {
      StepNeedsRunning(world, bars, s);
    }
  }

  /** Every sequence of public calls, from a freshly opened session, keeps the session safe. */
  lemma {:induction false} LifecycleSafe(
    world: World, setup: Setup, warnings: seq<Warning>, commands: seq<Command>)
    requires setup.validatedBars != [] && ValidConfig(setup.cfg)
    ensures Open(world, setup, warnings).session.cursor <= |setup.validatedBars|
    ensures SessionSafe(setup.validatedBars,
      ApplyAll(world, setup.validatedBars, Open(world, setup, warnings).session, commands))
    decreases |commands|
  {
    OpenLegal(world, setup, warnings);
    OpenSafe(world, setup, warnings);
    hide LegalPath, Open, Apply, EngineSafe;
    var bars := setup.validatedBars;
    var s := Open(world, setup, warnings).session;
    if commands != [] {
      var front := commands[..|commands| - 1];
      LifecycleSafe(world, setup, warnings, front);
      LifecycleLegal(world, setup, warnings, front);
      hide SessionLegal, SessionSafe;
      ApplySafe(world, bars, ApplyAll(world, bars, s, front), commands[|commands| - 1]);
    }
  }
}
