/**
Every session of public calls stays within the legal lifecycle, and what a replay
has recorded is at all times what the batch run records over the same bars.
*/
module ReplayTheorems {
  import opened Domain
  import opened EngineSpec
  import opened Options
  import opened ReplayLifecycle
  import opened ReplaySafety
  import opened ReplaySpec
  import opened RunRecords
  import Causality

  // ---------- the session against the batch run ----------

  /** The batch run over the bars this session has processed. */
  function BatchSoFar(world: World, setup: Setup, warnings: seq<Warning>, cursor: nat): Outcome
    requires cursor <= |setup.validatedBars|
  {
    Run(world, Initial(setup, warnings), setup.validatedBars[..cursor])
  }

  /** What the session has recorded is what the batch run records over the same bars, if that gets so far. */
  ghost predicate RecordsBatch(world: World, setup: Setup, warnings: seq<Warning>, s: Session)
    requires s.cursor <= |setup.validatedBars|
  {
    var soFar := BatchSoFar(world, setup, warnings, s.cursor);
    && (soFar.Ok? ==> SameRecord(s.engine, soFar.state))
    && (Causality.TampersByHistory(world, setup.strategy) ==> soFar.Ok?)
  }

  /** And it would go on trading like the batch run. */
  ghost predicate TradesLikeBatch(world: World, setup: Setup, warnings: seq<Warning>, s: Session)
    requires s.cursor <= |setup.validatedBars|
  {
    var soFar := BatchSoFar(world, setup, warnings, s.cursor);
    soFar.Ok? ==> Causality.Essence(s.engine) == Causality.Essence(soFar.state)
  }

  /** A session that failed on a bar failed as the batch run does, if tampering is decided by the history. */
  ghost predicate CauseBorneOut(
    world: World, setup: Setup, warnings: seq<Warning>, cursor: nat, cause: Option<Cause>)
    requires cursor <= |setup.validatedBars|
  {
    cause.Some? && cause.value.BarProcessingFailed? && Causality.TampersByHistory(world, setup.strategy) ==>
      && cursor < |setup.validatedBars|
      && BatchSoFar(world, setup, warnings, cursor + 1) == Fail(cause.value.error)
  }

  /** The session has recorded what the batch run records over the same bars, and ended like it. */
  ghost predicate Tracks(world: World, setup: Setup, warnings: seq<Warning>, s: Session) {
    && s.cursor <= |setup.validatedBars|
    && s.engine.setup == setup
    && RecordsBatch(world, setup, warnings, s)
    && (s.status in ACTIVE ==> TradesLikeBatch(world, setup, warnings, s))
    && CauseBorneOut(world, setup, warnings, s.cursor, LastCause(s))
  }

  /** The error of the bar that ended a session, if one did. */
  function FailedWith(s: Session): Option<StepError> {
    match LastCause(s)
    case Some(BarProcessingFailed(error)) => Some(error)
    case _ => None
  }

  /** A legal session that tracks the batch run. */
  ghost predicate SessionSound(world: World, setup: Setup, warnings: seq<Warning>, s: Session) {
    SessionLegal(setup.validatedBars, s) && Tracks(world, setup, warnings, s)
  }

  // ---------- every call keeps track ----------

  lemma OpenSound(world: World, setup: Setup, warnings: seq<Warning>)
    requires setup.validatedBars != []
    ensures Open(world, setup, warnings).error == None
    ensures SessionSound(world, setup, warnings, Open(world, setup, warnings).session)
    ensures Open(world, setup, warnings).session.status == Validated
  {
    OpenLegal(world, setup, warnings);
    hide SessionLegal;
    var start := Initial(setup, warnings);
    var timestamp := setup.validatedBars[0].timestamp;
    Causality.DeliverKeeps(world, start, Event(Lifecycle, timestamp));
    var created := Session(Created, 0, [], None, Deliver(world, start, Event(Lifecycle, timestamp)));
    hide Deliver;
    Causality.DeliverKeeps(world, created.engine, Event(Lifecycle, timestamp));
    assert setup.validatedBars[..0] == [];
  }

  /** The engine's warnings do not matter. */
  lemma WarningsDoNotMatter(
    world: World, setup: Setup, warnings: seq<Warning>, s: Session, t: Session, more: seq<Warning>)
    requires s.cursor == t.cursor <= |setup.validatedBars| && t.engine == s.engine.(warnings := more)
    ensures RecordsBatch(world, setup, warnings, s) ==> RecordsBatch(world, setup, warnings, t)
    ensures TradesLikeBatch(world, setup, warnings, s) ==> TradesLikeBatch(world, setup, warnings, t)
  {
    hide BatchSoFar;
  }

  /** A move whose cause is borne out by the batch run. */
  lemma MoveTracks(
    world: World, setup: Setup, warnings: seq<Warning>, s: Session, target: Status, cause: Cause, timestamp: int)
    requires target in LegalTargets(s.status)
    requires s.cursor <= |setup.validatedBars| && s.engine.setup == setup
    requires RecordsBatch(world, setup, warnings, s)
    requires target in ACTIVE ==> TradesLikeBatch(world, setup, warnings, s)
    requires CauseBorneOut(world, setup, warnings, s.cursor, Some(cause))
    ensures Tracks(world, setup, warnings, Move(world, s, target, cause, timestamp).session)
  {
    MoveKeeps(world, s, target, cause, timestamp);
    hide Move, LegalPath, RecordsBatch, TradesLikeBatch, CauseBorneOut;
    var moved := Move(world, s, target, cause, timestamp).session;
    WarningsDoNotMatter(world, setup, warnings, s, moved, moved.engine.warnings);
  }

  /** Cancelling the pending target first changes nothing that is recorded. */
  lemma ExpireAndMoveTracks(
    world: World, setup: Setup, warnings: seq<Warning>, s: Session, target: Status, cause: Cause, timestamp: int)
    requires target in LegalTargets(s.status) && target !in ACTIVE
    requires s.cursor <= |setup.validatedBars| && s.engine.setup == setup
    requires RecordsBatch(world, setup, warnings, s)
    requires CauseBorneOut(world, setup, warnings, s.cursor, Some(cause))
    ensures Tracks(world, setup, warnings, Move(world, Expire(world, s, timestamp), target, cause, timestamp).session)
  {
    Causality.ExpireKeeps(world, s.engine, timestamp);
    hide Move, BatchSoFar, Tracks, ExpirePending, CauseBorneOut;
    MoveTracks(world, setup, warnings, Expire(world, s, timestamp), target, cause, timestamp);
  }

  lemma KillTracks(world: World, setup: Setup, warnings: seq<Warning>, s: Session, timestamp: int)
    requires Tracks(world, setup, warnings, s) && s.status in ACTIVE
    ensures Tracks(world, setup, warnings,
      Move(world, s.(engine := ActivateKillSwitch(world, s.engine, timestamp)), SessionHalted,
           ManualKillSwitch, timestamp).session)
  {
    Causality.KillKeeps(world, s.engine, timestamp);
    hide Move, BatchSoFar, ActivateKillSwitch, LastCause;
    var killed := s.(engine := ActivateKillSwitch(world, s.engine, timestamp));
    MoveTracks(world, setup, warnings, killed, SessionHalted, ManualKillSwitch, timestamp);
  }

  lemma ActiveFacts(world: World, setup: Setup, warnings: seq<Warning>, s: Session)
    requires SessionSound(world, setup, warnings, s) && s.status in ACTIVE
    ensures s.cursor < |setup.validatedBars|
    ensures s.engine.setup == setup && !s.engine.halt.active && !s.engine.failed
    ensures RecordsBatch(world, setup, warnings, s) && TradesLikeBatch(world, setup, warnings, s)
  {
    hide LegalPath, RecordsBatch, TradesLikeBatch, CauseBorneOut, LastCause;
  }

  /** Other causes need nothing of the batch run. */
  lemma OtherCauses(world: World, setup: Setup, warnings: seq<Warning>, cursor: nat, cause: Cause)
    requires cursor <= |setup.validatedBars| && !cause.BarProcessingFailed?
    ensures CauseBorneOut(world, setup, warnings, cursor, Some(cause))
  {
  }

  /** One more bar of the session is one more bar of the batch run, whenever both go through. */
  lemma BarMatches(world: World, setup: Setup, warnings: seq<Warning>, engine: State, cursor: nat)
    requires cursor < |setup.validatedBars| && engine.setup == setup && !engine.failed
    requires BatchSoFar(world, setup, warnings, cursor).Ok?
    requires Causality.Essence(engine) == Causality.Essence(BatchSoFar(world, setup, warnings, cursor).state)
    ensures var p := ProcessBar(world, engine, setup.validatedBars[cursor]);
      var batch := BatchSoFar(world, setup, warnings, cursor + 1);
      && (p.error == None && batch.Ok? ==> Causality.Essence(p.state) == Causality.Essence(batch.state))
      && (Causality.TampersByHistory(world, setup.strategy) ==>
            if p.error == None then batch.Ok? else batch == Fail(p.error.value))
  {
    hide Causality.Essence, ProcessBar, Run, Initial, Causality.TampersByHistory;
    var start, bars := Initial(setup, warnings), setup.validatedBars;
    InitialSetup(setup, warnings);
    Causality.RunOneMore(world, start, bars, cursor);
    Causality.RunSetup(world, start, bars[..cursor]);
    var b, bar := BatchSoFar(world, setup, warnings, cursor).state, bars[cursor];
    Causality.ProcessBarEssence(world, engine, b, bar);
  }

  lemma InitialSetup(setup: Setup, warnings: seq<Warning>)
    ensures Initial(setup, warnings).setup == setup && !Initial(setup, warnings).failed
  {
  }

  /** The batch run has got as far as any longer one. */
  lemma BatchShorter(world: World, setup: Setup, warnings: seq<Warning>, cursor: nat)
    requires cursor < |setup.validatedBars|
    ensures BatchSoFar(world, setup, warnings, cursor + 1).Ok? ==> BatchSoFar(world, setup, warnings, cursor).Ok?
  {
    hide Run, Initial, ProcessBar;
    Causality.RunOneMore(world, Initial(setup, warnings), setup.validatedBars, cursor);
  }

  /** A bar both runs go through keeps the session trading like the batch run. */
  lemma AdvancedMatches(world: World, setup: Setup, warnings: seq<Warning>, s: Session)
    requires s.cursor < |setup.validatedBars| && s.engine.setup == setup && !s.engine.failed
    requires RecordsBatch(world, setup, warnings, s) && TradesLikeBatch(world, setup, warnings, s)
    requires ProcessBar(world, s.engine, setup.validatedBars[s.cursor]).error == None
    ensures var advanced := s.(engine := ProcessBar(world, s.engine, setup.validatedBars[s.cursor]).state,
                               cursor := s.cursor + 1);
      RecordsBatch(world, setup, warnings, advanced) && TradesLikeBatch(world, setup, warnings, advanced)
  {
    hide ProcessBar, BatchSoFar, Causality.Essence, Causality.TampersByHistory, SameRecord;
    BatchShorter(world, setup, warnings, s.cursor);
    if BatchSoFar(world, setup, warnings, s.cursor).Ok? {
      BarMatches(world, setup, warnings, s.engine, s.cursor);
      var p := ProcessBar(world, s.engine, setup.validatedBars[s.cursor]);
      var batch := BatchSoFar(world, setup, warnings, s.cursor + 1);
      if batch.Ok? {
        EssenceGivesRecord(p.state, batch.state);
      }
    }
  }

  /** A bar on which the session fails fails the batch run too, unless the strategy tampers by other means. */
  lemma FailureMatches(world: World, setup: Setup, warnings: seq<Warning>, s: Session)
    requires s.cursor < |setup.validatedBars| && s.engine.setup == setup && !s.engine.failed
    requires RecordsBatch(world, setup, warnings, s) && TradesLikeBatch(world, setup, warnings, s)
    requires ProcessBar(world, s.engine, setup.validatedBars[s.cursor]).error.Some?
    ensures var p := ProcessBar(world, s.engine, setup.validatedBars[s.cursor]);
      CauseBorneOut(world, setup, warnings, s.cursor, Some(BarProcessingFailed(p.error.value)))
  {
    hide ProcessBar, BatchSoFar, Causality.Essence, Causality.TampersByHistory, SameRecord;
    if BatchSoFar(world, setup, warnings, s.cursor).Ok? {
      BarMatches(world, setup, warnings, s.engine, s.cursor);
    }
  }

  lemma AfterBarTracks(world: World, setup: Setup, warnings: seq<Warning>, s: Session, timestamp: int)
    requires s.status == Running && 0 < s.cursor <= |setup.validatedBars| && s.engine.setup == setup
    requires RecordsBatch(world, setup, warnings, s) && TradesLikeBatch(world, setup, warnings, s)
    requires CauseBorneOut(world, setup, warnings, s.cursor, LastCause(s))
    requires timestamp == setup.validatedBars[s.cursor - 1].timestamp
    ensures Tracks(world, setup, warnings, AfterBar(world, setup.validatedBars, s, timestamp).session)
  {
    hide RecordsBatch, TradesLikeBatch, CauseBorneOut, Move, Expire, LastCause;
    if s.engine.halt.active {
      OtherCauses(world, setup, warnings, s.cursor, RiskCircuitBreaker);
      ExpireAndMoveTracks(world, setup, warnings, s, SessionHalted, RiskCircuitBreaker, timestamp);
    } else if s.cursor == |setup.validatedBars| {
      OtherCauses(world, setup, warnings, s.cursor, AllBarsProcessed);
      ExpireAndMoveTracks(world, setup, warnings, s, Completed, AllBarsProcessed, timestamp);
    }
  }

  lemma StepTracks(world: World, setup: Setup, warnings: seq<Warning>, s: Session)
    requires SessionSound(world, setup, warnings, s) && s.status == Running
    ensures s.cursor < |setup.validatedBars|
    ensures Tracks(world, setup, warnings, StepBar(world, setup.validatedBars, s).session)
  {
    hide ProcessBar, SessionSound, RecordsBatch, TradesLikeBatch, CauseBorneOut, AfterBar, Move, Tracks, LastCause;
    ActiveFacts(world, setup, warnings, s);
    ActiveCauses(world, setup, warnings, s);
    var bar := setup.validatedBars[s.cursor];
    var p := ProcessBar(world, s.engine, bar);
    Causality.ProcessBarSetup(world, s.engine, bar);
    if p.error.Some? {
      var cause := BarProcessingFailed(p.error.value);
      FailedBarRestores(world, s.engine, bar);
      var failed := s.(engine := p.state, failure := Some(cause));
      FailedKeepsRecord(world, setup, warnings, s, failed);
      FailureMatches(world, setup, warnings, s);
      MoveKeeps(world, failed, Failed, cause, bar.timestamp);
      MoveTracks(world, setup, warnings, failed, Failed, cause, bar.timestamp);
    } else {
      var advanced := s.(engine := p.state, cursor := s.cursor + 1);
      CauseReadsTransitions(world, setup, warnings, s, advanced);
      AdvancedMatches(world, setup, warnings, s);
      AfterBarTracks(world, setup, warnings, advanced, bar.timestamp);
    }
  }

  lemma FailedKeepsRecord(world: World, setup: Setup, warnings: seq<Warning>, s: Session, failed: Session)
    requires s.cursor <= |setup.validatedBars| && RecordsBatch(world, setup, warnings, s)
    requires failed.cursor == s.cursor && failed.engine == s.engine.(failed := true)
    ensures RecordsBatch(world, setup, warnings, failed)
  {
    hide BatchSoFar;
  }

  lemma CauseReadsTransitions(world: World, setup: Setup, warnings: seq<Warning>, s: Session, t: Session)
    requires s.cursor <= t.cursor <= |setup.validatedBars| && t.transitions == s.transitions
    requires !EndsSession(LastCause(s))
    ensures CauseBorneOut(world, setup, warnings, t.cursor, LastCause(t))
  {
  }

  /** The causes that end a session do not lead to an active status. */
  lemma ActiveCauses(world: World, setup: Setup, warnings: seq<Warning>, s: Session)
    requires SessionSound(world, setup, warnings, s) && s.status in ACTIVE
    ensures !EndsSession(LastCause(s))
  {
    hide Tracks;
  }

  lemma ApplyTracks(world: World, setup: Setup, warnings: seq<Warning>, s: Session, command: Command)
    requires setup.validatedBars != [] && SessionSound(world, setup, warnings, s)
    ensures s.cursor <= |setup.validatedBars|
    ensures Tracks(world, setup, warnings, Apply(world, setup.validatedBars, s, command).session)
  {
    var bars := setup.validatedBars;
    SoundParts(world, setup, warnings, s);
    hide SessionSound, Tracks, SessionLegal, RecordsBatch, TradesLikeBatch, CauseBorneOut, Move, StepBar, Expire,
      ActivateKillSwitch, LastCause;
    if s.status in ACTIVE {
      ActiveFacts(world, setup, warnings, s);
      var timestamp := TransitionTimestamp(bars, s);
      forall cause: Cause | !cause.BarProcessingFailed?
        ensures CauseBorneOut(world, setup, warnings, s.cursor, Some(cause))
      {
        OtherCauses(world, setup, warnings, s.cursor, cause);
      }
      match command {
        case Start =>
          if s.status == Validated {
            MoveTracks(world, setup, warnings, s, Running, SessionStarted, timestamp);
          }
        case Pause =>
          if s.status == Running {
            MoveTracks(world, setup, warnings, s, Paused, ManualPause, timestamp);
          }
        case Resume =>
          if s.status == Paused {
            MoveTracks(world, setup, warnings, s, Running, ManualResume, timestamp);
          }
        case Stop => ExpireAndMoveTracks(world, setup, warnings, s, Stopped, ManualStop, timestamp);
        case Kill => KillTracks(world, setup, warnings, s, timestamp);
        case Step =>
          if s.status == Running {
            StepTracks(world, setup, warnings, s);
          } else {
            StepNeedsRunning(world, bars, s);
          }
        case FailRuntime =>
          var failing := s.(failure := Some(RuntimeFailed));
          WarningsDoNotMatter(world, setup, warnings, s, failing, s.engine.warnings);
          ExpireAndMoveTracks(world, setup, warnings, failing, Failed, RuntimeFailed, timestamp);
      }
    } else {
      StepNeedsRunning(world, bars, s);
    }
  }

  lemma SoundParts(world: World, setup: Setup, warnings: seq<Warning>, s: Session)
    requires SessionSound(world, setup, warnings, s)
    ensures SessionLegal(setup.validatedBars, s) && Tracks(world, setup, warnings, s)
    ensures s.cursor <= |setup.validatedBars| && s.status != Created
  {
    hide Tracks, LegalPath;
  }

  /** Any public call keeps the session legal and on the track of the batch run. */
  lemma ApplySound(world: World, setup: Setup, warnings: seq<Warning>, s: Session, command: Command)
    requires setup.validatedBars != [] && SessionSound(world, setup, warnings, s)
    ensures s.cursor <= |setup.validatedBars|
    ensures SessionSound(world, setup, warnings, Apply(world, setup.validatedBars, s, command).session)
  {
    SoundParts(world, setup, warnings, s);
    ApplyTracks(world, setup, warnings, s, command);
    hide Tracks, SessionLegal, Apply;
    ApplyLegal(world, setup.validatedBars, s, command);
  }

  /** Every sequence of public calls, from a freshly opened session, keeps the invariant. */
  lemma {:induction false} LifecycleSound(
    world: World, setup: Setup, warnings: seq<Warning>, commands: seq<Command>)
    requires setup.validatedBars != []
    ensures Open(world, setup, warnings).session.cursor <= |setup.validatedBars|
    ensures SessionSound(world, setup, warnings,
      ApplyAll(world, setup.validatedBars, Open(world, setup, warnings).session, commands))
    decreases |commands|
  {
    hide SessionSound, Open, Apply;
    OpenSound(world, setup, warnings);
    var s := Open(world, setup, warnings).session;
    SoundParts(world, setup, warnings, s);
    if commands != [] {
      var front := commands[..|commands| - 1];
      LifecycleSound(world, setup, warnings, front);
      ApplySound(world, setup, warnings, ApplyAll(world, setup.validatedBars, s, front), commands[|commands| - 1]);
    }
  }

  // ---------- the refinement ----------

  /**
  Under any schedule of public calls a replay has recorded what the batch run records over
  the bars processed so far. If the batch run succeeds, the replay's journals are prefixes
  of its journals; a completed replay has all of them, and its book and marks, and a risk-halted
  one ends at their first halted point. And where tampering with the engine is decided by the
  history a strategy is given, no replay outlasts the batch run, and one fails on a bar as the
  batch run does.
  */
  lemma ReplayRefinesBatch(world: World, setup: Setup, warnings: seq<Warning>, commands: seq<Command>)
    requires ValidConfig(setup.cfg) && setup.validatedBars != []
    ensures Open(world, setup, warnings).session.cursor <= |setup.validatedBars|
    ensures var s := ApplyAll(world, setup.validatedBars, Open(world, setup, warnings).session, commands);
      var soFar, batch := BatchSoFar(world, setup, warnings, s.cursor), Batch(world, setup, warnings);
      && (soFar.Ok? ==> SameRecord(s.engine, soFar.state))
      && (batch.Ok? ==> soFar.Ok? && JournalPrefix(s.engine.journal, batch.state.journal))
      && (batch.Ok? && s.status == Completed ==> SameRecord(s.engine, batch.state))
      && (batch.Ok? && LastCause(s) == Some(RiskCircuitBreaker) ==>
            FirstHaltedAt(batch.state.journal.curve, s.cursor - 1))
      && (Causality.TampersByHistory(world, setup.strategy) ==>
            && soFar.Ok?
            && (s.status == Completed ==> batch.Ok?)
            && (FailedWith(s).Some? ==> batch == Fail(FailedWith(s).value)))
  {
    hide Open, ApplyAll, Run, JournalPrefix, SessionSound, SameRecord, LastCause, BatchSoFar, SessionLegal,
      Causality.TampersByHistory, Initial;
    LifecycleSound(world, setup, warnings, commands);
    var bars := setup.validatedBars;
    var s := ApplyAll(world, bars, Open(world, setup, warnings).session, commands);
    SoundParts(world, setup, warnings, s);
    CompletedAtEnd(bars, s);
    ToTheEnd(world, setup, warnings, s.cursor);
    if BatchSoFar(world, setup, warnings, s.cursor).Ok? {
      RecordJournal(s.engine, BatchSoFar(world, setup, warnings, s.cursor).state);
    }
    if Batch(world, setup, warnings).Ok? && LastCause(s) == Some(RiskCircuitBreaker) {
      LifecycleSafe(world, setup, warnings, commands);
      FirstHaltInPrefix(s.engine.journal, Batch(world, setup, warnings).state.journal, s.cursor - 1);
    }
  }

  lemma CompletedAtEnd(bars: seq<Bar>, s: Session)
    requires SessionLegal(bars, s)
    ensures s.status == Completed ==> s.cursor == |bars|
  {
  }

  /** How the whole batch run goes on from what it has recorded so far. */
  lemma ToTheEnd(world: World, setup: Setup, warnings: seq<Warning>, cursor: nat)
    requires cursor <= |setup.validatedBars|
    ensures var soFar, batch := BatchSoFar(world, setup, warnings, cursor), Batch(world, setup, warnings);
      && (batch.Ok? ==> soFar.Ok? && JournalPrefix(soFar.state.journal, batch.state.journal))
      && (cursor == |setup.validatedBars| ==> batch == soFar)
      && (soFar.Fail? ==> batch == soFar)
    ensures cursor < |setup.validatedBars| ==>
      var next := BatchSoFar(world, setup, warnings, cursor + 1);
      next.Fail? ==> Batch(world, setup, warnings) == next
  {
    hide Run, JournalPrefix, Initial;
    var bars := setup.validatedBars;
    RunGrows(world, Initial(setup, warnings), bars, cursor);
    assert bars[..|bars|] == bars;
    if BatchSoFar(world, setup, warnings, cursor).Fail? {
      Causality.RunFailsWithPrefix(world, Initial(setup, warnings), bars, cursor);
    }
    if cursor < |bars| && BatchSoFar(world, setup, warnings, cursor + 1).Fail? {
      Causality.RunFailsWithPrefix(world, Initial(setup, warnings), bars, cursor + 1);
    }
  }

  lemma RecordJournal(s: State, t: State)
    requires SameRecord(s, t)
    ensures s.journal == t.journal
  {
  }

  lemma FirstHaltInPrefix(front: Journal, whole: Journal, index: int)
    requires JournalPrefix(front, whole) && FirstHaltedAt(front.curve, index)
    ensures FirstHaltedAt(whole.curve, index)
  {
    assert forall i :: 0 <= i < |front.curve| ==> whole.curve[i] == front.curve[i];
  }
}
