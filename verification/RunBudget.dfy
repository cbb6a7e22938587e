/**
The execution budget of the LEAN runs: a lock file, a persisted counter, and any
number of operators whose steps interleave and who may crash between any two of
them.
*/
module RunBudget {
  import opened Options

  const PRIOR_CUMULATIVE_EXECUTIONS: int := 5
  const MAX_BATCH_EXECUTIONS: int := 2
  const MAX_EXECUTIONS: int := PRIOR_CUMULATIVE_EXECUTIONS + MAX_BATCH_EXECUTIONS

  datatype RuntimeState = RuntimeState(executions: int, pulls: int)

  /** What the loader accepts; anything else is refused and never repaired. */
  predicate Loadable(state: RuntimeState) {
    0 <= state.executions <= MAX_EXECUTIONS && 0 <= state.pulls <= 1
  }

  /** Counts one execution, or refuses: a history without five runs and one pull, or a spent budget. */
  function IncrementExecution(state: RuntimeState): Option<RuntimeState> {
    if state.executions < PRIOR_CUMULATIVE_EXECUTIONS || state.pulls != 1 then None
    else if state.executions >= MAX_EXECUTIONS then None
    else Some(RuntimeState(state.executions + 1, state.pulls))
  }

  // ---------- the shared system ----------

  /** Where an operator stands in its run; a crashed operator never moves again. */
  datatype Phase =
    | Outside
    | Holding
    | Loaded(state: RuntimeState)
    | Counted(next: RuntimeState)
    | Persisted(run: int)
    | Launched(run: int)
    | CrashedOutside
    | CrashedInside

  predicate InsideLock(p: Phase) {
    p.Holding? || p.Loaded? || p.Counted? || p.Persisted? || p.Launched? || p.CrashedInside?
  }

  datatype Reservation = Reservation(operator: int, run: int)

  datatype System = System(
    lockFile: bool,
    stored: RuntimeState,
    phases: map<int, Phase>,
    reservations: seq<Reservation>,
    launches: seq<Reservation>)

  datatype Action =
    | Acquire
    | Load
    | Count
    | Persist
    | Launch
    | Leave
    | Raise
    | Crash

  function PhaseOf(s: System, operator: int): Phase {
    if operator in s.phases then s.phases[operator] else Outside
  }

  function At(s: System, operator: int, phase: Phase): System {
    s.(phases := s.phases[operator := phase])
  }

  /** Leaving the locked block, normally or by an exception, unlinks the lock file. */
  function Unlock(s: System, operator: int): System {
    At(s, operator, Outside).(lockFile := false)
  }

  /** One atomic step of one operator; a step that is not enabled changes nothing. */
  function Perform(s: System, operator: int, action: Action): System {
    var phase := PhaseOf(s, operator);
    match action
    case Acquire =>
      if phase.Outside? && !s.lockFile then At(s, operator, Holding).(lockFile := true) else s
    case Load =>
      if phase.Holding? then
        if Loadable(s.stored) && s.stored.pulls == 1 then At(s, operator, Loaded(s.stored)) else Unlock(s, operator)
      else s
    case Count =>
      if phase.Loaded? then
        match IncrementExecution(phase.state)
        case None => Unlock(s, operator)
        case Some(next) => At(s, operator, Counted(next))
      else s
    case Persist =>
      if phase.Counted? then
        if phase.next.executions > MAX_EXECUTIONS || phase.next.pulls > 1 then Unlock(s, operator)
        else
          At(s, operator, Persisted(phase.next.executions)).(
            stored := phase.next,
            reservations := s.reservations + [Reservation(operator, phase.next.executions)])
      else s
    case Launch =>
      if phase.Persisted? then
        At(s, operator, Launched(phase.run)).(launches := s.launches + [Reservation(operator, phase.run)])
      else s
    case Leave =>
      if phase.Launched? then Unlock(s, operator) else s
    case Raise =>
      if InsideLock(phase) && !phase.CrashedInside? then Unlock(s, operator) else s
    case Crash =>
      if phase.CrashedInside? || phase.CrashedOutside? then s
      else At(s, operator, if InsideLock(phase) then CrashedInside else CrashedOutside)
  }

  datatype Scheduled = Scheduled(operator: int, action: Action)

  /** The system after any interleaving of any operators' steps. */
  function Execute(s: System, schedule: seq<Scheduled>): System {
    if schedule == [] then s
    else
      var last := schedule[|schedule| - 1];
      Perform(Execute(s, schedule[..|schedule| - 1]), last.operator, last.action)
  }

  function Start(stored: RuntimeState): System { System(false, stored, map[], [], []) }

  // ---------- the invariant ----------

  /** How many executions a starting state still allows. */
  function Remaining(start: RuntimeState): int {
    if start.executions < PRIOR_CUMULATIVE_EXECUTIONS || start.executions >= MAX_EXECUTIONS || start.pulls != 1
    then 0 else MAX_EXECUTIONS - start.executions
  }

  /** No two operators are between acquiring and releasing the lock. */
  ghost predicate MutualExclusion(s: System) {
    forall a, b :: InsideLock(PhaseOf(s, a)) && InsideLock(PhaseOf(s, b)) ==> a == b
  }

  ghost predicate PhaseSound(s: System, operator: int) {
    match PhaseOf(s, operator)
    case Loaded(state) => state == s.stored && 0 <= state.executions <= 7 && state.pulls == 1
    case Counted(next) => IncrementExecution(s.stored) == Some(next)
    case Persisted(run) =>
      && s.reservations != []
      && s.reservations[|s.reservations| - 1] == Reservation(operator, run)
      && |s.launches| < |s.reservations|
      && (forall l :: l in s.launches ==> l.run < run)
    case _ => true
  }

  ghost predicate BudgetSound(start: RuntimeState, s: System) {
    && MutualExclusion(s)
    && (forall a :: InsideLock(PhaseOf(s, a)) ==> s.lockFile)
    && (forall a :: PhaseSound(s, a))
    && s.stored == RuntimeState(start.executions + |s.reservations|, start.pulls)
    && (forall i :: 0 <= i < |s.reservations| ==> s.reservations[i].run == start.executions + 1 + i)
    && |s.reservations| <= Remaining(start)
    && |s.launches| <= |s.reservations|
    && (forall l :: l in s.launches ==> l in s.reservations)
    && (forall i, j :: 0 <= i < j < |s.launches| ==> s.launches[i].run < s.launches[j].run)
  }

  lemma StartSound(start: RuntimeState)
    ensures BudgetSound(start, Start(start))
  {
  }

  /** Every step of every operator keeps the invariant. */
  lemma StepSound(start: RuntimeState, s: System, operator: int, action: Action)
    requires BudgetSound(start, s)
    ensures BudgetSound(start, Perform(s, operator, action))
  {
    var t := Perform(s, operator, action);
    assert PhaseSound(s, operator);
    forall a
      ensures PhaseSound(t, a)
    {
      if a == operator {
        OwnPhaseSound(start, s, operator, action);
      } else {
        OtherPhaseSound(start, s, operator, action, a);
      }
    }
    assert forall a :: a != operator ==> PhaseOf(t, a) == PhaseOf(s, a);
  }

  /** Changing the store or the journals takes the lock, so no other phase depends on them. */
  lemma OtherPhaseSound(start: RuntimeState, s: System, operator: int, action: Action, other: int)
    requires BudgetSound(start, s) && other != operator
    ensures PhaseSound(Perform(s, operator, action), other)
  {
    var t := Perform(s, operator, action);
    assert PhaseOf(t, other) == PhaseOf(s, other);
    assert PhaseSound(s, other);
    if InsideLock(PhaseOf(s, other)) {
      assert !InsideLock(PhaseOf(s, operator));
    }
  }

  lemma OwnPhaseSound(start: RuntimeState, s: System, operator: int, action: Action)
    requires BudgetSound(start, s)
    ensures PhaseSound(Perform(s, operator, action), operator)
  {
    assert PhaseSound(s, operator);
    forall l | l in s.launches
      ensures l.run <= s.stored.executions
    {
      var i :| 0 <= i < |s.reservations| && s.reservations[i] == l;
      assert s.reservations[i].run == start.executions + 1 + i;
    }
  }

  lemma {:induction false} ExecutionSound(start: RuntimeState, schedule: seq<Scheduled>)
    ensures BudgetSound(start, Execute(Start(start), schedule))
    decreases |schedule|
  {
    if schedule == [] {
      StartSound(start);
    } else {
      var front, last := schedule[..|schedule| - 1], schedule[|schedule| - 1];
      ExecutionSound(start, front);
      StepSound(start, Execute(Start(start), front), last.operator, last.action);
    }
  }

  // ---------- what the budget guarantees ----------

  /**
  From five recorded executions and one pull, under any interleaving of any number of
  operators that may raise or crash at any step: at most one is inside the locked
  block, the persisted count is five plus the reservations, launches never outnumber
  reservations nor reservations two, and no run number is reserved or launched twice.
  */
  lemma BudgetHolds(schedule: seq<Scheduled>)
    ensures var s := Execute(Start(RuntimeState(5, 1)), schedule);
      && MutualExclusion(s)
      && s.stored == RuntimeState(5 + |s.reservations|, 1)
      && |s.launches| <= |s.reservations| <= MAX_BATCH_EXECUTIONS
      && (forall i, j :: 0 <= i < j < |s.reservations| ==> s.reservations[i].run != s.reservations[j].run)
      && (forall i, j :: 0 <= i < j < |s.launches| ==> s.launches[i].run != s.launches[j].run)
      && (forall l :: l in s.launches ==> l in s.reservations)
  {
    ExecutionSound(RuntimeState(5, 1), schedule);
  }

  /** Without the preserved history, or with a spent budget, nothing is ever reserved or launched. */
  lemma RefusedHistoriesNeverRun(start: RuntimeState, schedule: seq<Scheduled>)
    requires Remaining(start) == 0
    ensures var s := Execute(Start(start), schedule);
      s.stored == start && s.reservations == [] && s.launches == []
  {
    ExecutionSound(start, schedule);
  }

  predicate IsCrashedHolder(p: Phase) { p == CrashedInside }

  /** A crash inside the locked block keeps everybody out for good. */
  lemma CrashBlocksForever(s: System, operator: int, schedule: seq<Scheduled>)
    requires MutualExclusion(s) && s.lockFile && IsCrashedHolder(PhaseOf(s, operator))
    ensures var t := Execute(s, schedule);
      && t.lockFile && t.stored == s.stored
      && t.reservations == s.reservations && t.launches == s.launches
      && IsCrashedHolder(PhaseOf(t, operator))
    decreases |schedule|
  {
    CrashBlocks(s, operator, schedule);
  }

  lemma {:induction false} CrashBlocks(s: System, operator: int, schedule: seq<Scheduled>)
    requires MutualExclusion(s) && s.lockFile && IsCrashedHolder(PhaseOf(s, operator))
    ensures var t := Execute(s, schedule);
      && MutualExclusion(t)
      && t.lockFile && t.stored == s.stored
      && t.reservations == s.reservations && t.launches == s.launches
      && IsCrashedHolder(PhaseOf(t, operator))
    decreases |schedule|
  {
    if schedule != [] {
      var front, last := schedule[..|schedule| - 1], schedule[|schedule| - 1];
      CrashBlocks(s, operator, front);
      var before := Execute(s, front);
      CrashStep(before, operator, last.operator, last.action);
    }
  }

  lemma CrashStep(s: System, holder: int, operator: int, action: Action)
    requires MutualExclusion(s) && s.lockFile && IsCrashedHolder(PhaseOf(s, holder))
    ensures var t := Perform(s, operator, action);
      && MutualExclusion(t)
      && t.lockFile && t.stored == s.stored
      && t.reservations == s.reservations && t.launches == s.launches
      && IsCrashedHolder(PhaseOf(t, holder))
  {
    var t := Perform(s, operator, action);
    assert forall a :: a != operator ==> PhaseOf(t, a) == PhaseOf(s, a);
    if operator != holder {
      assert !InsideLock(PhaseOf(s, operator));
      assert !InsideLock(PhaseOf(t, operator));
    }
  }

  // ---------- when another run is still possible ----------

  /** The lock file exists only while some operator is inside the locked block, if only as a crash. */
  ghost predicate LockIsHeld(s: System) {
    s.lockFile ==> exists a :: InsideLock(PhaseOf(s, a))
  }

  lemma StepKeepsHeld(start: RuntimeState, s: System, operator: int, action: Action)
    requires BudgetSound(start, s) && LockIsHeld(s)
    ensures LockIsHeld(Perform(s, operator, action))
  {
    var t := Perform(s, operator, action);
    if t.lockFile && !InsideLock(PhaseOf(t, operator)) {
      assert s.lockFile;
      var a :| InsideLock(PhaseOf(s, a));
      assert PhaseOf(t, a) == PhaseOf(s, a);
    }
  }

  lemma {:induction false} ExecutionKeepsHeld(start: RuntimeState, schedule: seq<Scheduled>)
    ensures LockIsHeld(Execute(Start(start), schedule))
    decreases |schedule|
  {
    if schedule != [] {
      var front, last := schedule[..|schedule| - 1], schedule[|schedule| - 1];
      ExecutionKeepsHeld(start, front);
      ExecutionSound(start, front);
      StepKeepsHeld(start, Execute(Start(start), front), last.operator, last.action);
    }
  }

  lemma {:induction false} SchedulesCompose(s: System, first: seq<Scheduled>, second: seq<Scheduled>)
    ensures Execute(s, first + second) == Execute(Execute(s, first), second)
    decreases |second|
  {
    if second == [] {
      assert first + second == first;
    } else {
      var front, last := second[..|second| - 1], second[|second| - 1];
      assert (first + second)[..|first + second| - 1] == first + front;
      SchedulesCompose(s, first, front);
    }
  }

  /** There is always an operator who has not acted yet. */
  lemma {:induction false} FreshAbove(taken: set<int>, low: int) returns (operator: int)
    ensures operator >= low && operator !in taken
    decreases taken
  {
    if low !in taken {
      operator := low;
    } else {
      operator := FreshAbove(taken - {low}, low + 1);
    }
  }

  /** The steps of one operator's run up to the point where it has been counted. */
  function RunSteps(operator: int): seq<Scheduled> {
    [Scheduled(operator, Acquire), Scheduled(operator, Load), Scheduled(operator, Count), Scheduled(operator, Persist)]
  }

  lemma RunIsCounted(s: System, operator: int)
    requires !s.lockFile && operator !in s.phases
    requires Loadable(s.stored) && IncrementExecution(s.stored).Some?
    ensures var t := Execute(s, RunSteps(operator));
      |t.reservations| == |s.reservations| + 1 && t.launches == s.launches && PhaseOf(t, operator).Persisted?
  {
    var steps := RunSteps(operator);
    assert steps[..3] == steps[..3][..2] + [steps[2]] && steps[..3][..2] == steps[..2];
    assert steps[..2][..1] == [steps[0]] && [steps[0]][..0] == [];
    var holding := Perform(s, operator, Acquire);
    assert Execute(s, [steps[0]]) == holding;
    assert Execute(s, steps[..2]) == Perform(holding, operator, Load);
    assert Execute(s, steps[..3]) == Perform(Perform(holding, operator, Load), operator, Count);
  }

  lemma OneMoreStep(s: System, schedule: seq<Scheduled>, operator: int, action: Action)
    ensures Execute(s, schedule + [Scheduled(operator, action)]) == Perform(Execute(s, schedule), operator, action)
  {
    assert (schedule + [Scheduled(operator, action)])[..|schedule|] == schedule;
  }

  /** Nobody has crashed between taking and releasing the lock. */
  ghost predicate NoCrashInside(s: System) {
    forall a :: PhaseOf(s, a) != CrashedInside
  }

  ghost predicate CanReserve(s: System) {
    exists more: seq<Scheduled> :: |Execute(s, more).reservations| > |s.reservations|
  }

  ghost predicate CanLaunch(s: System) {
    exists more: seq<Scheduled> :: |Execute(s, more).launches| > |s.launches|
  }

  /** Whoever holds the lock without having crashed can still leave by an exception. */
  lemma LockCanBeFreed(start: RuntimeState, s: System) returns (steps: seq<Scheduled>)
    requires BudgetSound(start, s) && LockIsHeld(s) && NoCrashInside(s)
    ensures var t := Execute(s, steps);
      && !t.lockFile && t.stored == s.stored && t.reservations == s.reservations && t.launches == s.launches
  {
    steps := [];
    if s.lockFile {
      var holder :| InsideLock(PhaseOf(s, holder));
      steps := [Scheduled(holder, Raise)];
      OneMoreStep(s, [], holder, Raise);
      assert [] + [Scheduled(holder, Raise)] == steps;
    }
  }

  /** With budget left and no crash inside the lock, one more run can be counted and then launched. */
  lemma RunsAgain(start: RuntimeState, s: System)
    requires BudgetSound(start, s) && LockIsHeld(s) && NoCrashInside(s)
    requires |s.reservations| < Remaining(start)
    ensures CanReserve(s) && CanLaunch(s)
  {
    var freeing := LockCanBeFreed(start, s);
    var free := Execute(s, freeing);
    var operator := FreshAbove(free.phases.Keys, 0);
    RunIsCounted(free, operator);
    SchedulesCompose(s, freeing, RunSteps(operator));
    OneMoreStep(s, freeing + RunSteps(operator), operator, Launch);
  }

  lemma CrashedHolderBlocks(start: RuntimeState, s: System, operator: int)
    requires BudgetSound(start, s) && PhaseOf(s, operator) == CrashedInside
    ensures !CanReserve(s) && !CanLaunch(s)
  {
    forall more: seq<Scheduled>
      ensures Execute(s, more).reservations == s.reservations && Execute(s, more).launches == s.launches
    {
      CrashBlocksForever(s, operator, more);
    }
  }

  /**
  In every reachable state another run can still be counted exactly if the budget is
  not spent and no operator has crashed inside the lock.
  */
  lemma RunsAgainIff(start: RuntimeState, schedule: seq<Scheduled>)
    ensures var s := Execute(Start(start), schedule);
      CanReserve(s) <==> |s.reservations| < Remaining(start) && NoCrashInside(s)
  {
    var s := Execute(Start(start), schedule);
    ExecutionSound(start, schedule);
    ExecutionKeepsHeld(start, schedule);
    if CanReserve(s) {
      var more: seq<Scheduled> :| |Execute(s, more).reservations| > |s.reservations|;
      SchedulesCompose(Start(start), schedule, more);
      ExecutionSound(start, schedule + more);
      if a :| PhaseOf(s, a) == CrashedInside {
        CrashedHolderBlocks(start, s, a);
      }
    } else if |s.reservations| < Remaining(start) && NoCrashInside(s) {
      RunsAgain(start, s);
    }
  }

  ghost predicate LaunchPending(s: System) {
    exists a :: PhaseOf(s, a).Persisted?
  }

  /** Without a counted run under way and without budget, no launch follows. */
  lemma {:induction false} SpentStaysSpent(start: RuntimeState, schedule: seq<Scheduled>, more: seq<Scheduled>)
    requires var s := Execute(Start(start), schedule);
      |s.reservations| == Remaining(start) && !LaunchPending(s)
    ensures var s, t := Execute(Start(start), schedule), Execute(Start(start), schedule + more);
      t.reservations == s.reservations && !LaunchPending(t) && t.launches == s.launches
    decreases |more|
  {
    if more == [] {
      assert schedule + more == schedule;
    } else {
      var front, last := more[..|more| - 1], more[|more| - 1];
      SpentStaysSpent(start, schedule, front);
      assert schedule + more == schedule + front + [last];
      OneMoreStep(Start(start), schedule + front, last.operator, last.action);
      ExecutionSound(start, schedule + front);
      ExecutionSound(start, schedule + more);
      SpentStep(start, Execute(Start(start), schedule + front), last.operator, last.action);
    }
  }

  lemma SpentStep(start: RuntimeState, s: System, operator: int, action: Action)
    requires BudgetSound(start, s) && BudgetSound(start, Perform(s, operator, action))
    requires |s.reservations| == Remaining(start) && !LaunchPending(s)
    ensures var t := Perform(s, operator, action);
      t.reservations == s.reservations && !LaunchPending(t) && t.launches == s.launches
  {
    var t := Perform(s, operator, action);
    assert forall a :: a != operator ==> PhaseOf(t, a) == PhaseOf(s, a);
    assert !PhaseOf(s, operator).Persisted?;
  }

  /** Another launch can follow exactly if one is counted and pending, or another run can be counted. */
  lemma LaunchesAgainIff(start: RuntimeState, schedule: seq<Scheduled>)
    ensures var s := Execute(Start(start), schedule);
      CanLaunch(s) <==> LaunchPending(s) || (|s.reservations| < Remaining(start) && NoCrashInside(s))
  {
    var s := Execute(Start(start), schedule);
    ExecutionSound(start, schedule);
    ExecutionKeepsHeld(start, schedule);
    if a :| PhaseOf(s, a).Persisted? {
      OneMoreStep(s, [], a, Launch);
    } else if a :| PhaseOf(s, a) == CrashedInside {
      CrashedHolderBlocks(start, s, a);
    } else if |s.reservations| < Remaining(start) {
      RunsAgain(start, s);
    } else if CanLaunch(s) {
      var more: seq<Scheduled> :| |Execute(s, more).launches| > |s.launches|;
      SpentStaysSpent(start, schedule, more);
      SchedulesCompose(Start(start), schedule, more);
    }
  }

  /** Two steps from the preserved history reach a state in which no budget is ever used again. */
  lemma CrashIsReachable()
    ensures var s := Execute(Start(RuntimeState(5, 1)), [Scheduled(1, Acquire), Scheduled(1, Crash)]);
      && s.reservations == [] && Remaining(RuntimeState(5, 1)) == 2
      && s.lockFile && PhaseOf(s, 1) == CrashedInside && !CanReserve(s) && !CanLaunch(s)
  {
    var start := RuntimeState(5, 1);
    var steps := [Scheduled(1, Acquire), Scheduled(1, Crash)];
    OneMoreStep(Start(start), [], 1, Acquire);
    OneMoreStep(Start(start), [Scheduled(1, Acquire)], 1, Crash);
    assert [] + [Scheduled(1, Acquire)] == [Scheduled(1, Acquire)];
    assert [Scheduled(1, Acquire)] + [Scheduled(1, Crash)] == steps;
    ExecutionSound(start, steps);
    CrashedHolderBlocks(start, Execute(Start(start), steps), 1);
  }

  /**
  The loader accepts zero to seven executions and at most one pull; one more is counted only of
  five or six, with one pull.
  */
  lemma HistoriesAccepted(state: RuntimeState)
    ensures Loadable(state) <==> 0 <= state.executions <= 7 && (state.pulls == 0 || state.pulls == 1)
    ensures IncrementExecution(state)
      == if (state.executions == 5 || state.executions == 6) && state.pulls == 1
         then Some(RuntimeState(state.executions + 1, 1)) else None
  {
  }
}
