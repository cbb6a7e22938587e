/**
One guarded LEAN run as straight-line code over the lock file and the persisted
counter, tied step by step to the interleaving model.
*/
module RunLean {
  import opened Options
  import opened RunBudget

  /** The two files operators share. */
  class Disk {
    var lockFile: bool
    var stored: RuntimeState

    constructor (lockFile: bool, stored: RuntimeState)
      ensures this.lockFile == lockFile && this.stored == stored
    {
      this.lockFile, this.stored := lockFile, stored;
    }
  }

  /** A lock that only ever removes the lock file it created. */
  class ExclusiveRunLock {
    const disk: Disk
    var held: bool

    constructor (disk: Disk)
      ensures this.disk == disk && !held
    {
      this.disk := disk;
      held := false;
    }

    method Enter() returns (entered: bool)
      modifies this`held, disk`lockFile
      ensures entered == !old(disk.lockFile)
      ensures held == (if entered then true else old(held))
      ensures disk.lockFile
    {
      entered := !disk.lockFile;
      if entered {
        disk.lockFile := true;
        held := true;
      }
    }

    method Exit()
      modifies this`held, disk`lockFile
      ensures !held
      ensures disk.lockFile == (if old(held) then false else old(disk.lockFile))
    {
      if held {
        held := false;
        disk.lockFile := false;
      }
    }
  }

  /** The steps of one undisturbed run; `setupRaises` says whether preparing the launch fails. */
  function Script(setupRaises: bool): seq<Action> {
    [Acquire, Load, Count, Persist] + (if setupRaises then [Action.Raise] else [Launch, Leave])
  }

  /** What the model makes of one operator's steps, taken without interruption. */
  function Alone(s: System, actions: seq<Action>): System
    decreases |actions|
  {
    if actions == [] then s else Alone(Perform(s, 0, actions[0]), actions[1..])
  }

  lemma AloneStep(s: System, actions: seq<Action>)
    requires actions != []
    ensures Alone(s, actions) == Alone(Perform(s, 0, actions[0]), actions[1..])
  {
  }

  /** Steps that are not enabled change nothing. */
  lemma {:induction false} NothingFromOutside(s: System, actions: seq<Action>)
    requires PhaseOf(s, 0) == Outside && Acquire !in actions && Action.Crash !in actions
    ensures Alone(s, actions) == s
    decreases |actions|
  {
    if actions != [] {
      assert actions[0] in actions;
      NothingFromOutside(s, actions[1..]);
    }
  }

  /**
  Locks, loads, counts, persists, then launches, and unlocks whatever happens. The
  result is the run number, if the run got as far as being persisted.
  */
  method Run(disk: Disk, setupRaises: bool) returns (run: Option<int>, launched: bool)
    modifies disk
    ensures var before := System(old(disk.lockFile), old(disk.stored), map[], [], []);
      var after := Alone(before, Script(setupRaises));
      && disk.lockFile == after.lockFile && disk.stored == after.stored
      && (run.None? <==> after.reservations == [])
      && (run.Some? ==> after.reservations == [Reservation(0, run.value)])
      && (launched <==> after.launches != [])
  {
    ghost var s := System(disk.lockFile, disk.stored, map[], [], []);
    ghost var rest := Script(setupRaises);
    var lock := new ExclusiveRunLock(disk);
    var entered := lock.Enter();
    AloneStep(s, rest);
    s, rest := Perform(s, 0, Acquire), rest[1..];
    if !entered {
      NothingFromOutside(s, rest);
      return None, false;
    }
    var state := disk.stored;
    AloneStep(s, rest);
    s, rest := Perform(s, 0, Load), rest[1..];
    if !Loadable(state) || state.pulls != 1 {
      lock.Exit();
      NothingFromOutside(s, rest);
      return None, false;
    }
    var next := IncrementExecution(state);
    AloneStep(s, rest);
    s, rest := Perform(s, 0, Count), rest[1..];
    if next.None? {
      lock.Exit();
      NothingFromOutside(s, rest);
      return None, false;
    }
    disk.stored := next.value;
    AloneStep(s, rest);
    s, rest := Perform(s, 0, Persist), rest[1..];
    AloneStep(s, rest);
    s, rest := Perform(s, 0, rest[0]), rest[1..];
    launched := !setupRaises;
    if launched {
      AloneStep(s, rest);
      s, rest := Perform(s, 0, Leave), rest[1..];
    }
    lock.Exit();
    run := Some(next.value.executions);
  }

  /**
  One undisturbed run, from any files: with the lock free, five or six runs and one pull on
  record it is counted, launched unless preparing it fails, and unlocked; else nothing changes.
  */
  lemma RunOutcome(lockFile: bool, stored: RuntimeState, setupRaises: bool)
    ensures var after := Alone(System(lockFile, stored, map[], [], []), Script(setupRaises));
      var run := Reservation(0, stored.executions + 1);
      if !lockFile && (stored.executions == 5 || stored.executions == 6) && stored.pulls == 1 then
        && !after.lockFile && after.stored == RuntimeState(stored.executions + 1, 1)
        && after.reservations == [run] && after.launches == (if setupRaises then [] else [run])
      else
        after.lockFile == lockFile && after.stored == stored && after.reservations == [] && after.launches == []
  {
    var s := System(lockFile, stored, map[], [], []);
    hide Alone;
    var end := if setupRaises then [Action.Raise] else [Launch, Leave];
    AloneFour(s, Acquire, Load, Count, Persist, end);
    assert Script(setupRaises) == [Acquire] + ([Load] + ([Count] + ([Persist] + end)));
    var persisted := Counted(s);
    CountedExactly(s);
    hide Counted;
    if setupRaises {
      AloneTwo(persisted, Action.Raise, []);
    } else {
      AloneTwo(persisted, Launch, [Leave]);
    }
  }

  /** The first four steps of a run. */
  function Counted(s: System): System {
    Perform(Perform(Perform(Perform(s, 0, Acquire), 0, Load), 0, Count), 0, Persist)
  }

  lemma CountedExactly(s: System)
    requires s.phases == map[] && s.reservations == [] && s.launches == []
    ensures var c := Counted(s);
      if !s.lockFile && (s.stored.executions == 5 || s.stored.executions == 6) && s.stored.pulls == 1 then
        && c.lockFile && c.stored == RuntimeState(s.stored.executions + 1, 1)
        && PhaseOf(c, 0) == Persisted(s.stored.executions + 1)
        && c.reservations == [Reservation(0, s.stored.executions + 1)] && c.launches == []
      else
        && c.lockFile == s.lockFile && c.stored == s.stored && PhaseOf(c, 0) == Outside
        && c.reservations == [] && c.launches == []
  {
  }

  lemma AloneFour(s: System, a: Action, b: Action, c: Action, d: Action, rest: seq<Action>)
    ensures Alone(s, [a] + ([b] + ([c] + ([d] + rest))))
         == Alone(Perform(Perform(Perform(Perform(s, 0, a), 0, b), 0, c), 0, d), rest)
  {
    hide Perform, Alone;
    AloneFirst(s, a, [b] + ([c] + ([d] + rest)));
    AloneFirst(Perform(s, 0, a), b, [c] + ([d] + rest));
    AloneFirst(Perform(Perform(s, 0, a), 0, b), c, [d] + rest);
    AloneFirst(Perform(Perform(Perform(s, 0, a), 0, b), 0, c), d, rest);
  }

  lemma AloneFirst(s: System, a: Action, rest: seq<Action>)
    ensures Alone(s, [a] + rest) == Alone(Perform(s, 0, a), rest)
  {
    hide Perform;
    assert ([a] + rest)[1..] == rest;
  }

  lemma AloneTwo(s: System, a: Action, rest: seq<Action>)
    ensures |rest| == 0 ==> Alone(s, [a] + rest) == Perform(s, 0, a) && Alone(s, [a]) == Perform(s, 0, a)
    ensures |rest| == 1 ==>
      Alone(s, [a] + rest) == Perform(Perform(s, 0, a), 0, rest[0]) && Alone(s, [a, rest[0]]) == Alone(s, [a] + rest)
  {
    hide Perform, Alone;
    AloneFirst(s, a, rest);
    NothingLeft(Perform(s, 0, a));
    if |rest| == 1 {
      AloneFirst(Perform(s, 0, a), rest[0], []);
      NothingLeft(Perform(Perform(s, 0, a), 0, rest[0]));
      assert [rest[0]] + [] == rest && [a, rest[0]] == [a] + rest;
    } else if rest == [] {
      assert [a] + rest == [a];
    }
  }

  lemma NothingLeft(s: System)
    ensures Alone(s, []) == s
  {
  }
}
