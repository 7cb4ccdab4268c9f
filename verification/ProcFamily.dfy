/** A run of ProcModel from userinit on, on one CPU: initproc forks, waits and falls
    asleep, the child runs and exits, and kwait returns the child's pid. */
module ProcFamily {
  import opened Common
  import opened ProcModel

  /** Some run of a machine whose initproc is slot 0 ends in s. */
  ghost predicate Reaches(s: State) {
    exists run: seq<State>, steps: seq<Step> :: Runs(run, 0, steps) && run[|run| - 1] == s
  }

  lemma GoTo(s: State, st: Step, s': State)
    requires Reaches(s) && Enabled(s, 0, st) && Next(s, 0, st) == s'
    ensures Reaches(s')
  {
    hide Enabled, Next, Init;
    var run: seq<State>, steps: seq<Step> :| Runs(run, 0, steps) && run[|run| - 1] == s;
    var run', steps' := run + [s'], steps + [st];
    forall i | 0 <= i < |steps'|
      ensures Enabled(run'[i], 0, steps'[i]) && run'[i + 1] == Next(run'[i], 0, steps'[i])
    {
      if i < |steps| { assert Enabled(run[i], 0, steps[i]); }
    }
    assert Runs(run', 0, steps');
  }

  /** Two slots and one CPU. */
  function Duo(dad: Proc, kid: Proc, mode: Mode, noff: int, held: map<Lock, nat>, reaped: seq<nat>): State {
    State([dad, kid], [Cpu(if mode.Run? || mode.Back? then Some(mode.p) else None, noff, mode)], held,
          if kid.pid == 0 && reaped == [] then 2 else 3, reaped, false)
  }

  function Dad(st: ProcState, pc: Pc): Proc { Proc(st, if pc == Asleep(WaitLock) then Some(0) else None, None, 1, pc) }

  function Kid(st: ProcState, pc: Pc): Proc { Proc(st, None, Some(0), 2, pc) }

  const Nobody: Proc := Proc(UNUSED, None, None, 0, Dead)

  /** initproc is picked by the scheduler and comes out of forkret. */
  lemma Boots()
    ensures Reaches(Duo(Dad(RUNNING, Free), Nobody, Run(0), 0, map[], []))
  {
    var s0 := Duo(Dad(RUNNABLE, ForkRet), Nobody, Idle, 0, map[], []);
    assert Runs([s0], 0, []);
    assert Reaches(s0) by { assert [s0][|[s0]| - 1] == s0; }
    var s1 := Duo(Dad(RUNNABLE, ForkRet), Nobody, Pick(0), 1, map[PL(0) := 0], []);
    GoTo(s0, SchedAcquire(0, 0), s1);
    var s2 := Duo(Dad(RUNNING, ForkRet), Nobody, Run(0), 1, map[PL(0) := 0], []);
    GoTo(s1, SchedTurn(0), s2);
    assert map[PL(0) := 0] - {PL(0)} == map[];
    GoTo(s2, Thread(0, Go), Duo(Dad(RUNNING, Free), Nobody, Run(0), 0, map[], []));
  }

  /** kfork: slot 0 is in use, slot 1 is claimed. */
  lemma Claims()
    ensures Reaches(Duo(Dad(RUNNING, ForkHold(1)), Proc(USED, None, None, 2, ForkRet), Run(0), 1, map[PL(1) := 0], []))
  {
    hide Reaches, NextWait, NextExit, NextSleep;
    Boots();
    var s0 := Duo(Dad(RUNNING, Free), Nobody, Run(0), 0, map[], []);
    var s1 := Duo(Dad(RUNNING, Fork(0)), Nobody, Run(0), 0, map[], []);
    GoTo(s0, Thread(0, CallFork), s1);
    var s2 := Duo(Dad(RUNNING, Fork(1)), Nobody, Run(0), 0, map[], []);
    GoTo(s1, Thread(0, Go), s2);
    GoTo(s2, Thread(0, Go), Duo(Dad(RUNNING, ForkHold(1)), Proc(USED, None, None, 2, ForkRet), Run(0), 1, map[PL(1) := 0], []));
  }

  /** It is unlocked. */
  lemma Unlocks()
    ensures Reaches(Duo(Dad(RUNNING, ForkLink(1)), Proc(USED, None, None, 2, ForkRet), Run(0), 0, map[], []))
  {
    hide Reaches, NextWait, NextExit, NextSleep;
    Claims();
    var baby := Proc(USED, None, None, 2, ForkRet);
    var s0 := Duo(Dad(RUNNING, ForkHold(1)), baby, Run(0), 1, map[PL(1) := 0], []);
    var s1 := Duo(Dad(RUNNING, ForkLink(1)), baby, Run(0), 0, map[], []);
    assert map[PL(1) := 0] - {PL(1)} == map[];
    GoTo(s0, Thread(0, Go), s1);
  }

  /** It is linked and made RUNNABLE. */
  lemma Forks()
    ensures Reaches(Duo(Dad(RUNNING, Free), Kid(RUNNABLE, ForkRet), Run(0), 0, map[], []))
  {
    hide Reaches, NextWait, NextExit, NextSleep;
    Unlocks();
    var s0 := Duo(Dad(RUNNING, ForkLink(1)), Proc(USED, None, None, 2, ForkRet), Run(0), 0, map[], []);
    var s1 := Duo(Dad(RUNNING, ForkReady(1)), Kid(USED, ForkRet), Run(0), 0, map[], []);
    GoTo(s0, Thread(0, Go), s1);
    GoTo(s1, Thread(0, Go), Duo(Dad(RUNNING, Free), Kid(RUNNABLE, ForkRet), Run(0), 0, map[], []));
  }

  /** kwait: slot 0 is no child, slot 1 is one. */
  lemma Looks()
    ensures Reaches(Duo(Dad(RUNNING, WaitAt(1)), Kid(RUNNABLE, ForkRet), Run(0), 2, map[WaitLock := 0, PL(1) := 0], []))
  {
    hide Reaches, NextFork, NextExit, NextSleep;
    Forks();
    var kid := Kid(RUNNABLE, ForkRet);
    var s0 := Duo(Dad(RUNNING, Free), kid, Run(0), 0, map[], []);
    var s1 := Duo(Dad(RUNNING, Wait(0, false)), kid, Run(0), 1, map[WaitLock := 0], []);
    GoTo(s0, Thread(0, CallWait), s1);
    var s2 := Duo(Dad(RUNNING, Wait(1, false)), kid, Run(0), 1, map[WaitLock := 0], []);
    GoTo(s1, Thread(0, Go), s2);
    GoTo(s2, Thread(0, Go), Duo(Dad(RUNNING, WaitAt(1)), kid, Run(0), 2, map[WaitLock := 0, PL(1) := 0], []));
  }

  /** It is no zombie, so the parent goes to sleep. */
  lemma Waits()
    ensures Reaches(Duo(Dad(RUNNING, SleepStart(0, WaitLock)), Kid(RUNNABLE, ForkRet), Run(0), 1, map[WaitLock := 0], []))
  {
    hide Reaches, NextFork, NextExit, NextSleep;
    Looks();
    var kid := Kid(RUNNABLE, ForkRet);
    var s0 := Duo(Dad(RUNNING, WaitAt(1)), kid, Run(0), 2, map[WaitLock := 0, PL(1) := 0], []);
    var s1 := Duo(Dad(RUNNING, Wait(2, true)), kid, Run(0), 1, map[WaitLock := 0], []);
    assert map[WaitLock := 0, PL(1) := 0] - {PL(1)} == map[WaitLock := 0];
    GoTo(s0, Thread(0, Go), s1);
    GoTo(s1, Thread(0, Go), Duo(Dad(RUNNING, SleepStart(0, WaitLock)), kid, Run(0), 1, map[WaitLock := 0], []));
  }

  /** The parent is asleep in kwait, and its child is there to run. */
  lemma ParentSleeps()
    ensures Reaches(Duo(Dad(SLEEPING, Asleep(WaitLock)), Kid(RUNNABLE, ForkRet), Idle, 0, map[], []))
  {
    hide Reaches, NextFork, NextExit, NextWait;
    Waits();
    var kid := Kid(RUNNABLE, ForkRet);
    var s0 := Duo(Dad(RUNNING, SleepStart(0, WaitLock)), kid, Run(0), 1, map[WaitLock := 0], []);
    var s1 := Duo(Dad(RUNNING, SleepDrop(0, WaitLock)), kid, Run(0), 2, map[WaitLock := 0, PL(0) := 0], []);
    GoTo(s0, Thread(0, Go), s1);
    var s2 := Duo(Dad(RUNNING, SleepMark(0, WaitLock)), kid, Run(0), 1, map[PL(0) := 0], []);
    assert map[WaitLock := 0, PL(0) := 0] - {WaitLock} == map[PL(0) := 0];
    GoTo(s1, Thread(0, Go), s2);
    var s3 := Duo(Dad(SLEEPING, Asleep(WaitLock)), kid, Back(0), 1, map[PL(0) := 0], []);
    GoTo(s2, Thread(0, Go), s3);
    assert map[PL(0) := 0] - {PL(0)} == map[];
    GoTo(s3, SchedBack(0), Duo(Dad(SLEEPING, Asleep(WaitLock)), kid, Idle, 0, map[], []));
  }

  /** The scheduler picks the child. */
  lemma ChildPicked()
    ensures Reaches(Duo(Dad(SLEEPING, Asleep(WaitLock)), Kid(RUNNING, ForkRet), Run(1), 1, map[PL(1) := 0], []))
  {
    hide Reaches, NextExit, NextSleep, NextWait;
    ParentSleeps();
    var dad := Dad(SLEEPING, Asleep(WaitLock));
    var s0 := Duo(dad, Kid(RUNNABLE, ForkRet), Idle, 0, map[], []);
    var s1 := Duo(dad, Kid(RUNNABLE, ForkRet), Pick(1), 1, map[PL(1) := 0], []);
    GoTo(s0, SchedAcquire(0, 1), s1);
    GoTo(s1, SchedTurn(0), Duo(dad, Kid(RUNNING, ForkRet), Run(1), 1, map[PL(1) := 0], []));
  }

  /** The child runs and calls kexit. */
  lemma ChildRuns()
    ensures Reaches(Duo(Dad(SLEEPING, Asleep(WaitLock)), Kid(RUNNING, Exit(0)), Run(1), 1, map[WaitLock := 0], []))
  {
    hide Reaches, NextExit, NextSleep, NextWait;
    ChildPicked();
    var dad := Dad(SLEEPING, Asleep(WaitLock));
    var s0 := Duo(dad, Kid(RUNNING, ForkRet), Run(1), 1, map[PL(1) := 0], []);
    var s1 := Duo(dad, Kid(RUNNING, Free), Run(1), 0, map[], []);
    assert map[PL(1) := 0] - {PL(1)} == map[];
    GoTo(s0, Thread(0, Go), s1);
    GoTo(s1, Thread(0, CallExit), Duo(dad, Kid(RUNNING, Exit(0)), Run(1), 1, map[WaitLock := 0], []));
  }

  /** It has no children. */
  lemma ChildReparents()
    ensures Reaches(Duo(Dad(SLEEPING, Asleep(WaitLock)), Kid(RUNNING, ExitParent(Some(0), 0)), Run(1), 1, map[WaitLock := 0], []))
  {
    hide Reaches, NextFork, NextSleep, NextWait;
    ChildRuns();
    var dad := Dad(SLEEPING, Asleep(WaitLock));
    var s0 := Duo(dad, Kid(RUNNING, Exit(0)), Run(1), 1, map[WaitLock := 0], []);
    var s1 := Duo(dad, Kid(RUNNING, Exit(1)), Run(1), 1, map[WaitLock := 0], []);
    GoTo(s0, Thread(0, Go), s1);
    var s2 := Duo(dad, Kid(RUNNING, Exit(2)), Run(1), 1, map[WaitLock := 0], []);
    GoTo(s1, Thread(0, Go), s2);
    GoTo(s2, Thread(0, Go), Duo(dad, Kid(RUNNING, ExitParent(Some(0), 0)), Run(1), 1, map[WaitLock := 0], []));
  }

  /** It wakes its parent. */
  lemma ChildWakes()
    ensures Reaches(Duo(Dad(RUNNABLE, Asleep(WaitLock)), Kid(RUNNING, ExitParent(Some(0), 2)), Run(1), 1, map[WaitLock := 0], []))
  {
    hide Reaches, NextFork, NextSleep, NextWait;
    ChildReparents();
    var s0 := Duo(Dad(SLEEPING, Asleep(WaitLock)), Kid(RUNNING, ExitParent(Some(0), 0)), Run(1), 1, map[WaitLock := 0], []);
    var s1 := Duo(Dad(RUNNABLE, Asleep(WaitLock)), Kid(RUNNING, ExitParent(Some(0), 1)), Run(1), 1, map[WaitLock := 0], []);
    GoTo(s0, Thread(0, Go), s1);
    GoTo(s1, Thread(0, Go), Duo(Dad(RUNNABLE, Asleep(WaitLock)), Kid(RUNNING, ExitParent(Some(0), 2)), Run(1), 1, map[WaitLock := 0], []));
  }

  /** It becomes a zombie. */
  lemma ChildDies()
    ensures Reaches(Duo(Dad(RUNNABLE, Asleep(WaitLock)), Kid(ZOMBIE, ExitDrop), Run(1), 2, map[WaitLock := 0, PL(1) := 0], []))
  {
    hide Reaches, NextFork, NextSleep, NextWait;
    ChildWakes();
    var dad := Dad(RUNNABLE, Asleep(WaitLock));
    var both := map[WaitLock := 0, PL(1) := 0];
    var s0 := Duo(dad, Kid(RUNNING, ExitParent(Some(0), 2)), Run(1), 1, map[WaitLock := 0], []);
    var s1 := Duo(dad, Kid(RUNNING, ExitMark), Run(1), 2, both, []);
    GoTo(s0, Thread(0, Go), s1);
    GoTo(s1, Thread(0, Go), Duo(dad, Kid(ZOMBIE, ExitDrop), Run(1), 2, both, []));
  }

  /** It leaves the CPU. */
  lemma ChildLeaves()
    ensures Reaches(Duo(Dad(RUNNABLE, Asleep(WaitLock)), Kid(ZOMBIE, Dead), Idle, 0, map[], []))
  {
    hide Reaches, NextFork, NextSleep, NextWait;
    ChildDies();
    var dad := Dad(RUNNABLE, Asleep(WaitLock));
    var both := map[WaitLock := 0, PL(1) := 0];
    var s0 := Duo(dad, Kid(ZOMBIE, ExitDrop), Run(1), 2, both, []);
    var s1 := Duo(dad, Kid(ZOMBIE, ExitSched), Run(1), 1, map[PL(1) := 0], []);
    assert both - {WaitLock} == map[PL(1) := 0];
    GoTo(s0, Thread(0, Go), s1);
    var s2 := Duo(dad, Kid(ZOMBIE, Dead), Back(1), 1, map[PL(1) := 0], []);
    GoTo(s1, Thread(0, Go), s2);
    assert map[PL(1) := 0] - {PL(1)} == map[];
    GoTo(s2, SchedBack(0), Duo(dad, Kid(ZOMBIE, Dead), Idle, 0, map[], []));
  }

  /** The parent runs again and takes wait_lock back. */
  lemma ParentWakes()
    ensures Reaches(Duo(Dad(RUNNING, Wait(0, false)), Kid(ZOMBIE, Dead), Run(0), 1, map[WaitLock := 0], []))
  {
    hide Reaches, NextFork, NextExit, NextWait;
    ChildLeaves();
    var kid := Kid(ZOMBIE, Dead);
    var s0 := Duo(Dad(RUNNABLE, Asleep(WaitLock)), kid, Idle, 0, map[], []);
    var s1 := Duo(Dad(RUNNABLE, Asleep(WaitLock)), kid, Pick(0), 1, map[PL(0) := 0], []);
    GoTo(s0, SchedAcquire(0, 0), s1);
    var s2 := Duo(Dad(RUNNING, Asleep(WaitLock)), kid, Run(0), 1, map[PL(0) := 0], []);
    GoTo(s1, SchedTurn(0), s2);
    var s3 := Duo(Dad(RUNNING, Woken(WaitLock)), kid, Run(0), 0, map[], []);
    assert map[PL(0) := 0] - {PL(0)} == map[];
    GoTo(s2, Thread(0, Go), s3);
    GoTo(s3, Thread(0, Go), Duo(Dad(RUNNING, Wait(0, false)), kid, Run(0), 1, map[WaitLock := 0], []));
  }

  /** It finds the zombie. */
  lemma ParentFinds()
    ensures Reaches(Duo(Dad(RUNNING, WaitAt(1)), Kid(ZOMBIE, Dead), Run(0), 2, map[WaitLock := 0, PL(1) := 0], []))
  {
    hide Reaches, NextFork, NextExit, NextSleep;
    ParentWakes();
    var kid := Kid(ZOMBIE, Dead);
    var s0 := Duo(Dad(RUNNING, Wait(0, false)), kid, Run(0), 1, map[WaitLock := 0], []);
    var s1 := Duo(Dad(RUNNING, Wait(1, false)), kid, Run(0), 1, map[WaitLock := 0], []);
    GoTo(s0, Thread(0, Go), s1);
    GoTo(s1, Thread(0, Go), Duo(Dad(RUNNING, WaitAt(1)), kid, Run(0), 2, map[WaitLock := 0, PL(1) := 0], []));
  }

  /** It frees the slot and returns with the child's pid. */
  lemma ParentReturns()
    ensures Reaches(Duo(Dad(RUNNING, Free), Nobody, Run(0), 0, map[], [2]))
  {
    hide Reaches, NextFork, NextExit, NextSleep;
    ParentFinds();
    var s0 := Duo(Dad(RUNNING, WaitAt(1)), Kid(ZOMBIE, Dead), Run(0), 2, map[WaitLock := 0, PL(1) := 0], []);
    var s1 := Duo(Dad(RUNNING, WaitOut), Nobody, Run(0), 1, map[WaitLock := 0], [2]);
    assert map[WaitLock := 0, PL(1) := 0] - {PL(1)} == map[WaitLock := 0];
    GoTo(s0, Thread(0, Go), s1);
    assert map[WaitLock := 0] - {WaitLock} == map[];
    GoTo(s1, Thread(0, Go), Duo(Dad(RUNNING, Free), Nobody, Run(0), 0, map[], [2]));
  }
}
