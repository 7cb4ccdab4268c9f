/** What the calls of riscv-os/kernel/proc/proc.c achieve, in every run of ProcModel:
    kwait sleeps while it has children and none is a zombie, a zombie's slot is freed
    only with its pid returned, orphans go to initproc, kfork makes a runnable child,
    the scheduler runs what is runnable, yield and sleep give up the CPU. */
module ProcCalls {
  import opened Common
  import opened ProcModel
  import opened ProcLocks
  import opened ProcHand
  import opened ProcTree
  import opened ProcWake
  import opened ProcRuns
  import opened ProcScan

  /** Step i of the run is one of the thread of slot p, standing at pc. */
  ghost predicate Moves(run: seq<State>, init: nat, steps: seq<Step>, i: nat, p: nat, pc: Pc) {
    && Runs(run, init, steps) && i < |steps| && i + 1 < |run| && steps[i].Thread?
    && Running(run[i], steps[i].c, p) && run[i].procs[p].pc == pc
  }

  lemma MovesTo(run: seq<State>, init: nat, steps: seq<Step>, i: nat, p: nat, pc: Pc)
    requires Moves(run, init, steps, i, p, pc)
    ensures Inv(run[i], init) && Inv(run[i + 1], init) && EnabledThread(run[i], init, steps[i].c, p, steps[i].choice)
    ensures run[i + 1] == NextThread(run[i], init, steps[i].c, p, steps[i].choice)
    ensures |run[i + 1].procs| == |run[i].procs| && !run[i + 1].panicked
  {
    hide NextThread, EnabledThread, TreeInv, WakeInv, LockInv, HandInv, ForkInv;
    RunInv(run, init, steps, i);
    RunInv(run, init, steps, i + 1);
    ThreadTouches(run[i], init, steps[i].c, p, steps[i].choice, p);
  }

  // ---- kwait ----

  /** kwait that has gone through all slots goes to sleep on itself if it has a child and is
      not told to fail, and none of its children is a zombie then; else it is at its end,
      and has reaped nobody. */
  lemma WaitSleeps(run: seq<State>, init: nat, steps: seq<Step>, i: nat, p: nat, kids: bool)
    requires i < |run| && Moves(run, init, steps, i, p, Wait(|run[i].procs|, kids))
    ensures p < |run[i + 1].procs|
    ensures if HasChild(run[i], p) && steps[i].choice != Fails
            then run[i + 1].procs[p].pc == SleepStart(p, WaitLock) && NoZombieBelow(run[i + 1], p, |run[i + 1].procs|)
            else run[i + 1].procs[p].pc == WaitOut && run[i + 1].reaped == run[i].reaped
  {
    hide Base, TreeInv;
    MovesTo(run, init, steps, i, p, Wait(|run[i].procs|, kids));
    RunScan(run, init, steps, i);
    assert ScanOk(run[i], p);
    assert KnowsOk(run[i + 1], p);
  }

  /** A zombie's slot is freed only by a kwait of its parent, which returns its pid. */
  lemma ZombieReturned(run: seq<State>, init: nat, steps: seq<Step>, i: nat, j: nat)
    requires Runs(run, init, steps) && i < |steps| && j < |run[i].procs| && j < |run[i + 1].procs|
    requires run[i].procs[j].state == ZOMBIE && run[i + 1].procs[j].state != ZOMBIE
    ensures run[i].procs[j].parent.Some?
    ensures var s, s', p := run[i], run[i + 1], run[i].procs[j].parent.value;
            Reaps(s, s', p, j) && p < |s'.procs| && s'.procs[p].pc == WaitOut
  {
    hide Base, WakeInv, Enabled, Next;
    RunInv(run, init, steps, i);
    var s, st := run[i], steps[i];
    assert Enabled(s, init, st) && run[i + 1] == Next(s, init, st);
    LeavesZombie(s, init, st, j);
    var p := s.cpus[st.c].mode.p;
    assert SlotOk(s, init, p);
    ReapsAt(s, init, st.c, p, st.choice, j);
  }

  lemma ReapsAt(s: State, init: nat, c: nat, p: nat, ch: Choice, j: nat)
    requires Running(s, c, p) && s.procs[p].pc == WaitAt(j) && j < |s.procs| && s.procs[j].parent == Some(p)
    requires ch == Go || ch == Fails
    requires var s' := NextThread(s, init, c, p, ch); j < |s'.procs| && s.procs[j].state == ZOMBIE && s'.procs[j].state != ZOMBIE
    ensures var s' := NextThread(s, init, c, p, ch); Reaps(s, s', p, j) && p < |s'.procs| && s'.procs[p].pc == WaitOut
  {
  }

  /** Only kwait takes a slot out of ZOMBIE. */
  lemma LeavesZombie(s: State, init: nat, st: Step, j: nat)
    requires Inv(s, init) && Enabled(s, init, st) && j < |s.procs| && j < |Next(s, init, st).procs|
    requires s.procs[j].state == ZOMBIE && Next(s, init, st).procs[j].state != ZOMBIE
    ensures st.Thread? && Running(s, st.c, s.cpus[st.c].mode.p) && s.procs[s.cpus[st.c].mode.p].pc == WaitAt(j)
    ensures Next(s, init, st) == NextThread(s, init, st.c, s.cpus[st.c].mode.p, st.choice) && (st.choice == Go || st.choice == Fails)
  {
    hide TreeInv, WakeInv, LockInv;
    if st.Thread? {
      var c, p, ch := st.c, s.cpus[st.c].mode.p, st.choice;
      RunsAlone(s, c, p);
      assert ForkOk(s, p);
      hide NextThread, Base;
      ThreadTouches(s, init, c, p, ch, j);
    }
  }

  // ---- kexit ----

  /** kexit between acquire(&wait_lock) and the ZOMBIE state. */
  predicate Exiting(pc: Pc) { pc.Exit? || pc.ExitWake? || pc.ExitParent? || pc.ExitMark? }

  /** From kexit's acquire(&wait_lock) at i to m: a child of the exiting process stays its
      child or becomes initproc's. */
  lemma {:induction false} ChildrenHeld(run: seq<State>, init: nat, steps: seq<Step>, i: nat, m: nat, p: nat, j: nat)
    requires Runs(run, init, steps) && i <= m < |run| && p < |run[i].procs| && j < |run[i].procs|
    requires forall x | i <= x <= m :: p < |run[x].procs| && Exiting(run[x].procs[p].pc)
    requires run[i].procs[j].parent == Some(p)
    ensures j < |run[m].procs| && (run[m].procs[j].parent == Some(p) || run[m].procs[j].parent == Some(init))
  {
    hide Next, Enabled, Inv;
    if m > i {
      ChildrenHeld(run, init, steps, i, m - 1, p, j);
      RunInv(run, init, steps, m - 1);
      ChildKept(run[m - 1], init, steps[m - 1], p, j);
    }
  }

  lemma ChildKept(s: State, init: nat, st: Step, p: nat, j: nat)
    requires Inv(s, init) && Enabled(s, init, st) && p < |s.procs| && j < |s.procs| && Exiting(s.procs[p].pc)
    requires s.procs[j].parent == Some(p) || s.procs[j].parent == Some(init)
    ensures var s' := Next(s, init, st);
            j < |s'.procs| && (s'.procs[j].parent == Some(p) || s'.procs[j].parent == Some(init))
  {
    hide TreeInv, WakeInv, NextThread, NextSched, LockInv, HandInv;
    if st.Thread? {
      var q := s.cpus[st.c].mode.p;
      ThreadTouches(s, init, st.c, q, st.choice, j);
      assert ForkOk(s, q);
      if WaitLock in Locks(s.procs[q].pc, q) { OneWaiter(s, p, q); }
    } else {
      SchedTouches(s, st, j);
    }
  }

  /** Orphans go to initproc: when a process other than initproc has come through kexit to
      the point of becoming a zombie, every child it had at the start is initproc's. */
  lemma OrphansToInit(run: seq<State>, init: nat, steps: seq<Step>, i: nat, m: nat, p: nat, j: nat)
    requires Runs(run, init, steps) && i <= m < |run| && p < |run[i].procs| && j < |run[i].procs| && p != init
    requires forall x | i <= x <= m :: p < |run[x].procs| && Exiting(run[x].procs[p].pc)
    requires run[i].procs[j].parent == Some(p) && run[m].procs[p].pc == ExitMark
    ensures j < |run[m].procs| && run[m].procs[j].parent == Some(init)
  {
    hide Next, Enabled, Base, WakeInv;
    ChildrenHeld(run, init, steps, i, m, p, j);
    RunInv(run, init, steps, m);
    assert SlotOk(run[m], init, p);
  }

  /** From there the process becomes a zombie and leaves its CPU for good. */
  lemma ExitEnds(run: seq<State>, init: nat, steps: seq<Step>, i: nat, p: nat, pc: Pc)
    requires Moves(run, init, steps, i, p, pc)
    ensures p < |run[i + 1].procs|
    ensures pc == ExitMark ==> run[i + 1].procs[p].state == ZOMBIE && run[i + 1].procs[p].pc == ExitDrop
    ensures pc == ExitDrop ==> run[i + 1].procs[p].state == ZOMBIE && run[i + 1].procs[p].pc == ExitSched && WaitLock !in run[i + 1].held
    ensures pc == ExitSched ==> run[i + 1].procs[p].pc == Dead && steps[i].c < |run[i + 1].cpus| && run[i + 1].cpus[steps[i].c].mode == Back(p)
    ensures !pc.Dead?
  {
    MovesTo(run, init, steps, i, p, pc);
    RunsAlone(run[i], steps[i].c, p);
    hide Moves, Base, TreeInv, WakeInv, Runs;
    if pc.ExitMark? || pc.ExitDrop? || pc.ExitSched? || pc.Dead? { ExitStep(run[i], init, steps[i].c, p); }
  }

  lemma ExitStep(s: State, init: nat, c: nat, p: nat)
    requires Running(s, c, p) && (s.procs[p].pc.ExitMark? || s.procs[p].pc.ExitDrop? || s.procs[p].pc.ExitSched? || s.procs[p].pc.Dead?)
    ensures var s', pc := NextExit(s, init, c, p), s.procs[p].pc;
            && |s'.procs| == |s.procs| && |s'.cpus| == |s.cpus|
            && (pc == ExitMark ==> s'.procs[p].state == ZOMBIE && s'.procs[p].pc == ExitDrop)
            && (pc == ExitDrop ==> s'.procs[p].state == s.procs[p].state && s'.procs[p].pc == ExitSched && (s'.panicked || WaitLock !in s'.held))
            && (pc == ExitSched && !s'.panicked ==> s'.procs[p].pc == Dead && s'.cpus[c].mode == Back(p))
            && (pc == Dead ==> s'.panicked)
  {
  }

  // ---- kfork ----

  /** allocproc takes the first unused slot it comes to, with a new pid. */
  lemma ForkClaims(run: seq<State>, init: nat, steps: seq<Step>, i: nat, p: nat, j: nat)
    requires Moves(run, init, steps, i, p, Fork(j)) && steps[i].choice == Go && j < |run[i].procs|
    ensures p < |run[i + 1].procs| && j < |run[i + 1].procs|
    ensures if run[i].procs[j].state == UNUSED
            then run[i + 1].procs[p].pc == ForkHold(j) && run[i + 1].procs[j].state == USED
                 && run[i + 1].procs[j].pid == run[i].nextpid < run[i + 1].nextpid
            else run[i + 1].procs[p].pc == Fork(j + 1) && run[i + 1].procs[j] == run[i].procs[j].(pc := run[i + 1].procs[j].pc)
  {
    hide TreeInv, WakeInv, LockInv, ForkInv;
    MovesTo(run, init, steps, i, p, Fork(j));
    RunsAlone(run[i], steps[i].c, p);
    hide Base;
  }

  lemma NotOnCpu(s: State, j: nat)
    requires Base(s) && j < |s.procs| && s.procs[j].state == USED
    ensures Parked(s.procs[j])
  {
    assert SomeCpu(s, j) || Parked(s.procs[j]);
  }

  /** In every run kfork comes to its end only with a child of its own that has become
      RUNNABLE; or when it is told to fail, and then the slot is free again; or when it
      has come past the last slot. */
  lemma ForkReturns(run: seq<State>, init: nat, steps: seq<Step>, i: nat, p: nat, pc: Pc)
    requires Moves(run, init, steps, i, p, pc) && (pc.Fork? || Child(pc).Some?) && !pc.Yielding? && !pc.Yielded?
    requires p < |run[i + 1].procs| && run[i + 1].procs[p].pc.Free?
    ensures var s' := run[i + 1];
            || (pc.Fork? && pc.j >= |s'.procs|)
            || (pc.ForkHold? && steps[i].choice == Fails && pc.j < |s'.procs| && s'.procs[pc.j].state == UNUSED)
            || (pc.ForkReady? && pc.j < |s'.procs| && s'.procs[pc.j].state == RUNNABLE && s'.procs[pc.j].parent == Some(p)
                && s'.procs[pc.j].pc == ForkRet)
  {
    hide TreeInv, WakeInv, LockInv, HandInv, NextThread;
    MovesTo(run, init, steps, i, p, pc);
    assert ForkOk(run[i], p);
    if Child(pc).Some? { NotOnCpu(run[i], pc.j); }
    ForkEnds(run[i], init, steps[i].c, p, steps[i].choice);
  }

  lemma ForkEnds(s: State, init: nat, c: nat, p: nat, ch: Choice)
    requires Running(s, c, p) && (s.procs[p].pc.Fork? || Child(s.procs[p].pc).Some?) && ForkOk(s, p) && EnabledThread(s, init, c, p, ch)
    requires Child(s.procs[p].pc).Some? ==> Parked(s.procs[Child(s.procs[p].pc).value])
    requires var s' := NextThread(s, init, c, p, ch);
             !s'.panicked && p < |s'.procs| && s'.procs[p].pc.Free? && !s.procs[p].pc.Yielding? && !s.procs[p].pc.Yielded?
    ensures var s', pc := NextThread(s, init, c, p, ch), s.procs[p].pc;
            || (pc.Fork? && pc.j >= |s'.procs|)
            || (pc.ForkHold? && ch == Fails && pc.j < |s'.procs| && s'.procs[pc.j].state == UNUSED)
            || (pc.ForkReady? && pc.j < |s'.procs| && s'.procs[pc.j].state == RUNNABLE && s'.procs[pc.j].parent == Some(p)
                && s'.procs[pc.j].pc == ForkRet)
  {
    if s.procs[p].pc.ForkHold? { HoldEnds(s, c, p, ch); }
  }

  lemma HoldEnds(s: State, c: nat, p: nat, ch: Choice)
    requires Running(s, c, p) && s.procs[p].pc.ForkHold? && s.procs[p].pc.j < |s.procs| && s.procs[p].pc.j != p
    ensures var s', j := NextFork(s, c, p, ch), s.procs[p].pc.j;
            && |s'.procs| == |s.procs|
            && (s'.procs[p].pc.Free? <==> ch == Fails) && (ch == Fails ==> s'.procs[j].state == UNUSED)
  {
    hide Release;
    var j := s.procs[p].pc.j;
    ReleaseProcs(s, c, PL(j));
    ReleaseProcs(FreeProc(s, j), c, PL(j));
  }

  // ---- the scheduler, yield, sleep ----

  /** The scheduler that has locked a RUNNABLE slot runs it, and lets go of any other. */
  lemma SchedulerRuns(run: seq<State>, init: nat, steps: seq<Step>, i: nat, c: nat, p: nat)
    requires Runs(run, init, steps) && i < |steps| && steps[i] == SchedTurn(c)
    requires c < |run[i].cpus| && run[i].cpus[c].mode == Pick(p) && p < |run[i].procs|
    ensures p < |run[i + 1].procs| && c < |run[i + 1].cpus|
    ensures if run[i].procs[p].state == RUNNABLE
            then run[i + 1].procs[p].state == RUNNING && run[i + 1].cpus[c].mode == Run(p) && run[i + 1].cpus[c].proc == Some(p)
                 && Owns(run[i + 1], c, PL(p))
            else run[i + 1].procs == run[i].procs && run[i + 1].cpus[c].mode == Idle && PL(p) !in run[i + 1].held
  {
    RunInv(run, init, steps, i);
    RunInv(run, init, steps, i + 1);
    CanRelease(run[i], c, PL(p));
    hide Base, TreeInv, WakeInv;
    assert Enabled(run[i], init, steps[i]);
  }

  /** The life of a slot: in every run its state changes only as StateChange says by a
      thread step, from RUNNABLE to RUNNING by the scheduler that holds its lock, and from
      SLEEPING to RUNNABLE by a wakeup. */
  lemma StateChangedBy(run: seq<State>, init: nat, steps: seq<Step>, i: nat, j: nat)
    requires Runs(run, init, steps) && i < |steps| && j < |run[i].procs| && j < |run[i + 1].procs|
    requires run[i + 1].procs[j].state != run[i].procs[j].state
    ensures var s, st, to := run[i], steps[i], run[i + 1].procs[j].state;
            match st {
              case Thread(c, ch) => Running(s, c, s.cpus[c].mode.p) && StateChange(s, s.cpus[c].mode.p, ch, j, to)
              case SchedTurn(c) => s.cpus[c].mode == Pick(j) && s.procs[j].state == RUNNABLE && to == RUNNING
              case Wakeup(q) => q == j && s.procs[j].state == SLEEPING && to == RUNNABLE
              case _ => false
            }
  {
    hide NextThread, StateChange;
    var s, st := run[i], steps[i];
    assert Enabled(s, init, st) && run[i + 1] == Next(s, init, st);
    if st.Thread? { ThreadTouches(s, init, st.c, s.cpus[st.c].mode.p, st.choice, j); }
  }

  /** yield gives up the CPU with the process RUNNABLE. */
  lemma YieldGivesUp(run: seq<State>, init: nat, steps: seq<Step>, i: nat, p: nat, back: Pc)
    requires Moves(run, init, steps, i, p, Yielding(back))
    ensures p < |run[i + 1].procs| && run[i + 1].procs[p].state == RUNNABLE && run[i + 1].procs[p].pc == Yielded(back)
    ensures steps[i].c < |run[i + 1].cpus| && run[i + 1].cpus[steps[i].c].mode == Back(p)
  {
    hide TreeInv, WakeInv, LockInv, HandInv, ForkInv;
    MovesTo(run, init, steps, i, p, Yielding(back));
  }

  /** sleep gives it up with the process SLEEPING on its channel and the condition lock
      let go. */
  lemma SleepGivesUp(run: seq<State>, init: nat, steps: seq<Step>, i: nat, p: nat, pc: Pc)
    requires Moves(run, init, steps, i, p, pc)
    ensures p < |run[i + 1].procs|
    ensures pc.SleepStart? ==> run[i + 1].procs[p].pc == SleepDrop(pc.chan, pc.lk)
    ensures pc.SleepDrop? ==> run[i + 1].procs[p].pc == SleepMark(pc.chan, pc.lk) && pc.lk !in run[i + 1].held
    ensures pc.SleepMark? ==>
      && run[i + 1].procs[p].state == SLEEPING && run[i + 1].procs[p].chan == Some(pc.chan) && run[i + 1].procs[p].pc == Asleep(pc.lk)
      && steps[i].c < |run[i + 1].cpus| && run[i + 1].cpus[steps[i].c].mode == Back(p)
  {
    hide TreeInv, WakeInv, LockInv, HandInv, ForkInv;
    MovesTo(run, init, steps, i, p, pc);
    if pc.SleepStart? || pc.SleepDrop? || pc.SleepMark? { SleepMoves(run[i], init, steps[i].c, p, steps[i].choice); }
    hide NextThread, EnabledThread;
  }

  lemma SleepMoves(s: State, init: nat, c: nat, p: nat, ch: Choice)
    requires Running(s, c, p) && EnabledThread(s, init, c, p, ch) && !NextThread(s, init, c, p, ch).panicked
    requires s.procs[p].pc.SleepStart? || s.procs[p].pc.SleepDrop? || s.procs[p].pc.SleepMark?
    ensures var s', pc := NextThread(s, init, c, p, ch), s.procs[p].pc;
            && p < |s'.procs| && |s'.cpus| == |s.cpus|
            && (pc.SleepStart? ==> s'.procs[p].pc == SleepDrop(pc.chan, pc.lk))
            && (pc.SleepDrop? ==> s'.procs[p].pc == SleepMark(pc.chan, pc.lk) && pc.lk !in s'.held)
            && (pc.SleepMark? ==>
                  && s'.procs[p].state == SLEEPING && s'.procs[p].chan == Some(pc.chan) && s'.procs[p].pc == Asleep(pc.lk)
                  && s'.cpus[c].mode == Back(p))
  {
    assert NextThread(s, init, c, p, ch) == NextSleep(s, c, p);
  }

  /** Back on a CPU, a sleeper takes its condition lock again, and kwait starts its scan anew. */
  lemma WakesInto(run: seq<State>, init: nat, steps: seq<Step>, i: nat, p: nat, pc: Pc)
    requires Moves(run, init, steps, i, p, pc) && steps[i].choice == Go
    ensures p < |run[i + 1].procs|
    ensures pc.Asleep? ==> run[i + 1].procs[p].pc == Woken(pc.lk) && run[i + 1].procs[p].chan == None
    ensures pc.Woken? ==> Owns(run[i + 1], steps[i].c, pc.lk)
    ensures pc == Woken(WaitLock) ==> run[i + 1].procs[p].pc == Wait(0, false)
    ensures pc.Yielded? ==> run[i + 1].procs[p].pc == pc.back && PL(p) !in run[i + 1].held
  {
    MovesTo(run, init, steps, i, p, pc);
    RunsAlone(run[i], steps[i].c, p);
    hide Base, TreeInv, WakeInv;
  }

  /** How calls begin: kwait and kexit with wait_lock, other code with a lock of its own, on
      which it can go to sleep or which it lets go. */
  lemma CallsBegin(run: seq<State>, init: nat, steps: seq<Step>, i: nat, p: nat, pc: Pc)
    requires Moves(run, init, steps, i, p, pc)
    ensures p < |run[i + 1].procs|
    ensures var s', c, ch, to := run[i + 1], steps[i].c, steps[i].choice, run[i + 1].procs[p].pc;
            && (ch == Yield ==> to == Yielding(pc) && Owns(s', c, PL(p)))
            && (ch == CallWait ==> to == Wait(0, false) && Owns(s', c, WaitLock))
            && (ch == CallExit ==> to == Exit(0) && Owns(s', c, WaitLock))
            && (ch == CallFork ==> to == Fork(0))
            && (ch.TakeOther? ==> to == Locked(ch.n) && Owns(s', c, Other(ch.n)))
            && (ch.SleepOn? ==> pc.Locked? && to == SleepStart(ch.chan, Other(pc.n)) && Owns(s', c, Other(pc.n)))
            && (ch == Go && pc.Locked? ==> to == Free && Other(pc.n) !in s'.held)
  {
    MovesTo(run, init, steps, i, p, pc);
    hide Moves, Base, TreeInv, WakeInv, Runs, Inv;
    assert !run[i + 1].panicked by { RunInv(run, init, steps, i + 1); }
    BeginStep(run[i], init, steps[i].c, p, steps[i].choice);
  }

  lemma BeginStep(s: State, init: nat, c: nat, p: nat, ch: Choice)
    requires Running(s, c, p) && EnabledThread(s, init, c, p, ch) && !NextThread(s, init, c, p, ch).panicked
    requires s.procs[p].pc.Locked? ==> Owns(s, c, Other(s.procs[p].pc.n))
    requires |NextThread(s, init, c, p, ch).procs| == |s.procs|
    ensures var s', pc := NextThread(s, init, c, p, ch), s.procs[p].pc;
            && (ch == Yield ==> s'.procs[p].pc == Yielding(pc) && Owns(s', c, PL(p)))
            && (ch == CallWait ==> s'.procs[p].pc == Wait(0, false) && Owns(s', c, WaitLock))
            && (ch == CallExit ==> s'.procs[p].pc == Exit(0) && Owns(s', c, WaitLock))
            && (ch == CallFork ==> s'.procs[p].pc == Fork(0))
            && (ch.TakeOther? ==> s'.procs[p].pc == Locked(ch.n) && Owns(s', c, Other(ch.n)))
            && (ch.SleepOn? ==> pc.Locked? && s'.procs[p].pc == SleepStart(ch.chan, Other(pc.n)) && Owns(s', c, Other(pc.n)))
            && (ch == Go && pc.Locked? ==> s'.procs[p].pc == Free && Other(pc.n) !in s'.held)
  {
    hide NextYield, NextSleep, NextWait, NextFork, NextExit;
  }

  /** wakeup makes a sleeper RUNNABLE and leaves its channel and everybody else alone;
      kexit's wakeup of the parent does so for those that sleep on it, and for no others. */
  lemma WakeupWakes(run: seq<State>, init: nat, steps: seq<Step>, i: nat, q: nat)
    requires Runs(run, init, steps) && i < |steps| && q < |run[i].procs|
    ensures var s, s', st := run[i], run[i + 1], steps[i];
            && (st == Wakeup(q) ==> s.procs[q].state == SLEEPING && s' == s.(procs := s.procs[q := s.procs[q].(state := RUNNABLE)]))
            && (forall p: nat, dad | st.Thread? && Running(s, st.c, p) && st.choice == Go && s.procs[p].pc == ExitParent(dad, q) && q != p ::
                  |s'.procs| == |s.procs| && s'.procs[q] ==
                    if s.procs[q].state == SLEEPING && s.procs[q].chan == dad then s.procs[q].(state := RUNNABLE) else s.procs[q])
  {
    assert Enabled(run[i], init, steps[i]) && run[i + 1] == Next(run[i], init, steps[i]);
    RunInv(run, init, steps, i + 1);
    assert !run[i + 1].panicked;
    hide Base, TreeInv, WakeInv;
  }

  // ---- nothing gets stuck ----

  /** The lock that the code at this place acquires next. */
  function NextLock(s: State, p: nat): Option<Lock>
    requires p < |s.procs|
  {
    var n := |s.procs|;
    match s.procs[p].pc
    case SleepStart(_, _) => Some(PL(p))
    case Woken(lk) => Some(lk)
    case Wait(j, kids) => if j < n && s.procs[j].parent == Some(p) then Some(PL(j)) else if j >= n && kids then Some(PL(p)) else None
    case ExitWake(_, q) => if q < n && q != p then Some(PL(q)) else None
    case ExitParent(_, q) => if q >= n then Some(PL(p)) else if q != p then Some(PL(q)) else None
    case Fork(j) => if j < n then Some(PL(j)) else None
    case ForkLink(_) => Some(WaitLock)
    case ForkReady(j) => Some(PL(j))
    case _ => None
  }

  predicate HeldElsewhere(s: State, c: nat, l: Lock) { l in s.held && s.held[l] != c }

  /** In every run a thread on a CPU can go on, unless it spins for a lock that another CPU
      holds; between calls it can fork, and start any other call whose lock is not held
      elsewhere; code that holds a lock can go to sleep on it. */
  lemma NeverStuck(run: seq<State>, init: nat, steps: seq<Step>, i: nat, c: nat, p: nat)
    requires Runs(run, init, steps) && i < |run| && Running(run[i], c, p)
    ensures var s, pc := run[i], run[i].procs[p].pc;
            && (!pc.Free? ==> EnabledThread(s, init, c, p, Go) || (NextLock(s, p).Some? && HeldElsewhere(s, c, NextLock(s, p).value)))
            && (pc.Free? ==> EnabledThread(s, init, c, p, CallFork))
            && (pc.Free? && !HeldElsewhere(s, c, WaitLock) ==> EnabledThread(s, init, c, p, CallWait) && EnabledThread(s, init, c, p, CallExit))
            && (forall k: nat | pc.Free? && !HeldElsewhere(s, c, Other(k)) :: EnabledThread(s, init, c, p, TakeOther(k)))
            && (forall k: nat | pc.Locked? :: EnabledThread(s, init, c, p, SleepOn(k)))
            && (Locks(pc, p) == {} && !HeldElsewhere(s, c, PL(p)) ==> EnabledThread(s, init, c, p, Yield))
  {
    RunInv(run, init, steps, i);
    assert init < |run[i].procs|;
    hide Base, TreeInv, WakeInv, Runs, Inv, EnabledThread, NextLock, HeldElsewhere;
    GoesOn(run[i], init, c, p);
    Begins(run[i], init, c, p, 0);
    forall k: nat
      ensures run[i].procs[p].pc.Free? && !HeldElsewhere(run[i], c, Other(k)) ==> EnabledThread(run[i], init, c, p, TakeOther(k))
      ensures run[i].procs[p].pc.Locked? ==> EnabledThread(run[i], init, c, p, SleepOn(k))
    {
      Begins(run[i], init, c, p, k);
    }
  }

  lemma GoesOn(s: State, init: nat, c: nat, p: nat)
    requires Running(s, c, p) && init < |s.procs|
    ensures !s.procs[p].pc.Free? ==> EnabledThread(s, init, c, p, Go) || (NextLock(s, p).Some? && HeldElsewhere(s, c, NextLock(s, p).value))
  {
  }

  lemma Begins(s: State, init: nat, c: nat, p: nat, k: nat)
    requires Running(s, c, p)
    ensures var pc := s.procs[p].pc;
            && (pc.Free? ==> EnabledThread(s, init, c, p, CallFork))
            && (pc.Free? && !HeldElsewhere(s, c, WaitLock) ==> EnabledThread(s, init, c, p, CallWait) && EnabledThread(s, init, c, p, CallExit))
            && (pc.Free? && !HeldElsewhere(s, c, Other(k)) ==> EnabledThread(s, init, c, p, TakeOther(k)))
            && (pc.Locked? ==> EnabledThread(s, init, c, p, SleepOn(k)))
            && (Locks(pc, p) == {} && !HeldElsewhere(s, c, PL(p)) ==> EnabledThread(s, init, c, p, Yield))
  {
  }

  /** In every run a CPU holds exactly the locks that belong to its thread's place in the
      code, and noff is their number: none of the panics of acquire, release and sched has
      its cause. The lock acquired next is not one of them, and sched is called with the
      slot's own lock and no other. */
  lemma HoldsExactly(run: seq<State>, init: nat, steps: seq<Step>, i: nat, c: nat, p: nat, l: Lock)
    requires Runs(run, init, steps) && i < |run| && Running(run[i], c, p)
    ensures var s, pc := run[i], run[i].procs[p].pc;
            && (Owns(s, c, l) <==> l in Locks(pc, p)) && s.cpus[c].noff == |Locks(pc, p)|
            && (NextLock(s, p) == Some(l) ==> !Owns(s, c, l))
            && (pc.SleepMark? || pc.ExitSched? || pc.Yielding? ==> Locks(pc, p) == {PL(p)})
  {
    RunInv(run, init, steps, i);
    assert CpuOk(run[i], c);
    assert PcOk(|run[i].procs|, p, run[i].procs[p].pc);
    hide TreeInv, WakeInv;
  }

  /** So can a scheduler, and a sleeper whose lock nobody holds can be woken. */
  lemma SchedulerNeverStuck(run: seq<State>, init: nat, steps: seq<Step>, i: nat, c: nat, p: nat)
    requires Runs(run, init, steps) && i < |run| && c < |run[i].cpus| && p < |run[i].procs|
    ensures var s := run[i];
            && !s.panicked
            && (s.cpus[c].mode == Idle && !HeldElsewhere(s, c, PL(p)) ==> Enabled(s, init, SchedAcquire(c, p)))
            && (s.cpus[c].mode.Pick? ==> Enabled(s, init, SchedTurn(c)))
            && (s.cpus[c].mode.Back? ==> Enabled(s, init, SchedBack(c)))
            && (PL(p) !in s.held && s.procs[p].state == SLEEPING ==> Enabled(s, init, Wakeup(p)))
  {
    RunInv(run, init, steps, i);
    assert CpuOk(run[i], c);
    hide Base, TreeInv, WakeInv;
  }
}
