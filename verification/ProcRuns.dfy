/** What holds in every run of ProcModel, for any number of CPUs and slots. */
module ProcRuns {
  import opened Common
  import opened ProcModel
  import opened ProcLocks
  import opened ProcHand
  import opened ProcTree
  import opened ProcWake

  ghost predicate Inv(s: State, init: nat) {
    Base(s) && TreeInv(s, init) && WakeInv(s, init)
  }

  lemma InitInv(s: State, init: nat)
    requires Init(s, init)
    ensures Inv(s, init)
  {
    forall c | 0 <= c < |s.cpus|
      ensures CpuOk(s, c) && Expect(s, c) == {}
    {
    }
    forall p | 0 <= p < |s.procs|
      ensures PcOk(|s.procs|, p, s.procs[p].pc) && Parked(s.procs[p]) && ForkOk(s, p) && SlotOk(s, init, p)
      ensures KnowsOk(s, p) && DozeOk(s, init, p)
    {
    }
  }

  lemma {:induction false} RunInv(run: seq<State>, init: nat, steps: seq<Step>, i: nat)
    requires Runs(run, init, steps) && i < |run|
    ensures Inv(run[i], init)
  {
    if i == 0 {
      InitInv(run[0], init);
    } else {
      RunInv(run, init, steps, i - 1);
      BaseKept(run[i - 1], init, steps[i - 1]);
      TreeKept(run[i - 1], init, steps[i - 1]);
      WakeKept(run[i - 1], init, steps[i - 1]);
    }
  }

  /** No lost wakeup: whenever wait_lock is free, no process that sleeps in kwait
      has a child that is already a zombie. */
  lemma NoLostWakeup(run: seq<State>, init: nat, steps: seq<Step>, i: nat, p: nat, q: nat)
    requires Runs(run, init, steps) && i < |run|
    requires WaitLock !in run[i].held && p < |run[i].procs| && q < |run[i].procs|
    requires run[i].procs[p].pc == Asleep(WaitLock) && run[i].procs[p].state == SLEEPING
    ensures !(run[i].procs[q].parent == Some(p) && run[i].procs[q].state == ZOMBIE)
  {
    RunInv(run, init, steps, i);
    var s := run[i];
    assert DozeOk(s, init, p) && Dozing(s, p);
    if Pending(s, init) {
      var e: nat :| WakingInit(s, init, e);
      var c := HolderOf(s, e);
    }
    assert ZombieKid(s, p, q) <==> s.procs[q].parent == Some(p) && s.procs[q].state == ZOMBIE;
  }

  /** Hand-off: acquire, release and sched never panic; a slot is with at most
      one CPU; that CPU holds the slot's lock while it switches to or from it,
      and nothing else; a RUNNING slot is on some CPU. */
  lemma HandOff(run: seq<State>, init: nat, steps: seq<Step>, i: nat)
    requires Runs(run, init, steps) && i < |run|
    ensures var s := run[i];
            && !s.panicked
            && (forall c, d, p: nat | On(s, c, p) && On(s, d, p) :: c == d)
            && (forall p | 0 <= p < |s.procs| && s.procs[p].state == RUNNING :: SomeCpu(s, p))
            && (forall c: nat, p: nat | c < |s.cpus| && (s.cpus[c].mode == Pick(p) || s.cpus[c].mode == Back(p)) ::
                  Owns(s, c, PL(p)) && s.cpus[c].noff == 1)
  {
    RunInv(run, init, steps, i);
    var s := run[i];
    forall p | 0 <= p < |s.procs| && s.procs[p].state == RUNNING
      ensures SomeCpu(s, p)
    {
      assert SomeCpu(s, p) || Parked(s.procs[p]);
    }
    forall c: nat, p: nat | c < |s.cpus| && (s.cpus[c].mode == Pick(p) || s.cpus[c].mode == Back(p))
      ensures Owns(s, c, PL(p)) && s.cpus[c].noff == 1
    {
      CanRelease(s, c, PL(p));
      assert CpuOk(s, c);
    }
  }

  /** A slot becomes UNUSED only when no CPU runs it or is coming back from it. */
  lemma FreedOffCpu(run: seq<State>, init: nat, steps: seq<Step>, i: nat, j: nat)
    requires Runs(run, init, steps) && i + 1 < |run| && j < |run[i].procs| == |run[i + 1].procs|
    requires run[i].procs[j].state != UNUSED && run[i + 1].procs[j].state == UNUSED
    ensures forall d: nat :: !On(run[i], d, j)
  {
    hide LockInv, HandInv, PcOk, NextFork;
    RunInv(run, init, steps, i);
    var s, st := run[i], steps[i];
    FreedBy(s, init, st, j);
    var c, p := st.c, s.cpus[st.c].mode.p;
    RunsAlone(s, c, p);
    if s.procs[p].pc == WaitAt(j) {
      ZombieParked(s, c, p, j);
    } else {
      assert ForkOk(s, p);
      NotRunning(s, j);
      CanRelease(s, c, PL(j));
      forall d: nat
        ensures !On(s, d, j)
      {
        if d < |s.cpus| && s.cpus[d].mode == Back(j) { LockedOut(s, c, d, j); }
      }
    }
  }

  /** The only steps that free a slot: kwait on a zombie, and kfork giving up. */
  lemma FreedBy(s: State, init: nat, st: Step, j: nat)
    requires Enabled(s, init, st) && j < |s.procs| && s.procs[j].state != UNUSED
    requires j < |Next(s, init, st).procs| && Next(s, init, st).procs[j].state == UNUSED
    ensures st.Thread? && Running(s, st.c, s.cpus[st.c].mode.p)
    ensures var pc := s.procs[s.cpus[st.c].mode.p].pc;
            (pc == WaitAt(j) && s.procs[j].state == ZOMBIE) || pc == ForkHold(j)
  {
    if st.Thread? {
      var c, p, ch := st.c, s.cpus[st.c].mode.p, st.choice;
      ThreadFrees(s, init, c, p, ch, j);
    } else {
      SchedFrees(s, st, j);
    }
  }

  lemma SchedFrees(s: State, st: Step, j: nat)
    requires !st.Thread? && EnabledSched(s, st) && j < |s.procs| && s.procs[j].state != UNUSED
    ensures |NextSched(s, st).procs| == |s.procs| && NextSched(s, st).procs[j].state != UNUSED
  {
  }

  lemma ExitFrees(s: State, init: nat, c: nat, p: nat, j: nat)
    requires c < |s.cpus| && p < |s.procs| && j < |s.procs| && s.procs[j].state != UNUSED
    ensures |NextExit(s, init, c, p).procs| == |s.procs| && NextExit(s, init, c, p).procs[j].state != UNUSED
  {
    match s.procs[p].pc
    case Exit(i) =>
    case ExitWake(i, q) => if q < |s.procs| { WakeFrees(s, p, q, Some(init), ExitWake(i, q + 1), j); }
    case ExitParent(dad, q) => if q < |s.procs| { WakeFrees(s, p, q, dad, ExitParent(dad, q + 1), j); }
    case _ =>
  }

  lemma WakeFrees(s: State, p: nat, q: nat, chan: Option<nat>, pc: Pc, j: nat)
    requires p < |s.procs| && q < |s.procs| && j < |s.procs| && s.procs[j].state != UNUSED
    ensures var s' := SetPc(WakeTurn(s, p, q, chan), p, pc);
            |s'.procs| == |s.procs| && s'.procs[j].state != UNUSED
  {
  }

  lemma SleepFrees(s: State, c: nat, p: nat, j: nat)
    requires c < |s.cpus| && p < |s.procs| && j < |s.procs| && s.procs[j].state != UNUSED
    ensures |NextSleep(s, c, p).procs| == |s.procs| && NextSleep(s, c, p).procs[j].state != UNUSED
    ensures |NextYield(s, c, p).procs| == |s.procs| && NextYield(s, c, p).procs[j].state != UNUSED
  {
  }

  lemma FreeFrees(s: State, c: nat, p: nat, ch: Choice, j: nat)
    requires c < |s.cpus| && p < |s.procs| && j < |s.procs| && s.procs[j].state != UNUSED
    ensures |NextFree(s, c, p, ch).procs| == |s.procs| && NextFree(s, c, p, ch).procs[j].state != UNUSED
  {
  }

  lemma WaitFrees(s: State, c: nat, p: nat, ch: Choice, j: nat)
    requires c < |s.cpus| && p < |s.procs| && j < |s.procs| && s.procs[j].state != UNUSED
    requires !(s.procs[p].pc == WaitAt(j) && s.procs[j].state == ZOMBIE)
    ensures |NextWait(s, c, p, ch).procs| == |s.procs| && NextWait(s, c, p, ch).procs[j].state != UNUSED
  {
  }

  lemma ForkFrees(s: State, c: nat, p: nat, ch: Choice, j: nat)
    requires c < |s.cpus| && p < |s.procs| && j < |s.procs| && s.procs[j].state != UNUSED && s.procs[p].pc != ForkHold(j)
    ensures |NextFork(s, c, p, ch).procs| == |s.procs| && NextFork(s, c, p, ch).procs[j].state != UNUSED
  {
  }

  lemma ThreadFrees(s: State, init: nat, c: nat, p: nat, ch: Choice, j: nat)
    requires c < |s.cpus| && p < |s.procs| && j < |s.procs| && s.procs[j].state != UNUSED
    ensures var s' := NextThread(s, init, c, p, ch);
            && |s'.procs| == |s.procs|
            && (s'.procs[j].state == UNUSED ==>
                  (s.procs[p].pc == WaitAt(j) && s.procs[j].state == ZOMBIE) || s.procs[p].pc == ForkHold(j))
  {
    var pc, s' := s.procs[p].pc, NextThread(s, init, c, p, ch);
    if ch == Yield || pc.Locked? {
    } else if pc.Free? {
      FreeFrees(s, c, p, ch, j);
      assert s' == NextFree(s, c, p, ch);
    } else if pc.Yielding? || pc.Yielded? {
      SleepFrees(s, c, p, j);
      assert s' == NextYield(s, c, p);
    } else if pc.SleepStart? || pc.SleepDrop? || pc.SleepMark? || pc.Asleep? || pc.Woken? {
      SleepFrees(s, c, p, j);
      assert s' == NextSleep(s, c, p);
    } else if pc.Wait? || pc.WaitAt? || pc.WaitOut? {
      assert s' == NextWait(s, c, p, ch);
      if !(pc == WaitAt(j) && s.procs[j].state == ZOMBIE) { WaitFrees(s, c, p, ch, j); }
    } else if pc.Fork? || pc.ForkHold? || pc.ForkLink? || pc.ForkReady? || pc.ForkRet? {
      assert s' == NextFork(s, c, p, ch);
      if pc != ForkHold(j) { ForkFrees(s, c, p, ch, j); }
    } else {
      ExitFrees(s, init, c, p, j);
      assert s' == NextExit(s, init, c, p);
    }
  }

  // ---- the tree ----

  /** The n-th ancestor of a slot. */
  function Ancestor(s: State, q: nat, n: nat): Option<nat>
  {
    if n == 0 then Some(q)
    else
      match Ancestor(s, q, n - 1)
      case None => None
      case Some(d) => if d < |s.procs| then s.procs[d].parent else None
  }

  lemma {:induction false} AncestorsAreOlder(s: State, init: nat, q: nat, n: nat)
    requires TreeInv(s, init) && q < |s.procs|
    ensures match Ancestor(s, q, n)
            case None => true
            case Some(d) => d < |s.procs| && (n > 0 ==> s.procs[d].pid < s.procs[q].pid)
  {
    if n > 0 {
      AncestorsAreOlder(s, init, q, n - 1);
      match Ancestor(s, q, n - 1)
      case None =>
      case Some(e) => assert SlotOk(s, init, e);
    }
  }

  /** While initproc has not exited, every parent link leads to a living process
      and following links never comes back; occupied slots have distinct pids. */
  lemma TreeIsSound(run: seq<State>, init: nat, steps: seq<Step>, i: nat, q: nat, n: nat)
    requires Runs(run, init, steps) && i < |run| && q < |run[i].procs|
    ensures var s := run[i];
            && (s.procs[q].parent.Some? && init < |s.procs| && Living(s.procs[init].state) ==>
                  s.procs[q].parent.value < |s.procs| && Living(s.procs[s.procs[q].parent.value].state))
            && (n > 0 ==> Ancestor(s, q, n) != Some(q))
            && (forall p | 0 <= p < |s.procs| && p != q && s.procs[p].state != UNUSED && s.procs[q].state != UNUSED ::
                  s.procs[p].pid != s.procs[q].pid)
  {
    RunInv(run, init, steps, i);
    assert SlotOk(run[i], init, q);
    AncestorsAreOlder(run[i], init, q, n);
  }

  /** Each process is returned by at most one kwait, and not while it still
      occupies a slot. */
  lemma ReapedOnce(run: seq<State>, init: nat, steps: seq<Step>, i: nat)
    requires Runs(run, init, steps) && i < |run|
    ensures var s := run[i];
            && (forall a, b | 0 <= a < b < |s.reaped| :: s.reaped[a] != s.reaped[b])
            && (forall p | 0 <= p < |s.procs| && s.procs[p].state != UNUSED :: s.procs[p].pid !in s.reaped)
  {
    RunInv(run, init, steps, i);
    forall p | 0 <= p < |run[i].procs| && run[i].procs[p].state != UNUSED
      ensures run[i].procs[p].pid !in run[i].reaped
    {
      assert SlotOk(run[i], init, p);
    }
  }
}
