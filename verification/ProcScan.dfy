/** What kwait and kexit make of the process tree, in every run of ProcModel: who can
    change a parent link, and that kwait returns without a child only to a process
    that has none. */
module ProcScan {
  import opened Common
  import opened ProcModel
  import opened ProcLocks
  import opened ProcHand
  import opened ProcTree
  import opened ProcWake
  import opened ProcRuns

  /** How the thread step of p at pc may change the parent link of slot i. */
  predicate LinkChange(s: State, init: nat, p: nat, ch: Choice, i: nat, from: Option<nat>, to: Option<nat>)
    requires p < |s.procs| && i < |s.procs|
  {
    var pc := s.procs[p].pc;
    || (pc == ForkLink(i) && to == Some(p))
    || (pc == Exit(i) && from == Some(p) && to == Some(init))
    || (pc == WaitAt(i) && s.procs[i].state == ZOMBIE && to == None)
    || (pc == ForkHold(i) && ch == Fails && to == None)
  }

  /** How it may change the state of slot i: its own when it yields, falls asleep or
      exits, a sleeper's that it wakes, that of a slot it forks into or frees. */
  predicate StateChange(s: State, p: nat, ch: Choice, i: nat, to: ProcState)
    requires p < |s.procs| && i < |s.procs|
  {
    var pc, from := s.procs[p].pc, s.procs[i].state;
    || (i == p && pc.Yielding? && to == RUNNABLE)
    || (i == p && pc.SleepMark? && to == SLEEPING)
    || (i == p && pc.ExitMark? && to == ZOMBIE)
    || (i != p && (pc.ExitWake? || pc.ExitParent?) && pc.q == i && from == SLEEPING && to == RUNNABLE)
    || (pc == Fork(i) && from == UNUSED && to == USED)
    || (pc == ForkHold(i) && ch == Fails && to == UNUSED)
    || (pc == ForkReady(i) && to == RUNNABLE)
    || (pc == WaitAt(i) && from == ZOMBIE && to == UNUSED)
  }

  /** What a thread step of p does to slot i at most. */
  predicate Touches(s: State, s': State, init: nat, p: nat, ch: Choice, i: nat)
    requires p < |s.procs| && i < |s.procs|
  {
    && |s'.procs| == |s.procs|
    && (s'.procs[i].parent != s.procs[i].parent ==> LinkChange(s, init, p, ch, i, s.procs[i].parent, s'.procs[i].parent))
    && (i != p && s'.procs[i].pc != s.procs[i].pc ==> s.procs[p].pc == Fork(i) && s'.procs[i].pc == ForkRet)
    && (s'.procs[i].state != s.procs[i].state ==> StateChange(s, p, ch, i, s'.procs[i].state))
  }

  lemma SleepTouches(s: State, init: nat, c: nat, p: nat, ch: Choice, i: nat)
    requires c < |s.cpus| && p < |s.procs| && i < |s.procs|
    ensures Touches(s, NextSleep(s, c, p), init, p, ch, i)
  {
  }

  lemma YieldTouches(s: State, init: nat, c: nat, p: nat, ch: Choice, i: nat)
    requires c < |s.cpus| && p < |s.procs| && i < |s.procs|
    ensures Touches(s, NextYield(s, c, p), init, p, ch, i) && Touches(s, NextFree(s, c, p, ch), init, p, ch, i)
  {
  }

  lemma WaitTouches(s: State, init: nat, c: nat, p: nat, ch: Choice, i: nat)
    requires c < |s.cpus| && p < |s.procs| && i < |s.procs|
    ensures Touches(s, NextWait(s, c, p, ch), init, p, ch, i)
  {
    match s.procs[p].pc
    case WaitAt(j) => WaitAtTouches(s, init, c, p, ch, i, j);
    case _ =>
  }

  lemma WaitAtTouches(s: State, init: nat, c: nat, p: nat, ch: Choice, i: nat, j: nat)
    requires c < |s.cpus| && p < |s.procs| && i < |s.procs| && s.procs[p].pc == WaitAt(j)
    ensures Touches(s, NextWait(s, c, p, ch), init, p, ch, i)
  {
    hide Release;
    ReleaseProcs(s, c, PL(j));
    if j < |s.procs| { ReleaseProcs(FreeProc(s, j).(reaped := s.reaped + [s.procs[j].pid]), c, PL(j)); }
  }

  lemma ReleaseProcs(s: State, c: nat, l: Lock)
    requires c < |s.cpus|
    ensures Release(s, c, l).procs == s.procs
  {
  }

  lemma ForkTouches(s: State, init: nat, c: nat, p: nat, ch: Choice, i: nat)
    requires c < |s.cpus| && p < |s.procs| && i < |s.procs|
    ensures Touches(s, NextFork(s, c, p, ch), init, p, ch, i)
  {
    match s.procs[p].pc
    case Fork(j) => ClaimTouches(s, init, c, p, ch, i, j);
    case ForkHold(j) => HoldTouches(s, init, c, p, ch, i, j);
    case _ =>
  }

  lemma ClaimTouches(s: State, init: nat, c: nat, p: nat, ch: Choice, i: nat, j: nat)
    requires c < |s.cpus| && p < |s.procs| && i < |s.procs| && s.procs[p].pc == Fork(j)
    ensures Touches(s, NextFork(s, c, p, ch), init, p, ch, i)
  {
  }

  lemma HoldTouches(s: State, init: nat, c: nat, p: nat, ch: Choice, i: nat, j: nat)
    requires c < |s.cpus| && p < |s.procs| && i < |s.procs| && s.procs[p].pc == ForkHold(j)
    ensures Touches(s, NextFork(s, c, p, ch), init, p, ch, i)
  {
  }

  lemma WakeTouches(s: State, init: nat, p: nat, ch: Choice, q: nat, chan: Option<nat>, pc: Pc, i: nat)
    requires p < |s.procs| && q < |s.procs| && i < |s.procs|
    requires (s.procs[p].pc.ExitWake? || s.procs[p].pc.ExitParent?) && s.procs[p].pc.q == q
    ensures Touches(s, SetPc(WakeTurn(s, p, q, chan), p, pc), init, p, ch, i)
  {
  }

  lemma ExitTouches(s: State, init: nat, c: nat, p: nat, ch: Choice, i: nat)
    requires c < |s.cpus| && p < |s.procs| && i < |s.procs|
    ensures Touches(s, NextExit(s, init, c, p), init, p, ch, i)
  {
    match s.procs[p].pc
    case Exit(j) => ReparentTouches(s, init, c, p, ch, i, j);
    case ExitWake(j, q) => if q < |s.procs| { WakeTouches(s, init, p, ch, q, Some(init), ExitWake(j, q + 1), i); }
    case ExitParent(dad, q) => if q < |s.procs| { WakeTouches(s, init, p, ch, q, dad, ExitParent(dad, q + 1), i); }
    case _ =>
  }

  lemma ReparentTouches(s: State, init: nat, c: nat, p: nat, ch: Choice, i: nat, j: nat)
    requires c < |s.cpus| && p < |s.procs| && i < |s.procs| && s.procs[p].pc == Exit(j)
    ensures Touches(s, NextExit(s, init, c, p), init, p, ch, i)
  {
  }

  lemma ThreadTouches(s: State, init: nat, c: nat, p: nat, ch: Choice, i: nat)
    requires c < |s.cpus| && p < |s.procs| && i < |s.procs|
    ensures Touches(s, NextThread(s, init, c, p, ch), init, p, ch, i)
  {
    hide NextFree, NextYield, NextSleep, NextWait, NextFork, NextExit;
    YieldTouches(s, init, c, p, ch, i);
    SleepTouches(s, init, c, p, ch, i);
    WaitTouches(s, init, c, p, ch, i);
    ForkTouches(s, init, c, p, ch, i);
    ExitTouches(s, init, c, p, ch, i);
  }

  lemma SchedTouches(s: State, st: Step, i: nat)
    requires !st.Thread? && EnabledSched(s, st) && i < |s.procs|
    ensures var s' := NextSched(s, st);
            |s'.procs| == |s.procs| && s'.procs[i].parent == s.procs[i].parent && s'.procs[i].pc == s.procs[i].pc
  {
  }

  /** The only steps that change whose child a slot is: kfork sets the link, kexit hands
      a child to initproc, and a slot that is freed loses it. */
  lemma LinkChangedBy(s: State, init: nat, st: Step, i: nat)
    requires Enabled(s, init, st) && i < |s.procs| && i < |Next(s, init, st).procs|
    requires Next(s, init, st).procs[i].parent != s.procs[i].parent
    ensures st.Thread? && Running(s, st.c, s.cpus[st.c].mode.p)
    ensures LinkChange(s, init, s.cpus[st.c].mode.p, st.choice, i, s.procs[i].parent, Next(s, init, st).procs[i].parent)
  {
    hide NextThread, NextSched, LinkChange;
    if st.Thread? {
      ThreadTouches(s, init, st.c, s.cpus[st.c].mode.p, st.choice, i);
    } else {
      SchedTouches(s, st, i);
    }
  }

  // ---- the scan of kwait ----

  ghost predicate HasChild(s: State, p: nat) {
    exists i: nat :: i < |s.procs| && s.procs[i].parent == Some(p)
  }

  /** kwait knows whether it has a child: if it has found none so far there is none below
      the slot it looks at next, and one that it has found is there still. */
  ghost predicate ScanOk(s: State, p: nat)
    requires p < |s.procs|
  {
    match s.procs[p].pc
    case Wait(j, kids) => if kids then HasChild(s, p) else NoChildBelow(s, p, j)
    case WaitAt(j) => j < |s.procs| && s.procs[j].parent == Some(p)
    case _ => true
  }

  ghost predicate ScanInv(s: State) {
    forall p | 0 <= p < |s.procs| :: ScanOk(s, p)
  }

  lemma OwnScan(s: State, init: nat, c: nat, p: nat, ch: Choice)
    requires Base(s) && Running(s, c, p) && ScanOk(s, p) && EnabledThread(s, init, c, p, ch)
    requires forall i | 0 <= i < |s.procs| :: Touches(s, NextThread(s, init, c, p, ch), init, p, ch, i)
    ensures p < |NextThread(s, init, c, p, ch).procs| && ScanOk(NextThread(s, init, c, p, ch), p)
  {
    if (s.procs[p].pc.Wait? || s.procs[p].pc.WaitAt?) && ch != Yield {
      WaitScan(s, c, p, ch);
    } else {
      StartsScan(s, init, c, p, ch);
    }
  }

  lemma WaitScan(s: State, c: nat, p: nat, ch: Choice)
    requires Running(s, c, p) && ScanOk(s, p) && (s.procs[p].pc.Wait? || s.procs[p].pc.WaitAt?)
    ensures p < |NextWait(s, c, p, ch).procs| && ScanOk(NextWait(s, c, p, ch), p)
  {
    var s' := NextWait(s, c, p, ch);
    if s'.procs[p].pc.Wait? {
      forall i | 0 <= i < |s.procs|
        ensures s'.procs[i].parent == s.procs[i].parent
      {
      }
      var pc := s.procs[p].pc;
      if pc.WaitAt? {
        assert s'.procs[pc.j].parent == Some(p);
      } else if pc.kids {
        var i: nat :| i < |s.procs| && s.procs[i].parent == Some(p);
        assert s'.procs[i].parent == Some(p);
      }
    }
  }

  /** Not in the middle of kwait. */
  predicate Outside(pc: Pc) {
    !pc.WaitOut? && !pc.WaitAt? && (pc.Wait? ==> pc == Wait(0, false))
  }

  lemma SleepOutside(s: State, c: nat, p: nat)
    requires Running(s, c, p) && Outside(s.procs[p].pc)
    ensures p < |NextSleep(s, c, p).procs| && Outside(NextSleep(s, c, p).procs[p].pc)
  {
  }

  lemma YieldOutside(s: State, init: nat, c: nat, p: nat, ch: Choice)
    requires Running(s, c, p) && Outside(s.procs[p].pc) && PcOk(|s.procs|, p, s.procs[p].pc)
    ensures p < |NextYield(s, c, p).procs| && Outside(NextYield(s, c, p).procs[p].pc)
    ensures p < |NextFree(s, c, p, ch).procs| && Outside(NextFree(s, c, p, ch).procs[p].pc)
  {
  }

  lemma ForkOutside(s: State, c: nat, p: nat, ch: Choice)
    requires Running(s, c, p) && Outside(s.procs[p].pc)
    ensures p < |NextFork(s, c, p, ch).procs| && Outside(NextFork(s, c, p, ch).procs[p].pc)
  {
    match s.procs[p].pc
    case Fork(j) => ClaimOutside(s, c, p, ch, j);
    case _ =>
  }

  lemma ClaimOutside(s: State, c: nat, p: nat, ch: Choice, j: nat)
    requires Running(s, c, p) && s.procs[p].pc == Fork(j)
    ensures p < |NextFork(s, c, p, ch).procs| && Outside(NextFork(s, c, p, ch).procs[p].pc)
  {
  }

  lemma WakeOutside(s: State, p: nat, q: nat, chan: Option<nat>, pc: Pc)
    requires p < |s.procs| && q < |s.procs| && Outside(pc)
    ensures var s' := SetPc(WakeTurn(s, p, q, chan), p, pc); p < |s'.procs| && Outside(s'.procs[p].pc)
  {
  }

  lemma ExitOutside(s: State, init: nat, c: nat, p: nat)
    requires Running(s, c, p) && Outside(s.procs[p].pc)
    ensures p < |NextExit(s, init, c, p).procs| && Outside(NextExit(s, init, c, p).procs[p].pc)
  {
    match s.procs[p].pc
    case ExitWake(j, q) => if q < |s.procs| { WakeOutside(s, p, q, Some(init), ExitWake(j, q + 1)); }
    case ExitParent(dad, q) => if q < |s.procs| { WakeOutside(s, p, q, dad, ExitParent(dad, q + 1)); }
    case _ =>
  }

  /** kwait is entered at its start only. */
  lemma EntersAtStart(s: State, init: nat, c: nat, p: nat, ch: Choice)
    requires Base(s) && Running(s, c, p) && EnabledThread(s, init, c, p, ch)
    requires Outside(s.procs[p].pc) && !s.procs[p].pc.Wait?
    ensures p < |NextThread(s, init, c, p, ch).procs| && Outside(NextThread(s, init, c, p, ch).procs[p].pc)
  {
    assert PcOk(|s.procs|, p, s.procs[p].pc);
    hide Base, NextFree, NextYield, NextSleep, NextFork, NextExit;
    YieldOutside(s, init, c, p, ch);
    SleepOutside(s, c, p);
    ForkOutside(s, c, p, ch);
    ExitOutside(s, init, c, p);
  }

  /** A thread gets to a scan that has found no child only at its start. */
  lemma StartsScan(s: State, init: nat, c: nat, p: nat, ch: Choice)
    requires Base(s) && Running(s, c, p) && EnabledThread(s, init, c, p, ch)
    requires (s.procs[p].pc.Wait? || s.procs[p].pc.WaitAt?) ==> ch == Yield
    ensures p < |NextThread(s, init, c, p, ch).procs| && ScanOk(NextThread(s, init, c, p, ch), p)
  {
    hide Base;
    if s.procs[p].pc.Wait? {
    } else if Outside(s.procs[p].pc) {
      EntersAtStart(s, init, c, p, ch);
      hide NextThread;
      assert NoChildBelow(NextThread(s, init, c, p, ch), p, 0);
    }
  }

  /** Another thread's step makes no child of a process in the middle of its scan. */
  lemma ElseScan(s: State, s': State, init: nat, p: nat, ch: Choice, q: nat)
    requires Base(s) && p < |s.procs| && q < |s.procs| && q != p && ScanOk(s, q)
    requires forall i | 0 <= i < |s.procs| :: Touches(s, s', init, p, ch, i)
    ensures q < |s'.procs| && ScanOk(s', q)
  {
    assert 0 <= q < |s.procs| && Touches(s, s', init, p, ch, q);
    if s'.procs[q].pc.Wait? {
      assert s.procs[q].pc == s'.procs[q].pc;
      assert WaitLock in Locks(s.procs[q].pc, q);
      forall i | 0 <= i < |s.procs| && s'.procs[i].parent == Some(q)
        ensures s.procs[i].parent == Some(q)
      {
        assert Touches(s, s', init, p, ch, i);
        if s.procs[i].parent != Some(q) { OneWaiter(s, p, q); }
      }
    }
    if s'.procs[q].pc.Wait? && s'.procs[q].pc.kids {
      var i: nat :| i < |s.procs| && s.procs[i].parent == Some(q);
      ChildStays(s, s', init, p, ch, q, i);
    }
    if s'.procs[q].pc.WaitAt? {
      ChildStays(s, s', init, p, ch, q, s'.procs[q].pc.j);
    }
  }

  /** Nor does it take one away. */
  lemma ChildStays(s: State, s': State, init: nat, p: nat, ch: Choice, q: nat, i: nat)
    requires Base(s) && p < |s.procs| && q < |s.procs| && q != p && i < |s.procs| && s.procs[i].parent == Some(q)
    requires WaitLock in Locks(s.procs[q].pc, q) && Touches(s, s', init, p, ch, i)
    ensures i < |s'.procs| && s'.procs[i].parent == Some(q)
  {
    if s'.procs[i].parent != Some(q) {
      assert ForkOk(s, p);
      OneWaiter(s, p, q);
    }
  }

  lemma ScanKept(s: State, init: nat, st: Step)
    requires Base(s) && ScanInv(s) && Enabled(s, init, st)
    ensures ScanInv(Next(s, init, st))
  {
    hide Base, NextThread, NextSched, Touches, EnabledThread;
    var s' := Next(s, init, st);
    if st.Thread? {
      var c, p, ch := st.c, s.cpus[st.c].mode.p, st.choice;
      forall i | 0 <= i < |s.procs|
        ensures Touches(s, s', init, p, ch, i)
      {
        ThreadTouches(s, init, c, p, ch, i);
      }
      TouchSize(s, s', init, p, ch);
      forall q | 0 <= q < |s'.procs|
        ensures ScanOk(s', q)
      {
        if q == p { OwnScan(s, init, c, p, ch); } else { ElseScan(s, s', init, p, ch, q); }
      }
    } else {
      SchedSize(s, st);
      forall q | 0 <= q < |s'.procs|
        ensures ScanOk(s', q)
      {
        forall i | 0 <= i < |s.procs|
          ensures s'.procs[i].parent == s.procs[i].parent && s'.procs[i].pc == s.procs[i].pc
        {
          SchedTouches(s, st, i);
        }
        assert ScanOk(s, q);
      }
    }
  }

  lemma TouchSize(s: State, s': State, init: nat, p: nat, ch: Choice)
    requires p < |s.procs| && Touches(s, s', init, p, ch, p)
    ensures |s'.procs| == |s.procs|
  {
  }

  lemma SchedSize(s: State, st: Step)
    requires !st.Thread? && EnabledSched(s, st)
    ensures |NextSched(s, st).procs| == |s.procs|
  {
  }

  lemma {:induction false} RunScan(run: seq<State>, init: nat, steps: seq<Step>, i: nat)
    requires Runs(run, init, steps) && i < |run|
    ensures ScanInv(run[i])
  {
    hide Next, Enabled, Inv;
    if i > 0 {
      RunScan(run, init, steps, i - 1);
      RunInv(run, init, steps, i - 1);
      InvBase(run[i - 1], init);
      ScanKept(run[i - 1], init, steps[i - 1]);
    }
  }

  lemma InvBase(s: State, init: nat)
    requires Inv(s, init)
    ensures Base(s)
  {
  }

  // ---- what kwait returns ----

  /** The step of p frees its zombie child j and returns the child's pid. */
  predicate Reaps(s: State, s': State, p: nat, j: nat) {
    && j < |s.procs| == |s'.procs|
    && s.procs[j].parent == Some(p) && s.procs[j].state == ZOMBIE
    && s'.procs[j].state == UNUSED && s'.procs[j].parent == None && s'.procs[j].chan == None && s'.procs[j].pid == 0
    && s'.reaped == s.reaped + [s.procs[j].pid]
  }

  /** In every run kwait gets to its end only with the pid of a zombie child, which it
      frees; or when it is told to fail; or when no slot has it as parent. */
  lemma WaitReturns(run: seq<State>, init: nat, steps: seq<Step>, i: nat, p: nat)
    requires Runs(run, init, steps) && i < |steps| && p < |run[i].procs| && p < |run[i + 1].procs|
    requires run[i].procs[p].pc != WaitOut && run[i + 1].procs[p].pc == WaitOut
    ensures steps[i].Thread? && Running(run[i], steps[i].c, p)
    ensures var s, s' := run[i], run[i + 1];
            || steps[i].choice == Fails
            || (s'.reaped == s.reaped && NoChildBelow(s', p, |s'.procs|))
            || exists j: nat :: Reaps(s, s', p, j)
  {
    hide Base, TreeInv, WakeInv, NextThread, NextSched, EnabledThread, EnabledSched;
    var s, st := run[i], steps[i];
    RunInv(run, init, steps, i);
    RunScan(run, init, steps, i);
    assert ScanOk(s, p);
    assert Enabled(s, init, st) && run[i + 1] == Next(s, init, st);
    WhoMoves(s, init, st, p);
    if st.choice != Fails { WaitEnds(s, init, st.c, p, st.choice); }
  }

  /** Only its own thread moves a thread to the end of kwait. */
  lemma WhoMoves(s: State, init: nat, st: Step, p: nat)
    requires Enabled(s, init, st) && p < |s.procs| && p < |Next(s, init, st).procs|
    requires Next(s, init, st).procs[p].pc != s.procs[p].pc && !Next(s, init, st).procs[p].pc.ForkRet?
    ensures st.Thread? && Running(s, st.c, p) && Next(s, init, st) == NextThread(s, init, st.c, p, st.choice)
    ensures EnabledThread(s, init, st.c, p, st.choice)
  {
    hide NextThread, NextSched, EnabledThread;
    if st.Thread? {
      ThreadTouches(s, init, st.c, s.cpus[st.c].mode.p, st.choice, p);
    } else {
      SchedTouches(s, st, p);
    }
  }

  lemma WaitEnds(s: State, init: nat, c: nat, p: nat, ch: Choice)
    requires Running(s, c, p) && Inv(s, init) && ScanOk(s, p) && EnabledThread(s, init, c, p, ch) && ch != Fails
    requires s.procs[p].pc != WaitOut
    requires p < |NextThread(s, init, c, p, ch).procs| && NextThread(s, init, c, p, ch).procs[p].pc == WaitOut
    ensures var s' := NextThread(s, init, c, p, ch);
            || (s'.reaped == s.reaped && NoChildBelow(s', p, |s'.procs|))
            || exists j: nat :: Reaps(s, s', p, j)
  {
    var s' := NextThread(s, init, c, p, ch);
    if !s.procs[p].pc.Wait? && !s.procs[p].pc.WaitAt? { EntersAtStart(s, init, c, p, ch); }
    hide Base, WakeInv;
    if s.procs[p].pc.Wait? {
      ScanEnds(s, c, p, ch);
    } else {
      var j := s.procs[p].pc.j;
      assert SlotOk(s, init, p);
      ReapStep(s, c, p, j, ch);
      assert Reaps(s, s', p, j);
    }
  }

  lemma ScanEnds(s: State, c: nat, p: nat, ch: Choice)
    requires Running(s, c, p) && ScanOk(s, p) && s.procs[p].pc.Wait? && ch != Fails
    ensures var s' := NextWait(s, c, p, ch);
            && |s'.procs| == |s.procs|
            && (s'.procs[p].pc == WaitOut ==> s'.reaped == s.reaped && NoChildBelow(s', p, |s'.procs|))
  {
  }

  lemma ReapStep(s: State, c: nat, p: nat, j: nat, ch: Choice)
    requires Running(s, c, p) && s.procs[p].pc == WaitAt(j) && j < |s.procs| && s.procs[j].parent == Some(p) && ch != Fails
    ensures var s' := NextWait(s, c, p, ch);
            && |s'.procs| == |s.procs|
            && (s'.procs[p].pc == WaitOut ==> Reaps(s, s', p, j))
  {
  }
}
