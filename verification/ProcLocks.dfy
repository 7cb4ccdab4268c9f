/** Which CPU holds which lock, and the hand-off of a process between CPUs: what
    every step of ProcModel keeps, and why acquire, release and sched never
    panic. */
module ProcLocks {
  import opened Common
  import opened ProcModel

  predicate Running(s: State, c: nat, p: nat) {
    c < |s.cpus| && p < |s.procs| && s.cpus[c].mode == Run(p)
  }

  /** Slot p's thread runs on c, or c is coming back from it. */
  predicate On(s: State, c: nat, p: nat) {
    c < |s.cpus| && (s.cpus[c].mode == Run(p) || s.cpus[c].mode == Back(p))
  }

  predicate PcOk(n: nat, p: nat, pc: Pc) {
    match pc
    case Yielding(back) => Locks(back, p) == {} && PcOk(n, p, back)
    case Yielded(back) => Locks(back, p) == {} && PcOk(n, p, back)
    case SleepStart(chan, lk) => !lk.PL? && (lk == WaitLock ==> chan == p)
    case SleepDrop(chan, lk) => !lk.PL? && (lk == WaitLock ==> chan == p)
    case SleepMark(chan, lk) => !lk.PL? && (lk == WaitLock ==> chan == p)
    case Asleep(lk) => !lk.PL?
    case Woken(lk) => !lk.PL?
    case WaitAt(j) => j < n
    case ForkHold(j) => j < n
    case ForkLink(j) => j < n
    case ForkReady(j) => j < n
    case _ => true
  }

  /** What a CPU holds: nothing in the scheduler loop, the slot's lock while it
      hands over in either direction, and the thread's locks while one runs. */
  function Expect(s: State, c: nat): set<Lock>
    requires c < |s.cpus|
  {
    match s.cpus[c].mode
    case Idle => {}
    case Pick(p) => {PL(p)}
    case Back(p) => {PL(p)}
    case Run(p) => if p < |s.procs| then Locks(s.procs[p].pc, p) else {}
  }

  predicate CpuOk(s: State, c: nat)
    requires c < |s.cpus|
  {
    && s.cpus[c].noff == |Expect(s, c)|
    && match s.cpus[c].mode
       case Idle => s.cpus[c].proc == None
       case Pick(p) => s.cpus[c].proc == None && p < |s.procs|
       case Run(p) => s.cpus[c].proc == Some(p) && p < |s.procs|
       case Back(p) => s.cpus[c].proc == Some(p) && p < |s.procs|
  }

  predicate Owns(s: State, c: nat, l: Lock) { l in s.held && s.held[l] == c }

  ghost predicate LockInv(s: State) {
    && (forall p | 0 <= p < |s.procs| :: PcOk(|s.procs|, p, s.procs[p].pc))
    && (forall c | 0 <= c < |s.cpus| :: CpuOk(s, c))
    && (forall l | l in s.held :: s.held[l] < |s.cpus|)
    && (forall c: nat, l: Lock | c < |s.cpus| :: Owns(s, c, l) <==> l in Expect(s, c))
  }

  // ---- lock operations of a running thread ----

  /** LockInv sees only program counters, CPUs and lock holders. */
  lemma SameLocks(s: State, s': State)
    requires LockInv(s) && s'.cpus == s.cpus && s'.held == s.held && |s'.procs| == |s.procs|
    requires forall q | 0 <= q < |s.procs| :: s'.procs[q].pc == s.procs[q].pc
    ensures LockInv(s')
  {
    forall d | 0 <= d < |s.cpus|
      ensures CpuOk(s', d) && Expect(s', d) == Expect(s, d)
    {
      assert CpuOk(s, d);
    }
    forall d: nat, l: Lock | d < |s.cpus|
      ensures Owns(s', d, l) <==> l in Expect(s', d)
    {
      assert Owns(s, d, l) <==> l in Expect(s, d);
    }
  }

  /** No other CPU runs slot p. */
  ghost predicate Alone(s: State, c: nat, p: nat) {
    forall d: nat | d < |s.cpus| && s.cpus[d].mode == Run(p) :: d == c
  }

  lemma MovePc(s: State, c: nat, p: nat, pc: Pc)
    requires LockInv(s) && Running(s, c, p) && Alone(s, c, p) && PcOk(|s.procs|, p, pc)
    requires Locks(pc, p) == Locks(s.procs[p].pc, p)
    ensures LockInv(SetPc(s, p, pc))
  {
    var s' := SetPc(s, p, pc);
    forall d | 0 <= d < |s.cpus|
      ensures CpuOk(s', d) && Expect(s', d) == Expect(s, d)
    {
      assert CpuOk(s, d);
    }
    forall d: nat, l: Lock | d < |s.cpus|
      ensures Owns(s', d, l) <==> l in Expect(s', d)
    {
      assert Owns(s, d, l) <==> l in Expect(s, d);
    }
  }

  lemma TakePc(s: State, c: nat, p: nat, l: Lock, pc: Pc)
    requires LockInv(s) && Running(s, c, p) && Alone(s, c, p) && PcOk(|s.procs|, p, pc)
    requires CanAcquire(s, c, l) && l !in Locks(s.procs[p].pc, p)
    requires Locks(pc, p) == Locks(s.procs[p].pc, p) + {l}
    ensures l !in s.held
    ensures LockInv(SetPc(Acquire(s, c, l), p, pc))
  {
    hide Locks;
    CanTake(s, c, l);
    var s' := SetPc(Acquire(s, c, l), p, pc);
    forall d | 0 <= d < |s.cpus|
      ensures CpuOk(s', d) && Expect(s', d) == if d == c then Expect(s, d) + {l} else Expect(s, d)
    {
      assert CpuOk(s, d);
      if d != c { assert Expect(s', d) == Expect(s, d); }
    }
    forall d: nat, m: Lock | d < |s.cpus|
      ensures Owns(s', d, m) <==> m in Expect(s', d)
    {
      assert Owns(s, d, m) <==> m in Expect(s, d);
    }
  }

  lemma DropPc(s: State, c: nat, p: nat, l: Lock, pc: Pc)
    requires LockInv(s) && Running(s, c, p) && Alone(s, c, p) && PcOk(|s.procs|, p, pc)
    requires l in Locks(s.procs[p].pc, p)
    requires Locks(pc, p) == Locks(s.procs[p].pc, p) - {l}
    ensures Owns(s, c, l) && s.cpus[c].noff >= 1
    ensures LockInv(SetPc(Release(s, c, l), p, pc))
  {
    CanRelease(s, c, l);
    var s' := SetPc(Release(s, c, l), p, pc);
    forall d | 0 <= d < |s.cpus|
      ensures CpuOk(s', d) && Expect(s', d) == if d == c then Expect(s, d) - {l} else Expect(s, d)
    {
      assert CpuOk(s, d);
    }
    forall d: nat, m: Lock | d < |s.cpus|
      ensures Owns(s', d, m) <==> m in Expect(s', d)
    {
      assert Owns(s, d, m) <==> m in Expect(s, d);
    }
  }

  /** A lock that the code expects to hold is held by this CPU, and counted. */
  lemma CanRelease(s: State, c: nat, l: Lock)
    requires LockInv(s) && c < |s.cpus| && l in Expect(s, c)
    ensures Owns(s, c, l) && s.cpus[c].noff >= 1
  {
    assert CpuOk(s, c);
    assert Owns(s, c, l);
    assert |Expect(s, c)| >= 1 by { assert {l} <= Expect(s, c); SubsetSize({l}, Expect(s, c)); }
  }

  /** A lock that the code does not expect to hold is not held by this CPU, so
      that acquire either waits or takes it. */
  lemma CanTake(s: State, c: nat, l: Lock)
    requires LockInv(s) && c < |s.cpus| && l !in Expect(s, c) && CanAcquire(s, c, l)
    ensures l !in s.held
  {
    assert !Owns(s, c, l);
  }

  // ---- hand-off ----

  /** A slot whose thread is not running: where swtch left it. */
  predicate Parked(pr: Proc) {
    match pr.state
    case UNUSED => pr.pc == Dead || pr.pc == ForkRet
    case USED => pr.pc == ForkRet
    case SLEEPING => pr.pc.Asleep?
    case RUNNABLE => pr.pc.Asleep? || pr.pc.Yielded? || pr.pc == ForkRet
    case RUNNING => false
    case ZOMBIE => pr.pc == Dead
  }

  predicate Active(pr: Proc) {
    if pr.pc == ExitDrop || pr.pc == ExitSched then pr.state == ZOMBIE
    else pr.state == RUNNING && pr.pc != Dead
  }

  ghost predicate HandInv(s: State) {
    && (forall c, d, p: nat | On(s, c, p) && On(s, d, p) :: c == d)
    && (forall c: nat, p: nat | Running(s, c, p) :: Active(s.procs[p]))
    && (forall c: nat, p: nat | c < |s.cpus| && s.cpus[c].mode == Back(p) && p < |s.procs| :: Parked(s.procs[p]))
    && (forall p | 0 <= p < |s.procs| :: SomeCpu(s, p) || Parked(s.procs[p]))
  }

  ghost predicate SomeCpu(s: State, p: nat) {
    exists c: nat :: Running(s, c, p)
  }

  // ---- LockInv is kept, and no lock operation panics ----

  /** The thread of slot p is about to take a step on CPU c. */
  ghost predicate At(s: State, c: nat, p: nat) {
    !s.panicked && LockInv(s) && Running(s, c, p) && Alone(s, c, p)
  }

  lemma LockFree(s: State, c: nat, p: nat, init: nat, ch: Choice)
    requires At(s, c, p) && s.procs[p].pc == Free && ch != Yield && EnabledThread(s, init, c, p, ch)
    ensures LockInv(NextFree(s, c, p, ch)) && !NextFree(s, c, p, ch).panicked
  {
    match ch
    case TakeOther(k) => TakePc(s, c, p, Other(k), Locked(k));
    case CallWait => TakePc(s, c, p, WaitLock, Wait(0, false));
    case CallExit => TakePc(s, c, p, WaitLock, Exit(0));
    case CallFork => MovePc(s, c, p, Fork(0));
  }

  lemma LockYield(s: State, c: nat, p: nat, init: nat)
    requires At(s, c, p) && EnabledThread(s, init, c, p, Yield)
    ensures var s' := NextThread(s, init, c, p, Yield); LockInv(s') && !s'.panicked
  {
    assert PcOk(|s.procs|, p, s.procs[p].pc);
    TakePc(s, c, p, PL(p), Yielding(s.procs[p].pc));
  }

  lemma SchedLocks(s: State, c: nat, p: nat)
    requires At(s, c, p) && Locks(s.procs[p].pc, p) == {PL(p)} && s.procs[p].state != RUNNING
    ensures LockInv(Sched(s, c, p)) && !Sched(s, c, p).panicked
    ensures Sched(s, c, p) == SetMode(s, c, s.cpus[c].proc, Back(p))
  {
    assert CpuOk(s, c);
    CanRelease(s, c, PL(p));
    var s' := Sched(s, c, p);
    forall d | 0 <= d < |s.cpus|
      ensures CpuOk(s', d) && Expect(s', d) == Expect(s, d)
    {
      assert CpuOk(s, d);
    }
    forall d: nat, l: Lock | d < |s.cpus|
      ensures Owns(s', d, l) <==> l in Expect(s', d)
    {
      assert Owns(s, d, l) <==> l in Expect(s, d);
    }
  }

  /** What a thread does to its own slot just before sched. */
  lemma ParkLocks(s: State, s': State, c: nat, p: nat)
    requires At(s, c, p) && Locks(s.procs[p].pc, p) == {PL(p)}
    requires |s'.procs| == |s.procs| && s' == s.(procs := s.procs[p := s'.procs[p]])
    requires Locks(s'.procs[p].pc, p) == {PL(p)} && PcOk(|s.procs|, p, s'.procs[p].pc)
    requires s'.procs[p].state != RUNNING
    ensures LockInv(Sched(s', c, p)) && !Sched(s', c, p).panicked
    ensures Sched(s', c, p) == SetMode(s', c, s.cpus[c].proc, Back(p))
  {
    MovePc(s, c, p, s'.procs[p].pc);
    SameLocks(SetPc(s, p, s'.procs[p].pc), s');
    SchedLocks(s', c, p);
  }

  lemma LockYielding(s: State, c: nat, p: nat)
    requires At(s, c, p) && (s.procs[p].pc.Yielding? || s.procs[p].pc.Yielded?)
    ensures LockInv(NextYield(s, c, p)) && !NextYield(s, c, p).panicked
  {
    assert PcOk(|s.procs|, p, s.procs[p].pc);
    match s.procs[p].pc
    case Yielding(back) =>
      ParkLocks(s, s.(procs := s.procs[p := s.procs[p].(state := RUNNABLE, pc := Yielded(back))]), c, p);
    case Yielded(back) => DropPc(s, c, p, PL(p), back);
  }

  lemma LockSleep(s: State, c: nat, p: nat, init: nat)
    requires At(s, c, p) && EnabledThread(s, init, c, p, Go)
    requires var pc := s.procs[p].pc; pc.SleepStart? || pc.SleepDrop? || pc.SleepMark? || pc.Asleep? || pc.Woken?
    ensures LockInv(NextSleep(s, c, p)) && !NextSleep(s, c, p).panicked
  {
    assert PcOk(|s.procs|, p, s.procs[p].pc);
    match s.procs[p].pc
    case SleepStart(chan, lk) => TakePc(s, c, p, PL(p), SleepDrop(chan, lk));
    case SleepDrop(chan, lk) => DropPc(s, c, p, lk, SleepMark(chan, lk));
    case SleepMark(chan, lk) =>
      ParkLocks(s, s.(procs := s.procs[p := s.procs[p].(chan := Some(chan), state := SLEEPING, pc := Asleep(lk))]), c, p);
    case Asleep(lk) =>
      DropPc(s, c, p, PL(p), Woken(lk));
      SameLocks(SetPc(Release(s, c, PL(p)), p, Woken(lk)), NextSleep(s, c, p));
    case Woken(lk) => TakePc(s, c, p, lk, AfterSleep(lk));
  }

  lemma LockWait(s: State, c: nat, p: nat, init: nat, ch: Choice)
    requires At(s, c, p) && EnabledThread(s, init, c, p, ch) && ch != Yield
    requires var pc := s.procs[p].pc; pc.Wait? || pc.WaitAt? || pc.WaitOut?
    ensures LockInv(NextWait(s, c, p, ch)) && !NextWait(s, c, p, ch).panicked
  {
    assert PcOk(|s.procs|, p, s.procs[p].pc);
    match s.procs[p].pc
    case Wait(j, kids) =>
      if j < |s.procs| {
        if s.procs[j].parent == Some(p) { TakePc(s, c, p, PL(j), WaitAt(j)); }
        else { MovePc(s, c, p, Wait(j + 1, kids)); }
      } else {
        if kids { CanTake(s, c, PL(p)); }
        MovePc(s, c, p, WaitOut);
        MovePc(s, c, p, SleepStart(p, WaitLock));
      }
    case WaitAt(j) => LockWaitAt(s, c, p, ch);
    case WaitOut => DropPc(s, c, p, WaitLock, Free);
  }

  lemma LockWaitAt(s: State, c: nat, p: nat, ch: Choice)
    requires At(s, c, p) && s.procs[p].pc.WaitAt?
    ensures LockInv(NextWait(s, c, p, ch)) && !NextWait(s, c, p, ch).panicked
  {
    assert PcOk(|s.procs|, p, s.procs[p].pc);
    var j := s.procs[p].pc.j;
    DropPc(s, c, p, PL(j), Wait(j + 1, true));
    DropPc(s, c, p, PL(j), WaitOut);
    SameLocks(SetPc(Release(s, c, PL(j)), p, WaitOut),
              SetPc(Release(FreeProc(s, j).(reaped := s.reaped + [s.procs[j].pid]), c, PL(j)), p, WaitOut));
  }

  lemma LockExit(s: State, c: nat, p: nat, init: nat)
    requires At(s, c, p) && EnabledThread(s, init, c, p, Go)
    requires var pc := s.procs[p].pc;
             pc.Exit? || pc.ExitWake? || pc.ExitParent? || pc.ExitMark? || pc.ExitDrop?
    ensures LockInv(NextExit(s, init, c, p)) && !NextExit(s, init, c, p).panicked
  {
    hide CpuOk, Expect, LockInv;
    var n := |s.procs|;
    match s.procs[p].pc
    case Exit(j) =>
      MovePc(s, c, p, ExitParent(s.procs[p].parent, 0));
      MovePc(s, c, p, Exit(j + 1));
      if j < n {
        MovePc(s, c, p, ExitWake(j, 0));
        SameLocks(SetPc(s, p, ExitWake(j, 0)),
                  SetPc(s.(procs := s.procs[j := s.procs[j].(parent := Some(init))]), p, ExitWake(j, 0)));
      }
    case ExitWake(j, q) =>
      if q >= n { MovePc(s, c, p, Exit(j + 1)); } else { LockWake(s, c, p, q, Some(init), ExitWake(j, q + 1)); }
    case ExitParent(dad, q) =>
      if q >= n { TakePc(s, c, p, PL(p), ExitMark); } else { LockWake(s, c, p, q, dad, ExitParent(dad, q + 1)); }
    case ExitMark =>
      MovePc(s, c, p, ExitDrop);
      SameLocks(SetPc(s, p, ExitDrop), SetPc(SetState(s, p, ZOMBIE), p, ExitDrop));
    case ExitDrop => DropPc(s, c, p, WaitLock, ExitSched);
  }

  lemma LockWake(s: State, c: nat, p: nat, q: nat, chan: Option<nat>, pc: Pc)
    requires At(s, c, p) && q < |s.procs| && Locks(s.procs[p].pc, p) == Locks(pc, p) == {WaitLock}
    requires PcOk(|s.procs|, p, pc) && (q != p ==> CanAcquire(s, c, PL(q)))
    ensures LockInv(SetPc(WakeTurn(s, p, q, chan), p, pc)) && !WakeTurn(s, p, q, chan).panicked
    ensures q != p ==> PL(q) !in s.held
  {
    if q != p { CanTake(s, c, PL(q)); }
    MovePc(s, c, p, pc);
    SameLocks(SetPc(s, p, pc), SetPc(WakeTurn(s, p, q, chan), p, pc));
  }

  lemma LockExitSched(s: State, c: nat, p: nat, init: nat)
    requires At(s, c, p) && s.procs[p].pc == ExitSched && s.procs[p].state == ZOMBIE
    ensures LockInv(NextExit(s, init, c, p)) && !NextExit(s, init, c, p).panicked
  {
    ParkLocks(s, SetPc(s, p, Dead), c, p);
  }

  /** A slot that no CPU runs may be set up anew. */
  lemma MoveParked(s: State, j: nat, pc: Pc)
    requires LockInv(s) && j < |s.procs| && PcOk(|s.procs|, j, pc)
    requires forall d: nat | d < |s.cpus| :: s.cpus[d].mode != Run(j)
    ensures LockInv(SetPc(s, j, pc))
  {
    var s' := SetPc(s, j, pc);
    forall d | 0 <= d < |s.cpus|
      ensures CpuOk(s', d) && Expect(s', d) == Expect(s, d)
    {
      assert CpuOk(s, d);
    }
    forall d: nat, l: Lock | d < |s.cpus|
      ensures Owns(s', d, l) <==> l in Expect(s', d)
    {
      assert Owns(s, d, l) <==> l in Expect(s, d);
    }
  }

  lemma LockClaim(s: State, c: nat, p: nat, j: nat)
    requires At(s, c, p) && s.procs[p].pc == Fork(j) && j < |s.procs| && CanAcquire(s, c, PL(j)) && j != p
    requires forall d: nat | d < |s.cpus| :: s.cpus[d].mode != Run(j)
    ensures LockInv(SetPc(Acquire(Claim(s, j), c, PL(j)), p, ForkHold(j))) && PL(j) !in s.held
  {
    MoveParked(s, j, ForkRet);
    SameLocks(SetPc(s, j, ForkRet), Claim(s, j));
    TakePc(Claim(s, j), c, p, PL(j), ForkHold(j));
  }

  lemma LockFork(s: State, c: nat, p: nat, init: nat, ch: Choice)
    requires At(s, c, p) && EnabledThread(s, init, c, p, ch) && ch != Yield
    requires var pc := s.procs[p].pc; pc.Fork? || pc.ForkHold? || pc.ForkLink? || pc.ForkReady? || pc.ForkRet?
    requires s.procs[p].pc.Fork? ==>
               var j := s.procs[p].pc.j;
               j < |s.procs| && s.procs[j].state == UNUSED ==>
                 j != p && forall d: nat | d < |s.cpus| :: s.cpus[d].mode != Run(j)
    ensures LockInv(NextFork(s, c, p, ch)) && !NextFork(s, c, p, ch).panicked
  {
    assert PcOk(|s.procs|, p, s.procs[p].pc);
    match s.procs[p].pc
    case Fork(j) =>
      MovePc(s, c, p, Free);
      if j < |s.procs| {
        if s.procs[j].state == UNUSED { LockClaim(s, c, p, j); }
        else { CanTake(s, c, PL(j)); MovePc(s, c, p, Fork(j + 1)); }
      }
    case ForkHold(j) => LockForkHold(s, c, p, ch, j);
    case ForkLink(j) =>
      CanTake(s, c, WaitLock);
      MovePc(s, c, p, ForkReady(j));
      SameLocks(SetPc(s, p, ForkReady(j)), NextFork(s, c, p, ch));
    case ForkReady(j) =>
      CanTake(s, c, PL(j));
      MovePc(s, c, p, Free);
      SameLocks(SetPc(s, p, Free), NextFork(s, c, p, ch));
    case ForkRet => DropPc(s, c, p, PL(p), Free);
  }

  lemma LockForkHold(s: State, c: nat, p: nat, ch: Choice, j: nat)
    requires At(s, c, p) && s.procs[p].pc == ForkHold(j)
    ensures LockInv(NextFork(s, c, p, ch)) && !NextFork(s, c, p, ch).panicked
  {
    assert PcOk(|s.procs|, p, s.procs[p].pc);
    DropPc(s, c, p, PL(j), ForkLink(j));
    DropPc(s, c, p, PL(j), Free);
    SameLocks(SetPc(Release(s, c, PL(j)), p, Free), SetPc(Release(FreeProc(s, j), c, PL(j)), p, Free));
  }

  // ---- the scheduler's own steps ----

  lemma LockSched(s: State, st: Step)
    requires !s.panicked && LockInv(s) && HandInv(s) && !st.Thread? && EnabledSched(s, st)
    ensures LockInv(NextSched(s, st)) && !NextSched(s, st).panicked
  {
    assert !st.Wakeup? ==> CpuOk(s, st.c);
    match st
    case SchedAcquire(c, p) => CanTake(s, c, PL(p)); ModeLocks(s, NextSched(s, st), c);
    case SchedTurn(c) =>
      var p := s.cpus[c].mode.p;
      CanRelease(s, c, PL(p));
      if s.procs[p].state == RUNNABLE { NotRunning(s, p); assert Parked(s.procs[p]); }
      ModeLocks(s, NextSched(s, st), c);
    case SchedBack(c) => CanRelease(s, c, PL(s.cpus[c].mode.p)); ModeLocks(s, NextSched(s, st), c);
    case Wakeup(q) => SameLocks(s, NextSched(s, st));
  }

  lemma NotRunning(s: State, p: nat)
    requires HandInv(s) && p < |s.procs| && s.procs[p].state != RUNNING && s.procs[p].state != ZOMBIE
    ensures forall d: nat | d < |s.cpus| :: s.cpus[d].mode != Run(p)
    ensures Parked(s.procs[p])
  {
    forall d: nat | d < |s.cpus|
      ensures s.cpus[d].mode != Run(p)
    {
      assert Running(s, d, p) ==> Active(s.procs[p]);
    }
    assert SomeCpu(s, p) || Parked(s.procs[p]);
  }

  /** CPU c changes its mode, its count and its locks together; no thread moves. */
  lemma ModeLocks(s: State, s': State, c: nat)
    requires LockInv(s) && c < |s.cpus| == |s'.cpus| && |s'.procs| == |s.procs|
    requires forall q | 0 <= q < |s.procs| :: s'.procs[q].pc == s.procs[q].pc
    requires forall d | 0 <= d < |s.cpus| && d != c :: s'.cpus[d] == s.cpus[d]
    requires CpuOk(s', c)
    requires forall l: Lock :: Owns(s', c, l) <==> l in Expect(s', c)
    requires forall l: Lock | !Owns(s, c, l) && !Owns(s', c, l) :: (l in s'.held <==> l in s.held) && (l in s.held ==> s'.held[l] == s.held[l])
    requires forall l: Lock | Owns(s, c, l) && !Owns(s', c, l) :: l !in s'.held
    requires forall l: Lock | !Owns(s, c, l) && Owns(s', c, l) :: l !in s.held
    ensures LockInv(s')
  {
    forall d | 0 <= d < |s.cpus|
      ensures CpuOk(s', d)
    {
      assert CpuOk(s, d);
    }
    forall d: nat, l: Lock | d < |s.cpus|
      ensures Owns(s', d, l) <==> l in Expect(s', d)
    {
      assert Owns(s, d, l) <==> l in Expect(s, d);
      if d != c { assert Expect(s', d) == Expect(s, d); }
    }
  }

  // ---- HandInv is kept ----

  ghost predicate SameModes(s: State, s': State) {
    && |s'.cpus| == |s.cpus| && |s'.procs| == |s.procs|
    && forall d | 0 <= d < |s.cpus| :: s'.cpus[d].mode == s.cpus[d].mode
  }

  /** Slot q keeps its state and place, or is a parked slot set to another parked state. */
  ghost predicate StaysOrParks(s: State, s': State, q: nat)
    requires q < |s.procs| == |s'.procs|
  {
    || (s'.procs[q].state == s.procs[q].state && s'.procs[q].pc == s.procs[q].pc)
    || (Parked(s'.procs[q]) && forall d: nat | d < |s.cpus| :: s.cpus[d].mode != Run(q))
  }

  lemma HandThread(s: State, s': State, c: nat, p: nat)
    requires HandInv(s) && Running(s, c, p) && SameModes(s, s') && Active(s'.procs[p])
    requires forall q | 0 <= q < |s.procs| && q != p :: StaysOrParks(s, s', q)
    ensures HandInv(s')
  {
    forall d, q: nat
      ensures On(s', d, q) <==> On(s, d, q)
    {
    }
    forall d: nat, q: nat | Running(s', d, q)
      ensures Active(s'.procs[q])
    {
      assert Running(s, d, q);
      if q != p { assert StaysOrParks(s, s', q); }
    }
    forall d: nat, q: nat | d < |s'.cpus| && s'.cpus[d].mode == Back(q) && q < |s'.procs|
      ensures Parked(s'.procs[q])
    {
      assert On(s, d, q) && On(s, c, p);
      assert StaysOrParks(s, s', q);
    }
    forall q | 0 <= q < |s'.procs|
      ensures SomeCpu(s', q) || Parked(s'.procs[q])
    {
      if q == p {
        assert Running(s', c, p);
      } else if SomeCpu(s, q) {
        var d: nat :| Running(s, d, q);
        assert Running(s', d, q);
      } else {
        assert StaysOrParks(s, s', q);
      }
    }
  }

  /** The thread of slot p has called sched: c is on its way back. */
  lemma HandSched(s: State, s': State, c: nat, p: nat)
    requires HandInv(s) && Running(s, c, p) && |s'.cpus| == |s.cpus| && |s'.procs| == |s.procs|
    requires s'.cpus[c].mode == Back(p) && Parked(s'.procs[p])
    requires forall d | 0 <= d < |s.cpus| && d != c :: s'.cpus[d].mode == s.cpus[d].mode
    requires forall q | 0 <= q < |s.procs| && q != p :: s'.procs[q] == s.procs[q]
    ensures HandInv(s')
  {
    forall d, q: nat
      ensures On(s', d, q) <==> On(s, d, q)
    {
    }
    forall d: nat, q: nat | Running(s', d, q)
      ensures Active(s'.procs[q])
    {
      assert Running(s, d, q) && On(s, d, q) && On(s, c, p);
    }
    forall d: nat, q: nat | d < |s'.cpus| && s'.cpus[d].mode == Back(q) && q < |s'.procs|
      ensures Parked(s'.procs[q])
    {
      assert On(s, d, q);
    }
    forall q | 0 <= q < |s'.procs|
      ensures SomeCpu(s', q) || Parked(s'.procs[q])
    {
      if q != p && SomeCpu(s, q) {
        var d: nat :| Running(s, d, q);
        assert Running(s', d, q);
      }
    }
  }

  /** A CPU that holds a slot's lock has it to itself: no other CPU is in the
      middle of handing that slot over. */
  lemma LockedOut(s: State, c: nat, d: nat, q: nat)
    requires LockInv(s) && c < |s.cpus| && d < |s.cpus| && Owns(s, c, PL(q)) && PL(q) in Expect(s, d)
    ensures c == d
  {
    assert Owns(s, d, PL(q));
  }

  lemma HandSwitch(s: State, s': State, c: nat, p: nat)
    requires HandInv(s) && c < |s.cpus| == |s'.cpus| && p < |s.procs| == |s'.procs|
    requires s.cpus[c].mode == Pick(p) && s'.cpus[c].mode == Run(p) && Active(s'.procs[p])
    requires forall d | 0 <= d < |s.cpus| && d != c :: s'.cpus[d].mode == s.cpus[d].mode
    requires forall d: nat :: !On(s, d, p)
    requires forall q | 0 <= q < |s.procs| && q != p :: s'.procs[q] == s.procs[q]
    ensures HandInv(s')
  {
    forall d, q: nat
      ensures On(s', d, q) <==> On(s, d, q) || (d == c && q == p)
    {
    }
    forall d: nat, q: nat | Running(s', d, q)
      ensures Active(s'.procs[q])
    {
      if q != p { assert Running(s, d, q); }
    }
    forall d: nat, q: nat | d < |s'.cpus| && s'.cpus[d].mode == Back(q) && q < |s'.procs|
      ensures Parked(s'.procs[q])
    {
      assert On(s, d, q);
    }
    forall q | 0 <= q < |s'.procs|
      ensures SomeCpu(s', q) || Parked(s'.procs[q])
    {
      if q == p {
        assert Running(s', c, p);
      } else if SomeCpu(s, q) {
        var d: nat :| Running(s, d, q);
        assert Running(s', d, q);
      }
    }
  }

  lemma HandRun(s: State, c: nat)
    requires LockInv(s) && HandInv(s) && EnabledSched(s, SchedTurn(c)) && s.procs[s.cpus[c].mode.p].state == RUNNABLE
    ensures HandInv(NextSched(s, SchedTurn(c)))
  {
    var p := s.cpus[c].mode.p;
    NotRunning(s, p);
    CanRelease(s, c, PL(p));
    forall d: nat
      ensures !On(s, d, p)
    {
      if d < |s.cpus| && s.cpus[d].mode == Back(p) { LockedOut(s, c, d, p); }
    }
    HandSwitch(s, NextSched(s, SchedTurn(c)), c, p);
  }

  /** CPU c goes from one place in its scheduler to another. */
  lemma HandSchedLoop(s: State, s': State, c: nat)
    requires HandInv(s) && c < |s.cpus| == |s'.cpus| && s'.procs == s.procs
    requires !s.cpus[c].mode.Run? && !s'.cpus[c].mode.Run? && !s'.cpus[c].mode.Back?
    requires forall d | 0 <= d < |s.cpus| && d != c :: s'.cpus[d].mode == s.cpus[d].mode
    ensures HandInv(s')
  {
    forall d, q: nat | On(s', d, q)
      ensures On(s, d, q)
    {
    }
    forall q | 0 <= q < |s'.procs|
      ensures SomeCpu(s', q) || Parked(s'.procs[q])
    {
      if SomeCpu(s, q) {
        var d: nat :| Running(s, d, q);
        assert Running(s', d, q);
      }
    }
    forall d: nat, q: nat | Running(s', d, q)
      ensures Active(s'.procs[q])
    {
      assert Running(s, d, q);
    }
  }

  /** A sleeper whose lock is free becomes RUNNABLE. */
  lemma HandWakeup(s: State, q: nat)
    requires HandInv(s) && q < |s.procs| && s.procs[q].state == SLEEPING
    ensures HandInv(SetState(s, q, RUNNABLE))
  {
    var s' := SetState(s, q, RUNNABLE);
    NotRunning(s, q);
    forall d, r: nat
      ensures On(s', d, r) <==> On(s, d, r)
    {
    }
    forall d: nat, r: nat | Running(s', d, r)
      ensures Active(s'.procs[r])
    {
      assert Running(s, d, r);
    }
    forall r | 0 <= r < |s'.procs|
      ensures SomeCpu(s', r) || Parked(s'.procs[r])
    {
      if SomeCpu(s, r) {
        var d: nat :| Running(s, d, r);
        assert Running(s', d, r);
      }
    }
  }
}
