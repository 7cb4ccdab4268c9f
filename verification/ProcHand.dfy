/** Hand-off and fork bookkeeping through every thread step of ProcModel. */
module ProcHand {
  import opened Common
  import opened ProcModel
  import opened ProcLocks

  /** The place a thread returns to when it yields in between. */
  function Core(pc: Pc): Pc {
    match pc
    case Yielding(back) => back
    case Yielded(back) => back
    case _ => pc
  }

  /** The slot that a thread in kfork is setting up. */
  function Child(pc: Pc): Option<nat> {
    match Core(pc)
    case ForkHold(j) => Some(j)
    case ForkLink(j) => Some(j)
    case ForkReady(j) => Some(j)
    case _ => None
  }

  /** A slot being set up is USED, belongs to one forking thread, and its parent
      link is set exactly in kfork's last stage. */
  predicate ForkOk(s: State, p: nat)
    requires p < |s.procs|
  {
    match Child(s.procs[p].pc)
    case None => true
    case Some(j) =>
      && j < |s.procs| && j != p
      && s.procs[j].state == USED
      && s.procs[j].parent == if Core(s.procs[p].pc).ForkReady? then Some(p) else None
  }

  ghost predicate ForkInv(s: State) {
    && (forall p | 0 <= p < |s.procs| :: ForkOk(s, p))
    && (forall p, q | 0 <= p < |s.procs| && 0 <= q < |s.procs| && p != q && Child(s.procs[p].pc) != None ::
          Child(s.procs[p].pc) != Child(s.procs[q].pc))
    && (forall p | 0 <= p < |s.procs| && s.procs[p].state == UNUSED :: s.procs[p].parent == None)
  }

  ghost predicate Base(s: State) {
    !s.panicked && LockInv(s) && HandInv(s) && ForkInv(s)
  }

  lemma RunsAlone(s: State, c: nat, p: nat)
    requires Base(s) && Running(s, c, p)
    ensures At(s, c, p) && Active(s.procs[p])
  {
    forall d: nat | d < |s.cpus| && s.cpus[d].mode == Run(p)
      ensures d == c
    {
      assert On(s, d, p) && On(s, c, p);
    }
  }

  /** A thread step moves one thread and may change one other slot. */
  ghost predicate OneMoves(s: State, s': State, p: nat) {
    && |s'.procs| == |s.procs|
    && forall q | 0 <= q < |s.procs| && q != p :: s'.procs[q] == s.procs[q]
  }

  ghost predicate TwoMove(s: State, s': State, p: nat, j: nat) {
    && |s'.procs| == |s.procs|
    && forall q | 0 <= q < |s.procs| && q != p && q != j :: s'.procs[q] == s.procs[q]
  }

  lemma ForkAlone(s: State, s': State, p: nat)
    requires ForkInv(s) && p < |s.procs| && OneMoves(s, s', p)
    requires Child(s'.procs[p].pc) == Child(s.procs[p].pc)
    requires Core(s'.procs[p].pc).ForkReady? == Core(s.procs[p].pc).ForkReady?
    requires s'.procs[p].parent == s.procs[p].parent
    requires s.procs[p].state != USED && s'.procs[p].state != USED && s'.procs[p].state != UNUSED
    ensures ForkInv(s')
  {
    forall q | 0 <= q < |s'.procs|
      ensures ForkOk(s', q)
    {
      assert ForkOk(s, q);
    }
  }

  /** Slot j, not being set up by anyone, changes beside thread p. */
  lemma ForkBeside(s: State, s': State, p: nat, j: nat)
    requires ForkInv(s) && p < |s.procs| && j < |s.procs| && j != p && TwoMove(s, s', p, j)
    requires Child(s'.procs[p].pc) == Child(s.procs[p].pc) == None
    requires s'.procs[p].parent == s.procs[p].parent
    requires s.procs[p].state != USED && s'.procs[p].state != USED && s'.procs[p].state != UNUSED
    requires s'.procs[j].pc == s.procs[j].pc
    requires s.procs[j].state == USED ==> s'.procs[j].state == USED && s'.procs[j].parent == s.procs[j].parent
    requires s'.procs[j].state == UNUSED ==> s'.procs[j].parent == None
    ensures ForkInv(s')
  {
    forall q | 0 <= q < |s'.procs|
      ensures ForkOk(s', q)
    {
      assert ForkOk(s, q);
    }
  }

  // ---- free, yield, sleep ----

  lemma HandSimple(s: State, s': State, c: nat, p: nat)
    requires Base(s) && Running(s, c, p) && SameModes(s, s') && OneMoves(s, s', p) && Active(s'.procs[p])
    requires Child(s'.procs[p].pc) == Child(s.procs[p].pc)
    requires Core(s'.procs[p].pc).ForkReady? == Core(s.procs[p].pc).ForkReady?
    requires s'.procs[p].parent == s.procs[p].parent
    ensures HandInv(s') && ForkInv(s')
  {
    RunsAlone(s, c, p);
    HandThread(s, s', c, p);
    ForkAlone(s, s', p);
  }

  lemma HandParks(s: State, s': State, c: nat, p: nat)
    requires Base(s) && Running(s, c, p) && OneMoves(s, s', p) && Parked(s'.procs[p])
    requires s'.cpus == s.cpus[c := s.cpus[c].(mode := Back(p))]
    requires Child(s'.procs[p].pc) == Child(s.procs[p].pc)
    requires Core(s'.procs[p].pc).ForkReady? == Core(s.procs[p].pc).ForkReady?
    requires s'.procs[p].parent == s.procs[p].parent && s'.procs[p].state != USED && s'.procs[p].state != UNUSED
    ensures HandInv(s') && ForkInv(s')
  {
    RunsAlone(s, c, p);
    HandSched(s, s', c, p);
    ForkAlone(s, s', p);
  }

  lemma BaseFree(s: State, c: nat, p: nat, init: nat, ch: Choice)
    requires Base(s) && Running(s, c, p) && s.procs[p].pc == Free && ch != Yield && EnabledThread(s, init, c, p, ch)
    ensures Base(NextFree(s, c, p, ch))
  {
    RunsAlone(s, c, p);
    LockFree(s, c, p, init, ch);
    HandSimple(s, NextFree(s, c, p, ch), c, p);
  }

  lemma BaseYield(s: State, c: nat, p: nat, init: nat)
    requires Base(s) && Running(s, c, p) && EnabledThread(s, init, c, p, Yield)
    ensures Base(NextThread(s, init, c, p, Yield))
  {
    RunsAlone(s, c, p);
    LockYield(s, c, p, init);
    HandSimple(s, NextThread(s, init, c, p, Yield), c, p);
  }

  lemma BaseYielding(s: State, c: nat, p: nat)
    requires Base(s) && Running(s, c, p) && (s.procs[p].pc.Yielding? || s.procs[p].pc.Yielded?)
    ensures Base(NextYield(s, c, p))
  {
    RunsAlone(s, c, p);
    LockYielding(s, c, p);
    var s' := NextYield(s, c, p);
    if s.procs[p].pc.Yielding? { HandParks(s, s', c, p); } else { HandSimple(s, s', c, p); }
  }

  lemma BaseLocked(s: State, c: nat, p: nat, init: nat, ch: Choice)
    requires Base(s) && Running(s, c, p) && s.procs[p].pc.Locked? && ch != Yield
    requires EnabledThread(s, init, c, p, ch)
    ensures Base(NextThread(s, init, c, p, ch))
  {
    RunsAlone(s, c, p);
    var n := s.procs[p].pc.n;
    if ch.SleepOn? { MovePc(s, c, p, SleepStart(ch.chan, Other(n))); } else { DropPc(s, c, p, Other(n), Free); }
    HandSimple(s, NextThread(s, init, c, p, ch), c, p);
  }

  lemma BaseSleep(s: State, c: nat, p: nat, init: nat)
    requires Base(s) && Running(s, c, p) && EnabledThread(s, init, c, p, Go)
    requires var pc := s.procs[p].pc; pc.SleepStart? || pc.SleepDrop? || pc.SleepMark? || pc.Asleep? || pc.Woken?
    ensures Base(NextSleep(s, c, p))
  {
    RunsAlone(s, c, p);
    LockSleep(s, c, p, init);
    var s' := NextSleep(s, c, p);
    if s.procs[p].pc.SleepMark? { HandParks(s, s', c, p); } else { HandSimple(s, s', c, p); }
  }

  // ---- kwait ----

  /** A zombie whose lock another CPU has taken has left its kernel stack: it
      is on no CPU any more. */
  lemma ZombieParked(s: State, c: nat, p: nat, j: nat)
    requires Base(s) && Running(s, c, p) && j < |s.procs| && j != p
    requires s.procs[j].state == ZOMBIE && PL(j) in Locks(s.procs[p].pc, p)
    ensures forall d: nat :: !On(s, d, j)
    ensures Parked(s.procs[j])
  {
    CanRelease(s, c, PL(j));
    forall d: nat
      ensures !On(s, d, j)
    {
      if On(s, d, j) {
        if s.cpus[d].mode == Run(j) { assert Running(s, d, j) && Active(s.procs[j]); }
        LockedOut(s, c, d, j);
      }
    }
    assert SomeCpu(s, j) ==> exists d: nat :: On(s, d, j) by {
      if SomeCpu(s, j) { var d: nat :| Running(s, d, j); assert On(s, d, j); }
    }
  }

  lemma BaseReap(s: State, c: nat, p: nat, j: nat)
    requires Base(s) && Running(s, c, p) && s.procs[p].pc == WaitAt(j) && j < |s.procs| && j != p
    requires s.procs[j].state == ZOMBIE
    ensures Base(NextWait(s, c, p, Go))
    ensures forall d: nat :: !On(s, d, j)
  {
    RunsAlone(s, c, p);
    LockWaitAt(s, c, p, Go);
    ZombieParked(s, c, p, j);
    var s' := NextWait(s, c, p, Go);
    CanRelease(s, c, PL(j));
    forall d: nat | d < |s.cpus|
      ensures s.cpus[d].mode != Run(j)
    {
      assert !On(s, d, j);
    }
    HandThread(s, s', c, p);
    ForkBeside(s, s', p, j);
  }

  lemma BaseWait(s: State, c: nat, p: nat, init: nat, ch: Choice)
    requires Base(s) && Running(s, c, p) && EnabledThread(s, init, c, p, ch) && ch != Yield
    requires var pc := s.procs[p].pc; pc.Wait? || pc.WaitAt? || pc.WaitOut?
    ensures Base(NextWait(s, c, p, ch))
  {
    RunsAlone(s, c, p);
    LockWait(s, c, p, init, ch);
    assert PcOk(|s.procs|, p, s.procs[p].pc);
    var s' := NextWait(s, c, p, ch);
    if s.procs[p].pc.WaitAt? && s.procs[s.procs[p].pc.j].state == ZOMBIE && ch == Go {
      BaseReap(s, c, p, s.procs[p].pc.j);
    } else {
      HandSimple(s, s', c, p);
    }
  }

  // ---- kexit ----

  lemma BaseWake(s: State, c: nat, p: nat, q: nat, chan: Option<nat>, pc: Pc)
    requires Base(s) && Running(s, c, p) && q < |s.procs| && Locks(s.procs[p].pc, p) == Locks(pc, p) == {WaitLock}
    requires PcOk(|s.procs|, p, pc) && (q != p ==> CanAcquire(s, c, PL(q)))
    requires s.procs[p].state == RUNNING && pc != ExitDrop && pc != ExitSched && pc != Dead
    requires Child(pc) == Child(s.procs[p].pc) == None
    ensures Base(SetPc(WakeTurn(s, p, q, chan), p, pc))
  {
    RunsAlone(s, c, p);
    LockWake(s, c, p, q, chan, pc);
    var s' := SetPc(WakeTurn(s, p, q, chan), p, pc);
    if q != p && s.procs[q].state == SLEEPING && s.procs[q].chan == chan {
      NotRunning(s, q);
      HandThread(s, s', c, p);
      ForkBeside(s, s', p, q);
    } else {
      HandSimple(s, s', c, p);
    }
  }

  lemma BaseReparent(s: State, c: nat, p: nat, init: nat, j: nat)
    requires Base(s) && Running(s, c, p) && s.procs[p].pc == Exit(j) && j < |s.procs| && init < |s.procs|
    requires s.procs[j].parent == Some(p)
    ensures Base(NextExit(s, init, c, p))
  {
    hide LockInv, HandInv, Parked;
    RunsAlone(s, c, p);
    LockExit(s, c, p, init);
    var s' := NextExit(s, init, c, p);
    HandThread(s, s', c, p);
    forall q | 0 <= q < |s'.procs|
      ensures ForkOk(s', q)
    {
      assert ForkOk(s, q);
    }
  }

  lemma BaseExitWake(s: State, c: nat, p: nat, init: nat)
    requires Base(s) && Running(s, c, p) && EnabledThread(s, init, c, p, Go)
    requires s.procs[p].pc.ExitWake? || s.procs[p].pc.ExitParent?
    ensures Base(NextExit(s, init, c, p))
  {
    if s.procs[p].pc.q < |s.procs| {
      BaseExitTurn(s, c, p, init);
    } else {
      BaseExitDone(s, c, p, init);
    }
  }

  lemma BaseExitTurn(s: State, c: nat, p: nat, init: nat)
    requires Base(s) && Running(s, c, p) && EnabledThread(s, init, c, p, Go)
    requires s.procs[p].pc.ExitWake? || s.procs[p].pc.ExitParent?
    requires s.procs[p].pc.q < |s.procs|
    ensures Base(NextExit(s, init, c, p))
  {
    hide LockInv, HandInv, ForkInv;
    RunsAlone(s, c, p);
    var q := s.procs[p].pc.q;
    match s.procs[p].pc
    case ExitWake(j, _) => BaseWake(s, c, p, q, Some(init), ExitWake(j, q + 1));
    case ExitParent(dad, _) => BaseWake(s, c, p, q, dad, ExitParent(dad, q + 1));
  }

  lemma BaseExitDone(s: State, c: nat, p: nat, init: nat)
    requires Base(s) && Running(s, c, p) && EnabledThread(s, init, c, p, Go)
    requires s.procs[p].pc.ExitWake? || s.procs[p].pc.ExitParent?
    requires s.procs[p].pc.q >= |s.procs|
    ensures Base(NextExit(s, init, c, p))
  {
    hide LockInv, HandInv;
    RunsAlone(s, c, p);
    LockExit(s, c, p, init);
    HandSimple(s, NextExit(s, init, c, p), c, p);
  }

  lemma BaseExitSched(s: State, c: nat, p: nat, init: nat)
    requires Base(s) && Running(s, c, p) && s.procs[p].pc == ExitSched
    ensures Base(NextExit(s, init, c, p))
  {
    RunsAlone(s, c, p);
    LockExitSched(s, c, p, init);
    ParkLocks(s, SetPc(s, p, Dead), c, p);
    HandParks(s, NextExit(s, init, c, p), c, p);
  }

  lemma BaseExit(s: State, c: nat, p: nat, init: nat)
    requires Base(s) && Running(s, c, p) && EnabledThread(s, init, c, p, Go)
    requires var pc := s.procs[p].pc;
             pc.Exit? || pc.ExitWake? || pc.ExitParent? || pc.ExitMark? || pc.ExitDrop? || pc.ExitSched?
    ensures Base(NextExit(s, init, c, p))
  {
    var pc := s.procs[p].pc;
    if pc.ExitWake? || pc.ExitParent? {
      BaseExitWake(s, c, p, init);
    } else if pc.ExitSched? {
      BaseExitSched(s, c, p, init);
    } else if pc.Exit? && pc.j < |s.procs| && s.procs[pc.j].parent == Some(p) {
      BaseReparent(s, c, p, init, pc.j);
    } else {
      RunsAlone(s, c, p);
      LockExit(s, c, p, init);
      HandSimple(s, NextExit(s, init, c, p), c, p);
    }
  }

  // ---- kfork ----

  lemma BaseClaim(s: State, c: nat, p: nat, j: nat)
    requires Base(s) && Running(s, c, p) && s.procs[p].pc == Fork(j) && j < |s.procs| && CanAcquire(s, c, PL(j))
    requires s.procs[j].state == UNUSED
    ensures Base(NextFork(s, c, p, Go))
  {
    RunsAlone(s, c, p);
    NotRunning(s, j);
    LockClaim(s, c, p, j);
    var s' := NextFork(s, c, p, Go);
    assert s'.procs == Claim(s, j).procs[p := s.procs[p].(pc := ForkHold(j))];
    HandThread(s, s', c, p);
    ForkClaim(s, s', p, j);
  }

  lemma ForkClaim(s: State, s': State, p: nat, j: nat)
    requires ForkInv(s) && p < |s.procs| && j < |s.procs| && j != p && s.procs[j].state == UNUSED
    requires s.procs[p].state == RUNNING && s.procs[p].pc == Fork(j) && Child(s.procs[j].pc) == None
    requires s'.procs == s.procs[j := s.procs[j].(state := USED, pid := s.nextpid, pc := ForkRet)]
                                [p := s.procs[p].(pc := ForkHold(j))]
    ensures ForkInv(s')
  {
    hide ForkOk, Child;
    forall q | 0 <= q < |s'.procs|
      ensures ForkOk(s', q)
      ensures Child(s'.procs[q].pc) == if q == p then Some(j) else Child(s.procs[q].pc)
      ensures Child(s.procs[q].pc) != Some(j)
    {
      assert ForkOk(s, q);
      assert s.procs[j].parent == None;
      ForkClaimSlot(s, s', p, j, q);
    }
  }

  lemma ForkClaimSlot(s: State, s': State, p: nat, j: nat, q: nat)
    requires p < |s.procs| && j < |s.procs| && j != p && s.procs[j].state == UNUSED && s.procs[j].parent == None
    requires s.procs[p].state == RUNNING && s.procs[p].pc == Fork(j) && Child(s.procs[j].pc) == None
    requires s'.procs == s.procs[j := s.procs[j].(state := USED, pid := s.nextpid, pc := ForkRet)]
                                [p := s.procs[p].(pc := ForkHold(j))]
    requires q < |s.procs| && ForkOk(s, q)
    ensures ForkOk(s', q) && Child(s.procs[q].pc) != Some(j)
    ensures Child(s'.procs[q].pc) == if q == p then Some(j) else Child(s.procs[q].pc)
  {
  }

  /** The forking thread p gives slot j its next state. */
  lemma BaseForkMove(s: State, s': State, c: nat, p: nat, j: nat)
    requires Base(s) && Running(s, c, p) && LockInv(s') && !s'.panicked && SameModes(s, s')
    requires j < |s.procs| && j != p && TwoMove(s, s', p, j)
    requires Child(s.procs[p].pc) == Some(j) && Child(s'.procs[p].pc) in {None, Some(j)}
    requires s'.procs[p] == s.procs[p].(pc := s'.procs[p].pc) && Active(s'.procs[p])
    requires s'.procs[j].pc == s.procs[j].pc && Parked(s'.procs[j])
    requires s'.procs[j].state == UNUSED ==> s'.procs[j].parent == None
    requires ForkOk(s', p)
    ensures Base(s')
  {
    RunsAlone(s, c, p);
    assert ForkOk(s, p);
    NotRunning(s, j);
    HandThread(s, s', c, p);
    forall q | 0 <= q < |s'.procs|
      ensures ForkOk(s', q)
    {
      assert ForkOk(s, q);
    }
  }

  lemma BaseForkStage(s: State, c: nat, p: nat, init: nat, ch: Choice)
    requires Base(s) && Running(s, c, p) && EnabledThread(s, init, c, p, ch) && ch != Yield
    requires var pc := s.procs[p].pc; pc.ForkHold? || pc.ForkLink? || pc.ForkReady?
    ensures Base(NextFork(s, c, p, ch))
  {
    hide LockInv, HandInv, ForkInv, NextFork;
    RunsAlone(s, c, p);
    var j := s.procs[p].pc.j;
    ForkStage(s, p);
    NotRunning(s, j);
    LockFork(s, c, p, init, ch);
    if s.procs[p].pc.ForkHold? { CanRelease(s, c, PL(j)); }
    ForkMoves(s, c, p, ch, j);
    BaseForkMove(s, NextFork(s, c, p, ch), c, p, j);
  }

  lemma ForkStage(s: State, p: nat)
    requires Base(s) && p < |s.procs| && (s.procs[p].pc.ForkHold? || s.procs[p].pc.ForkLink? || s.procs[p].pc.ForkReady?)
    ensures ForkOk(s, p) && s.procs[p].pc.j < |s.procs| && s.procs[p].pc.j != p && Child(s.procs[p].pc) == Some(s.procs[p].pc.j)
    ensures s.procs[s.procs[p].pc.j].state == USED && Parked(s.procs[s.procs[p].pc.j])
  {
  }

  /** What a stage of kfork changes: where thread p stands, and slot j. */
  lemma ForkMoves(s: State, c: nat, p: nat, ch: Choice, j: nat)
    requires Running(s, c, p) && ForkOk(s, p) && Active(s.procs[p]) && !NextFork(s, c, p, ch).panicked
    requires s.procs[p].pc in {ForkHold(j), ForkLink(j), ForkReady(j)} && j < |s.procs| && j != p && Parked(s.procs[j])
    requires s.procs[j].state == USED
    ensures var s' := NextFork(s, c, p, ch);
            && SameModes(s, s') && TwoMove(s, s', p, j)
            && Child(s'.procs[p].pc) in {None, Some(j)}
            && s'.procs[p] == s.procs[p].(pc := s'.procs[p].pc) && Active(s'.procs[p])
            && s'.procs[j].pc == s.procs[j].pc && Parked(s'.procs[j])
            && (s'.procs[j].state == UNUSED ==> s'.procs[j].parent == None)
            && ForkOk(s', p)
  {
  }

  lemma BaseFork(s: State, c: nat, p: nat, init: nat, ch: Choice)
    requires Base(s) && Running(s, c, p) && EnabledThread(s, init, c, p, ch) && ch != Yield
    requires var pc := s.procs[p].pc; pc.Fork? || pc.ForkHold? || pc.ForkLink? || pc.ForkReady? || pc.ForkRet?
    ensures Base(NextFork(s, c, p, ch))
  {
    hide LockInv, HandInv, ForkInv, Locks, OneMoves, SomeCpu;
    var pc := s.procs[p].pc;
    if pc.Fork? && pc.j < |s.procs| && s.procs[pc.j].state == UNUSED {
      BaseClaim(s, c, p, pc.j);
    } else if pc.Fork? || pc.ForkRet? {
      RunsAlone(s, c, p);
      LockFork(s, c, p, init, ch);
      HandSimple(s, NextFork(s, c, p, ch), c, p);
    } else {
      BaseForkStage(s, c, p, init, ch);
    }
  }

  // ---- every step ----

  lemma BaseSched(s: State, st: Step)
    requires Base(s) && !st.Thread? && EnabledSched(s, st)
    ensures Base(NextSched(s, st))
  {
    LockSched(s, st);
    var s' := NextSched(s, st);
    match st {
      case SchedAcquire(c, p) => CanTake(s, c, PL(p)); HandSchedLoop(s, s', c);
      case SchedTurn(c) =>
        if s.procs[s.cpus[c].mode.p].state == RUNNABLE { HandRun(s, c); } else { HandSchedLoop(s, s', c); }
      case SchedBack(c) => HandSchedLoop(s, s', c);
      case Wakeup(q) => HandWakeup(s, q);
    }
    forall q | 0 <= q < |s'.procs|
      ensures ForkOk(s', q)
    {
      assert ForkOk(s, q);
    }
  }

  lemma BaseKept(s: State, init: nat, st: Step)
    requires Base(s) && Enabled(s, init, st)
    ensures Base(Next(s, init, st))
  {
    if st.Thread? {
      var c, p, ch := st.c, s.cpus[st.c].mode.p, st.choice;
      var pc := s.procs[p].pc;
      RunsAlone(s, c, p);
      if ch == Yield { BaseYield(s, c, p, init); }
      else if pc.Free? { BaseFree(s, c, p, init, ch); }
      else if pc.Yielding? || pc.Yielded? { BaseYielding(s, c, p); }
      else if pc.Locked? { BaseLocked(s, c, p, init, ch); }
      else if pc.SleepStart? || pc.SleepDrop? || pc.SleepMark? || pc.Asleep? || pc.Woken? { BaseSleep(s, c, p, init); }
      else if pc.Wait? || pc.WaitAt? || pc.WaitOut? { BaseWait(s, c, p, init, ch); }
      else if pc.Fork? || pc.ForkHold? || pc.ForkLink? || pc.ForkReady? || pc.ForkRet? { BaseFork(s, c, p, init, ch); }
      else { BaseExit(s, c, p, init); }
    } else {
      BaseSched(s, st);
    }
  }
}
