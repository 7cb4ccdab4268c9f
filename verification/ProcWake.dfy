/** No lost wakeup: a parent never sleeps in kwait on a child that has already
    become a zombie, in any interleaving of ProcModel. */
module ProcWake {
  import opened Common
  import opened ProcModel
  import opened ProcLocks
  import opened ProcHand
  import opened ProcTree

  /** Slot p has given up wait_lock inside kwait's sleep and not been woken. */
  predicate Dozing(s: State, p: nat) {
    p < |s.procs| && (
      || (s.procs[p].pc.SleepMark? && s.procs[p].pc.lk == WaitLock)
      || (s.procs[p].pc == Asleep(WaitLock) && s.procs[p].state == SLEEPING))
  }

  predicate ZombieKid(s: State, p: nat, q: nat) {
    q < |s.procs| && s.procs[q].parent == Some(p) && s.procs[q].state == ZOMBIE
  }

  ghost predicate NoZombieBelow(s: State, p: nat, j: nat) {
    forall i: nat | i < j :: !ZombieKid(s, p, i)
  }

  /** reparent has handed over a child and its wakeup(initproc) has not reached initproc yet. */
  ghost predicate Pending(s: State, init: nat) {
    exists e: nat :: WakingInit(s, init, e)
  }

  predicate WakingInit(s: State, init: nat, e: nat) {
    e < |s.procs| && e != init && s.procs[e].pc.ExitWake? && s.procs[e].pc.q <= init
  }

  /** What the places in kwait and kexit know about zombies and sleepers. */
  ghost predicate KnowsOk(s: State, p: nat)
    requires p < |s.procs|
  {
    match s.procs[p].pc
    case Wait(j, _) => NoZombieBelow(s, p, j)
    case WaitAt(j) => NoZombieBelow(s, p, j)
    case SleepStart(_, lk) => lk == WaitLock ==> NoZombieBelow(s, p, |s.procs|)
    case SleepDrop(_, lk) => lk == WaitLock ==> NoZombieBelow(s, p, |s.procs|)
    case ExitParent(dad, q) => dad.Some? && q > dad.value ==> !Dozing(s, dad.value)
    case ExitMark => s.procs[p].parent.Some? ==> !Dozing(s, s.procs[p].parent.value)
    case _ => true
  }

  ghost predicate DozeOk(s: State, init: nat, p: nat)
    requires p < |s.procs|
  {
    && (Dozing(s, p) ==> NoZombieBelow(s, p, |s.procs|) || (p == init && Pending(s, init)))
    && (s.procs[p].pc == Asleep(WaitLock) && s.procs[p].state == SLEEPING ==> s.procs[p].chan == Some(p))
  }

  ghost predicate WakeInv(s: State, init: nat) {
    forall p | 0 <= p < |s.procs| :: KnowsOk(s, p) && DozeOk(s, init, p)
  }

  // ---- steps that make nobody doze and no zombie ----

  ghost predicate NoNews(s: State, s': State) {
    && |s'.procs| == |s.procs|
    && (forall d: nat | Dozing(s', d) :: Dozing(s, d))
    && (forall d: nat, q: nat | ZombieKid(s', d, q) :: ZombieKid(s, d, q))
  }

  lemma WakeQuiet(s: State, s': State, init: nat, p: nat)
    requires WakeInv(s, init) && NoNews(s, s') && p < |s.procs|
    requires forall q | 0 <= q < |s.procs| && q != p ::
               && s'.procs[q].pc == s.procs[q].pc && s'.procs[q].chan == s.procs[q].chan
               && (s'.procs[q].state == SLEEPING ==> s.procs[q].state == SLEEPING)
               && (s.procs[q].pc == ExitMark ==> s'.procs[q].parent == s.procs[q].parent)
    requires KnowsOk(s', p) && DozeOk(s', init, p)
    requires Pending(s, init) ==> Pending(s', init) || !Dozing(s', init)
    ensures WakeInv(s', init)
  {
    forall q | 0 <= q < |s'.procs|
      ensures KnowsOk(s', q) && DozeOk(s', init, q)
    {
      assert KnowsOk(s, q) && DozeOk(s, init, q);
      if q != p {
        KeepNoZombie(s, s', q, |s.procs|);
        if s.procs[q].pc.Wait? || s.procs[q].pc.WaitAt? { KeepNoZombie(s, s', q, s.procs[q].pc.j); }
      }
    }
  }

  lemma KeepNoZombie(s: State, s': State, p: nat, j: nat)
    requires NoNews(s, s')
    ensures NoZombieBelow(s, p, j) ==> NoZombieBelow(s', p, j)
  {
  }

  lemma PendingKept(s: State, s': State, init: nat, p: nat)
    requires |s'.procs| == |s.procs| && p < |s.procs| && !s.procs[p].pc.ExitWake?
    requires forall q | 0 <= q < |s.procs| && q != p :: s'.procs[q].pc == s.procs[q].pc
    ensures Pending(s, init) ==> Pending(s', init)
  {
    if Pending(s, init) {
      var e: nat :| WakingInit(s, init, e);
      assert WakingInit(s', init, e);
    }
  }

  /** Only slot p changes; it does not start to doze and is no new zombie. */
  lemma WakeOwn(s: State, s': State, init: nat, p: nat)
    requires WakeInv(s, init) && p < |s.procs| == |s'.procs| && s'.procs == s.procs[p := s'.procs[p]]
    requires s'.procs[p].parent == s.procs[p].parent
    requires s'.procs[p].state == ZOMBIE ==> s.procs[p].state == ZOMBIE
    requires Dozing(s', p) ==> Dozing(s, p)
    requires s'.procs[p].pc == Asleep(WaitLock) && s'.procs[p].state == SLEEPING ==> s'.procs[p].chan == Some(p)
    requires !s.procs[p].pc.ExitWake? && KnowsOk(s', p)
    ensures WakeInv(s', init)
  {
    assert KnowsOk(s, p) && DozeOk(s, init, p);
    assert NoNews(s, s');
    KeepNoZombie(s, s', p, |s.procs|);
    PendingKept(s, s', init, p);
    WakeQuiet(s, s', init, p);
  }

  // ---- sleep ----

  /** sleep releases wait_lock: no child is a zombie, as the scan has found and
      nobody could change since. */
  lemma WakeDoze(s: State, s': State, init: nat, p: nat)
    requires WakeInv(s, init) && OnlyWaiter(s, p) && p < |s.procs| && s.procs[p].pc.SleepDrop? && s.procs[p].pc.lk == WaitLock
    requires s'.procs == s.procs[p := s.procs[p].(pc := SleepMark(s.procs[p].pc.chan, WaitLock))]
    ensures WakeInv(s', init)
  {
    assert KnowsOk(s, p);
    forall d: nat, q: nat
      ensures ZombieKid(s', d, q) <==> ZombieKid(s, d, q)
    {
    }
    forall q | 0 <= q < |s'.procs|
      ensures KnowsOk(s', q) && DozeOk(s', init, q)
    {
      assert KnowsOk(s, q) && DozeOk(s, init, q);
      PendingKept(s, s', init, p);
    }
  }

  lemma WakeSleep(s: State, c: nat, p: nat, init: nat)
    requires Base(s) && WakeInv(s, init) && Running(s, c, p) && EnabledThread(s, init, c, p, Go)
    requires var pc := s.procs[p].pc; pc.SleepStart? || pc.SleepDrop? || pc.SleepMark? || pc.Asleep? || pc.Woken?
    ensures WakeInv(NextSleep(s, c, p), init)
  {
    RunsAlone(s, c, p);
    assert PcOk(|s.procs|, p, s.procs[p].pc);
    assert KnowsOk(s, p);
    var pc := s.procs[p].pc;
    if pc.SleepDrop? && pc.lk == WaitLock {
      SoleWaiter(s, p);
      WakeDoze(s, NextSleep(s, c, p), init, p);
    } else {
      SleepOwn(s, c, p, init);
    }
  }

  lemma SleepOwn(s: State, c: nat, p: nat, init: nat)
    requires WakeInv(s, init) && Running(s, c, p) && s.procs[p].state == RUNNING && PcOk(|s.procs|, p, s.procs[p].pc)
    requires var pc := s.procs[p].pc;
             pc.SleepStart? || (pc.SleepDrop? && pc.lk != WaitLock) || pc.SleepMark? || pc.Asleep? || pc.Woken?
    ensures WakeInv(NextSleep(s, c, p), init)
  {
    assert KnowsOk(s, p);
    var s' := NextSleep(s, c, p);
    if s.procs[p].pc.SleepStart? { SameZombies(s, s', p, |s.procs|); }
    WakeOwn(s, s', init, p);
  }

  lemma SameZombies(s: State, s': State, p: nat, j: nat)
    requires |s'.procs| == |s.procs|
    requires forall q | 0 <= q < |s.procs| :: s'.procs[q].parent == s.procs[q].parent && s'.procs[q].state == s.procs[q].state
    ensures NoZombieBelow(s', p, j) <==> NoZombieBelow(s, p, j)
  {
    forall i: nat
      ensures ZombieKid(s', p, i) <==> ZombieKid(s, p, i)
    {
    }
  }

  // ---- free, yield, locked, fork: nothing to do with waiting ----

  lemma WakePlain(s: State, c: nat, p: nat, init: nat, ch: Choice)
    requires Base(s) && WakeInv(s, init) && Running(s, c, p) && EnabledThread(s, init, c, p, ch)
    requires var pc := s.procs[p].pc; ch == Yield || pc.Free? || pc.Yielding? || pc.Yielded? || pc.Locked?
    ensures WakeInv(NextThread(s, init, c, p, ch), init)
  {
    RunsAlone(s, c, p);
    assert PcOk(|s.procs|, p, s.procs[p].pc);
    WakeOwn(s, NextThread(s, init, c, p, ch), init, p);
  }

  // ---- kwait ----

  lemma WakeReap(s: State, s': State, init: nat, p: nat, j: nat)
    requires WakeInv(s, init) && p < |s.procs| && j < |s.procs| && j != p && s.procs[p].pc == WaitAt(j)
    requires s.procs[j].state == ZOMBIE && s.procs[j].pc == Dead
    requires s'.procs == FreeProc(s, j).procs[p := s.procs[p].(pc := WaitOut)]
    ensures WakeInv(s', init)
  {
    var t := FreeProc(s, j);
    assert KnowsOk(s, j) && DozeOk(s, init, j);
    assert NoNews(s, t);
    PendingKept(s, t, init, j);
    WakeQuiet(s, t, init, j);
    WakeOwn(t, s', init, p);
  }

  lemma WakeWait(s: State, c: nat, p: nat, init: nat, ch: Choice)
    requires Base(s) && WakeInv(s, init) && Running(s, c, p) && EnabledThread(s, init, c, p, ch) && ch != Yield
    requires var pc := s.procs[p].pc; pc.Wait? || pc.WaitAt? || pc.WaitOut?
    ensures WakeInv(NextWait(s, c, p, ch), init)
  {
    RunsAlone(s, c, p);
    var pc, s' := s.procs[p].pc, NextWait(s, c, p, ch);
    assert PcOk(|s.procs|, p, pc);
    if pc.WaitAt? && s.procs[pc.j].state == ZOMBIE && ch == Go {
      ZombieParked(s, c, p, pc.j);
      WakeReap(s, s', init, p, pc.j);
    } else {
      WaitOwn(s, c, p, init, ch);
    }
  }

  lemma WaitOwn(s: State, c: nat, p: nat, init: nat, ch: Choice)
    requires WakeInv(s, init) && Running(s, c, p) && PcOk(|s.procs|, p, s.procs[p].pc)
    requires var pc := s.procs[p].pc;
             pc.Wait? || pc.WaitOut? || (pc.WaitAt? && (s.procs[pc.j].state != ZOMBIE || ch == Fails))
    ensures WakeInv(NextWait(s, c, p, ch), init)
  {
    hide NextWait, DozeOk, PcOk;
    var s' := NextWait(s, c, p, ch);
    WaitMoves(s, c, p, ch);
    WaitKnows(s, c, p, ch);
    WakeOwn(s, s', init, p);
  }

  /** Such a step changes nothing but where thread p stands. */
  lemma WaitMoves(s: State, c: nat, p: nat, ch: Choice)
    requires Running(s, c, p) && PcOk(|s.procs|, p, s.procs[p].pc)
    requires var pc := s.procs[p].pc;
             pc.Wait? || pc.WaitOut? || (pc.WaitAt? && (s.procs[pc.j].state != ZOMBIE || ch == Fails))
    ensures var s' := NextWait(s, c, p, ch);
            && |s'.procs| == |s.procs| && s'.procs == s.procs[p := s.procs[p].(pc := s'.procs[p].pc)]
            && !s'.procs[p].pc.SleepMark? && s'.procs[p].pc != Asleep(WaitLock)
  {
  }

  lemma WaitKnows(s: State, c: nat, p: nat, ch: Choice)
    requires Running(s, c, p) && PcOk(|s.procs|, p, s.procs[p].pc) && KnowsOk(s, p)
    requires var pc := s.procs[p].pc;
             pc.Wait? || pc.WaitOut? || (pc.WaitAt? && (s.procs[pc.j].state != ZOMBIE || ch == Fails))
    ensures |NextWait(s, c, p, ch).procs| == |s.procs| && KnowsOk(NextWait(s, c, p, ch), p)
  {
    var pc, s' := s.procs[p].pc, NextWait(s, c, p, ch);
    if pc.Wait? || pc.WaitAt? {
      SameZombies(s, s', p, pc.j);
      SameZombies(s, s', p, pc.j + 1);
      SameZombies(s, s', p, |s.procs|);
    }
  }

  // ---- kexit ----

  lemma WakeReparent(s: State, s': State, init: nat, p: nat, j: nat)
    requires WakeInv(s, init) && OnlyWaiter(s, p) && p < |s.procs| && j < |s.procs|
    requires s.procs[p].pc == Exit(j) && s.procs[j].parent == Some(p)
    requires s' == SetPc(s.(procs := s.procs[j := s.procs[j].(parent := Some(init))]), p, ExitWake(j, 0))
    ensures WakeInv(s', init)
  {
    forall d: nat
      ensures Dozing(s', d) <==> Dozing(s, d)
    {
    }
    forall d: nat, q: nat | d != init
      ensures ZombieKid(s', d, q) ==> ZombieKid(s, d, q)
    {
    }
    assert p != init ==> WakingInit(s', init, p);
    forall q | 0 <= q < |s'.procs|
      ensures KnowsOk(s', q) && DozeOk(s', init, q)
    {
      assert KnowsOk(s, q) && DozeOk(s, init, q);
    }
  }

  /** One turn of a wakeup loop of the exiting thread p. */
  lemma WakeTurnKept(s: State, s': State, init: nat, p: nat, q: nat, chan: Option<nat>, pc: Pc)
    requires WakeInv(s, init) && p < |s.procs| && q < |s.procs|
    requires s' == SetPc(WakeTurn(s, p, q, chan), p, pc)
    requires !s.procs[p].pc.SleepMark? && !s.procs[p].pc.Asleep? && (pc.ExitWake? || pc.ExitParent?)
    requires KnowsOk(s', p)
    requires Pending(s, init) ==> Pending(s', init) || !Dozing(s', init)
    ensures WakeInv(s', init)
  {
    assert NoNews(s, s');
    WakeQuiet(s, s', init, p);
  }

  /** After its turn in a wakeup on its own channel, slot d does not doze. */
  lemma WokenUp(s: State, c: nat, p: nat, d: nat, init: nat, pc: Pc)
    requires Base(s) && WakeInv(s, init) && Running(s, c, p) && d < |s.procs| && d != p && PL(d) !in s.held
    ensures !Dozing(SetPc(WakeTurn(s, p, d, Some(d)), p, pc), d)
  {
    assert DozeOk(s, init, d);
    if s.procs[d].pc.SleepMark? {
      assert SomeCpu(s, d) || Parked(s.procs[d]);
      var e: nat :| Running(s, e, d);
      CanRelease(s, e, PL(d));
    }
  }

  lemma WakeInitTurn(s: State, s': State, init: nat, p: nat, j: nat, q: nat)
    requires WakeInv(s, init) && p < |s.procs| && q < |s.procs| && s.procs[p].pc == ExitWake(j, q)
    requires s' == SetPc(WakeTurn(s, p, q, Some(init)), p, ExitWake(j, q + 1))
    requires q == init && p != init ==> !Dozing(s', init)
    ensures WakeInv(s', init)
  {
    if p != init && q != init { StillPending(s, s', init, p); }
    WakeTurnKept(s, s', init, p, q, Some(init), ExitWake(j, q + 1));
  }

  lemma WakeExitWake(s: State, c: nat, p: nat, init: nat)
    requires Base(s) && WakeInv(s, init) && Running(s, c, p) && EnabledThread(s, init, c, p, Go)
    requires s.procs[p].pc.ExitWake? && s.procs[p].pc.q < |s.procs|
    ensures WakeInv(NextExit(s, init, c, p), init)
  {
    hide HandInv, ForkInv, WakeTurn, SetPc;
    var j, q := s.procs[p].pc.j, s.procs[p].pc.q;
    if q == init && p != init {
      CanTake(s, c, PL(q));
      WokenUp(s, c, p, init, init, ExitWake(j, q + 1));
    }
    WakeInitTurn(s, NextExit(s, init, c, p), init, p, j, q);
  }

  lemma StillPending(s: State, s': State, init: nat, p: nat)
    requires |s'.procs| == |s.procs| && p < |s.procs| && s.procs[p].pc.ExitWake? && s'.procs[p].pc.ExitWake?
    requires s.procs[p].pc.q != init && s'.procs[p].pc.q == s.procs[p].pc.q + 1
    requires forall q | 0 <= q < |s.procs| && q != p :: s'.procs[q].pc == s.procs[q].pc
    ensures Pending(s, init) ==> Pending(s', init)
  {
    if Pending(s, init) {
      var e: nat :| WakingInit(s, init, e);
      assert WakingInit(s', init, e);
    }
  }

  lemma WakeParentTurn(s: State, s': State, init: nat, p: nat, dad: Option<nat>, q: nat)
    requires WakeInv(s, init) && p < |s.procs| && q < |s.procs| && s.procs[p].pc == ExitParent(dad, q)
    requires s' == SetPc(WakeTurn(s, p, q, dad), p, ExitParent(dad, q + 1))
    requires dad == Some(q) ==> !Dozing(s', q)
    ensures WakeInv(s', init)
  {
    assert KnowsOk(s, p);
    PendingKept(s, s', init, p);
    WakeTurnKept(s, s', init, p, q, dad, ExitParent(dad, q + 1));
  }

  lemma ParentIsOther(s: State, init: nat, p: nat)
    requires TreeInv(s, init) && p < |s.procs|
    ensures s.procs[p].pc.ExitParent? ==> s.procs[p].pc.dad != Some(p)
  {
    assert SlotOk(s, init, p);
  }

  lemma WakeExitParent(s: State, c: nat, p: nat, init: nat)
    requires Base(s) && WakeInv(s, init) && Running(s, c, p) && EnabledThread(s, init, c, p, Go)
    requires s.procs[p].pc.ExitParent? && s.procs[p].pc.q < |s.procs| && s.procs[p].pc.dad != Some(p)
    ensures WakeInv(NextExit(s, init, c, p), init)
  {
    hide HandInv, ForkInv, WakeTurn, SetPc;
    var dad, q := s.procs[p].pc.dad, s.procs[p].pc.q;
    if dad == Some(q) {
      CanTake(s, c, PL(q));
      WokenUp(s, c, p, q, init, ExitParent(dad, q + 1));
    }
    WakeParentTurn(s, NextExit(s, init, c, p), init, p, dad, q);
  }

  lemma WakeZombie(s: State, s': State, init: nat, p: nat)
    requires WakeInv(s, init) && OnlyWaiter(s, p) && p < |s.procs| && s.procs[p].pc == ExitMark
    requires s.procs[p].state == RUNNING
    requires s' == SetPc(SetState(s, p, ZOMBIE), p, ExitDrop)
    ensures WakeInv(s', init)
  {
    assert KnowsOk(s, p);
    PendingKept(s, s', init, p);
    forall d: nat
      ensures Dozing(s', d) <==> Dozing(s, d)
    {
    }
    forall q | 0 <= q < |s'.procs|
      ensures KnowsOk(s', q) && DozeOk(s', init, q)
    {
      assert KnowsOk(s, q) && DozeOk(s, init, q);
      ZombieNews(s, s', p, q);
    }
  }

  lemma ZombieNews(s: State, s': State, p: nat, d: nat)
    requires p < |s.procs| && s' == SetPc(SetState(s, p, ZOMBIE), p, ExitDrop)
    ensures s.procs[p].parent != Some(d) && NoZombieBelow(s, d, |s.procs|) ==> NoZombieBelow(s', d, |s.procs|)
  {
    forall i: nat | s.procs[p].parent != Some(d)
      ensures ZombieKid(s', d, i) ==> ZombieKid(s, d, i)
    {
    }
  }

  lemma WakeExit(s: State, c: nat, p: nat, init: nat)
    requires Base(s) && TreeInv(s, init) && WakeInv(s, init) && Running(s, c, p) && EnabledThread(s, init, c, p, Go)
    requires var pc := s.procs[p].pc;
             pc.Exit? || pc.ExitWake? || pc.ExitParent? || pc.ExitMark? || pc.ExitDrop? || pc.ExitSched?
    ensures WakeInv(NextExit(s, init, c, p), init)
  {
    var pc := s.procs[p].pc;
    RunsAlone(s, c, p);
    if pc.Exit? && pc.j < |s.procs| && s.procs[pc.j].parent == Some(p) {
      SoleWaiter(s, p);
      WakeReparent(s, NextExit(s, init, c, p), init, p, pc.j);
    } else if pc.ExitMark? {
      SoleWaiter(s, p);
      WakeZombie(s, NextExit(s, init, c, p), init, p);
    } else if pc.ExitWake? && pc.q < |s.procs| {
      WakeExitWake(s, c, p, init);
    } else if pc.ExitParent? && pc.q < |s.procs| {
      ParentIsOther(s, init, p);
      WakeExitParent(s, c, p, init);
    } else {
      ExitOwn(s, c, p, init);
    }
  }

  lemma ExitOwn(s: State, c: nat, p: nat, init: nat)
    requires TreeInv(s, init) && WakeInv(s, init) && Running(s, c, p) && Active(s.procs[p])
    requires var pc := s.procs[p].pc;
             || (pc.Exit? && (pc.j < |s.procs| ==> s.procs[pc.j].parent != Some(p)))
             || ((pc.ExitWake? || pc.ExitParent?) && pc.q >= |s.procs|)
             || pc.ExitDrop? || pc.ExitSched?
    ensures WakeInv(NextExit(s, init, c, p), init)
  {
    hide PidOk, DozeOk;
    var s' := NextExit(s, init, c, p);
    if s.procs[p].pc.ExitWake? {
      WakeLoopDone(s, s', init, p);
    } else {
      assert PlaceOk(s, init, p) && ParentOk(s, init, p) by { assert SlotOk(s, init, p); }
      ExitStays(s, c, p, init);
      WakeOwn(s, s', init, p);
    }
  }

  /** Such a step of kexit neither dozes nor makes a zombie. */
  lemma ExitStays(s: State, c: nat, p: nat, init: nat)
    requires Running(s, c, p) && Active(s.procs[p]) && KnowsOk(s, p) && PlaceOk(s, init, p) && ParentOk(s, init, p)
    requires var pc := s.procs[p].pc;
             || (pc.Exit? && (pc.j < |s.procs| ==> s.procs[pc.j].parent != Some(p)))
             || (pc.ExitParent? && pc.q >= |s.procs|)
             || pc.ExitDrop? || pc.ExitSched?
    ensures var s' := NextExit(s, init, c, p);
            && |s'.procs| == |s.procs| && s'.procs == s.procs[p := s'.procs[p]]
            && s'.procs[p].parent == s.procs[p].parent
            && (s'.procs[p].state == ZOMBIE ==> s.procs[p].state == ZOMBIE)
            && !Dozing(s', p) && s'.procs[p].pc != Asleep(WaitLock) && KnowsOk(s', p)
  {
  }

  lemma WakeLoopDone(s: State, s': State, init: nat, p: nat)
    requires WakeInv(s, init) && init < |s.procs| && p < |s.procs| && s.procs[p].pc.ExitWake? && s.procs[p].pc.q >= |s.procs|
    requires s' == SetPc(s, p, Exit(s.procs[p].pc.j + 1))
    ensures WakeInv(s', init)
  {
    assert NoNews(s, s');
    if Pending(s, init) {
      var e: nat :| WakingInit(s, init, e);
      assert WakingInit(s', init, e);
    }
    WakeQuiet(s, s', init, p);
  }

  // ---- kfork ----

  lemma WakeClaim(s: State, s': State, init: nat, p: nat, j: nat)
    requires WakeInv(s, init) && p < |s.procs| && j < |s.procs| && j != p
    requires s.procs[p].pc == Fork(j) && s.procs[j].state == UNUSED && Parked(s.procs[j])
    requires s'.procs == Claim(s, j).procs[p := s.procs[p].(pc := ForkHold(j))]
    ensures WakeInv(s', init)
  {
    WakeOwn(s, Claim(s, j), init, j);
    WakeOwn(Claim(s, j), s', init, p);
  }

  /** The forking thread changes state or parent of the USED slot j. */
  lemma WakeForkMove(s: State, s': State, init: nat, p: nat, j: nat)
    requires WakeInv(s, init) && p < |s.procs| && j < |s.procs| == |s'.procs| && j != p
    requires s.procs[j].state == USED && Parked(s.procs[j]) && s'.procs[j].state != ZOMBIE && s'.procs[j].pc == ForkRet
    requires s'.procs == s.procs[j := s'.procs[j]][p := s.procs[p].(pc := s'.procs[p].pc)]
    requires var pc := s.procs[p].pc; pc.ForkHold? || pc.ForkLink? || pc.ForkReady?
    requires var pc := s'.procs[p].pc; pc.Free? || pc.ForkLink? || pc.ForkReady?
    ensures WakeInv(s', init)
  {
    var t := s.(procs := s.procs[j := s'.procs[j]]);
    assert KnowsOk(s, j) && DozeOk(s, init, j);
    assert NoNews(s, t);
    PendingKept(s, t, init, j);
    WakeQuiet(s, t, init, j);
    WakeOwn(t, s', init, p);
  }

  lemma WakeFork(s: State, c: nat, p: nat, init: nat, ch: Choice)
    requires Base(s) && WakeInv(s, init) && Running(s, c, p) && EnabledThread(s, init, c, p, ch) && ch != Yield
    requires var pc := s.procs[p].pc; pc.Fork? || pc.ForkHold? || pc.ForkLink? || pc.ForkReady? || pc.ForkRet?
    ensures WakeInv(NextFork(s, c, p, ch), init)
  {
    RunsAlone(s, c, p);
    var pc := s.procs[p].pc;
    assert PcOk(|s.procs|, p, pc) && ForkOk(s, p);
    if pc.Fork? && pc.j < |s.procs| && s.procs[pc.j].state == UNUSED {
      NotRunning(s, pc.j);
      WakeClaim(s, NextFork(s, c, p, ch), init, p, pc.j);
    } else if pc.Fork? || pc.ForkRet? {
      ForkOwn(s, c, p, init, ch);
    } else {
      NotRunning(s, pc.j);
      if pc.ForkLink? { CanTake(s, c, WaitLock); }
      if pc.ForkReady? { CanTake(s, c, PL(pc.j)); }
      WakeForkMove(s, NextFork(s, c, p, ch), init, p, pc.j);
    }
  }

  lemma ForkOwn(s: State, c: nat, p: nat, init: nat, ch: Choice)
    requires WakeInv(s, init) && Running(s, c, p)
    requires var pc := s.procs[p].pc; pc.ForkRet? || (pc.Fork? && (pc.j < |s.procs| ==> s.procs[pc.j].state != UNUSED))
    ensures WakeInv(NextFork(s, c, p, ch), init)
  {
    WakeOwn(s, NextFork(s, c, p, ch), init, p);
  }

  // ---- every step ----

  lemma WakeSched(s: State, init: nat, st: Step)
    requires WakeInv(s, init) && !st.Thread? && EnabledSched(s, st)
    ensures WakeInv(NextSched(s, st), init)
  {
    var s' := NextSched(s, st);
    var p := if st.SchedTurn? then s.cpus[st.c].mode.p else if st.Wakeup? then st.q else 0;
    if p < |s.procs| && s'.procs[p] != s.procs[p] {
      assert KnowsOk(s, p);
      SchedSlot(s, s', init, p);
    } else {
      SchedSame(s, s', init);
    }
  }

  lemma SchedSlot(s: State, s': State, init: nat, p: nat)
    requires WakeInv(s, init) && p < |s.procs| == |s'.procs| && s'.procs == s.procs[p := s'.procs[p]]
    requires s'.procs[p] == s.procs[p].(state := s'.procs[p].state)
    requires (s.procs[p].state == SLEEPING && s'.procs[p].state == RUNNABLE)
          || (s.procs[p].state == RUNNABLE && s'.procs[p].state == RUNNING)
    ensures WakeInv(s', init)
  {
    assert KnowsOk(s, p) && DozeOk(s, init, p);
    forall d: nat, q: nat
      ensures ZombieKid(s', d, q) <==> ZombieKid(s, d, q)
    {
    }
    forall d: nat
      ensures Dozing(s', d) ==> Dozing(s, d)
    {
    }
    forall e: nat
      ensures WakingInit(s', init, e) <==> WakingInit(s, init, e)
    {
    }
    forall q | 0 <= q < |s'.procs|
      ensures KnowsOk(s', q) && DozeOk(s', init, q)
    {
      assert KnowsOk(s, q) && DozeOk(s, init, q);
    }
  }

  lemma SchedSame(s: State, s': State, init: nat)
    requires WakeInv(s, init) && s'.procs == s.procs
    ensures WakeInv(s', init)
  {
    forall d: nat, q: nat
      ensures (ZombieKid(s', d, q) <==> ZombieKid(s, d, q)) && (WakingInit(s', init, q) <==> WakingInit(s, init, q))
      ensures Dozing(s', d) <==> Dozing(s, d)
    {
    }
    forall q | 0 <= q < |s'.procs|
      ensures KnowsOk(s', q) && DozeOk(s', init, q)
    {
      assert KnowsOk(s, q) && DozeOk(s, init, q);
    }
  }

  lemma WakeKept(s: State, init: nat, st: Step)
    requires Base(s) && TreeInv(s, init) && WakeInv(s, init) && Enabled(s, init, st)
    ensures WakeInv(Next(s, init, st), init)
  {
    if st.Thread? {
      var c, p, ch := st.c, s.cpus[st.c].mode.p, st.choice;
      var pc := s.procs[p].pc;
      RunsAlone(s, c, p);
      if ch == Yield || pc.Free? || pc.Yielding? || pc.Yielded? || pc.Locked? { WakePlain(s, c, p, init, ch); }
      else if pc.SleepStart? || pc.SleepDrop? || pc.SleepMark? || pc.Asleep? || pc.Woken? { WakeSleep(s, c, p, init); }
      else if pc.Wait? || pc.WaitAt? || pc.WaitOut? { WakeWait(s, c, p, init, ch); }
      else if pc.Fork? || pc.ForkHold? || pc.ForkLink? || pc.ForkReady? || pc.ForkRet? { WakeFork(s, c, p, init, ch); }
      else { WakeExit(s, c, p, init); }
    } else {
      WakeSched(s, init, st);
    }
  }
}
