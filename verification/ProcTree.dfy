/** The process tree of ProcModel: parents, pids and what kwait returns, through
    every step and therefore in every run. */
module ProcTree {
  import opened Common
  import opened ProcModel
  import opened ProcLocks
  import opened ProcHand

  predicate Living(st: ProcState) { st == RUNNING || st == RUNNABLE || st == SLEEPING }

  /** A parent link points to a living process with a smaller pid. Only initproc
      can keep children when it exits. */
  predicate ParentOk(s: State, init: nat, q: nat)
    requires q < |s.procs|
  {
    match s.procs[q].parent
    case None => true
    case Some(d) =>
      d < |s.procs| && s.procs[d].pid < s.procs[q].pid && (Living(s.procs[d].state) || d == init)
  }

  /** kexit has moved the children with slots below j over to initproc. */
  ghost predicate NoChildBelow(s: State, p: nat, j: nat) {
    forall i | 0 <= i < |s.procs| && i < j :: s.procs[i].parent != Some(p)
  }

  /** What each place in kwait, kexit and kfork knows about the tree. */
  ghost predicate PlaceOk(s: State, init: nat, p: nat)
    requires p < |s.procs|
  {
    match s.procs[p].pc
    case WaitAt(j) => j < |s.procs| && s.procs[j].parent == Some(p)
    case Exit(j) => p != init ==> NoChildBelow(s, p, j)
    case ExitWake(j, _) => p != init ==> NoChildBelow(s, p, j + 1)
    case ExitParent(dad, _) => dad == s.procs[p].parent && (p != init ==> NoChildBelow(s, p, |s.procs|))
    case ExitMark => p != init ==> NoChildBelow(s, p, |s.procs|)
    case _ => true
  }

  predicate ForkPid(s: State, p: nat)
    requires p < |s.procs|
  {
    match Child(s.procs[p].pc)
    case Some(j) => j < |s.procs| && s.procs[p].pid < s.procs[j].pid
    case None => true
  }

  predicate PidOk(s: State, init: nat, q: nat)
    requires q < |s.procs| && init < |s.procs|
  {
    s.procs[q].state != UNUSED ==>
      && 1 <= s.procs[q].pid < s.nextpid
      && (q != init ==> s.procs[init].pid < s.procs[q].pid)
      && s.procs[q].pid !in s.reaped
  }

  /** Everything the invariant says about slot q by itself. */
  ghost predicate SlotOk(s: State, init: nat, q: nat)
    requires q < |s.procs| && init < |s.procs|
  {
    ParentOk(s, init, q) && PlaceOk(s, init, q) && ForkPid(s, q) && PidOk(s, init, q)
  }

  /** Pids of occupied slots are distinct, and no kwait returned the same pid as
      another one did. */
  ghost predicate PidsApart(s: State) {
    && (forall p, q | 0 <= p < q < |s.procs| && s.procs[p].state != UNUSED && s.procs[q].state != UNUSED ::
          s.procs[p].pid != s.procs[q].pid)
    && NoDup(s.reaped)
    && (forall i | 0 <= i < |s.reaped| :: s.reaped[i] < s.nextpid)
  }

  ghost predicate TreeInv(s: State, init: nat) {
    && init < |s.procs|
    && s.procs[init].parent == None && s.procs[init].state != UNUSED && s.procs[init].state != USED
    && (forall q | 0 <= q < |s.procs| :: SlotOk(s, init, q))
    && PidsApart(s)
  }

  // ---- who holds wait_lock ----

  /** Only one thread stands at a place that holds wait_lock. */
  lemma OneWaiter(s: State, p: nat, q: nat)
    requires Base(s) && p < |s.procs| && q < |s.procs|
    requires WaitLock in Locks(s.procs[p].pc, p) && WaitLock in Locks(s.procs[q].pc, q)
    ensures p == q
  {
    var c := HolderOf(s, p);
    var d := HolderOf(s, q);
  }

  lemma HolderOf(s: State, p: nat) returns (c: nat)
    requires Base(s) && p < |s.procs| && WaitLock in Locks(s.procs[p].pc, p)
    ensures Running(s, c, p) && Owns(s, c, WaitLock)
  {
    assert SomeCpu(s, p) || Parked(s.procs[p]);
    c :| Running(s, c, p);
    CanRelease(s, c, WaitLock);
  }

  // ---- steps that leave the tree alone ----

  ghost predicate SameTree(s: State, s': State) {
    && |s'.procs| == |s.procs| && s'.nextpid == s.nextpid && s'.reaped == s.reaped
    && forall q | 0 <= q < |s.procs| ::
         && s'.procs[q].parent == s.procs[q].parent && s'.procs[q].pid == s.procs[q].pid
         && (s'.procs[q].state == s.procs[q].state || (Living(s.procs[q].state) && Living(s'.procs[q].state)))
  }

  lemma TreeQuiet(s: State, s': State, init: nat, p: nat)
    requires TreeInv(s, init) && SameTree(s, s') && p < |s.procs|
    requires forall q | 0 <= q < |s.procs| && q != p :: s'.procs[q].pc == s.procs[q].pc
    requires PlaceOk(s', init, p) && ForkPid(s', p)
    ensures TreeInv(s', init)
  {
    forall q | 0 <= q < |s.procs|
      ensures SlotOk(s', init, q)
    {
      assert SlotOk(s, init, q);
      if q != p { QuietPlace(s, s', init, q); }
    }
  }

  lemma QuietPlace(s: State, s': State, init: nat, q: nat)
    requires SameTree(s, s') && q < |s.procs| && s'.procs[q].pc == s.procs[q].pc
    requires PlaceOk(s, init, q)
    ensures PlaceOk(s', init, q)
  {
  }

  /** No thread but p's stands at a place that holds wait_lock. */
  ghost predicate OnlyWaiter(s: State, p: nat) {
    forall q | 0 <= q < |s.procs| && q != p :: WaitLock !in Locks(s.procs[q].pc, q)
  }

  lemma SoleWaiter(s: State, p: nat)
    requires Base(s) && p < |s.procs| && WaitLock in Locks(s.procs[p].pc, p)
    ensures OnlyWaiter(s, p)
  {
    forall q | 0 <= q < |s.procs| && q != p
      ensures WaitLock !in Locks(s.procs[q].pc, q)
    {
      if WaitLock in Locks(s.procs[q].pc, q) { OneWaiter(s, p, q); }
    }
  }

  lemma NoWaiter(s: State, p: nat)
    requires Base(s) && p < |s.procs| && WaitLock !in s.held && WaitLock !in Locks(s.procs[p].pc, p)
    ensures OnlyWaiter(s, p)
  {
    forall q | 0 <= q < |s.procs| && q != p
      ensures WaitLock !in Locks(s.procs[q].pc, q)
    {
      if WaitLock in Locks(s.procs[q].pc, q) { var d := HolderOf(s, q); }
    }
  }

  // ---- steps that change the tree ----

  lemma ReapSlot(s: State, s': State, init: nat, p: nat, j: nat, q: nat)
    requires p < |s.procs| && j < |s.procs| && q < |s.procs| && init < |s.procs| && j != p && j != init
    requires SlotOk(s, init, q) && SlotOk(s, init, j) && ForkOk(s, q)
    requires q != p ==> WaitLock !in Locks(s.procs[q].pc, q)
    requires q != j && s.procs[q].state != UNUSED && s.procs[j].state != UNUSED ==> s.procs[q].pid != s.procs[j].pid
    requires s.procs[p].pc == WaitAt(j) && s.procs[p].state == RUNNING && s.procs[j].state == ZOMBIE
    requires s'.procs == FreeProc(s, j).procs[p := s.procs[p].(pc := WaitOut)]
    requires s'.reaped == s.reaped + [s.procs[j].pid] && s'.nextpid == s.nextpid
    ensures SlotOk(s', init, q)
  {
  }

  lemma ReapTree(s: State, s': State, init: nat, p: nat, j: nat)
    requires TreeInv(s, init) && ForkInv(s) && OnlyWaiter(s, p) && p < |s.procs| && j < |s.procs| && j != p
    requires s.procs[p].pc == WaitAt(j) && s.procs[p].state == RUNNING && s.procs[j].state == ZOMBIE
    requires s'.procs == FreeProc(s, j).procs[p := s.procs[p].(pc := WaitOut)]
    requires s'.reaped == s.reaped + [s.procs[j].pid] && s'.nextpid == s.nextpid
    ensures TreeInv(s', init)
  {
    assert SlotOk(s, init, p) && SlotOk(s, init, j);
    forall q | 0 <= q < |s.procs|
      ensures SlotOk(s', init, q)
    {
      assert SlotOk(s, init, q) && ForkOk(s, q);
      ReapSlot(s, s', init, p, j, q);
    }
    assert PidsApart(s');
  }

  lemma ReparentSlot(s: State, s': State, init: nat, p: nat, j: nat, q: nat)
    requires p < |s.procs| && j < |s.procs| && q < |s.procs| && init < |s.procs| && j != init
    requires SlotOk(s, init, q) && SlotOk(s, init, j) && SlotOk(s, init, p) && s.procs[j].state != UNUSED
    requires q != p ==> WaitLock !in Locks(s.procs[q].pc, q)
    requires s.procs[p].pc == Exit(j) && s.procs[j].parent == Some(p)
    requires s' == SetPc(s.(procs := s.procs[j := s.procs[j].(parent := Some(init))]), p, ExitWake(j, 0))
    ensures SlotOk(s', init, q)
  {
  }

  lemma ReparentTree(s: State, s': State, init: nat, p: nat, j: nat)
    requires TreeInv(s, init) && ForkInv(s) && OnlyWaiter(s, p) && p < |s.procs| && j < |s.procs|
    requires s.procs[p].pc == Exit(j) && s.procs[j].parent == Some(p)
    requires s' == SetPc(s.(procs := s.procs[j := s.procs[j].(parent := Some(init))]), p, ExitWake(j, 0))
    ensures TreeInv(s', init)
  {
    assert SlotOk(s, init, p) && SlotOk(s, init, j);
    forall q | 0 <= q < |s.procs|
      ensures SlotOk(s', init, q)
    {
      assert SlotOk(s, init, q);
      ReparentSlot(s, s', init, p, j, q);
    }
  }

  lemma ZombieSlot(s: State, s': State, init: nat, p: nat, q: nat)
    requires p < |s.procs| && q < |s.procs| && init < |s.procs|
    requires SlotOk(s, init, q) && SlotOk(s, init, p)
    requires s.procs[p].pc == ExitMark && s.procs[p].state == RUNNING
    requires s' == SetPc(SetState(s, p, ZOMBIE), p, ExitDrop)
    ensures SlotOk(s', init, q)
  {
  }

  lemma ZombieTree(s: State, s': State, init: nat, p: nat)
    requires TreeInv(s, init) && p < |s.procs| && s.procs[p].pc == ExitMark && s.procs[p].state == RUNNING
    requires s' == SetPc(SetState(s, p, ZOMBIE), p, ExitDrop)
    ensures TreeInv(s', init)
  {
    assert SlotOk(s, init, p);
    forall q | 0 <= q < |s.procs|
      ensures SlotOk(s', init, q)
    {
      assert SlotOk(s, init, q);
      ZombieSlot(s, s', init, p, q);
    }
  }

  lemma ClaimSlot(s: State, s': State, init: nat, p: nat, j: nat, q: nat)
    requires p < |s.procs| && j < |s.procs| && q < |s.procs| && init < |s.procs| && j != p && j != init
    requires SlotOk(s, init, q) && SlotOk(s, init, p) && ForkOk(s, q) && PidOk(s, init, init) && s.procs[init].state != UNUSED
    requires forall i | 0 <= i < |s.reaped| :: s.reaped[i] < s.nextpid
    requires s.procs[p].pc == Fork(j) && s.procs[p].state == RUNNING && s.procs[j].state == UNUSED && Parked(s.procs[j])
    requires s.procs[j].parent == None
    requires s'.procs == Claim(s, j).procs[p := s.procs[p].(pc := ForkHold(j))]
    requires s'.nextpid == s.nextpid + 1 && s'.reaped == s.reaped
    ensures SlotOk(s', init, q)
  {
  }

  lemma ClaimTree(s: State, s': State, init: nat, p: nat, j: nat)
    requires TreeInv(s, init) && ForkInv(s) && p < |s.procs| && j < |s.procs| && j != p
    requires s.procs[p].pc == Fork(j) && s.procs[p].state == RUNNING && s.procs[j].state == UNUSED && Parked(s.procs[j])
    requires s'.procs == Claim(s, j).procs[p := s.procs[p].(pc := ForkHold(j))]
    requires s'.nextpid == s.nextpid + 1 && s'.reaped == s.reaped
    ensures TreeInv(s', init)
  {
    assert SlotOk(s, init, p) && SlotOk(s, init, init);
    forall q | 0 <= q < |s.procs|
      ensures SlotOk(s', init, q)
    {
      assert SlotOk(s, init, q) && ForkOk(s, q);
      ClaimSlot(s, s', init, p, j, q);
    }
    ClaimApart(s, s', init, p, j);
  }

  lemma ClaimApart(s: State, s': State, init: nat, p: nat, j: nat)
    requires TreeInv(s, init) && p < |s.procs| && j < |s.procs| && j != p && s.procs[j].state == UNUSED
    requires s'.procs == Claim(s, j).procs[p := s.procs[p].(pc := ForkHold(j))]
    requires s'.nextpid == s.nextpid + 1 && s'.reaped == s.reaped
    ensures PidsApart(s')
  {
    forall q | 0 <= q < |s.procs| && s.procs[q].state != UNUSED
      ensures s.procs[q].pid < s.nextpid
    {
      assert SlotOk(s, init, q);
    }
  }

  lemma ForkFailsSlot(s: State, s': State, init: nat, p: nat, j: nat, q: nat)
    requires p < |s.procs| && j < |s.procs| && q < |s.procs| && init < |s.procs| && j != p && j != init
    requires SlotOk(s, init, q) && ForkOk(s, q) && (q != p ==> Child(s.procs[q].pc) != Some(j))
    requires s.procs[p].pc == ForkHold(j) && s.procs[p].state == RUNNING && s.procs[j].state == USED && Parked(s.procs[j])
    requires s'.procs == FreeProc(s, j).procs[p := s.procs[p].(pc := Free)]
    requires s'.nextpid == s.nextpid && s'.reaped == s.reaped
    requires s.procs[j].parent == None
    ensures SlotOk(s', init, q)
  {
  }

  /** Freeing a slot that was never made RUNNABLE. */
  lemma ForkFailsTree(s: State, s': State, init: nat, p: nat, j: nat)
    requires TreeInv(s, init) && ForkInv(s) && p < |s.procs|
    requires s.procs[p].pc == ForkHold(j) && s.procs[p].state == RUNNING && ForkOk(s, p) && Parked(s.procs[j])
    requires s'.procs == FreeProc(s, j).procs[p := s.procs[p].(pc := Free)]
    requires s'.nextpid == s.nextpid && s'.reaped == s.reaped
    ensures TreeInv(s', init)
  {
    assert Child(s.procs[p].pc) == Some(j);
    forall q | 0 <= q < |s.procs|
      ensures SlotOk(s', init, q)
    {
      assert SlotOk(s, init, q) && ForkOk(s, q);
      ForkFailsSlot(s, s', init, p, j, q);
    }
  }

  lemma LinkSlot(s: State, s': State, init: nat, p: nat, j: nat, q: nat)
    requires p < |s.procs| && q < |s.procs| && init < |s.procs|
    requires SlotOk(s, init, q) && SlotOk(s, init, p) && ForkOk(s, p) && (q != p ==> WaitLock !in Locks(s.procs[q].pc, q))
    requires s.procs[p].pc == ForkLink(j) && s.procs[p].state == RUNNING
    requires s' == SetPc(s.(procs := s.procs[j := s.procs[j].(parent := Some(p))]), p, ForkReady(j))
    ensures SlotOk(s', init, q)
  {
  }

  lemma LinkTree(s: State, s': State, init: nat, p: nat, j: nat)
    requires TreeInv(s, init) && OnlyWaiter(s, p) && p < |s.procs|
    requires s.procs[p].pc == ForkLink(j) && s.procs[p].state == RUNNING && ForkOk(s, p)
    requires s' == SetPc(s.(procs := s.procs[j := s.procs[j].(parent := Some(p))]), p, ForkReady(j))
    ensures TreeInv(s', init)
  {
    assert SlotOk(s, init, p);
    forall q | 0 <= q < |s.procs|
      ensures SlotOk(s', init, q)
    {
      assert SlotOk(s, init, q);
      LinkSlot(s, s', init, p, j, q);
    }
  }

  lemma ReadySlot(s: State, s': State, init: nat, p: nat, j: nat, q: nat)
    requires p < |s.procs| && q < |s.procs| && init < |s.procs| && SlotOk(s, init, q) && ForkOk(s, p)
    requires s.procs[p].pc == ForkReady(j)
    requires s' == SetPc(SetState(s, j, RUNNABLE), p, Free)
    ensures SlotOk(s', init, q)
  {
  }

  lemma ReadyTree(s: State, s': State, init: nat, p: nat, j: nat)
    requires TreeInv(s, init) && p < |s.procs| && s.procs[p].pc == ForkReady(j) && ForkOk(s, p)
    requires s' == SetPc(SetState(s, j, RUNNABLE), p, Free)
    ensures TreeInv(s', init)
  {
    forall q | 0 <= q < |s.procs|
      ensures SlotOk(s', init, q)
    {
      assert SlotOk(s, init, q);
      ReadySlot(s, s', init, p, j, q);
    }
  }

  // ---- every thread step ----

  lemma TreeReap(s: State, c: nat, p: nat, init: nat, j: nat)
    requires Base(s) && TreeInv(s, init) && Running(s, c, p)
    requires s.procs[p].pc == WaitAt(j) && j < |s.procs| && s.procs[j].state == ZOMBIE
    ensures TreeInv(NextWait(s, c, p, Go), init)
  {
    RunsAlone(s, c, p);
    SoleWaiter(s, p);
    ReapTree(s, NextWait(s, c, p, Go), init, p, j);
  }

  lemma TreeReparent(s: State, c: nat, p: nat, init: nat, j: nat)
    requires Base(s) && TreeInv(s, init) && Running(s, c, p)
    requires s.procs[p].pc == Exit(j) && j < |s.procs| && s.procs[j].parent == Some(p)
    ensures TreeInv(NextExit(s, init, c, p), init)
  {
    SoleWaiter(s, p);
    ReparentTree(s, NextExit(s, init, c, p), init, p, j);
  }

  lemma TreeZombie(s: State, c: nat, p: nat, init: nat)
    requires Base(s) && TreeInv(s, init) && Running(s, c, p) && s.procs[p].pc == ExitMark
    ensures TreeInv(NextExit(s, init, c, p), init)
  {
    RunsAlone(s, c, p);
    ZombieTree(s, NextExit(s, init, c, p), init, p);
  }

  lemma TreeClaim(s: State, c: nat, p: nat, init: nat, j: nat)
    requires Base(s) && TreeInv(s, init) && Running(s, c, p)
    requires s.procs[p].pc == Fork(j) && j < |s.procs| && s.procs[j].state == UNUSED
    ensures TreeInv(NextFork(s, c, p, Go), init)
  {
    RunsAlone(s, c, p);
    NotRunning(s, j);
    ClaimTree(s, NextFork(s, c, p, Go), init, p, j);
  }

  lemma TreeForkFails(s: State, c: nat, p: nat, init: nat, j: nat)
    requires Base(s) && TreeInv(s, init) && Running(s, c, p) && s.procs[p].pc == ForkHold(j)
    ensures TreeInv(NextFork(s, c, p, Fails), init)
  {
    RunsAlone(s, c, p);
    assert ForkOk(s, p);
    NotRunning(s, j);
    ForkFailsTree(s, NextFork(s, c, p, Fails), init, p, j);
  }

  lemma TreeLink(s: State, c: nat, p: nat, init: nat, j: nat)
    requires Base(s) && TreeInv(s, init) && Running(s, c, p) && s.procs[p].pc == ForkLink(j) && WaitLock !in s.held
    ensures TreeInv(NextFork(s, c, p, Go), init)
  {
    RunsAlone(s, c, p);
    assert ForkOk(s, p);
    NoWaiter(s, p);
    LinkTree(s, NextFork(s, c, p, Go), init, p, j);
  }

  lemma TreeReady(s: State, c: nat, p: nat, init: nat, j: nat)
    requires Base(s) && TreeInv(s, init) && Running(s, c, p) && s.procs[p].pc == ForkReady(j) && PL(j) !in s.held
    ensures TreeInv(NextFork(s, c, p, Go), init)
  {
    assert ForkOk(s, p);
    ReadyTree(s, NextFork(s, c, p, Go), init, p, j);
  }

  lemma TreeFork(s: State, c: nat, p: nat, init: nat, ch: Choice)
    requires Base(s) && TreeInv(s, init) && Running(s, c, p) && EnabledThread(s, init, c, p, ch) && ch != Yield
    requires var pc := s.procs[p].pc; pc.Fork? || pc.ForkHold? || pc.ForkLink? || pc.ForkReady? || pc.ForkRet?
    ensures TreeInv(NextFork(s, c, p, ch), init)
  {
    var pc := s.procs[p].pc;
    if pc.Fork? && pc.j < |s.procs| && s.procs[pc.j].state == UNUSED { TreeClaim(s, c, p, init, pc.j); }
    else if pc.ForkHold? && ch == Fails { TreeForkFails(s, c, p, init, pc.j); }
    else if pc.ForkLink? { CanTake(s, c, WaitLock); TreeLink(s, c, p, init, pc.j); }
    else if pc.ForkReady? { CanTake(s, c, PL(pc.j)); TreeReady(s, c, p, init, pc.j); }
    else { TreeForkOwn(s, c, p, init, ch); }
  }

  lemma TreeForkOwn(s: State, c: nat, p: nat, init: nat, ch: Choice)
    requires TreeInv(s, init) && Running(s, c, p) && PcOk(|s.procs|, p, s.procs[p].pc)
    requires var pc := s.procs[p].pc;
             || pc.ForkRet?
             || (pc.ForkHold? && ch != Fails)
             || (pc.Fork? && (pc.j < |s.procs| ==> s.procs[pc.j].state != UNUSED))
    ensures TreeInv(NextFork(s, c, p, ch), init)
  {
    TreeOwn(s, NextFork(s, c, p, ch), init, p);
  }

  /** Only slot p's own place and living state change. */
  lemma TreeOwn(s: State, s': State, init: nat, p: nat)
    requires TreeInv(s, init) && p < |s.procs| == |s'.procs| && s'.nextpid == s.nextpid && s'.reaped == s.reaped
    requires s'.procs == s.procs[p := s'.procs[p]]
    requires var a, b := s.procs[p], s'.procs[p];
             && b.parent == a.parent && b.pid == a.pid
             && (b.state == a.state || (Living(a.state) && Living(b.state)))
             && (Child(b.pc) == Child(a.pc) || Child(b.pc) == None)
    requires PlaceOk(s', init, p)
    ensures TreeInv(s', init)
  {
    assert SlotOk(s, init, p);
    TreeQuiet(s, s', init, p);
  }

  lemma TreeSimple(s: State, c: nat, p: nat, init: nat, ch: Choice)
    requires Base(s) && TreeInv(s, init) && Running(s, c, p) && EnabledThread(s, init, c, p, ch)
    requires var pc := s.procs[p].pc;
             ch == Yield || pc.Free? || pc.Yielding? || pc.Yielded? || pc.Locked?
    ensures TreeInv(NextThread(s, init, c, p, ch), init)
  {
    hide Base, HandInv;
    RunsAlone(s, c, p);
    assert PcOk(|s.procs|, p, s.procs[p].pc);
    TreeOwn(s, NextThread(s, init, c, p, ch), init, p);
  }

  lemma TreeSleep(s: State, c: nat, p: nat, init: nat)
    requires Base(s) && TreeInv(s, init) && Running(s, c, p) && EnabledThread(s, init, c, p, Go)
    requires var pc := s.procs[p].pc; pc.SleepStart? || pc.SleepDrop? || pc.SleepMark? || pc.Asleep? || pc.Woken?
    ensures TreeInv(NextSleep(s, c, p), init)
  {
    RunsAlone(s, c, p);
    TreeOwn(s, NextSleep(s, c, p), init, p);
  }

  lemma TreeWait(s: State, c: nat, p: nat, init: nat, ch: Choice)
    requires Base(s) && TreeInv(s, init) && Running(s, c, p) && EnabledThread(s, init, c, p, ch) && ch != Yield
    requires var pc := s.procs[p].pc; pc.Wait? || pc.WaitAt? || pc.WaitOut?
    ensures TreeInv(NextWait(s, c, p, ch), init)
  {
    hide Base, ForkInv, NoChildBelow, TreeInv;
    RunsAlone(s, c, p);
    assert PcOk(|s.procs|, p, s.procs[p].pc);
    if s.procs[p].pc.WaitAt? && s.procs[s.procs[p].pc.j].state == ZOMBIE && ch == Go {
      TreeReap(s, c, p, init, s.procs[p].pc.j);
    } else {
      TreeOwn(s, NextWait(s, c, p, ch), init, p);
    }
  }

  lemma TreeExit(s: State, c: nat, p: nat, init: nat)
    requires Base(s) && TreeInv(s, init) && Running(s, c, p) && EnabledThread(s, init, c, p, Go)
    requires var pc := s.procs[p].pc;
             pc.Exit? || pc.ExitWake? || pc.ExitParent? || pc.ExitMark? || pc.ExitDrop? || pc.ExitSched?
    ensures TreeInv(NextExit(s, init, c, p), init)
  {
    hide Base, Locks, PidsApart, ForkOk;
    var pc := s.procs[p].pc;
    RunsAlone(s, c, p);
    assert SlotOk(s, init, p);
    if pc.Exit? && pc.j < |s.procs| && s.procs[pc.j].parent == Some(p) { TreeReparent(s, c, p, init, pc.j); }
    else if pc.ExitMark? { TreeZombie(s, c, p, init); }
    else if pc.ExitWake? || pc.ExitParent? { ExitWakeTree(s, c, p, init); }
    else { TreeOwn(s, NextExit(s, init, c, p), init, p); }
  }

  lemma WakeSameTree(s: State, p: nat, q: nat, chan: Option<nat>, pc: Pc)
    requires p < |s.procs| && q < |s.procs|
    ensures var s' := SetPc(WakeTurn(s, p, q, chan), p, pc);
            SameTree(s, s') && forall r | 0 <= r < |s.procs| && r != p :: s'.procs[r].pc == s.procs[r].pc
  {
  }

  /** kexit's wakeup loops: the thread moves on to a place that claims no more. */
  lemma ExitMoves(s: State, s': State, init: nat, p: nat, pc: Pc)
    requires TreeInv(s, init) && p < |s.procs| && SameTree(s, s') && s'.procs[p].pc == pc && Child(pc) == None
    requires forall r | 0 <= r < |s.procs| && r != p :: s'.procs[r].pc == s.procs[r].pc
    requires match s.procs[p].pc
             case ExitWake(j, _) => (pc.ExitWake? && pc.j == j) || pc == Exit(j + 1)
             case ExitParent(dad, _) => (pc.ExitParent? && pc.dad == dad) || pc == ExitMark
             case _ => false
    ensures TreeInv(s', init)
  {
    assert PlaceOk(s, init, p) by { assert SlotOk(s, init, p); }
    match s.procs[p].pc {
      case ExitWake(j, _) => KeepNoChild(s, s', p, j + 1);
      case ExitParent(_, _) => KeepNoChild(s, s', p, |s.procs|);
    }
    TreeQuiet(s, s', init, p);
  }

  lemma ExitWakeTree(s: State, c: nat, p: nat, init: nat)
    requires TreeInv(s, init) && Running(s, c, p) && (s.procs[p].pc.ExitWake? || s.procs[p].pc.ExitParent?)
    ensures TreeInv(NextExit(s, init, c, p), init)
  {
    hide Living, PidOk, TreeInv, SameTree;
    var pc, q := s.procs[p].pc, s.procs[p].pc.q;
    if q < |s.procs| {
      if pc.ExitWake? { WakeSameTree(s, p, q, Some(init), ExitWake(pc.j, q + 1)); }
      else { WakeSameTree(s, p, q, pc.dad, ExitParent(pc.dad, q + 1)); }
    }
    var s' := NextExit(s, init, c, p);
    ExitMoves(s, s', init, p, s'.procs[p].pc);
  }

  lemma KeepNoChild(s: State, s': State, p: nat, j: nat)
    requires SameTree(s, s')
    ensures NoChildBelow(s, p, j) ==> NoChildBelow(s', p, j)
  {
  }

  lemma TreeSched(s: State, init: nat, st: Step)
    requires Base(s) && TreeInv(s, init) && !st.Thread? && EnabledSched(s, st)
    ensures TreeInv(NextSched(s, st), init)
  {
    assert SlotOk(s, init, init);
    var s' := NextSched(s, st);
    QuietPlace(s, s', init, init);
    TreeQuiet(s, s', init, init);
  }

  lemma TreeKept(s: State, init: nat, st: Step)
    requires Base(s) && TreeInv(s, init) && Enabled(s, init, st)
    ensures TreeInv(Next(s, init, st), init)
  {
    if st.Thread? {
      var c, p, ch := st.c, s.cpus[st.c].mode.p, st.choice;
      var pc := s.procs[p].pc;
      RunsAlone(s, c, p);
      if ch == Yield || pc.Free? || pc.Yielding? || pc.Yielded? || pc.Locked? { TreeSimple(s, c, p, init, ch); }
      else if pc.SleepStart? || pc.SleepDrop? || pc.SleepMark? || pc.Asleep? || pc.Woken? { TreeSleep(s, c, p, init); }
      else if pc.Wait? || pc.WaitAt? || pc.WaitOut? { TreeWait(s, c, p, init, ch); }
      else if pc.Fork? || pc.ForkHold? || pc.ForkLink? || pc.ForkReady? || pc.ForkRet? { TreeFork(s, c, p, init, ch); }
      else { TreeExit(s, c, p, init); }
    } else {
      TreeSched(s, init, st);
    }
  }
}
