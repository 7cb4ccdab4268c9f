/** Each step of the virtio protocol keeps the invariant. */
module VirtioSteps {
  import opened Common
  import opened VirtioDesc
  import opened VirtioModel
  import opened VirtioInv

  lemma Known(s: State, h: nat)
    requires Requests(s) && h in s.req
    ensures ReqOk(s, h)
  {
  }

  // ---- Submit ----

  lemma LowestTriple(free: seq<bool>, idx: seq<nat>)
    requires |free| == NUM && |idx| == 3 && Lowest(free, idx)
    ensures Triple(idx) && free[idx[0]] && free[idx[1]] && free[idx[2]]
  {
  }

  lemma SubmitMem(s: State, tid: nat, b: nat, block: nat, write: bool, idx: seq<nat>)
    requires CanSubmit(s, tid, b, block, idx) && Mem(s)
    ensures Mem(DoSubmit(s, tid, b, block, write, idx))
  {
    LowestTriple(s.free, idx);
    hide Lowest, CallerOk;
  }

  lemma SubmitFormat(s: State, tid: nat, b: nat, block: nat, write: bool, idx: seq<nat>, h: nat, r: Request)
    requires CanSubmit(s, tid, b, block, idx) && Format(s, h, r)
    ensures Format(DoSubmit(s, tid, b, block, write, idx), h, r) && h !in idx
  {
    SubmitMem(s, tid, b, block, write, idx);
    LowestTriple(s.free, idx);
    hide Lowest, CallerOk, Mem;
  }

  lemma SubmitOld(s: State, tid: nat, b: nat, block: nat, write: bool, idx: seq<nat>, h: nat)
    requires CanSubmit(s, tid, b, block, idx) && Mem(s) && ReqOk(s, h)
    ensures ReqOk(DoSubmit(s, tid, b, block, write, idx), h) && h !in idx && s.req[h].tid != tid
  {
    SubmitMem(s, tid, b, block, write, idx);
    SubmitFormat(s, tid, b, block, write, idx, h, s.req[h]);
    LowestTriple(s.free, idx);
    hide Lowest, Format;
  }

  lemma SubmitNew(s: State, tid: nat, b: nat, block: nat, write: bool, idx: seq<nat>)
    requires CanSubmit(s, tid, b, block, idx) && Mem(s) && idx[0] !in s.dev && |s.ring| == NUM
    ensures ReqOk(DoSubmit(s, tid, b, block, write, idx), idx[0])
  {
    SubmitMem(s, tid, b, block, write, idx);
    LowestTriple(s.free, idx);
    SlotOf(s.subs);
    hide Lowest;
    var s' := DoSubmit(s, tid, b, block, write, idx);
    assert Format(s', idx[0], s'.req[idx[0]]);
    assert Place(s', idx[0], s'.req[idx[0]], Written);
  }

  lemma SubmitApart(s: State, tid: nat, b: nat, block: nat, idx: seq<nat>, h: nat, r: Request)
    requires CanSubmit(s, tid, b, block, idx) && ReqOk(s, h) && r.tid == tid && r.b == b && r.block == block && r.idx == idx
    ensures Apart(s.req[h], r) && Apart(r, s.req[h])
  {
    LowestTriple(s.free, idx);
  }

  lemma SubmitRequests(s: State, tid: nat, b: nat, block: nat, write: bool, idx: seq<nat>)
    requires CanSubmit(s, tid, b, block, idx) && Inv(s)
    ensures Requests(DoSubmit(s, tid, b, block, write, idx))
  {
    hide ReqOk, Apart, Mem, Lowest;
    var s' := DoSubmit(s, tid, b, block, write, idx);
    assert idx[0] !in s.dev && |s.ring| == NUM by { NewHead(s, idx); }
    SubmitNew(s, tid, b, block, write, idx);
    forall h | h in s'.req
      ensures ReqOk(s', h)
    {
      if h != idx[0] { SubmitOld(s, tid, b, block, write, idx, h); }
    }
    forall h, g | h in s'.req && g in s'.req && h != g
      ensures Apart(s'.req[h], s'.req[g])
    {
      if h == idx[0] {
        SubmitApart(s, tid, b, block, idx, g, s'.req[h]);
      } else if g == idx[0] {
        SubmitApart(s, tid, b, block, idx, h, s'.req[g]);
      }
    }
  }

  lemma NewHead(s: State, idx: seq<nat>)
    requires Inv(s) && |idx| == 3 && Lowest(s.free, idx)
    ensures idx[0] !in s.req && idx[0] !in s.phase && idx[0] !in s.dev && |s.ring| == NUM
  {
    LowestTriple(s.free, idx);
    if idx[0] in s.req {
      Known(s, idx[0]);
      assert false;
    }
  }

  lemma SubmitOwners(s: State, tid: nat, b: nat, block: nat, write: bool, idx: seq<nat>)
    requires CanSubmit(s, tid, b, block, idx) && Inv(s)
    ensures Owners(DoSubmit(s, tid, b, block, write, idx))
  {
    hide Requests, Rings;
    var s' := DoSubmit(s, tid, b, block, write, idx);
    assert idx[0] !in s.req by { NewHead(s, idx); }
    forall i: nat | i < NUM && !s'.free[i]
      ensures Covered(s', i)
    {
      if i in idx {
        assert i in s'.req[idx[0]].idx;
      } else {
        assert Covered(s, i);
        var h :| h in s.req && i in s.req[h].idx;
        assert i in s'.req[h].idx;
      }
    }
    forall t | t in s'.pc
      ensures PcOk(s', t)
    {
      assert PcOk(s, t);
    }
  }

  lemma SubmitRings(s: State, tid: nat, b: nat, block: nat, write: bool, idx: seq<nat>)
    requires CanSubmit(s, tid, b, block, idx) && Inv(s)
    ensures Rings(DoSubmit(s, tid, b, block, write, idx))
  {
    hide Requests, Owners, Queue, Lowest;
    var h := idx[0];
    NewHead(s, idx);
    LowestTriple(s.free, idx);
    FewPending(s);
    SlotOf(s.subs);
    assert s.availIdx % NUM == ((s.subs - |s.pend|) + |s.pend|) % NUM;
    QueueRing(s.pend, s.ring, s.subs - |s.pend|, s.phase, Pending, h);
    QueueOther(s.pend, s.ring[s.availIdx % NUM := h], s.subs - |s.pend|, s.phase, Pending, h, Written);
    QueueOther(s.done, s.usedRing, s.posts - |s.done|, s.phase, Posted, h, Written);
  }

  lemma SlotShift(a: nat, k: nat)
    ensures (a + 8 * k) % NUM == a % NUM
  {
  }

  /** A 16-bit index and the total have the same slot: NUM divides 65536. */
  lemma SlotOf(n: nat)
    ensures (n % WRAP) % NUM == n % NUM
  {
    var q := n / WRAP;
    SlotShift(n % WRAP, q * 0x2000);
  }

  // ---- steps that change one request ----

  /** What request g depends on is the same in both states. */
  ghost predicate Undisturbed(s: State, s': State, g: nat) {
    && ReqOk(s, g) && Mem(s') && g in s'.req && g in s'.phase && s'.req[g] == s.req[g] && s'.phase[g] == s.phase[g]
    && s'.desc == s.desc && s'.op == s.op && s'.free == s.free
    && s'.status[g] == s.status[g] && s'.infoB[g] == s.infoB[g]
    && s.req[g].tid in s'.pc && s'.pc[s.req[g].tid] == s.pc[s.req[g].tid]
    && (s.req[g].b in s'.busy <==> s.req[g].b in s.busy)
    && (g in s'.dev <==> g in s.dev)
    && (g in s.dev ==> s'.dev[g] == s.dev[g])
    && s.req[g].b in s'.data && s'.data[s.req[g].b] == s.data[s.req[g].b]
    && s.req[g].block in s'.disk && s'.disk[s.req[g].block] == s.disk[s.req[g].block]
    && (s.phase[g].Written? ==> s'.lock == s.lock && s'.ring == s.ring && s'.subs == s.subs)
  }

  lemma SameRequest(s: State, s': State, g: nat)
    requires Undisturbed(s, s', g)
    ensures ReqOk(s', g)
  {
  }

  /** The same request, perhaps with another count of transfers. */
  predicate Like(r: Request, q: Request) {
    r.b == q.b && r.block == q.block && r.tid == q.tid && r.idx == q.idx
  }

  /** A step that works on request h only. */
  lemma RequestsKept(s: State, s': State, h: nat)
    requires Requests(s) && h in s.req && s'.req.Keys == s.req.Keys && s'.phase.Keys == s.phase.Keys
    requires ReqOk(s', h) && Like(s.req[h], s'.req[h])
    requires forall g | g in s.req && g != h :: Undisturbed(s, s', g)
    ensures Requests(s')
  {
    hide ReqOk;
    assert forall g | g in s'.req :: g in s'.req.Keys;
    assert forall g | g in s'.phase :: g in s'.phase.Keys;
    forall g | g in s'.req
      ensures ReqOk(s', g)
    {
      if g != h { SameRequest(s, s', g); }
    }
    forall g, f | g in s'.req && f in s'.req && g != f
      ensures Apart(s'.req[g], s'.req[f])
    {
      assert Apart(s.req[g], s.req[f]);
    }
  }

  lemma OwnersKept(s: State, s': State)
    requires Owners(s) && s'.free == s.free && s'.req.Keys == s.req.Keys
    requires forall h | h in s.req :: Like(s.req[h], s'.req[h])
    requires s'.pc.Keys == s.pc.Keys
    requires forall t | t in s.pc :: (s'.pc[t] == Idle <==> s.pc[t] == Idle) && (s.pc[t] != Idle ==> s'.pc[t].head == s.pc[t].head)
    requires s'.lock == None || (s'.lock == s.lock && s'.pc == s.pc)
    requires forall h | h in s'.dev :: h in s.req
    ensures Owners(s')
  {
    assert forall g | g in s'.req :: g in s'.req.Keys;
    forall i: nat | i < NUM && i < |s'.free| && !s'.free[i]
      ensures Covered(s', i)
    {
      assert Covered(s, i);
      var h :| h in s.req && i in s.req[h].idx;
      assert h in s.req.Keys;
      assert i in s'.req[h].idx;
    }
    forall t | t in s'.pc
      ensures PcOk(s', t)
    {
      assert t in s'.pc.Keys;
      assert PcOk(s, t);
    }
  }

  // ---- Publish ----

  lemma IncOf(n: nat)
    ensures Inc(n % WRAP) == (n + 1) % WRAP
  {
  }

  /** The request of the thread that holds the lock. */
  lemma OwnHead(s: State, tid: nat)
    requires Inv(s) && CanPublish(s, tid)
    ensures var h := s.pc[tid].head; h in s.req && h in s.phase && ReqOk(s, h) && s.req[h].tid == tid && s.phase[h] == Written
  {
    hide Rings, Queue, Apart;
    assert PcOk(s, tid);
    Known(s, s.pc[tid].head);
  }

  lemma PublishMem(s: State, tid: nat)
    requires Mem(s) && CanPublish(s, tid)
    ensures Mem(DoPublish(s, tid))
  {
    IncOf(s.subs);
    assert s.subs + 1 - |s.pend + [s.pc[tid].head]| == s.subs - |s.pend|;
  }

  lemma PublishRings(s: State, tid: nat)
    requires Inv(s) && CanPublish(s, tid)
    ensures Rings(DoPublish(s, tid))
  {
    hide Requests, Owners, Queue;
    var h := s.pc[tid].head;
    OwnHead(s, tid);
    PublishMem(s, tid);
    assert s.ring[((s.subs - |s.pend|) + |s.pend|) % NUM] == h by {
      hide Format, Contents;
      assert Place(s, h, s.req[h], s.phase[h]);
    }
    QueueAppend(s.pend, s.ring, s.subs - |s.pend|, s.phase, Pending, h);
    QueueOther(s.done, s.usedRing, s.posts - |s.done|, s.phase, Posted, h, Pending);
  }

  lemma PublishSelf(s: State, tid: nat)
    requires CanPublish(s, tid) && Mem(s) && ReqOk(s, s.pc[tid].head)
    requires s.req[s.pc[tid].head].tid == tid && s.phase[s.pc[tid].head] == Written
    ensures ReqOk(DoPublish(s, tid), s.pc[tid].head)
  {
    PublishMem(s, tid);
  }

  lemma PublishOther(s: State, tid: nat, g: nat)
    requires CanPublish(s, tid) && Mem(s) && ReqOk(s, g) && g != s.pc[tid].head && s.req[g].tid != tid
    ensures Undisturbed(s, DoPublish(s, tid), g)
  {
    hide Format, Contents;
    PublishMem(s, tid);
    FormatMeans(s, g, s.req[g]);
    ContentsMean(s, s.req[g], s.phase[g]);
  }

  lemma FormatMeans(s: State, h: nat, r: Request)
    requires Format(s, h, r)
    ensures h < NUM && !s.free[h]
  {
  }

  lemma ContentsMean(s: State, r: Request, ph: Phase)
    requires Contents(s, r, ph)
    ensures r.b in s.data && r.block in s.disk
  {
  }

  lemma PublishKeeps(s: State, tid: nat)
    requires CanPublish(s, tid) && Inv(s)
    ensures Inv(DoPublish(s, tid))
  {
    hide ReqOk, Apart, Queue, Owners, Rings;
    var h, s' := s.pc[tid].head, DoPublish(s, tid);
    OwnHead(s, tid);
    PublishMem(s, tid);
    PublishRings(s, tid);
    PublishSelf(s, tid);
    forall g | g in s.req && g != h
      ensures Undisturbed(s, s', g)
    {
      ApartTid(s.req[g], s.req[h]);
      PublishOther(s, tid, g);
    }
    assert s'.phase.Keys == s.phase.Keys;
    RequestsKept(s, s', h);
    OwnersMean(s);
    OwnersKept(s, s');
  }

  lemma OwnersMean(s: State)
    requires Owners(s)
    ensures forall h | h in s.dev :: h in s.req
  {
  }

  lemma ApartTid(r: Request, q: Request)
    requires Apart(r, q)
    ensures r.tid != q.tid && r.b != q.b && r.block != q.block
  {
  }

  lemma SubmitKeeps(s: State, tid: nat, b: nat, block: nat, write: bool, idx: seq<nat>)
    requires CanSubmit(s, tid, b, block, idx) && Inv(s)
    ensures Inv(DoSubmit(s, tid, b, block, write, idx))
  {
    hide Requests, Owners;
    SubmitRequests(s, tid, b, block, write, idx);
    SubmitOwners(s, tid, b, block, write, idx);
    SubmitRings(s, tid, b, block, write, idx);
  }

  // ---- Fetch ----

  /** The device reads the oldest pending request. */
  lemma FetchHead(s: State)
    requires Inv(s) && CanFetch(s)
    ensures s.pend != [] && s.ring[s.seen % NUM] == s.pend[0]
    ensures s.pend[0] in s.req && s.pend[0] in s.phase && ReqOk(s, s.pend[0]) && s.phase[s.pend[0]] == Pending
  {
    hide Owners, Format, Contents, Place, Apart;
    if s.pend == [] {
      assert false;
    }
    SlotOf(s.subs - |s.pend|);
    assert s.ring[(s.subs - |s.pend| + 0) % NUM] == s.pend[0];
    Known(s, s.pend[0]);
  }

  lemma FetchMem(s: State)
    requires Mem(s) && CanFetch(s) && s.pend != []
    ensures Mem(DoFetch(s))
  {
    IncOf(s.subs - |s.pend|);
  }

  lemma FetchRings(s: State)
    requires Inv(s) && CanFetch(s)
    ensures Rings(DoFetch(s))
  {
    hide Requests, Owners, Queue;
    var h := s.ring[s.seen % NUM];
    FetchHead(s);
    FetchMem(s);
    QueuePop(s.pend, s.ring, s.subs - |s.pend|, s.phase, Pending, Fetched);
    QueueOther(s.done, s.usedRing, s.posts - |s.done|, s.phase, Posted, h, Fetched);
  }

  lemma FetchSelf(s: State, h: nat)
    requires CanFetch(s) && Mem(s) && s.pend != [] && h == s.ring[s.seen % NUM] && ReqOk(s, h) && s.phase[h] == Pending
    ensures ReqOk(DoFetch(s), h)
  {
    FetchMem(s);
  }

  lemma FetchOther(s: State, g: nat)
    requires CanFetch(s) && Mem(s) && s.pend != [] && ReqOk(s, g) && g != s.ring[s.seen % NUM]
    ensures Undisturbed(s, DoFetch(s), g)
  {
    hide Format, Contents;
    FetchMem(s);
    FormatMeans(s, g, s.req[g]);
    ContentsMean(s, s.req[g], s.phase[g]);
  }

  lemma FetchKeeps(s: State)
    requires CanFetch(s) && Inv(s)
    ensures Inv(DoFetch(s))
  {
    hide ReqOk, Apart, Queue, Owners, Rings;
    var h, s' := s.ring[s.seen % NUM], DoFetch(s);
    FetchHead(s);
    FetchMem(s);
    FetchRings(s);
    FetchSelf(s, h);
    forall g | g in s.req && g != h
      ensures Undisturbed(s, s', g)
    {
      FetchOther(s, g);
    }
    assert s'.phase.Keys == s.phase.Keys;
    RequestsKept(s, s', h);
    OwnersMean(s);
    OwnersKept(s, s');
  }

  // ---- Move ----

  /** The device finds the chain of request h as the driver formatted it. */
  lemma FindsOwn(s: State, h: nat, i: nat, b: nat, j: nat)
    requires ReqOk(s, h) && CanMove(s, h, i, b, j)
    ensures i == h && j == h && b == s.req[h].b && s.op[i].write == s.req[h].write && s.op[i].sector / 2 == s.req[h].block
    ensures s.phase[h] == Fetched
  {
  }

  lemma MoveSelf(s: State, h: nat, i: nat, b: nat, j: nat, code: nat, junk: int)
    requires CanMove(s, h, i, b, j) && ReqOk(s, h)
    ensures ReqOk(DoMove(s, h, i, b, j, code, junk), h)
  {
    FindsOwn(s, h, i, b, j);
  }

  lemma MoveOther(s: State, h: nat, i: nat, b: nat, j: nat, code: nat, junk: int, g: nat)
    requires CanMove(s, h, i, b, j) && ReqOk(s, h) && ReqOk(s, g) && g != h && Apart(s.req[g], s.req[h])
    ensures Undisturbed(s, DoMove(s, h, i, b, j, code, junk), g)
  {
    FindsOwn(s, h, i, b, j);
    hide Format, Contents, Apart;
    ApartTid(s.req[g], s.req[h]);
    FormatMeans(s, g, s.req[g]);
    ContentsMean(s, s.req[g], s.phase[g]);
  }

  lemma MoveRings(s: State, h: nat, i: nat, b: nat, j: nat, code: nat, junk: int)
    requires CanMove(s, h, i, b, j) && Inv(s)
    ensures Mem(DoMove(s, h, i, b, j, code, junk)) && Rings(DoMove(s, h, i, b, j, code, junk))
  {
    hide Owners, Queue, Requests, ReqOk, Finds;
    Known(s, h);
    FindsOwn(s, h, i, b, j);
    MoveMem(s, h, i, b, j, code, junk);
    QueueOther(s.pend, s.ring, s.subs - |s.pend|, s.phase, Pending, h, Moved);
    QueueOther(s.done, s.usedRing, s.posts - |s.done|, s.phase, Posted, h, Moved);
  }

  lemma MoveMem(s: State, h: nat, i: nat, b: nat, j: nat, code: nat, junk: int)
    requires CanMove(s, h, i, b, j) && Mem(s)
    ensures Mem(DoMove(s, h, i, b, j, code, junk))
  {
  }

  lemma MoveKeeps(s: State, h: nat, i: nat, b: nat, j: nat, code: nat, junk: int)
    requires CanMove(s, h, i, b, j) && Inv(s)
    ensures Inv(DoMove(s, h, i, b, j, code, junk))
  {
    hide ReqOk, Apart, Queue, Owners, Rings, Finds;
    var s' := DoMove(s, h, i, b, j, code, junk);
    Known(s, h);
    MoveRings(s, h, i, b, j, code, junk);
    MoveSelf(s, h, i, b, j, code, junk);
    forall g | g in s.req && g != h
      ensures Undisturbed(s, s', g)
    {
      MoveOther(s, h, i, b, j, code, junk, g);
    }
    PhaseKeys(s, h, Moved);
    RequestsKept(s, s', h);
    OwnersMean(s);
    OwnersKept(s, s');
  }

  lemma PhaseKeys(s: State, h: nat, ph: Phase)
    requires ReqOk(s, h)
    ensures s.phase[h := ph].Keys == s.phase.Keys
  {
  }

  // ---- Post ----

  lemma PostMem(s: State, h: nat)
    requires Mem(s) && CanPost(s, h)
    ensures Mem(DoPost(s, h))
  {
    IncOf(s.posts);
    assert s.posts + 1 - |s.done + [h]| == s.posts - |s.done|;
  }

  lemma PostHead(s: State, h: nat)
    requires Inv(s) && CanPost(s, h)
    ensures h in s.req && h in s.phase && ReqOk(s, h) && s.phase[h] == Moved
  {
    hide Rings, Format, Contents, Apart;
    Known(s, h);
  }

  lemma PostRings(s: State, h: nat)
    requires Inv(s) && CanPost(s, h)
    ensures Rings(DoPost(s, h))
  {
    hide Requests, Owners, Queue, ReqOk;
    PostHead(s, h);
    PostMem(s, h);
    FewPending(s);
    SlotOf(s.posts);
    var base := s.posts - |s.done|;
    assert s.usedDev % NUM == (base + |s.done|) % NUM;
    QueueRing(s.done, s.usedRing, base, s.phase, Posted, h);
    QueueAppend(s.done, s.usedRing[s.usedDev % NUM := h], base, s.phase, Posted, h);
    QueueOther(s.pend, s.ring, s.subs - |s.pend|, s.phase, Pending, h, Posted);
  }

  lemma PostSelf(s: State, h: nat)
    requires CanPost(s, h) && Mem(s) && ReqOk(s, h) && s.phase[h] == Moved
    ensures ReqOk(DoPost(s, h), h)
  {
    PostMem(s, h);
  }

  lemma PostOther(s: State, h: nat, g: nat)
    requires CanPost(s, h) && Mem(s) && ReqOk(s, g) && g != h
    ensures Undisturbed(s, DoPost(s, h), g)
  {
    hide Format, Contents;
    PostMem(s, h);
    FormatMeans(s, g, s.req[g]);
    ContentsMean(s, s.req[g], s.phase[g]);
  }

  lemma PostKeeps(s: State, h: nat)
    requires CanPost(s, h) && Inv(s)
    ensures Inv(DoPost(s, h))
  {
    hide ReqOk, Apart, Queue, Owners, Rings;
    var s' := DoPost(s, h);
    PostHead(s, h);
    PostMem(s, h);
    PostRings(s, h);
    PostSelf(s, h);
    forall g | g in s.req && g != h
      ensures Undisturbed(s, s', g)
    {
      PostOther(s, h, g);
    }
    PhaseKeys(s, h, Posted);
    RequestsKept(s, s', h);
    OwnersMean(s);
    OwnersKept(s, s');
  }

  // ---- Intr ----

  /** The entry that the interrupt handler reads is the oldest posted request: its
      status says success and its buffer is recorded. */
  lemma UsedHead(s: State)
    requires Inv(s) && s.usedIdx != s.usedDev
    ensures s.done != [] && |s.usedRing| == NUM && NextUsed(s) == s.done[0]
    ensures var h := s.done[0];
            h in s.req && h in s.phase && ReqOk(s, h) && s.phase[h] == Posted && (s.status[h] == 0 <==> !s.req[h].failed) && s.infoB[h] == Some(s.req[h].b)
  {
    hide Owners, Contents, Apart;
    if s.done == [] {
      assert false;
    }
    SlotOf(s.posts - |s.done|);
    assert s.usedRing[(s.posts - |s.done| + 0) % NUM] == s.done[0];
    Known(s, s.done[0]);
  }

  lemma IntrMem(s: State)
    requires Mem(s) && CanIntr(s) && s.done != []
    ensures Mem(DoIntr(s))
  {
    IncOf(s.posts - |s.done|);
  }

  lemma IntrRings(s: State)
    requires Inv(s) && CanIntr(s)
    ensures Rings(DoIntr(s))
  {
    hide Requests, Owners, Queue, ReqOk;
    UsedHead(s);
    IntrMem(s);
    QueuePop(s.done, s.usedRing, s.posts - |s.done|, s.phase, Posted, Handled);
    QueueOther(s.pend, s.ring, s.subs - |s.pend|, s.phase, Pending, s.done[0], Handled);
  }

  lemma IntrSelf(s: State, h: nat)
    requires CanIntr(s) && Mem(s) && s.done != [] && h == NextUsed(s) && ReqOk(s, h) && s.phase[h] == Posted
    ensures ReqOk(DoIntr(s), h)
  {
    IntrMem(s);
  }

  lemma IntrOther(s: State, h: nat, g: nat)
    requires CanIntr(s) && Mem(s) && s.done != [] && h == NextUsed(s) && h in s.req && s.infoB[h] == Some(s.req[h].b)
    requires ReqOk(s, g) && g != h && Apart(s.req[g], s.req[h])
    ensures Undisturbed(s, DoIntr(s), g)
  {
    hide Format, Contents, Apart;
    IntrMem(s);
    ApartTid(s.req[g], s.req[h]);
    FormatMeans(s, g, s.req[g]);
    ContentsMean(s, s.req[g], s.phase[g]);
  }

  lemma IntrKeeps(s: State)
    requires CanIntr(s) && Inv(s)
    ensures Inv(DoIntr(s))
  {
    hide ReqOk, Apart, Queue, Owners, Rings;
    var s' := DoIntr(s);
    UsedHead(s);
    var h := s.done[0];
    IntrMem(s);
    IntrRings(s);
    IntrSelf(s, h);
    forall g | g in s.req && g != h
      ensures Undisturbed(s, s', g)
    {
      IntrOther(s, h, g);
    }
    PhaseKeys(s, h, Handled);
    RequestsKept(s, s', h);
    OwnersMean(s);
    OwnersKept(s, s');
  }

  // ---- Finish ----

  /** free_chain follows exactly the three descriptors of the request. */
  lemma ChainIs(s: State, h: nat, r: Request, list: seq<nat>)
    requires Format(s, h, r) && Linked(s.desc, list) && list[0] == h
    ensures list == r.idx
  {
    assert s.desc[list[0]].hasNext;
    assert list[1] == r.idx[1];
    assert s.desc[list[1]].hasNext;
    assert list[2] == r.idx[2];
    assert !s.desc[list[2]].hasNext;
  }

  lemma ChainLinked(s: State, h: nat, r: Request)
    requires Format(s, h, r)
    ensures Linked(s.desc, r.idx) && InUse(s.free, r.idx)
  {
  }

  lemma FinishHead(s: State, tid: nat, list: seq<nat>)
    requires Inv(s) && CanFinish(s, tid, list)
    ensures var h := s.pc[tid].head;
            ReqOk(s, h) && s.phase[h] == Handled && s.req[h].tid == tid && list == s.req[h].idx
  {
    hide Rings, Contents, Apart, Linked;
    var h := s.pc[tid].head;
    assert PcOk(s, tid);
    Known(s, h);
    ChainIs(s, h, s.req[h], list);
  }

  lemma FinishOther(s: State, tid: nat, list: seq<nat>, g: nat)
    requires CanFinish(s, tid, list) && Mem(s) && ReqOk(s, s.pc[tid].head) && s.req[s.pc[tid].head].tid == tid
    requires list == s.req[s.pc[tid].head].idx
    requires ReqOk(s, g) && g != s.pc[tid].head && Apart(s.req[g], s.req[s.pc[tid].head])
    ensures ReqOk(DoFinish(s, tid, list), g)
  {
    hide Linked, InUse;
    var r, q := s.req[g], s.req[s.pc[tid].head];
    assert forall i | 0 <= i < 3 :: r.idx[i] !in q.idx;
    assert r.idx[1] !in list && r.idx[2] !in list && r.idx[0] !in list;
  }

  lemma FinishOwners(s: State, tid: nat, list: seq<nat>)
    requires CanFinish(s, tid, list) && Inv(s)
    ensures Owners(DoFinish(s, tid, list))
  {
    hide ReqOk, Apart, Linked, InUse, Rings;
    var h, s' := s.pc[tid].head, DoFinish(s, tid, list);
    FinishHead(s, tid, list);
    forall i: nat | i < NUM && i < |s'.free| && !s'.free[i]
      ensures Covered(s', i)
    {
      assert Covered(s, i);
      var g :| g in s.req && i in s.req[g].idx;
      assert g in s'.req && i in s'.req[g].idx;
    }
    forall t | t in s'.pc
      ensures PcOk(s', t)
    {
      assert PcOk(s, t);
    }
    forall g | g in s'.dev
      ensures g in s'.req
    {
      HandledIsDone(s, h);
    }
  }

  lemma HandledIsDone(s: State, h: nat)
    requires ReqOk(s, h) && s.phase[h] == Handled
    ensures h !in s.dev
  {
  }

  lemma FinishRings(s: State, tid: nat, list: seq<nat>)
    requires CanFinish(s, tid, list) && Inv(s)
    ensures Mem(DoFinish(s, tid, list)) && Rings(DoFinish(s, tid, list))
  {
    hide Requests, Owners, Queue, ReqOk, Linked, InUse;
    var h := s.pc[tid].head;
    FinishHead(s, tid, list);
    assert h in s.phase by { InPhase(s, h); }
    QueueDrop(s.pend, s.ring, s.subs - |s.pend|, s.phase, Pending, h);
    QueueDrop(s.done, s.usedRing, s.posts - |s.done|, s.phase, Posted, h);
  }

  lemma InPhase(s: State, h: nat)
    requires ReqOk(s, h)
    ensures h in s.phase && h in s.req
  {
  }

  lemma FinishKeeps(s: State, tid: nat, list: seq<nat>)
    requires CanFinish(s, tid, list) && Inv(s)
    ensures Inv(DoFinish(s, tid, list))
  {
    hide ReqOk, Apart, Linked, InUse, Queue, Owners, Rings;
    var s' := DoFinish(s, tid, list);
    FinishHead(s, tid, list);
    FinishOwners(s, tid, list);
    FinishRings(s, tid, list);
    forall g | g in s'.req
      ensures ReqOk(s', g)
    {
      FinishOther(s, tid, list, g);
    }
  }

  lemma StepKeeps(s: State, step: Step, s': State)
    requires Inv(s) && Next(s, step, s')
    ensures Inv(s')
  {
    hide Inv, CanSubmit, CanMove, CanFinish;
    match step {
      case Submit(tid, b, block, write, idx) => SubmitKeeps(s, tid, b, block, write, idx);
      case Publish(tid) => PublishKeeps(s, tid);
      case Fetch => FetchKeeps(s);
      case Move(h, i, b, j, code, junk) => MoveKeeps(s, h, i, b, j, code, junk);
      case Post(h) => PostKeeps(s, h);
      case Intr => IntrKeeps(s);
      case Finish(tid, list) => FinishKeeps(s, tid, list);
    }
  }
}
