/** What every step of the virtio protocol keeps. */
module VirtioInv {
  import opened Common
  import opened VirtioDesc
  import opened VirtioModel

  // ---- a ring with its unread part ----

  /** Ring positions base, base+1, ... hold the list q, which lists exactly the
      requests in this phase, each once. */
  ghost predicate Queue(q: seq<nat>, ring: seq<nat>, base: nat, phase: map<nat, Phase>, ph: Phase) {
    && |ring| == NUM
    && (forall i | 0 <= i < |q| :: q[i] in phase && phase[q[i]] == ph && ring[(base + i) % NUM] == q[i])
    && NoDup(q)
    && (forall h | h in phase && phase[h] == ph :: h in q)
  }

  lemma SlotsApart(base: nat, i: nat, n: nat)
    requires i < n < NUM
    ensures (base + i) % NUM != (base + n) % NUM
  {
  }

  /** The next slot is not one that is still to be read. */
  lemma QueueRing(q: seq<nat>, ring: seq<nat>, base: nat, phase: map<nat, Phase>, ph: Phase, h: nat)
    requires Queue(q, ring, base, phase, ph) && |q| < NUM
    ensures Queue(q, ring[(base + |q|) % NUM := h], base, phase, ph)
  {
    forall i | 0 <= i < |q|
      ensures ring[(base + |q|) % NUM := h][(base + i) % NUM] == q[i]
    {
      SlotsApart(base, i, |q|);
    }
  }

  lemma QueueAppend(q: seq<nat>, ring: seq<nat>, base: nat, phase: map<nat, Phase>, ph: Phase, h: nat)
    requires Queue(q, ring, base, phase, ph) && h in phase && phase[h] != ph && ring[(base + |q|) % NUM] == h
    ensures Queue(q + [h], ring, base, phase[h := ph], ph)
  {
  }

  lemma QueuePop(q: seq<nat>, ring: seq<nat>, base: nat, phase: map<nat, Phase>, ph: Phase, ph': Phase)
    requires Queue(q, ring, base, phase, ph) && q != [] && ph' != ph
    ensures Queue(q[1..], ring, base + 1, phase[q[0] := ph'], ph)
  {
    var q', phase' := q[1..], phase[q[0] := ph'];
    forall i | 0 <= i < |q'|
      ensures q'[i] in phase' && phase'[q'[i]] == ph && ring[(base + 1 + i) % NUM] == q'[i]
    {
      assert q'[i] == q[i + 1];
    }
    forall h | h in phase' && phase'[h] == ph
      ensures h in q'
    {
      var i :| 0 <= i < |q| && q[i] == h;
      assert q'[i - 1] == h;
    }
  }

  lemma QueueOther(q: seq<nat>, ring: seq<nat>, base: nat, phase: map<nat, Phase>, ph: Phase, h: nat, ph': Phase)
    requires Queue(q, ring, base, phase, ph) && (h in phase ==> phase[h] != ph) && ph' != ph
    ensures Queue(q, ring, base, phase[h := ph'], ph)
  {
  }

  lemma QueueDrop(q: seq<nat>, ring: seq<nat>, base: nat, phase: map<nat, Phase>, ph: Phase, h: nat)
    requires Queue(q, ring, base, phase, ph) && h in phase && phase[h] != ph
    ensures Queue(q, ring, base, phase - {h}, ph)
  {
  }

  // ---- the invariant ----

  /** Lengths, and the 16-bit indices as remainders of the totals. */
  ghost predicate Mem(s: State) {
    && |s.desc| == NUM && |s.op| == NUM && |s.status| == NUM && |s.free| == NUM && |s.infoB| == NUM
    && |s.pend| <= s.subs && |s.done| <= s.posts
    && s.availIdx == s.subs % WRAP && s.seen == (s.subs - |s.pend|) % WRAP
    && s.usedDev == s.posts % WRAP && s.usedIdx == (s.posts - |s.done|) % WRAP
  }

  ghost predicate Triple(idx: seq<nat>) {
    && |idx| == 3 && idx[0] < NUM && idx[1] < NUM && idx[2] < NUM
    && idx[0] != idx[1] && idx[0] != idx[2] && idx[1] != idx[2]
  }

  /** The memory of request h: three descriptors in use, formatted as a chain. */
  ghost predicate Format(s: State, h: nat, r: Request) {
    && Mem(s) && Triple(r.idx) && r.idx[0] == h
    && !s.free[h] && !s.free[r.idx[1]] && !s.free[r.idx[2]]
    && s.desc[h] == Desc(Op(h), 16, r.idx[1], true, false)
    && s.desc[r.idx[1]] == Desc(Data(r.b), 1024, r.idx[2], true, !r.write)
    && s.desc[r.idx[2]] == Desc(Status(h), 1, 0, false, true)
    && s.op[h] == Header(r.write, 2 * r.block)
    && s.infoB[h] == Some(r.b)
  }

  ghost predicate After(ph: Phase) { ph.Moved? || ph.Posted? || ph.Handled? }

  /** What the buffer and the block hold in each phase. */
  ghost predicate Contents(s: State, r: Request, ph: Phase) {
    && r.b in s.data && r.block in s.disk
    && r.moves == (if After(ph) && !r.failed then 1 else 0)
    && (!r.failed || r.write ==> s.data[r.b] == (if After(ph) && !r.write then r.disk0 else r.data0))
    && (!r.failed || !r.write ==> s.disk[r.block] == (if After(ph) && r.write then r.data0 else r.disk0))
  }

  ghost predicate Place(s: State, h: nat, r: Request, ph: Phase) {
    && Mem(s) && h < NUM && r.tid in s.pc
    && s.pc[r.tid] == (if ph.Written? then Formatted(h) else Waiting(h))
    && (ph.Written? ==> s.lock == Some(r.tid) && |s.ring| == NUM && s.ring[s.subs % NUM] == h)
    && (r.b in s.busy <==> !ph.Handled?)
    && (s.status[h] == 0 <==> After(ph) && !r.failed)
    && (r.failed ==> ph.Moved? || ph.Posted?)
    && (h in s.dev <==> ph.Fetched? || ph.Moved?)
    && (h in s.dev ==> (s.dev[h] <==> ph.Moved?))
  }

  /** Two requests share nothing. */
  ghost predicate Apart(r: Request, q: Request) {
    && r.b != q.b && r.block != q.block && r.tid != q.tid
    && |r.idx| == 3 && |q.idx| == 3
    && forall i, j | 0 <= i < 3 && 0 <= j < 3 :: r.idx[i] != q.idx[j]
  }

  ghost predicate Covered(s: State, i: nat) {
    exists h :: h in s.req && i in s.req[h].idx
  }

  /** A thread inside virtio_disk_rw has a request of its own. */
  ghost predicate PcOk(s: State, tid: nat)
    requires tid in s.pc
  {
    && (s.pc[tid] != Idle ==> s.pc[tid].head in s.req && s.req[s.pc[tid].head].tid == tid)
    && (s.lock == Some(tid) ==> s.pc[tid].Formatted?)
  }

  ghost predicate ReqOk(s: State, h: nat) {
    && h in s.req && h in s.phase
    && Format(s, h, s.req[h]) && Place(s, h, s.req[h], s.phase[h]) && Contents(s, s.req[h], s.phase[h])
  }

  ghost predicate Requests(s: State) {
    && (forall h | h in s.phase :: h in s.req)
    && (forall h | h in s.req :: ReqOk(s, h))
    && (forall h, g | h in s.req && g in s.req && h != g :: Apart(s.req[h], s.req[g]))
  }

  ghost predicate Owners(s: State) {
    && (forall i: nat | i < NUM && i < |s.free| && !s.free[i] :: Covered(s, i))
    && (forall t | t in s.pc :: PcOk(s, t))
    && (s.lock.Some? ==> s.lock.value in s.pc)
    && (forall h | h in s.dev :: h in s.req)
  }

  ghost predicate Rings(s: State) {
    && Mem(s)
    && Queue(s.pend, s.ring, s.subs - |s.pend|, s.phase, Pending)
    && Queue(s.done, s.usedRing, s.posts - |s.done|, s.phase, Posted)
  }

  ghost predicate Inv(s: State) {
    Mem(s) && Requests(s) && Owners(s) && Rings(s)
  }

  lemma InitInv(s: State)
    requires Init(s)
    ensures Inv(s)
  {
  }

  // ---- at most two requests ----

  ghost function SetOf(idx: seq<nat>): set<nat>
    requires Triple(idx)
  {
    {idx[0], idx[1], idx[2]}
  }

  lemma NineIsTooMany(a: seq<nat>, b: seq<nat>, c: seq<nat>)
    requires Triple(a) && Triple(b) && Triple(c)
    ensures !(SetOf(a) !! SetOf(b) && SetOf(a) !! SetOf(c) && SetOf(b) !! SetOf(c))
  {
    var all := SetOf(a) + SetOf(b) + SetOf(c);
    SizeBelow(all, NUM);
  }

  lemma {:induction false} SizeBelow(a: set<nat>, n: nat)
    requires forall x | x in a :: x < n
    ensures |a| <= n
  {
    if n == 0 {
      assert a == {};
    } else {
      SizeBelow(a - {n - 1}, n - 1);
    }
  }

  /** Any list of different live requests has at most two. */
  lemma Few(s: State, q: seq<nat>)
    requires Requests(s)
    requires forall i | 0 <= i < |q| :: q[i] in s.req
    requires NoDup(q)
    ensures |q| <= 2
  {
    if |q| > 2 {
      TriplesApart(s, q[0], q[1]);
      TriplesApart(s, q[0], q[2]);
      TriplesApart(s, q[1], q[2]);
      NineIsTooMany(s.req[q[0]].idx, s.req[q[1]].idx, s.req[q[2]].idx);
    }
  }

  lemma TriplesApart(s: State, h: nat, g: nat)
    requires Requests(s) && h in s.req && g in s.req && h != g
    ensures Triple(s.req[h].idx) && Triple(s.req[g].idx) && SetOf(s.req[h].idx) !! SetOf(s.req[g].idx)
  {
    hide Place, Contents, Mem, Apart, Triple;
    assert Triple(s.req[h].idx) by { assert ReqOk(s, h); }
    assert Triple(s.req[g].idx) by { assert ReqOk(s, g); }
    ApartSets(s.req[h], s.req[g]);
  }

  lemma ApartSets(r: Request, q: Request)
    requires Apart(r, q) && Triple(r.idx) && Triple(q.idx)
    ensures SetOf(r.idx) !! SetOf(q.idx)
  {
  }

  lemma FewPending(s: State)
    requires Inv(s)
    ensures |s.pend| <= 2 && |s.done| <= 2
  {
    hide Place, Contents, Format, Apart;
    Few(s, s.pend);
    Few(s, s.done);
  }
}
