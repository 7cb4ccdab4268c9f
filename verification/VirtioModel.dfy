/** virtio_disk_rw and virtio_disk_intr of riscv-os/kernel/driver/virtio_disk.c
    together with a device that takes and completes requests in any order it
    likes, over the split rings of section 2.6 of VIRTIO 1.1. What the driver does
    in one hold of vdisk_lock is one step, except that the device may look at the
    rings between formatting a request and publishing it. */
module VirtioModel {
  import opened Common
  import opened VirtioDesc

  const WRAP: nat := 0x1_0000   // uint16

  /** struct virtio_blk_req */
  datatype Header = Header(write: bool, sector: nat)

  /** Where a thread is in virtio_disk_rw; idx[0] is its local variable. */
  datatype Pc = Idle | Formatted(head: nat) | Waiting(head: nat)

  /** How far a request has come. */
  datatype Phase = Written | Pending | Fetched | Moved | Posted | Handled

  /** A request and what it found when it was made. */
  datatype Request = Request(tid: nat, b: nat, block: nat, write: bool, idx: seq<nat>, data0: int, disk0: int, moves: nat, failed: bool)

  datatype State = State(
    // memory that driver and device share
    desc: seq<Desc>, op: seq<Header>, status: seq<nat>,
    ring: seq<nat>, availIdx: nat, usedRing: seq<nat>, usedDev: nat,
    data: map<nat, int>,
    // the driver's own
    free: seq<bool>, usedIdx: nat, infoB: seq<Option<nat>>, busy: set<nat>, pc: map<nat, Pc>, lock: Option<nat>,
    // the device's own: its position in the avail ring, requests at work, the disk
    seen: nat, dev: map<nat, bool>, disk: map<nat, int>,
    // history: live requests by head, the unread parts of both rings, totals
    req: map<nat, Request>, phase: map<nat, Phase>, pend: seq<nat>, done: seq<nat>, subs: nat, posts: nat)

  predicate Init(s: State) {
    && s.desc == seq(NUM, _ => CLEARED) && |s.op| == NUM && |s.status| == NUM && |s.ring| == NUM && |s.usedRing| == NUM
    && s.free == seq(NUM, _ => true) && s.infoB == seq(NUM, _ => None)
    && s.availIdx == 0 && s.usedDev == 0 && s.usedIdx == 0 && s.seen == 0
    && s.busy == {} && s.dev == map[] && s.lock == None
    && (forall t | t in s.pc :: s.pc[t] == Idle)
    && s.req == map[] && s.phase == map[] && s.pend == [] && s.done == [] && s.subs == 0 && s.posts == 0
  }

  datatype Step =
    | Submit(tid: nat, b: nat, block: nat, write: bool, idx: seq<nat>)
    | Publish(tid: nat)
    | Fetch
    | Move(head: nat, header: nat, buffer: nat, stat: nat, code: nat, junk: int)
    | Post(head: nat)
    | Intr
    | Finish(tid: nat, list: seq<nat>)

  function Rest(q: seq<nat>): seq<nat> { if q == [] then [] else q[1..] }

  function Inc(i: nat): nat { (i + 1) % WRAP }

  /** The buffer and block are not those of a live request: the caller holds the
      buffer's sleep lock, and the cache has one buffer per block. */
  predicate CallerOk(s: State, b: nat, block: nat) {
    && b in s.data && block in s.disk
    && forall h | h in s.req :: s.req[h].b != b && s.req[h].block != block
  }

  /** virtio_disk_rw up to the store to the avail ring. */
  predicate CanSubmit(s: State, tid: nat, b: nat, block: nat, idx: seq<nat>) {
    && s.lock == None && tid in s.pc && s.pc[tid] == Idle && CallerOk(s, b, block)
    && |idx| == 3 && Lowest(s.free, idx)
    && |s.desc| == NUM && |s.op| == NUM && |s.status| == NUM && |s.ring| == NUM && |s.infoB| == NUM && |s.free| == NUM
  }

  function DoSubmit(s: State, tid: nat, b: nat, block: nat, write: bool, idx: seq<nat>): State
    requires CanSubmit(s, tid, b, block, idx)
  {
    var h := idx[0];
    s.(free := s.free[h := false][idx[1] := false][idx[2] := false],
       op := s.op[h := Header(write, 2 * block)],
       desc := s.desc[h := Desc(Op(h), 16, idx[1], true, false)]
                     [idx[1] := Desc(Data(b), 1024, idx[2], true, !write)]
                     [idx[2] := Desc(Status(h), 1, 0, false, true)],
       status := s.status[h := 255],
       busy := s.busy + {b},
       infoB := s.infoB[h := Some(b)],
       ring := s.ring[s.availIdx % NUM := h],
       lock := Some(tid),
       pc := s.pc[tid := Formatted(h)],
       req := s.req[h := Request(tid, b, block, write, idx, s.data[b], s.disk[block], 0, false)],
       phase := s.phase[h := Written])
  }

  /** avail->idx += 1, and sleep, which releases the lock. */
  predicate CanPublish(s: State, tid: nat) {
    s.lock == Some(tid) && tid in s.pc && s.pc[tid].Formatted?
  }

  function DoPublish(s: State, tid: nat): State
    requires CanPublish(s, tid)
  {
    var h := s.pc[tid].head;
    s.(availIdx := Inc(s.availIdx), lock := None, pc := s.pc[tid := Waiting(h)],
       phase := s.phase[h := Pending], pend := s.pend + [h], subs := s.subs + 1)
  }

  /** The device takes the next entry of the avail ring. */
  predicate CanFetch(s: State) {
    s.seen != s.availIdx && |s.ring| == NUM
  }

  function DoFetch(s: State): State
    requires CanFetch(s)
  {
    var h := s.ring[s.seen % NUM];
    s.(seen := Inc(s.seen), dev := s.dev[h := false], phase := s.phase[h := Fetched], pend := Rest(s.pend))
  }

  /** What the device finds when it follows the chain from h: header i, buffer b,
      status byte j. */
  predicate Finds(s: State, h: nat, i: nat, b: nat, j: nat) {
    && |s.desc| == NUM && h < NUM && s.desc[h].hasNext && s.desc[h].next < NUM
    && var d1 := s.desc[s.desc[h].next];
    && d1.hasNext && d1.next < NUM
    && var d2 := s.desc[d1.next];
    && !d2.hasNext && d2.devWrites && d2.len == 1
    && s.desc[h].addr == Op(i) && d1.addr == Data(b) && d2.addr == Status(j)
    && i < |s.op| && j < |s.status| && b in s.data && s.op[i].sector / 2 in s.disk
    && !s.desc[h].devWrites && d1.devWrites == !s.op[i].write && d1.len == 1024
  }

  predicate CanMove(s: State, h: nat, i: nat, b: nat, j: nat) {
    h in s.dev && !s.dev[h] && h in s.req && Finds(s, h, i, b, j)
  }

  /** The transfer, in the direction that the header gives. A device that reports failure,
      by a status other than 0, leaves anything at all in the place of the contents. */
  function DoMove(s: State, h: nat, i: nat, b: nat, j: nat, code: nat, junk: int): State
    requires CanMove(s, h, i, b, j)
  {
    var block, r := s.op[i].sector / 2, s.req[h];
    s.(disk := if s.op[i].write then s.disk[block := if code == 0 then s.data[b] else junk] else s.disk,
       data := if s.op[i].write then s.data else s.data[b := if code == 0 then s.disk[block] else junk],
       status := s.status[j := code], dev := s.dev[h := true], phase := s.phase[h := Moved],
       req := s.req[h := if code == 0 then r.(moves := r.moves + 1) else r.(failed := true)])
  }

  /** The device returns the chain on the used ring. */
  predicate CanPost(s: State, h: nat) {
    h in s.dev && s.dev[h] && |s.usedRing| == NUM
  }

  function DoPost(s: State, h: nat): State
    requires CanPost(s, h)
  {
    s.(usedRing := s.usedRing[s.usedDev % NUM := h], usedDev := Inc(s.usedDev), dev := s.dev - {h},
       phase := s.phase[h := Posted], done := s.done + [h], posts := s.posts + 1)
  }

  /** The entry that virtio_disk_intr reads next. */
  function NextUsed(s: State): nat
    requires |s.usedRing| == NUM
  {
    s.usedRing[s.usedIdx % NUM]
  }

  /** The loop of virtio_disk_intr has an entry to read, and would panic on it or
      follow a null pointer. */
  predicate IntrPanics(s: State) {
    && s.lock == None && s.usedIdx != s.usedDev && |s.usedRing| == NUM
    && var id := NextUsed(s);
    !(id < |s.status| && id < |s.infoB| && s.status[id] == 0 && s.infoB[id].Some?)
  }

  predicate CanIntr(s: State) {
    s.lock == None && s.usedIdx != s.usedDev && |s.usedRing| == NUM && !IntrPanics(s)
  }

  function DoIntr(s: State): State
    requires CanIntr(s)
  {
    var id := NextUsed(s);
    s.(busy := s.busy - {s.infoB[id].value}, usedIdx := Inc(s.usedIdx), phase := s.phase[id := Handled], done := Rest(s.done))
  }

  /** virtio_disk_rw wakes with b->disk clear, frees its chain and returns. */
  predicate CanFinish(s: State, tid: nat, list: seq<nat>) {
    && s.lock == None && tid in s.pc && s.pc[tid].Waiting? && s.pc[tid].head in s.req
    && s.req[s.pc[tid].head].b !in s.busy
    && Linked(s.desc, list) && list[0] == s.pc[tid].head && InUse(s.free, list) && list[0] < |s.infoB|
  }

  function DoFinish(s: State, tid: nat, list: seq<nat>): State
    requires CanFinish(s, tid, list)
  {
    var h := s.pc[tid].head;
    s.(infoB := s.infoB[h := None],
       free := seq(|s.free|, i requires 0 <= i < |s.free| => s.free[i] || i in list),
       desc := seq(|s.desc|, i requires 0 <= i < |s.desc| => if i in list then CLEARED else s.desc[i]),
       pc := s.pc[tid := Idle], req := s.req - {h}, phase := s.phase - {h})
  }

  predicate Next(s: State, step: Step, s': State) {
    match step
    case Submit(tid, b, block, write, idx) => CanSubmit(s, tid, b, block, idx) && s' == DoSubmit(s, tid, b, block, write, idx)
    case Publish(tid) => CanPublish(s, tid) && s' == DoPublish(s, tid)
    case Fetch => CanFetch(s) && s' == DoFetch(s)
    case Move(h, i, b, j, code, junk) => CanMove(s, h, i, b, j) && s' == DoMove(s, h, i, b, j, code, junk)
    case Post(h) => CanPost(s, h) && s' == DoPost(s, h)
    case Intr => CanIntr(s) && s' == DoIntr(s)
    case Finish(tid, list) => CanFinish(s, tid, list) && s' == DoFinish(s, tid, list)
  }

  ghost predicate Run(states: seq<State>, steps: seq<Step>) {
    && |states| == |steps| + 1
    && Init(states[0])
    && forall i | 0 <= i < |steps| :: Next(states[i], steps[i], states[i + 1])
  }
}
