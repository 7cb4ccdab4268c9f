/** riscv-os/kernel/disk/log.c on top of riscv-os/kernel/disk/bio.c: operations change
    cached blocks and call log_write, the commit and the recovery copy blocks from
    buffer to buffer and write them, and every one of these steps goes through a
    buffer that the process has locked. Nothing is assumed about the log or the cache;
    an operation owes them one thing, log_write after its changes to a block and
    before it lets go of the block or ends. */
module LogCache {
  import opened Common
  import opened BlockDisk
  import opened LogFormat
  import Cache = BufferCache
  import Log = LogRuns

  const DEV: nat := 1

  /** What the access that has a buffer has done to it. */
  datatype Note =
    | Fresh        // nothing since bread, log_write or bwrite
    | Dirty(o: nat) // operation o has changed it
    | Filled       // the commit or the recovery has filled it
    | Written      // ... and has written it, and has to unpin it

  datatype Stage = Copying | Full | Unpinning

  /** Where the process is that commits or recovers: it makes block write number k,
      with log.lh.block[..log.lh.n] == blocks. */
  datatype Pc =
    | Serving
    | Boot
    | Writing(recovering: bool, blocks: seq<nat>, k: nat, st: Stage)

  /** One block write: a copy from one block to another, or a header. */
  datatype Job = CopyJob(src: nat, dst: nat) | HeadJob(head: seq<nat>)

  /** The loops of write_log, write_head, install_trans and write_head again, or those
      of recover_from_log, as a list of block writes. */
  function NextJob(start: nat, pc: Pc): Option<Job>
    requires pc.Writing?
  {
    var n, k := |pc.blocks|, pc.k;
    if pc.recovering then
      if k < n then Some(CopyJob(start + 1 + k, pc.blocks[k]))
      else if k == n then Some(HeadJob([]))
      else None
    else if n == 0 then None
    else if k < n then Some(CopyJob(pc.blocks[k], start + 1 + k))
    else if k == n then Some(HeadJob(pc.blocks))
    else if k <= 2 * n then Some(CopyJob(start + 1 + (k - n - 1), pc.blocks[k - n - 1]))
    else if k == 2 * n + 1 then Some(HeadJob([]))
    else None
  }

  /** Job k installs a block of a commit, which is then unpinned. */
  predicate Installs(pc: Pc)
    requires pc.Writing?
  {
    !pc.recovering && |pc.blocks| < pc.k <= 2 * |pc.blocks|
  }

  /** How many blocks install_trans has unpinned. */
  function Unpins(pc: Pc): nat
    requires pc.Writing?
  {
    var n := |pc.blocks|;
    var done := if pc.k <= n + 1 then 0 else if pc.k <= 2 * n + 1 then pc.k - n - 1 else n;
    if pc.st.Unpinning? && done > 0 then done - 1 else done
  }

  /** The blocks that bpin keeps: those in the log, from the end of log_write until
      install_trans unpins them. */
  predicate Pinned(pc: Pc, lh: seq<nat>, b: nat) {
    match pc
    case Serving => b in lh
    case Boot => false
    case Writing(recovering, blocks, _, _) =>
      !recovering && Unpins(pc) <= |blocks| && b in blocks[Unpins(pc)..]
  }

  /** What a reader of block b is to find. */
  function Want(start: nat, l: Log.State, b: nat): Block
    requires b < |l.disk| == |l.view|
  {
    if Home(start, |l.disk|, b) && !l.phase.Recovering? then l.view[b] else l.disk[b]
  }

  ghost predicate PcOk(start: nat, l: Log.State, pc: Pc) {
    match pc
    case Serving => l.phase.Active?
    case Boot => l.phase.Recovering? && l.phase.k == 0
    case Writing(recovering, blocks, k, st) =>
      && (if recovering then l.phase.Recovering? else l.phase.Committing?)
      && l.phase.k == k
      && (if recovering
          then start + LOGBLOCKS < |l.phase.from| && HeadOk(start, |l.phase.from|, l.phase.from[start])
               && blocks == DecodeHead(start, |l.phase.from|, l.phase.from[start])
          else blocks == l.lh)
      && (st.Full? ==> k < |l.phase.ws|)
      && (st.Unpinning? ==> !recovering && |blocks| + 1 < k <= 2 * |blocks| + 1)
  }

  // ---- the block writes of LogRuns are these jobs ----

  lemma CommitDisk(start: nat, init: Disk, l: Log.State)
    requires Log.Inv(start, init, l) && l.phase.Committing?
    ensures var n, k := |l.lh|, l.phase.k;
            && TxnOk(start, l.phase.from, l.lh, l.view) && |l.disk| == |l.phase.from|
            && |l.phase.ws| == (if n == 0 then 0 else 2 * n + 2)
            && (k <= n ==> Logged(start, l.phase.from, l.disk, l.lh, l.view, k))
            && (n < k <= 2 * n + 1 ==> Installed(start, l.phase.from, l.disk, l.lh, l.view, k - n - 1))
            && (n > 0 && k == 2 * n + 2 ==> SameHome(start, l.disk, l.view))
  {
    hide Log.SpaceInv, Log.OpsInv, Log.Replay, Means, Apply, CommitWrites, Logged, Installed;
    var Committing(from, ws, k) := l.phase;
    CommitLength(start, l.lh, l.view, from[start]);
    if k <= |l.lh| {
      LogPhase(start, from, l.lh, l.view, ws, k);
    } else if k <= 2 * |l.lh| + 1 {
      InstallPhase(start, from, l.lh, l.view, ws, k);
    } else {
      assert ws[..k] == ws;
      CommitClears(start, from, l.lh, l.view);
    }
  }

  lemma CommitLength(start: nat, blocks: seq<nat>, view: Disk, hb: Block)
    requires |blocks| <= LOGBLOCKS && AllHome(start, |view|, blocks) && start + LOGBLOCKS < |view|
    ensures |CommitWrites(true, start, blocks, view, hb)| == if blocks == [] then 0 else 2 * |blocks| + 2
    ensures forall i | 0 <= i < |CommitWrites(true, start, blocks, view, hb)| ::
              CommitWrites(true, start, blocks, view, hb)[i] == CommitWrite(true, start, blocks, view, hb, i)
  {
  }

  /** Block write k of a commit, in terms of the disk and the contents now. */
  lemma CommitJob(start: nat, init: Disk, l: Log.State, pc: Pc)
    requires Log.Inv(start, init, l) && pc.Writing? && !pc.recovering && PcOk(start, l, pc)
    ensures NextJob(start, pc).Some? <==> pc.k < |l.phase.ws|
    ensures NextJob(start, pc).Some? ==> JobIs(start, l, NextJob(start, pc).value, l.phase.ws[pc.k])
  {
    hide Log.SpaceInv, Log.OpsInv, Log.Replay, Means, Apply, CommitWrites;
    CommitDisk(start, init, l);
    CommitLength(start, l.lh, l.view, l.phase.from[start]);
    HomeBlocks(start, l.lh, |l.disk|);
  }

  lemma HomeBlocks(start: nat, blocks: seq<nat>, n: nat)
    requires AllHome(start, n, blocks)
    ensures forall i | 0 <= i < |blocks| :: Home(start, n, blocks[i])
  {
  }

  /** The job makes this block write. */
  ghost predicate JobIs(start: nat, l: Log.State, job: Job, w: Write) {
    && start < |l.disk| == |l.view|
    && match job
       case CopyJob(src, dst) => src < |l.disk| && dst < |l.disk| && src != dst && w == Write(dst, Want(start, l, src))
       case HeadJob(head) => |head| <= LOGBLOCKS && w == Write(start, EncodeHead(true, l.disk[start], head))
  }

  /** While a recovery copies, header and log blocks stay as the crash left them. */
  lemma {:induction false} LogAreaKept(start: nat, d: Disk, k: nat)
    requires start + LOGBLOCKS < |d| && HeadOk(start, |d|, d[start]) && k <= d[start][0]
    ensures forall b | start <= b <= start + LOGBLOCKS :: Apply(d, RecoverWrites(true, start, d)[..k])[b] == d[b]
  {
    if k > 0 {
      LogAreaKept(start, d, k - 1);
      ApplyNext(d, RecoverWrites(true, start, d), k - 1);
    }
  }

  lemma RecoverJob(start: nat, init: Disk, l: Log.State, pc: Pc)
    requires Log.Inv(start, init, l) && pc.Writing? && pc.recovering && PcOk(start, l, pc)
    ensures NextJob(start, pc).Some? <==> pc.k < |l.phase.ws|
    ensures NextJob(start, pc).Some? ==> JobIs(start, l, NextJob(start, pc).value, l.phase.ws[pc.k])
  {
    hide Log.SpaceInv, Log.OpsInv, Log.Replay, Means, Apply, RecoverWrites;
    var Recovering(from, ws, k) := l.phase;
    HomeBlocks(start, pc.blocks, |from|);
    if k <= from[start][0] { LogAreaKept(start, from, k); }
  }

  lemma JobWrites(start: nat, init: Disk, l: Log.State, pc: Pc)
    requires Log.Inv(start, init, l) && pc.Writing? && PcOk(start, l, pc)
    ensures NextJob(start, pc).Some? <==> pc.k < |l.phase.ws|
    ensures NextJob(start, pc).Some? ==> JobIs(start, l, NextJob(start, pc).value, l.phase.ws[pc.k])
  {
    if pc.recovering { RecoverJob(start, init, l, pc); } else { CommitJob(start, init, l, pc); }
  }

  /** A home block that is not pinned is on the disk as readers are to find it. */
  lemma UnpinnedOnDisk(start: nat, init: Disk, l: Log.State, pc: Pc, b: nat)
    requires Log.Inv(start, init, l) && PcOk(start, l, pc) && b < |l.disk| == |l.view| && !Pinned(pc, l.lh, b)
    ensures Want(start, l, b) == l.disk[b]
  {
    hide Log.SpaceInv, Log.OpsInv, Log.Replay, Means, Apply, CommitWrites;
    if Home(start, |l.disk|, b) && pc.Writing? && !pc.recovering {
      CommitDisk(start, init, l);
      var n, u := |l.lh|, Unpins(pc);
      if b in l.lh && pc.k <= 2 * n + 1 {
        var j :| 0 <= j < n && l.lh[j] == b;
        assert forall x | u <= x < n :: l.lh[u..][x - u] == l.lh[x];
      }
    }
  }

  // ---- the two together ----

  /** `l` holds the in-memory log (lh, outstanding, operations) as LogRuns has it; its
      other fields record what has happened and no step depends on them. */
  datatype World = World(c: Cache.State, notes: seq<Note>, l: Log.State, pc: Pc, logging: Option<nat>)

  datatype Event =
    | Access(i: nat, e: Cache.Event)      // bget, the read of bread, brelse
    | Change(i: nat, o: nat, d: Block)    // operation o changes a block
    | LogHit(i: nat, o: nat)              // log_write finds the block in the log
    | LogPin(i: nat, o: nat)              // log_write appends it: bpin reads refcnt
    | LogPinned(i: nat)                   // ... and stores it
    | Begin
    | End(o: nat)
    | Copy(i: nat, j: nat)                // memmove from buffer i to buffer j
    | Head(i: nat)                        // the header is put into buffer i
    | Put(i: nat)                         // bwrite
    | Unpin(i: nat)                       // bunpin reads refcnt
    | Unpinned(i: nat)                    // ... and stores it
    | Done                                // the commit or the recovery is over
    | ReadHead(i: nat)                    // read_head at boot
    | Crash(bufs: seq<Cache.Buf>, order: seq<nat>)

  predicate Ordinary(e: Cache.Event) {
    !e.Modify? && !e.Flush? && !e.StartPin? && !e.EndPin? && !e.StartUnpin? && !e.EndUnpin?
  }

  predicate Holds(w: World, i: nat, b: nat) {
    i < |w.c.bufs| == |w.notes| && Cache.Acts(w.c, i) && w.c.bufs[i].valid && w.c.bufs[i].key == (DEV, b)
  }

  /** Operation o has a block outside the log. */
  predicate Works(start: nat, w: World, i: nat, o: nat) {
    && i < |w.c.bufs| == |w.notes| && o in w.l.ops
    && Holds(w, i, w.c.bufs[i].key.1) && Home(start, |w.l.view|, w.c.bufs[i].key.1)
    && (w.notes[i] == Fresh || w.notes[i] == Dirty(o))
  }

  /** ... and may log it: log.lock is free and the operation stays under its limit. */
  predicate MayLog(start: nat, w: World, i: nat, o: nat) {
    && Works(start, w, i, o) && w.logging.None?
    && |w.l.ops[o] + {w.c.bufs[i].key.1}| < MAXOPBLOCKS
  }

  function HeadOf(start: nat, n: nat, hb: Block): seq<nat> {
    if HeadOk(start, n, hb) then DecodeHead(start, n, hb) else []
  }

  ghost predicate Ready(c: Cache.Code, start: nat, w: World, e: Event) {
    match e
    case Access(i, e) =>
      && Ordinary(e) && Cache.Ready(c, w.c, i, e) && i < |w.notes|
      && (e.Release? ==> w.notes[i] == Fresh)
      && (e.StartHit? || e.StartMiss? ==> e.k.0 == DEV && e.k.1 < |w.l.disk|)
    case Change(i, o, d) => Works(start, w, i, o)
    case LogHit(i, o) => MayLog(start, w, i, o) && w.c.bufs[i].key.1 in w.l.lh
    case LogPin(i, o) => MayLog(start, w, i, o) && w.c.bufs[i].key.1 !in w.l.lh && w.c.section.Open?
    case LogPinned(i) => w.logging.Some? && Cache.Ready(c, w.c, i, Cache.EndPin) && i < |w.notes|
    case Begin => w.logging.None? && w.pc.Serving? && |w.l.lh| + (w.l.outstanding + 1) * MAXOPBLOCKS <= LOGBLOCKS
    case End(o) => w.logging.None? && o in w.l.ops && forall i | 0 <= i < |w.notes| :: w.notes[i] != Dirty(o)
    case Copy(i, j) =>
      && w.pc.Writing? && w.pc.st.Copying? && NextJob(start, w.pc).Some? && NextJob(start, w.pc).value.CopyJob?
      && Holds(w, i, NextJob(start, w.pc).value.src) && w.notes[i] == Fresh
      && Holds(w, j, NextJob(start, w.pc).value.dst) && w.notes[j] == Fresh
    case Head(i) =>
      && w.pc.Writing? && w.pc.st.Copying? && NextJob(start, w.pc).Some? && NextJob(start, w.pc).value.HeadJob?
      && |NextJob(start, w.pc).value.head| <= LOGBLOCKS
      && Holds(w, i, start) && w.notes[i] == Fresh
    case Put(i) => w.pc.Writing? && i < |w.c.bufs| == |w.notes| && w.notes[i] == Filled && Cache.Acts(w.c, i) && w.c.bufs[i].valid
    case Unpin(i) =>
      && w.pc.Writing? && i < |w.c.bufs| == |w.notes| && w.notes[i] == Written
      && Cache.Acts(w.c, i) && w.c.bufs[i].valid && w.c.section.Open?
    case Unpinned(i) => w.pc.Writing? && Cache.Ready(c, w.c, i, Cache.EndUnpin) && i < |w.notes|
    case Done => w.pc.Writing? && w.pc.st.Copying? && NextJob(start, w.pc).None?
    case ReadHead(i) => w.pc.Boot? && Holds(w, i, start) && w.notes[i] == Fresh
    case Crash(bufs, order) => Cache.Init(Cache.State(bufs, order, w.c.disk, Cache.Open, 0), w.c.disk)
  }

  /** The step of the cache that the event takes, if any. */
  function CacheStep(start: nat, w: World, e: Event): Option<Cache.Step> {
    match e
    case Access(i, e) => Some(Cache.Step(i, e))
    case Change(i, _, d) => Some(Cache.Step(i, Cache.Modify(d)))
    case LogPin(i, _) => Some(Cache.Step(i, Cache.StartPin))
    case LogPinned(i) => Some(Cache.Step(i, Cache.EndPin))
    case Copy(i, j) => if i < |w.c.bufs| then Some(Cache.Step(j, Cache.Modify(w.c.bufs[i].data))) else None
    case Head(i) =>
      if i < |w.c.bufs| && w.pc.Writing? && NextJob(start, w.pc).Some? && NextJob(start, w.pc).value.HeadJob?
         && |NextJob(start, w.pc).value.head| <= LOGBLOCKS
      then Some(Cache.Step(i, Cache.Modify(EncodeHead(true, w.c.bufs[i].data, NextJob(start, w.pc).value.head))))
      else None
    case Put(i) => Some(Cache.Step(i, Cache.Flush))
    case Unpin(i) => Some(Cache.Step(i, Cache.StartUnpin))
    case Unpinned(i) => Some(Cache.Step(i, Cache.EndUnpin))
    case _ => None
  }

  /** The event of LogRuns that the event is, if any. */
  function LogEvent(w: World, e: Event): Option<Log.Event> {
    match e
    case LogHit(i, o) => if i < |w.c.bufs| then Some(Log.Log(o, w.c.bufs[i].key.1, w.c.bufs[i].data)) else None
    case LogPinned(i) =>
      if i < |w.c.bufs| && w.logging.Some? then Some(Log.Log(w.logging.value, w.c.bufs[i].key.1, w.c.bufs[i].data)) else None
    case Begin => Some(Log.Begin)
    case End(o) => Some(Log.End(o))
    case Put(_) => Some(Log.DiskWrite)
    case Done => Some(Log.Finish)
    case Crash(_, _) => Some(Log.Crash)
    case _ => None
  }

  function NextPc(start: nat, w: World, e: Event): Pc {
    match e
    case End(_) => if w.l.outstanding == 1 then Writing(false, w.l.lh, 0, Copying) else w.pc
    case Copy(_, _) => if w.pc.Writing? then w.pc.(st := Full) else w.pc
    case Head(_) => if w.pc.Writing? then w.pc.(st := Full) else w.pc
    case Put(_) => if w.pc.Writing? then w.pc.(k := w.pc.k + 1, st := if Installs(w.pc) then Unpinning else Copying) else w.pc
    case Unpinned(_) => if w.pc.Writing? then w.pc.(st := Copying) else w.pc
    case Done => Serving
    case ReadHead(i) =>
      if i < |w.c.bufs| then Writing(true, HeadOf(start, |w.l.disk|, w.c.bufs[i].data), 0, Copying) else w.pc
    case Crash(_, _) => Boot
    case _ => w.pc
  }

  function NextNotes(w: World, e: Event): seq<Note> {
    var n := |w.notes|;
    match e
    case Change(i, o, _) => if i < n then w.notes[i := Dirty(o)] else w.notes
    case LogHit(i, _) => if i < n then w.notes[i := Fresh] else w.notes
    case LogPinned(i) => if i < n then w.notes[i := Fresh] else w.notes
    case Copy(_, j) => if j < n then w.notes[j := Filled] else w.notes
    case Head(i) => if i < n then w.notes[i := Filled] else w.notes
    case Put(i) => if i < n && w.pc.Writing? then w.notes[i := if Installs(w.pc) then Written else Fresh] else w.notes
    case Unpinned(i) => if i < n then w.notes[i := Fresh] else w.notes
    case Crash(bufs, _) => seq(|bufs|, _ => Fresh)
    case _ => w.notes
  }

  function Next(c: Cache.Code, start: nat, w: World, e: Event): World {
    var cs, ls := CacheStep(start, w, e), LogEvent(w, e);
    World(
      if e.Crash? then Cache.State(e.bufs, e.order, w.c.disk, Cache.Open, 0)
      else if cs.Some? && Cache.Ready(c, w.c, cs.value.i, cs.value.e) then Cache.Next(c, w.c, cs.value.i, cs.value.e)
      else w.c,
      NextNotes(w, e),
      if ls.Some? && Log.Enabled(start, w.l, ls.value) then Log.Next(start, w.l, ls.value) else w.l,
      NextPc(start, w, e),
      match e
      case LogPin(_, o) => Some(o)
      case LogPinned(_) => None
      case Crash(_, _) => None
      case _ => w.logging)
  }

  // ---- the invariant ----

  predicate NoteOk(start: nat, l: Log.State, pc: Pc, b: Cache.Buf, n: Note) {
    && (n != Fresh ==> b.holder.Has? && b.valid && b.key.0 == DEV)
    && (n.Dirty? ==> n.o in l.ops && Home(start, |l.disk|, b.key.1))
    && (n.Filled? ==>
          && pc.Writing? && pc.st.Full? && (l.phase.Committing? || l.phase.Recovering?)
          && pc.k < |l.phase.ws| && Write(b.key.1, b.data) == l.phase.ws[pc.k])
    && (n.Written? ==>
          && pc.Writing? && pc.st.Unpinning?
          && 0 <= pc.k - |pc.blocks| - 2 < |pc.blocks| && b.key.1 == pc.blocks[pc.k - |pc.blocks| - 2])
  }

  /** A buffer is pinned exactly while its block is in the log, and holds what readers
      are to find unless its holder is at work on it. */
  predicate BufOk(start: nat, l: Log.State, pc: Pc, b: Cache.Buf, n: Note) {
    && |l.disk| == |l.view|
    && (b.key.0 != 0 ==> b.key.0 == DEV && b.key.1 < |l.disk|)
    && b.pins == Cache.One(b.key.0 == DEV && Pinned(pc, l.lh, b.key.1))
    && NoteOk(start, l, pc, b, n)
    && (b.valid && b.key.0 == DEV && (n.Fresh? || n.Written?) ==> b.data == Want(start, l, b.key.1))
  }

  ghost predicate BufsOk(start: nat, w: World) {
    && |w.notes| == |w.c.bufs|
    && forall i | 0 <= i < |w.c.bufs| :: BufOk(start, w.l, w.pc, w.c.bufs[i], w.notes[i])
  }

  ghost predicate DiskSame(w: World) {
    forall b: nat | b < |w.l.disk| :: Cache.Read(w.c.disk, (DEV, b)) == w.l.disk[b]
  }

  /** log.lock is held across bpin; misses are for blocks of the disk. */
  ghost predicate SectionOk(start: nat, w: World) {
    && (w.logging.Some? <==> w.c.section.Pinning?)
    && (w.c.section.Pinning? ==>
          && w.c.section.i < |w.c.bufs| == |w.notes| && w.logging.value in w.l.ops
          && (w.notes[w.c.section.i] == Fresh || w.notes[w.c.section.i] == Dirty(w.logging.value))
          && var b := w.c.bufs[w.c.section.i].key;
          && b.0 == DEV && Home(start, |w.l.view|, b.1) && b.1 !in w.l.lh
          && |w.l.ops[w.logging.value] + {b.1}| < MAXOPBLOCKS)
    && (w.c.section.Unpinning? ==> w.c.section.i < |w.notes| && w.notes[w.c.section.i] == Written)
    && (w.c.section.Scanning? || w.c.section.Recycling? ==> w.c.section.k.0 == DEV && w.c.section.k.1 < |w.l.disk|)
  }

  ghost predicate InBuf(w: World, b: nat, i: nat) {
    i < |w.c.bufs| && w.c.bufs[i].key == (DEV, b) && w.c.bufs[i].valid
  }

  ghost predicate PinsCached(w: World) {
    forall b: nat | Pinned(w.pc, w.l.lh, b) :: exists i: nat :: InBuf(w, b, i)
  }

  ghost predicate Inv(c: Cache.Code, start: nat, init: Disk, w: World) {
    && Cache.Inv(c, w.c) && Log.Inv(start, init, w.l)
    && PcOk(start, w.l, w.pc) && DiskSame(w) && BufsOk(start, w) && SectionOk(start, w) && PinsCached(w)
  }

  // ---- what the cache asks of its users ----

  lemma SameSize(start: nat, init: Disk, l: Log.State)
    requires Log.Inv(start, init, l)
    ensures start + LOGBLOCKS < |l.disk| == |l.view| == |init|
  {
  }

  /** A block without a change in progress can be let go. */
  lemma ReleaseClean(c: Cache.Code, start: nat, init: Disk, w: World, i: nat)
    requires Inv(c, start, init, w) && i < |w.c.bufs| && w.c.bufs[i].valid && w.c.bufs[i].key.0 == DEV && w.notes[i] == Fresh
    ensures Cache.Kept(w.c, w.c.bufs[i])
  {
    hide Cache.Inv, Log.Inv, PcOk, SectionOk, PinsCached, Pinned, Want, NoteOk, Cache.Read;
    var b := w.c.bufs[i];
    assert BufOk(start, w.l, w.pc, b, w.notes[i]);
    if !Pinned(w.pc, w.l.lh, b.key.1) { UnpinnedOnDisk(start, init, w.l, w.pc, b.key.1); }
  }

  /** install_trans has written the block that it unpins, and the block is pinned. */
  lemma UnpinClean(c: Cache.Code, start: nat, init: Disk, w: World, i: nat)
    requires Inv(c, start, init, w) && i < |w.c.bufs| && w.notes[i] == Written
    ensures w.c.bufs[i].pins > 0 && w.c.bufs[i].data == Cache.Read(w.c.disk, w.c.bufs[i].key)
  {
    hide Cache.Inv, SectionOk, PinsCached, Log.SpaceInv, Log.OpsInv, Log.ContentsInv, Cache.Read;
    var b := w.c.bufs[i];
    assert BufOk(start, w.l, w.pc, b, w.notes[i]);
    CommitDisk(start, init, w.l);
    var n, k := |w.l.lh|, w.pc.k;
    assert Unpins(w.pc) == k - n - 2;
    assert w.l.lh[k - n - 2..][0] == b.key.1;
    assert Installed(start, w.l.phase.from, w.l.disk, w.l.lh, w.l.view, k - n - 1);
  }

  lemma HeldKey(c: Cache.Code, start: nat, w: World, i: nat)
    requires Cache.Inv(c, w.c) && BufsOk(start, w) && i < |w.c.bufs| && Cache.Acts(w.c, i)
    ensures w.c.bufs[i].key.0 == DEV
  {
    hide Cache.SectionCounts, Cache.Ordered, Cache.Absent, Cache.Distinct, NoteOk, Pinned, Want;
    assert Cache.Good(c, w.c.bufs[i], w.c.started);
    assert BufOk(start, w.l, w.pc, w.c.bufs[i], w.notes[i]);
  }

  /** Every step of the cache is one that the cache's theorems are about. */
  lemma CacheEnabled(c: Cache.Code, start: nat, init: Disk, w: World, e: Event)
    requires Inv(c, start, init, w) && Ready(c, start, w, e) && CacheStep(start, w, e).Some?
    ensures var st := CacheStep(start, w, e).value; Cache.Enabled(c, w.c, st.i, st.e)
  {
    hide Log.Inv, PcOk, SectionOk, PinsCached, Pinned, Want, Cache.Read, Cache.Inv, BufsOk, DiskSame, NextJob, Cache.FirstMatch, Cache.NoMatch;
    match e
    case Access(i, Release) =>
      HeldKey(c, start, w, i);
      ReleaseClean(c, start, init, w, i);
    case Unpin(i) => UnpinClean(c, start, init, w, i);
    case _ =>
  }

  lemma ActiveOps(start: nat, init: Disk, l: Log.State, o: nat)
    requires Log.Inv(start, init, l) && o in l.ops
    ensures l.phase.Active?
  {
  }

  /** Every step of the log is one of LogRuns. */
  lemma LogEnabled(c: Cache.Code, start: nat, init: Disk, w: World, e: Event)
    requires Inv(c, start, init, w) && Ready(c, start, w, e) && LogEvent(w, e).Some?
    ensures Log.Enabled(start, w.l, LogEvent(w, e).value)
  {
    hide Cache.Inv, Log.Inv, PinsCached, Pinned, Want, Cache.Ready, DiskSame;
    SameSize(start, init, w.l);
    match e
    case LogHit(i, o) => ActiveOps(start, init, w.l, o);
    case LogPinned(i) =>
      ActiveOps(start, init, w.l, w.logging.value);
      PinSection(c, w.c, i);
    case End(o) => ActiveOps(start, init, w.l, o);
    case Put(i) => assert BufOk(start, w.l, w.pc, w.c.bufs[i], w.notes[i]);
    case Done =>
      JobWrites(start, init, w.l, w.pc);
      PhaseBound(start, init, w.l);
    case _ =>
  }

  lemma PinSection(c: Cache.Code, s: Cache.State, i: nat)
    requires Cache.Ready(c, s, i, Cache.EndPin)
    ensures i < |s.bufs| && s.section.Pinning? && s.section.i == i
  {
  }

  lemma PhaseBound(start: nat, init: Disk, l: Log.State)
    requires Log.Inv(start, init, l)
    ensures l.phase.Committing? || l.phase.Recovering? ==> l.phase.k <= |l.phase.ws|
  {
  }
}
