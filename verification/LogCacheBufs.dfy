/** What the steps of the log over the cache do to one buffer: it stays pinned exactly while
    its block is in the log, and keeps what readers are to find. */
module LogCacheBufs {
  import opened Common
  import opened BlockDisk
  import opened LogFormat
  import Cache = BufferCache
  import Log = LogRuns
  import opened LogCache

  /** The buffer of a pinned block is the one in the cache. */
  lemma PinnedIsCached(c: Cache.Code, start: nat, w: World, i: nat, b: nat)
    requires Cache.Distinct(w.c) && PinsCached(w) && Pinned(w.pc, w.l.lh, b)
    requires i < |w.c.bufs| && w.c.bufs[i].key == (DEV, b)
    ensures w.c.bufs[i].valid
  {
    hide Pinned;
    var j: nat :| InBuf(w, b, j);
  }

  lemma AccessQuiet(c: Cache.Code, s: Cache.State, i: nat, e: Cache.Event)
    requires Cache.Ready(c, s, i, e) && Ordinary(e) && !e.Recycle? && !e.Fill? && !e.Release?
    ensures var b, b' := s.bufs[i], Cache.NextBuf(c, s, i, e);
            b'.key == b.key && b'.valid == b.valid && b'.data == b.data && b'.pins == b.pins && (b.holder.Has? ==> b'.holder.Has?)
  {
  }

  lemma FillOk(c: Cache.Code, start: nat, init: Disk, w: World, i: nat)
    requires Inv(c, start, init, w) && Cache.Ready(c, w.c, i, Cache.Fill)
    ensures BufOk(start, w.l, w.pc, Cache.NextBuf(c, w.c, i, Cache.Fill), w.notes[i])
  {
    hide Log.Inv, PcOk, SectionOk, Pinned, Want, Cache.Read, PinsCached, Cache.Ordered, Cache.Absent, Cache.Distinct, Cache.SectionCounts;
    var b := w.c.bufs[i];
    assert BufOk(start, w.l, w.pc, b, w.notes[i]);
    assert Cache.Good(c, b, w.c.started);
    if Pinned(w.pc, w.l.lh, b.key.1) { PinnedIsCached(c, start, w, i, b.key.1); } else { UnpinnedOnDisk(start, init, w.l, w.pc, b.key.1); }
  }

  lemma RecycleOk(c: Cache.Code, start: nat, init: Disk, w: World, i: nat)
    requires Inv(c, start, init, w) && Cache.Ready(c, w.c, i, Cache.Recycle)
    ensures BufOk(start, w.l, w.pc, Cache.NextBuf(c, w.c, i, Cache.Recycle), w.notes[i])
    ensures w.c.bufs[i].pins == 0
  {
    hide Log.Inv, PcOk, Pinned, Want, Cache.Read, Cache.Ordered, Cache.Distinct;
    var b := w.c.bufs[i];
    assert BufOk(start, w.l, w.pc, b, w.notes[i]);
    assert Cache.Good(c, b, w.c.started);
    Cache.NotInUse(b);
  }

  lemma AccessOk(c: Cache.Code, start: nat, init: Disk, w: World, i: nat, e: Cache.Event)
    requires Inv(c, start, init, w) && Ready(c, start, w, Access(i, e))
    ensures BufOk(start, w.l, w.pc, Cache.NextBuf(c, w.c, i, e), w.notes[i])
  {
    hide Log.Inv, PcOk, Pinned, Want, Cache.Read, Cache.Inv, SectionOk, PinsCached, DiskSame;
    assert BufOk(start, w.l, w.pc, w.c.bufs[i], w.notes[i]);
    if e.Recycle? { RecycleOk(c, start, init, w, i); }
    else if e.Fill? { FillOk(c, start, init, w, i); }
    else if !e.Release? { hide Cache.NextBuf, Cache.Ready; AccessQuiet(c, w.c, i, e); }
  }

  /** log_write seen by the buffer of another block. */
  lemma LogOther(start: nat, l: Log.State, o: nat, b: nat, data: Block, buf: Cache.Buf, n: Note)
    requires BufOk(start, l, Serving, buf, n) && l.phase.Active? && o in l.ops && b < |l.view| && |l.lh| < LOGBLOCKS && l.outstanding >= 1
    requires buf.key != (DEV, b)
    ensures BufOk(start, Log.NextLog(l, o, b, data), Serving, buf, n)
  {
  }

  lemma LogHere(start: nat, l: Log.State, o: nat, b: nat, data: Block, buf: Cache.Buf)
    requires |l.disk| == |l.view| && l.phase.Active? && o in l.ops && |l.lh| < LOGBLOCKS && l.outstanding >= 1
    requires buf.key == (DEV, b) && Home(start, |l.view|, b) && buf.data == data && buf.pins == 1
    ensures BufOk(start, Log.NextLog(l, o, b, data), Serving, buf, Fresh)
  {
  }

  lemma BeginOk(start: nat, l: Log.State, pc: Pc, buf: Cache.Buf, n: Note)
    requires BufOk(start, l, pc, buf, n)
    ensures BufOk(start, Log.NextBegin(l), pc, buf, n)
  {
  }

  lemma EndOk(start: nat, l: Log.State, o: nat, buf: Cache.Buf, n: Note)
    requires BufOk(start, l, Serving, buf, n) && l.phase.Active? && n != Dirty(o)
    ensures BufOk(start, Log.NextEnd(start, l, o), if l.outstanding == 1 then Writing(false, l.lh, 0, Copying) else Serving, buf, n)
  {
    assert l.lh[0..] == l.lh;
  }

  /** From Copying to Full. */
  lemma FullOther(start: nat, l: Log.State, pc: Pc, buf: Cache.Buf, n: Note)
    requires BufOk(start, l, pc, buf, n) && pc.Writing? && pc.st.Copying?
    ensures BufOk(start, l, pc.(st := Full), buf, n)
  {
  }

  lemma FullHere(start: nat, l: Log.State, pc: Pc, buf: Cache.Buf, d: Block)
    requires BufOk(start, l, pc, buf, Fresh) && pc.Writing? && pc.st.Copying? && buf.holder.Has? && buf.valid && buf.key.0 == DEV
    requires l.phase.Committing? || l.phase.Recovering?
    requires pc.k < |l.phase.ws| && l.phase.ws[pc.k] == Write(buf.key.1, d)
    ensures BufOk(start, l, pc.(st := Full), buf.(data := d), Filled)
  {
  }

  /** The commit's position after block write k. */
  function After(pc: Pc): Pc
    requires pc.Writing?
  {
    pc.(k := pc.k + 1, st := if Installs(pc) then Unpinning else Copying)
  }

  lemma SamePins(pc: Pc, lh: seq<nat>, b: nat)
    requires pc.Writing? && pc.st.Full? && (!pc.recovering ==> 0 < |pc.blocks| && pc.k <= 2 * |pc.blocks| + 1)
    ensures Pinned(After(pc), lh, b) == Pinned(pc, lh, b)
  {
    if !pc.recovering { assert Unpins(After(pc)) == Unpins(pc); }
  }

  lemma PutOther(start: nat, l: Log.State, pc: Pc, buf: Cache.Buf, n: Note)
    requires BufOk(start, l, pc, buf, n) && pc.Writing? && pc.st.Full? && (!pc.recovering ==> 0 < |pc.blocks| && pc.k <= 2 * |pc.blocks| + 1)
    requires l.phase.Committing? || l.phase.Recovering?
    requires l.phase.k == pc.k < |l.phase.ws| && l.phase.ws[pc.k].at < |l.disk| && buf.key != (DEV, l.phase.ws[pc.k].at)
    ensures BufOk(start, Log.NextDiskWrite(l), After(pc), buf, n)
  {
    hide Pinned;
    SamePins(pc, l.lh, buf.key.1);
  }

  lemma PutHere(start: nat, l: Log.State, pc: Pc, buf: Cache.Buf)
    requires BufOk(start, l, pc, buf, Filled) && (!pc.recovering ==> 0 < |pc.blocks| && pc.k <= 2 * |pc.blocks| + 1)
    requires l.phase.k == pc.k && (if pc.recovering then l.phase.Recovering? else l.phase.Committing?)
    requires Installs(pc) ==> buf.key.1 == pc.blocks[pc.k - |pc.blocks| - 1] && buf.data == l.view[buf.key.1]
    requires !Installs(pc) && !pc.recovering ==> !Home(start, |l.disk|, buf.key.1)
    ensures BufOk(start, Log.NextDiskWrite(l), After(pc), buf, if Installs(pc) then Written else Fresh)
  {
    hide Pinned;
    SamePins(pc, l.lh, buf.key.1);
  }

  /** A block that has been unpinned. */
  lemma UnpinnedOther(start: nat, l: Log.State, pc: Pc, buf: Cache.Buf, n: Note)
    requires BufOk(start, l, pc, buf, n) && pc.Writing? && pc.st.Unpinning? && !pc.recovering && |pc.blocks| + 1 < pc.k <= 2 * |pc.blocks| + 1
    requires buf.key != (DEV, pc.blocks[pc.k - |pc.blocks| - 2])
    ensures BufOk(start, l, pc.(st := Copying), buf, n)
  {
    var u := pc.k - |pc.blocks| - 2;
    assert pc.blocks[u..] == [pc.blocks[u]] + pc.blocks[u + 1..];
  }

  lemma UnpinnedHere(start: nat, l: Log.State, pc: Pc, buf: Cache.Buf, r: int)
    requires BufOk(start, l, pc, buf, Written) && !pc.recovering && |pc.blocks| + 1 < pc.k <= 2 * |pc.blocks| + 1 && buf.pins == 1
    requires NoDup(pc.blocks)
    ensures BufOk(start, l, pc.(st := Copying), buf.(refcnt := r, pins := 0), Fresh)
  {
    var u := pc.k - |pc.blocks| - 2;
    assert pc.blocks[u] !in pc.blocks[u + 1..];
  }

  lemma DoneOk(start: nat, l: Log.State, pc: Pc, buf: Cache.Buf, n: Note)
    requires BufOk(start, l, pc, buf, n) && pc.Writing? && pc.st.Copying?
    requires if pc.recovering then l.phase.Recovering? && l.lh == [] else l.phase.Committing?
    requires !pc.recovering ==> |pc.blocks| == 0 || pc.k == 2 * |pc.blocks| + 2
    ensures BufOk(start, Log.NextFinish(l), Serving, buf, n)
  {
    if !pc.recovering { assert pc.blocks[|pc.blocks|..] == []; }
  }

  lemma ReadHeadOk(start: nat, l: Log.State, blocks: seq<nat>, buf: Cache.Buf, n: Note)
    requires BufOk(start, l, Boot, buf, n)
    ensures BufOk(start, l, Writing(true, blocks, 0, Copying), buf, n)
  {
  }
}
