/** Every step of the log over the cache keeps the invariant of the two. */
module LogCacheSteps {
  import opened Common
  import opened BlockDisk
  import opened LogFormat
  import Cache = BufferCache
  import Log = LogRuns
  import opened LogCache
  import opened LogCacheBufs

  /** The event is possible, and so are its steps of the cache and of the log. */
  ghost predicate Can(c: Cache.Code, start: nat, init: Disk, w: World, e: Event) {
    && Inv(c, start, init, w) && Ready(c, start, w, e)
    && (CacheStep(start, w, e).Some? ==> Cache.Enabled(c, w.c, CacheStep(start, w, e).value.i, CacheStep(start, w, e).value.e))
    && (LogEvent(w, e).Some? ==> Log.Enabled(start, w.l, LogEvent(w, e).value))
  }

  /** A step of the cache changes one buffer. */
  lemma OneBuf(c: Cache.Code, start: nat, init: Disk, w: World, e: Event)
    requires Can(c, start, init, w, e) && CacheStep(start, w, e).Some?
    ensures var st, w' := CacheStep(start, w, e).value, Next(c, start, w, e);
            && st.i < |w.c.bufs| == |w'.c.bufs| && Cache.Ready(c, w.c, st.i, st.e) && w'.c == Cache.Next(c, w.c, st.i, st.e)
            && w'.c.bufs[st.i] == Cache.NextBuf(c, w.c, st.i, st.e)
            && forall j | 0 <= j < |w.c.bufs| && j != st.i :: w'.c.bufs[j] == w.c.bufs[j]
  {
    hide Inv, Ready, LogEvent, NextNotes, NextPc, NextJob, Cache.NextBuf, Cache.NextSection, Log.Enabled;
  }

  /** Events that leave the log and the position of the commit alone. */
  predicate Plain(e: Event) { e.Access? || e.Change? || e.LogPin? || e.Unpin? }

  lemma PlainBuf(c: Cache.Code, start: nat, init: Disk, w: World, e: Event)
    requires Can(c, start, init, w, e) && Plain(e) && CacheStep(start, w, e).Some?
    ensures var st := CacheStep(start, w, e).value;
            && st.i < |w.notes| == |w.c.bufs| && Cache.Ready(c, w.c, st.i, st.e)
            && BufOk(start, w.l, w.pc, Cache.NextBuf(c, w.c, st.i, st.e), NextNotes(w, e)[st.i])
  {
    hide Log.Inv, PcOk, Pinned, Want, Cache.Read, Cache.Inv, SectionOk, PinsCached, DiskSame, NextJob, Cache.FirstMatch, Cache.NoMatch;
    var st := CacheStep(start, w, e).value;
    assert BufOk(start, w.l, w.pc, w.c.bufs[st.i], w.notes[st.i]);
    if e.Access? { AccessOk(c, start, init, w, e.i, e.e); }
    if e.Change? { SameSize(start, init, w.l); }
  }

  lemma PlainBufs(c: Cache.Code, start: nat, init: Disk, w: World, e: Event)
    requires Can(c, start, init, w, e) && Plain(e)
    ensures BufsOk(start, Next(c, start, w, e))
  {
    hide Cache.Inv, Log.Inv, PcOk, Pinned, Want, SectionOk, PinsCached, DiskSame, BufOk, Cache.Ready, Cache.Next, Cache.NextBuf, Cache.Enabled, Log.Enabled, Works, MayLog;
    OneBuf(c, start, init, w, e);
    PlainBuf(c, start, init, w, e);
    var i, w' := CacheStep(start, w, e).value.i, Next(c, start, w, e);
    assert w'.l == w.l && w'.pc == w.pc;
    forall j | 0 <= j < |w'.c.bufs|
      ensures BufOk(start, w'.l, w'.pc, w'.c.bufs[j], w'.notes[j])
    {
      if j != i { assert BufOk(start, w.l, w.pc, w.c.bufs[j], w.notes[j]); }
    }
  }

  lemma OtherKey(c: Cache.Code, s: Cache.State, i: nat, j: nat, b: nat)
    requires Cache.Distinct(s) && i < |s.bufs| && j < |s.bufs| && i != j && s.bufs[i].key == (DEV, b)
    ensures s.bufs[j].key != (DEV, b)
  {
  }

  lemma LogBufs(c: Cache.Code, start: nat, init: Disk, w: World, e: Event)
    requires Can(c, start, init, w, e) && (e.LogHit? || e.LogPinned?)
    ensures BufsOk(start, Next(c, start, w, e))
  {
    hide Log.Inv, Pinned, Want, PinsCached, DiskSame, BufOk, Cache.Counts, Cache.Tokens, Cache.Ordered, Cache.Absent, Cache.SectionCounts, Cache.Distinct, Log.NextLog;
    var w', i := Next(c, start, w, e), e.i;
    var Log(o, b, data) := LogEvent(w, e).value;
    LogFacts(c, start, init, w, o, b);
    PinsOf(start, w, i);
    LogHere(start, w.l, o, b, data, w'.c.bufs[i]);
    forall j | 0 <= j < |w'.c.bufs|
      ensures BufOk(start, w'.l, w'.pc, w'.c.bufs[j], w'.notes[j])
    {
      if j != i {
        OtherKey(c, w.c, i, j, b);
        assert BufOk(start, w.l, w.pc, w.c.bufs[j], w.notes[j]);
        LogOther(start, w.l, o, b, data, w.c.bufs[j], w.notes[j]);
      }
    }
  }

  lemma PinsOf(start: nat, w: World, i: nat)
    requires BufsOk(start, w) && i < |w.c.bufs| && w.c.bufs[i].key.0 == DEV && w.pc.Serving?
    ensures w.c.bufs[i].pins == Cache.One(w.c.bufs[i].key.1 in w.l.lh) && |w.l.disk| == |w.l.view|
  {
    assert BufOk(start, w.l, w.pc, w.c.bufs[i], w.notes[i]);
  }

  lemma LogFacts(c: Cache.Code, start: nat, init: Disk, w: World, o: nat, b: nat)
    requires Inv(c, start, init, w) && o in w.l.ops && |w.l.ops[o] + {b}| < MAXOPBLOCKS
    ensures w.pc.Serving? && w.l.phase.Active? && |w.l.lh| < LOGBLOCKS && w.l.outstanding >= 1
  {
    hide Cache.Inv, SectionOk, PinsCached, DiskSame, BufsOk;
    ActiveOps(start, init, w.l, o);
    Log.RoomToLog(w.l, o, b);
  }

  lemma OpBufs(c: Cache.Code, start: nat, init: Disk, w: World, e: Event)
    requires Can(c, start, init, w, e) && (e.Begin? || e.End?)
    ensures BufsOk(start, Next(c, start, w, e))
  {
    hide Log.Inv, Pinned, Want, PinsCached, DiskSame, BufOk, Cache.Inv, SectionOk, Log.NextBegin, Log.NextEnd;
    var w' := Next(c, start, w, e);
    if e.End? { ActiveOps(start, init, w.l, e.o); }
    forall j | 0 <= j < |w'.c.bufs|
      ensures BufOk(start, w'.l, w'.pc, w'.c.bufs[j], w'.notes[j])
    {
      assert BufOk(start, w.l, w.pc, w.c.bufs[j], w.notes[j]);
      if e.Begin? { BeginOk(start, w.l, w.pc, w.c.bufs[j], w.notes[j]); }
      else { EndOk(start, w.l, e.o, w.c.bufs[j], w.notes[j]); }
    }
  }

  /** The buffer that the commit fills gets the contents of its next block write. */
  lemma FillsJob(c: Cache.Code, start: nat, init: Disk, w: World, e: Event)
    requires Can(c, start, init, w, e) && (e.Copy? || e.Head?) && CacheStep(start, w, e).Some?
    ensures var st := CacheStep(start, w, e).value;
            && st.i < |w.c.bufs| == |w.notes| && st.e.Modify? && w.notes[st.i] == Fresh
            && w.c.bufs[st.i].holder.Has? && w.c.bufs[st.i].valid && w.c.bufs[st.i].key.0 == DEV
            && w.pc.k < |w.l.phase.ws| && w.l.phase.ws[w.pc.k] == Write(w.c.bufs[st.i].key.1, st.e.d)
  {
    hide Log.Inv, Pinned, NoteOk, PinsCached, DiskSame, Cache.Inv, SectionOk, NextJob, Cache.Enabled, EncodeHead;
    JobWrites(start, init, w.l, w.pc);
    assert BufOk(start, w.l, w.pc, w.c.bufs[e.i], w.notes[e.i]);
  }

  lemma CopyBufs(c: Cache.Code, start: nat, init: Disk, w: World, e: Event)
    requires Can(c, start, init, w, e) && (e.Copy? || e.Head?) && CacheStep(start, w, e).Some?
    ensures BufsOk(start, Next(c, start, w, e)) && PcOk(start, w.l, NextPc(start, w, e))
  {
    hide Log.Inv, Pinned, Want, PinsCached, DiskSame, BufOk, Cache.Inv, SectionOk, NextJob, Cache.Enabled, EncodeHead, Cache.Ready;
    var st, w' := CacheStep(start, w, e).value, Next(c, start, w, e);
    OneBuf(c, start, init, w, e);
    FillsJob(c, start, init, w, e);
    forall j | 0 <= j < |w'.c.bufs|
      ensures BufOk(start, w'.l, w'.pc, w'.c.bufs[j], w'.notes[j])
    {
      assert BufOk(start, w.l, w.pc, w.c.bufs[j], w.notes[j]);
      if j != st.i { FullOther(start, w.l, w.pc, w.c.bufs[j], w.notes[j]); }
      else { FullHere(start, w.l, w.pc, w.c.bufs[j], st.e.d); }
    }
  }

  /** A block write of install_trans gives the disk what readers see already. */
  lemma InstallData(start: nat, init: Disk, l: Log.State, pc: Pc)
    requires Log.Inv(start, init, l) && pc.Writing? && !pc.recovering && PcOk(start, l, pc) && pc.k < |l.phase.ws|
    ensures 0 < |pc.blocks| && pc.k <= 2 * |pc.blocks| + 1 && l.phase.ws[pc.k].at < |l.disk| == |l.view|
    ensures Installs(pc) ==> var b := pc.blocks[pc.k - |pc.blocks| - 1]; b < |l.view| && l.phase.ws[pc.k] == Write(b, l.view[b])
    ensures !Installs(pc) ==> !Home(start, |l.disk|, l.phase.ws[pc.k].at)
  {
    hide Log.SpaceInv, Log.OpsInv, Log.Replay, Means, Apply, CommitWrites;
    CommitDisk(start, init, l);
    CommitLength(start, l.lh, l.view, l.phase.from[start]);
  }

  /** What is known of the buffer that bwrite is called on. */
  ghost predicate PutFacts(start: nat, l: Log.State, pc: Pc, buf: Cache.Buf) {
    && pc.Writing? && pc.st.Full? && |l.disk| == |l.view| && BufOk(start, l, pc, buf, Filled)
    && l.phase.k == pc.k && (if pc.recovering then l.phase.Recovering? else l.phase.Committing?)
    && pc.k < |l.phase.ws| && l.phase.ws[pc.k] == Write(buf.key.1, buf.data) && buf.key.0 == DEV && buf.key.1 < |l.disk|
    && (!pc.recovering ==> 0 < |pc.blocks| && pc.k <= 2 * |pc.blocks| + 1)
    && (Installs(pc) ==> buf.key.1 == pc.blocks[pc.k - |pc.blocks| - 1] && buf.data == l.view[buf.key.1])
    && (!Installs(pc) && !pc.recovering ==> !Home(start, |l.disk|, buf.key.1))
  }

  lemma PutKnows(start: nat, init: Disk, l: Log.State, pc: Pc, buf: Cache.Buf)
    requires Log.Inv(start, init, l) && PcOk(start, l, pc) && BufOk(start, l, pc, buf, Filled)
    ensures PutFacts(start, l, pc, buf)
  {
    hide Log.Inv, Pinned, Want, Home;
    if !pc.recovering { InstallData(start, init, l, pc); }
  }

  lemma PutPc(start: nat, l: Log.State, pc: Pc, buf: Cache.Buf)
    requires PcOk(start, l, pc) && PutFacts(start, l, pc, buf)
    ensures PcOk(start, Log.NextDiskWrite(l), After(pc))
  {
    hide BufOk;
  }

  lemma PutBufs(c: Cache.Code, start: nat, init: Disk, w: World, i: nat)
    requires Can(c, start, init, w, Put(i))
    ensures BufsOk(start, Next(c, start, w, Put(i))) && PcOk(start, Next(c, start, w, Put(i)).l, NextPc(start, w, Put(i)))
  {
    hide Log.Inv, Pinned, Want, PinsCached, DiskSame, Cache.Inv, SectionOk, Installs, BufOk, PcOk, Cache.Enabled, Cache.Ready, Cache.NextSection;
    var w' := Next(c, start, w, Put(i));
    assert BufOk(start, w.l, w.pc, w.c.bufs[i], Filled);
    OneBuf(c, start, init, w, Put(i));
    PutKnows(start, init, w.l, w.pc, w.c.bufs[i]);
    PutPc(start, w.l, w.pc, w.c.bufs[i]);
    PutHere(start, w.l, w.pc, w.c.bufs[i]);
    DistinctBufs(c, w.c);
    forall j | 0 <= j < |w'.c.bufs|
      ensures BufOk(start, w'.l, w'.pc, w'.c.bufs[j], w'.notes[j])
    {
      assert BufOk(start, w.l, w.pc, w.c.bufs[j], w.notes[j]);
      if j != i {
        OtherKey(c, w.c, i, j, w.c.bufs[i].key.1);
        PutOther(start, w.l, w.pc, w.c.bufs[j], w.notes[j]);
      }
    }
  }

  lemma LogDistinct(start: nat, init: Disk, l: Log.State)
    requires Log.Inv(start, init, l)
    ensures NoDup(l.lh)
  {
  }

  lemma UnpinnedBufs(c: Cache.Code, start: nat, init: Disk, w: World, i: nat)
    requires Can(c, start, init, w, Unpinned(i))
    ensures BufsOk(start, Next(c, start, w, Unpinned(i)))
  {
    hide Log.Inv, Pinned, Want, PinsCached, DiskSame, Cache.Inv;
    var w' := Next(c, start, w, Unpinned(i));
    assert BufOk(start, w.l, w.pc, w.c.bufs[i], Written);
    UnpinClean(c, start, init, w, i);
    LogDistinct(start, init, w.l);
    hide BufOk;
    UnpinnedHere(start, w.l, w.pc, w.c.bufs[i], w'.c.bufs[i].refcnt);
    DistinctBufs(c, w.c);
    forall j | 0 <= j < |w'.c.bufs|
      ensures BufOk(start, w'.l, w'.pc, w'.c.bufs[j], w'.notes[j])
    {
      assert BufOk(start, w.l, w.pc, w.c.bufs[j], w.notes[j]);
      if j != i {
        OtherKey(c, w.c, i, j, w.c.bufs[i].key.1);
        UnpinnedOther(start, w.l, w.pc, w.c.bufs[j], w.notes[j]);
      }
    }
  }

  lemma DistinctBufs(c: Cache.Code, s: Cache.State)
    requires Cache.Inv(c, s)
    ensures Cache.Distinct(s)
  {
  }

  lemma DoneBufs(c: Cache.Code, start: nat, init: Disk, w: World)
    requires Can(c, start, init, w, Done)
    ensures BufsOk(start, Next(c, start, w, Done))
  {
    hide Log.Inv, Pinned, Want, PinsCached, DiskSame, Cache.Inv, SectionOk, BufOk;
    var w' := Next(c, start, w, Done);
    JobWrites(start, init, w.l, w.pc);
    RecoveringEmpty(start, init, w.l);
    if !w.pc.recovering { CommitDisk(start, init, w.l); }
    forall j | 0 <= j < |w'.c.bufs|
      ensures BufOk(start, w'.l, w'.pc, w'.c.bufs[j], w'.notes[j])
    {
      assert BufOk(start, w.l, w.pc, w.c.bufs[j], w.notes[j]);
      DoneOk(start, w.l, w.pc, w.c.bufs[j], w.notes[j]);
    }
  }

  lemma RecoveringEmpty(start: nat, init: Disk, l: Log.State)
    requires Log.Inv(start, init, l)
    ensures l.phase.Recovering? ==> l.lh == [] && HeadOk(start, |l.phase.from|, l.phase.from[start])
    ensures l.phase.Recovering? && l.phase.k == 0 ==> l.disk == l.phase.from
  {
    if l.phase.Recovering? { assert l.phase.ws[..0] == []; }
  }

  lemma ReadHeadBufs(c: Cache.Code, start: nat, init: Disk, w: World, i: nat)
    requires Can(c, start, init, w, ReadHead(i))
    ensures BufsOk(start, Next(c, start, w, ReadHead(i))) && PcOk(start, w.l, NextPc(start, w, ReadHead(i)))
  {
    hide Log.Inv, Pinned, PinsCached, DiskSame, Cache.Inv, SectionOk, NoteOk;
    var w' := Next(c, start, w, ReadHead(i));
    SameSize(start, init, w.l);
    RecoveringEmpty(start, init, w.l);
    assert BufOk(start, w.l, w.pc, w.c.bufs[i], Fresh);
    hide BufOk;
    forall j | 0 <= j < |w'.c.bufs|
      ensures BufOk(start, w'.l, w'.pc, w'.c.bufs[j], w'.notes[j])
    {
      assert BufOk(start, w.l, w.pc, w.c.bufs[j], w.notes[j]);
      ReadHeadOk(start, w.l, w'.pc.blocks, w.c.bufs[j], w.notes[j]);
    }
  }

  lemma CrashBufs(c: Cache.Code, start: nat, init: Disk, w: World, e: Event)
    requires Can(c, start, init, w, e) && e.Crash?
    ensures BufsOk(start, Next(c, start, w, e)) && Cache.Inv(c, Next(c, start, w, e).c)
  {
    hide Log.Inv, PinsCached, DiskSame, SectionOk;
    SameSize(start, init, w.l);
  }

  /** Which blocks are pinned after a step: those that were, and the one just logged. */
  lemma PinnedBefore(c: Cache.Code, start: nat, init: Disk, w: World, e: Event, b: nat)
    requires Can(c, start, init, w, e) && Pinned(Next(c, start, w, e).pc, Next(c, start, w, e).l.lh, b)
    ensures Pinned(w.pc, w.l.lh, b) || ((e.LogHit? || e.LogPinned?) && e.i < |w.c.bufs| && w.c.bufs[e.i].key.1 == b)
  {
    hide Log.Inv, Want, PinsCached, DiskSame, Cache.Inv, SectionOk, BufOk, NextJob, Cache.Enabled, Cache.Ready, Cache.Next, Works, MayLog, Log.CommitPlan;
    var w' := Next(c, start, w, e);
    match e
    case Put(i) =>
      assert BufOk(start, w.l, w.pc, w.c.bufs[i], Filled);
      PutKnows(start, init, w.l, w.pc, w.c.bufs[i]);
      SamePins(w.pc, w.l.lh, b);
    case Unpinned(i) => if !w.pc.recovering { UnpinsMore(w.pc, b); }
    case End(o) => ActiveOps(start, init, w.l, o);
    case Done => RecoveringEmpty(start, init, w.l);
    case _ =>
  }

  lemma UnpinsMore(pc: Pc, b: nat)
    requires pc.Writing? && Unpins(pc.(st := Copying)) <= |pc.blocks| && b in pc.blocks[Unpins(pc.(st := Copying))..]
    ensures Unpins(pc) <= |pc.blocks| && b in pc.blocks[Unpins(pc)..]
  {
    var u, v := Unpins(pc), Unpins(pc.(st := Copying));
    assert pc.blocks[v..] == pc.blocks[u..][v - u..];
  }

  /** A block that is pinned stays where it is. */
  lemma StaysCached(c: Cache.Code, start: nat, init: Disk, w: World, e: Event, b: nat, j: nat)
    requires Can(c, start, init, w, e) && !e.Crash? && Pinned(w.pc, w.l.lh, b) && InBuf(w, b, j)
    ensures InBuf(Next(c, start, w, e), b, j)
  {
    hide Log.Inv, Want, PinsCached, DiskSame, Cache.Inv, SectionOk, Pinned, NoteOk, PcOk, NextJob, Log.Enabled, Works, MayLog;
    var st := CacheStep(start, w, e);
    if st.Some? {
      OneBuf(c, start, init, w, e);
      assert BufOk(start, w.l, w.pc, w.c.bufs[j], w.notes[j]);
      if st.value.e.Recycle? { RecycleOk(c, start, init, w, st.value.i); }
    }
  }

  lemma PinsCachedKept(c: Cache.Code, start: nat, init: Disk, w: World, e: Event)
    requires Can(c, start, init, w, e)
    ensures PinsCached(Next(c, start, w, e))
  {
    hide Log.Inv, Want, DiskSame, SectionOk, Pinned, BufsOk, PcOk, NextJob, Log.Enabled, Cache.Ready, Cache.Counts, Cache.Tokens, Cache.Ordered, Cache.Absent, Cache.Distinct;
    var w' := Next(c, start, w, e);
    if e.Crash? {
      NotAtBoot(w'.l.lh);
      return;
    }
    forall b: nat | Pinned(w'.pc, w'.l.lh, b)
      ensures exists i: nat :: InBuf(w', b, i)
    {
      PinnedBefore(c, start, init, w, e, b);
      if Pinned(w.pc, w.l.lh, b) {
        var j: nat :| InBuf(w, b, j);
        StaysCached(c, start, init, w, e, b, j);
      } else {
        JustLogged(c, start, init, w, e);
      }
    }
  }

  lemma NotAtBoot(lh: seq<nat>)
    ensures forall b: nat :: !Pinned(Boot, lh, b)
  {
  }

  lemma JustLogged(c: Cache.Code, start: nat, init: Disk, w: World, e: Event)
    requires Can(c, start, init, w, e) && (e.LogHit? || e.LogPinned?) && e.i < |w.c.bufs|
    ensures InBuf(Next(c, start, w, e), w.c.bufs[e.i].key.1, e.i)
  {
    hide Log.Inv, Want, DiskSame, Pinned, BufsOk, PcOk, NextJob, Log.Enabled, Cache.Counts, Cache.Tokens, Cache.Ordered, Cache.Absent, Cache.Distinct;
  }

  lemma SameDisks(c: Cache.Code, start: nat, init: Disk, w: World, e: Event)
    requires Can(c, start, init, w, e) && !e.Put?
    ensures Next(c, start, w, e).c.disk == w.c.disk && Next(c, start, w, e).l.disk == w.l.disk
  {
    hide Inv, Cache.Clean, NextJob, Works, MayLog, Log.CommitPlan, Log.RecoverPlan, Log.Enabled, Cache.NextBuf, Cache.NextSection, NextNotes, NextPc;
  }

  lemma DiskKept(c: Cache.Code, start: nat, init: Disk, w: World, e: Event)
    requires Can(c, start, init, w, e)
    ensures DiskSame(Next(c, start, w, e))
  {
    hide Log.Inv, Want, Pinned, PcOk, NextJob, Cache.Inv, SectionOk, PinsCached, Cache.Blank, Works, MayLog, Cache.NextSection;
    if e.Put? {
      assert BufOk(start, w.l, w.pc, w.c.bufs[e.i], Filled);
      PutKnows(start, init, w.l, w.pc, w.c.bufs[e.i]);
    } else {
      hide Next;
      SameDisks(c, start, init, w, e);
    }
  }

  lemma SectionAccess(c: Cache.Code, start: nat, init: Disk, w: World, e: Event)
    requires Can(c, start, init, w, e) && e.Access?
    ensures SectionOk(start, Next(c, start, w, e))
  {
    hide Log.Inv, Want, Pinned, BufOk, PinsCached, DiskSame, Cache.Inv, Cache.FirstMatch, Cache.NoMatch, PcOk;
    OneBuf(c, start, init, w, e);
    var w' := Next(c, start, w, e);
    assert !e.e.Recycle? ==> forall j | 0 <= j < |w.c.bufs| :: w'.c.bufs[j].key == w.c.bufs[j].key;
  }

  lemma SectionLog(c: Cache.Code, start: nat, init: Disk, w: World, e: Event)
    requires Can(c, start, init, w, e) && (e.LogHit? || e.LogPin? || e.LogPinned?)
    ensures SectionOk(start, Next(c, start, w, e))
  {
    hide Log.Inv, Want, Pinned, BufOk, PinsCached, DiskSame, Cache.Inv, PcOk;
    SameSize(start, init, w.l);
    if e.LogHit? { LogFacts(c, start, init, w, e.o, w.c.bufs[e.i].key.1); }
    if e.LogPinned? { PinFacts(c, start, init, w, e.i); }
  }

  /** While the commit or the recovery is at work nobody is in log_write. */
  lemma NobodyLogs(c: Cache.Code, start: nat, init: Disk, w: World)
    requires Inv(c, start, init, w) && w.pc.Writing?
    ensures !w.c.section.Pinning? && w.logging.None?
  {
    hide Log.Inv, Cache.Inv, BufsOk, DiskSame, PinsCached;
    if w.c.section.Pinning? { ActiveOps(start, init, w.l, w.logging.value); }
  }

  /** A step of the commit on a buffer changes no note but this one, and no key. */
  lemma SectionCommit(c: Cache.Code, start: nat, init: Disk, w: World, e: Event)
    requires Can(c, start, init, w, e) && (e.Put? || e.Unpin? || e.Unpinned? || e.Copy? || e.Head?)
    ensures SectionOk(start, Next(c, start, w, e))
  {
    hide Log.Inv, Want, PinsCached, DiskSame, Cache.Inv, PcOk, NextJob, EncodeHead, BufsOk, Log.Enabled, Log.Next;
    NobodyLogs(c, start, init, w);
    SameBlocks(c, start, init, w, e);
  }

  lemma SameBlocks(c: Cache.Code, start: nat, init: Disk, w: World, e: Event)
    requires Can(c, start, init, w, e) && (e.Put? || e.Unpin? || e.Unpinned? || e.Copy? || e.Head?)
    ensures |Next(c, start, w, e).l.disk| == |w.l.disk|
  {
    hide Inv, Cache.Clean, NextJob, NextNotes, NextPc, Cache.Next, Cache.Ready;
  }

  lemma SectionRest(c: Cache.Code, start: nat, init: Disk, w: World, e: Event)
    requires Can(c, start, init, w, e) && (e.Begin? || e.End? || e.Done? || e.ReadHead? || e.Crash?)
    ensures SectionOk(start, Next(c, start, w, e))
  {
    hide Log.Inv, Want, Pinned, BufOk, NextJob, PinsCached, DiskSame, Log.CommitPlan, Log.RecoverPlan, Cache.Inv, Cache.Next, Cache.Ready, PcOk, Cache.Init;
    SameSize(start, init, w.l);
    if w.c.section.Pinning? { ActiveOps(start, init, w.l, w.logging.value); }
  }

  lemma SectionChange(c: Cache.Code, start: nat, init: Disk, w: World, e: Event)
    requires Can(c, start, init, w, e) && e.Change?
    ensures SectionOk(start, Next(c, start, w, e))
  {
    hide Log.Inv, Want, Pinned, BufOk, NextJob, PinsCached, DiskSame, Cache.Inv, PcOk;
    OneBuf(c, start, init, w, e);
    assert !w.c.section.Pins(e.i);
  }

  lemma SectionOkKept(c: Cache.Code, start: nat, init: Disk, w: World, e: Event)
    requires Can(c, start, init, w, e)
    ensures SectionOk(start, Next(c, start, w, e))
  {
    hide *;
    match e
    case Access(_, _) => SectionAccess(c, start, init, w, e);
    case Change(_, _, _) => SectionChange(c, start, init, w, e);
    case LogHit(_, _) => SectionLog(c, start, init, w, e);
    case LogPin(_, _) => SectionLog(c, start, init, w, e);
    case LogPinned(_) => SectionLog(c, start, init, w, e);
    case Copy(_, _) => SectionCommit(c, start, init, w, e);
    case Head(_) => SectionCommit(c, start, init, w, e);
    case Put(_) => SectionCommit(c, start, init, w, e);
    case Unpin(_) => SectionCommit(c, start, init, w, e);
    case Unpinned(_) => SectionCommit(c, start, init, w, e);
    case _ => SectionRest(c, start, init, w, e);
  }

  lemma PcKept(c: Cache.Code, start: nat, init: Disk, w: World, e: Event)
    requires Can(c, start, init, w, e) && !e.Copy? && !e.Head? && !e.Put? && !e.ReadHead?
    ensures PcOk(start, Next(c, start, w, e).l, Next(c, start, w, e).pc)
  {
    hide Log.Inv, Want, Pinned, BufOk, PinsCached, DiskSame, SectionOk, Cache.Inv, Log.CommitPlan, Log.RecoverPlan, Cache.Ready, Cache.Next;
    match e
    case End(o) => ActiveOps(start, init, w.l, o);
    case LogHit(i, o) => LogFacts(c, start, init, w, o, w.c.bufs[i].key.1);
    case LogPinned(i) => PinFacts(c, start, init, w, i);
    case _ =>
  }

  lemma PinFacts(c: Cache.Code, start: nat, init: Disk, w: World, i: nat)
    requires Inv(c, start, init, w) && Ready(c, start, w, LogPinned(i))
    ensures i < |w.c.bufs| && w.logging.Some? && w.logging.value in w.l.ops
    ensures w.pc.Serving? && w.l.phase.Active? && |w.l.lh| < LOGBLOCKS && w.l.outstanding >= 1
  {
    hide Log.Inv, Cache.Inv, BufsOk, PcOk, DiskSame, PinsCached;
    LogFacts(c, start, init, w, w.logging.value, w.c.bufs[i].key.1);
  }

  lemma FilledStep(c: Cache.Code, start: nat, w: World, e: Event)
    requires Ready(c, start, w, e) && (e.Copy? || e.Head?)
    ensures CacheStep(start, w, e).Some?
  {
  }

  lemma BufsKept(c: Cache.Code, start: nat, init: Disk, w: World, e: Event)
    requires Can(c, start, init, w, e)
    ensures BufsOk(start, Next(c, start, w, e)) && PcOk(start, Next(c, start, w, e).l, Next(c, start, w, e).pc)
  {
    hide *;
    CanReady(c, start, init, w, e);
    if e.Copy? || e.Head? {
      FilledStep(c, start, w, e);
      CopyBufs(c, start, init, w, e);
      NextParts(c, start, w, e);
    } else if e.Put? {
      PutBufs(c, start, init, w, e.i);
      NextParts(c, start, w, e);
    } else if e.ReadHead? {
      ReadHeadBufs(c, start, init, w, e.i);
      NextParts(c, start, w, e);
    } else {
      PcKept(c, start, init, w, e);
      if e.LogHit? || e.LogPinned? { LogBufs(c, start, init, w, e); }
      else if e.Begin? || e.End? { OpBufs(c, start, init, w, e); }
      else if e.Unpinned? { UnpinnedBufs(c, start, init, w, e.i); }
      else if e.Done? { DoneBufs(c, start, init, w); }
      else if e.Crash? { CrashBufs(c, start, init, w, e); }
      else { Plainly(e); PlainBufs(c, start, init, w, e); }
    }
  }

  lemma Plainly(e: Event)
    ensures e.Access? || e.Change? || e.LogPin? || e.Unpin? ==> Plain(e)
  {
  }

  lemma CanReady(c: Cache.Code, start: nat, init: Disk, w: World, e: Event)
    requires Can(c, start, init, w, e)
    ensures Inv(c, start, init, w) && Ready(c, start, w, e)
  {
  }

  lemma NextParts(c: Cache.Code, start: nat, w: World, e: Event)
    requires e.Copy? || e.Head? || e.Put? || e.ReadHead?
    ensures Next(c, start, w, e).pc == NextPc(start, w, e)
    ensures !e.Put? ==> Next(c, start, w, e).l == w.l
  {
  }

  /** The cache part and the log part of a step are steps of the two. */
  lemma PartsKept(c: Cache.Code, start: nat, init: Disk, w: World, e: Event)
    requires Cache.Safe(c) && Can(c, start, init, w, e)
    ensures Cache.Inv(c, Next(c, start, w, e).c) && Log.Inv(start, init, Next(c, start, w, e).l)
  {
    hide PcOk, DiskSame, BufsOk, SectionOk, PinsCached, Ready, NextNotes, NextPc, CacheStep, LogEvent, Cache.Inv, Log.SpaceInv, Log.OpsInv, Log.ContentsInv, Cache.Enabled, Cache.Next, Log.Next, Log.Enabled;
    var cs, ls := CacheStep(start, w, e), LogEvent(w, e);
    if e.Crash? { CrashBufs(c, start, init, w, e); }
    else if cs.Some? {
      EnabledReady(c, w.c, cs.value.i, cs.value.e);
      Cache.InvKept(c, w.c, cs.value.i, cs.value.e);
    }
    if ls.Some? {
      Log.SpaceKept(start, w.l, ls.value);
      Log.OpsKept(start, w.l, ls.value);
      Log.ContentsKept(start, init, w.l, ls.value);
    }
  }

  lemma EnabledReady(c: Cache.Code, s: Cache.State, i: nat, e: Cache.Event)
    requires Cache.Enabled(c, s, i, e)
    ensures Cache.Ready(c, s, i, e)
  {
  }

  lemma CanDo(c: Cache.Code, start: nat, init: Disk, w: World, e: Event)
    requires Inv(c, start, init, w) && Ready(c, start, w, e)
    ensures Can(c, start, init, w, e)
  {
    hide Inv, Ready, CacheStep, LogEvent;
    if CacheStep(start, w, e).Some? { CacheEnabled(c, start, init, w, e); }
    if LogEvent(w, e).Some? { LogEnabled(c, start, init, w, e); }
  }

  lemma InvKept(c: Cache.Code, start: nat, init: Disk, w: World, e: Event)
    requires Cache.Safe(c) && Inv(c, start, init, w) && Ready(c, start, w, e)
    ensures Inv(c, start, init, Next(c, start, w, e))
  {
    CanDo(c, start, init, w, e);
    hide Can, Ready, Next, Cache.Inv, Log.Inv, PcOk, DiskSame, BufsOk, SectionOk, PinsCached, Cache.Safe;
    PartsKept(c, start, init, w, e);
    BufsKept(c, start, init, w, e);
    DiskKept(c, start, init, w, e);
    SectionOkKept(c, start, init, w, e);
    PinsCachedKept(c, start, init, w, e);
  }
}
