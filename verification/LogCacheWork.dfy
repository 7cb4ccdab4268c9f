/** What can always be done in the log on top of the cache, by one process while no other
    is using it and two buffers are unreferenced: the commit that the last end_op has
    started can be brought to its end. */
module LogCacheWork {
  import opened Common
  import opened BlockDisk
  import opened LogFormat
  import Cache = BufferCache
  import Log = LogRuns
  import Commits = LogCommits
  import opened LogCache
  import opened LogCacheSteps
  import opened LogCacheRuns
  import opened LogCacheCommits
  import opened LogCacheBread

  lemma {:induction false} LeadsInv(c: Cache.Code, start: nat, init: Disk, w: World, w': World, n: nat)
    requires Cache.Safe(c) && Inv(c, start, init, w) && LeadsIn(c, start, w, w', n)
    ensures Inv(c, start, init, w')
    decreases n
  {
    hide Inv, Ready, Next;
    if n > 0 {
      var e :| Steps(c, start, w, e) && LeadsIn(c, start, Next(c, start, w, e), w', n - 1);
      InvKept(c, start, init, w, e);
      LeadsInv(c, start, init, Next(c, start, w, e), w', n - 1);
    }
  }

  lemma Reached(c: Cache.Code, start: nat, init: Disk, w: World, w': World)
    requires !c.twice && Inv(c, start, init, w) && Leads(c, start, w, w')
    ensures Inv(c, start, init, w')
  {
    hide Inv, LeadsIn;
    var n: nat :| LeadsIn(c, start, w, w', n);
    LeadsInv(c, start, init, w, w', n);
  }

  lemma CacheInv(c: Cache.Code, start: nat, init: Disk, w: World)
    requires Inv(c, start, init, w)
    ensures Cache.Inv(c, w.c) && |w.l.disk| == |w.l.view| && start + LOGBLOCKS < |w.l.disk|
  {
    hide Cache.Inv, Log.SpaceInv, Log.OpsInv;
  }

  /** Two buffers are unreferenced. */
  ghost predicate TwoFree(w: World) {
    exists x: nat, y: nat :: x != y && Cache.Unreferenced(w.c, x) && Cache.Unreferenced(w.c, y)
  }

  /** One of them is still when any one buffer has been taken. */
  lemma StillFree(w1: World, w2: World, i: nat, b: nat)
    requires TwoFree(w1) && Got(w1, w2, i, b)
    ensures SomeFree(w2)
  {
    var x: nat, y: nat :| x != y && Cache.Unreferenced(w1.c, x) && Cache.Unreferenced(w1.c, y);
    var z := if x == i then y else x;
    assert w2.c.bufs[z] == w1.c.bufs[z];
    assert Cache.Unreferenced(w2.c, z);
  }

  lemma AnyFree(w: World)
    requires TwoFree(w)
    ensures SomeFree(w)
  {
    var x: nat, y: nat :| x != y && Cache.Unreferenced(w.c, x) && Cache.Unreferenced(w.c, y);
  }

  // ---- one block write of the commit ----

  lemma CalmAfter(w1: World, w2: World, i: nat, b: nat)
    requires Calm(w1, None) && Got(w1, w2, i, b)
    ensures Calm(w2, Some(i))
  {
    forall x: nat | x < |w2.c.bufs| && Some(x) != Some(i)
      ensures Idle(w2.c.bufs[x])
    {
      assert w2.c.bufs[x] == w1.c.bufs[x];
    }
  }

  /** Both buffers of a copy are held, with nothing changed in them. */
  ghost predicate Both(w: World, w2: World, i: nat, j: nat, src: nat, dst: nat) {
    && i < |w.c.bufs| && j < |w.c.bufs| && i != j && |w2.c.bufs| == |w.c.bufs| && w2 == w.(c := w2.c)
    && w2.c.bufs == w.c.bufs[i := w2.c.bufs[i]][j := w2.c.bufs[j]] && w2.c.section.Open?
    && Held(w2.c.bufs[i]) && w2.c.bufs[i].key == (DEV, src) && w2.c.bufs[i].refcnt == w.c.bufs[i].refcnt + 1
    && Held(w2.c.bufs[j]) && w2.c.bufs[j].key == (DEV, dst) && w2.c.bufs[j].refcnt == w.c.bufs[j].refcnt + 1
    && w2.c.bufs[j].pins == w.c.bufs[j].pins
  }

  lemma GetBoth(c: Cache.Code, start: nat, init: Disk, w0: World, w: World, src: nat, dst: nat) returns (w2: World, i: nat, j: nat)
    requires Inv(c, start, init, w0) && Leads(c, start, w0, w) && !c.twice && c.crowd >= 1
    requires Calm(w, None) && TwoFree(w) && src < |w.l.disk| && dst < |w.l.disk| && src != dst
    ensures Leads(c, start, w0, w2) && Both(w, w2, i, j, src, dst)
  {
    hide Inv, Leads, Cache.Inv;
    Reached(c, start, init, w0, w);
    CacheInv(c, start, init, w);
    AnyFree(w);
    var w1: World;
    w1, i := Bread(c, start, w0, w, src, None);
    CalmAfter(w, w1, i, src);
    StillFree(w, w1, i, src);
    Reached(c, start, init, w0, w1);
    CacheInv(c, start, init, w1);
    w2, j := Bread(c, start, w0, w1, dst, Some(i));
    BothGot(w, w1, w2, i, j, src, dst);
  }

  lemma BothGot(w: World, w1: World, w2: World, i: nat, j: nat, src: nat, dst: nat)
    requires Got(w, w1, i, src) && Got(w1, w2, j, dst) && i != j
    ensures Both(w, w2, i, j, src, dst)
  {
    assert w2.c.bufs[i] == w1.c.bufs[i] && w1.c.bufs[j] == w.c.bufs[j];
    assert w2.c.bufs == w.c.bufs[i := w2.c.bufs[i]][j := w2.c.bufs[j]];
  }

  /** The next write of the commit is the copy from src to dst, with nothing begun. */
  ghost predicate AtCopy(start: nat, w: World, src: nat, dst: nat) {
    w.pc.Writing? && w.pc.st.Copying? && NextJob(start, w.pc) == Some(CopyJob(src, dst))
  }

  ghost predicate AtHead(start: nat, w: World) {
    w.pc.Writing? && w.pc.st.Copying? && NextJob(start, w.pc).Some? && NextJob(start, w.pc).value.HeadJob?
  }

  /** The memmove. */
  lemma DoCopy(c: Cache.Code, start: nat, w0: World, w: World, w2: World, i: nat, j: nat, src: nat, dst: nat) returns (w3: World)
    requires Leads(c, start, w0, w2) && Calm(w, None) && Both(w, w2, i, j, src, dst) && AtCopy(start, w, src, dst)
    ensures Leads(c, start, w0, w3)
    ensures var b := w2.c.bufs[j].(data := w2.c.bufs[i].data);
            w3 == w2.(c := w2.c.(bufs := w2.c.bufs[j := b]), notes := w2.notes[j := Filled], pc := w.pc.(st := Full))
  {
    hide Leads, Cache.FirstMatch, Cache.NoMatch;
    w3 := Next(c, start, w2, Copy(i, j));
    Go(c, start, w0, w2, Copy(i, j), w3);
  }

  /** bwrite of the filled buffer. */
  lemma DoPut(c: Cache.Code, start: nat, init: Disk, w0: World, w3: World, j: nat) returns (w4: World)
    requires Inv(c, start, init, w0) && Leads(c, start, w0, w3) && !c.twice
    requires w3.pc.Writing? && w3.c.section.Open? && j < |w3.c.bufs| == |w3.notes| && w3.notes[j] == Filled && Held(w3.c.bufs[j])
    ensures Leads(c, start, w0, w4) && (w3.l.phase.Committing? || w3.l.phase.Recovering?)
    ensures Log.Enabled(start, w3.l, Log.DiskWrite) && w4.l == Log.NextDiskWrite(w3.l)
    ensures w4.c.bufs == w3.c.bufs && w4.c.section.Open? && w4.logging == w3.logging
    ensures w4.notes == w3.notes[j := if Installs(w3.pc) then Written else Fresh]
    ensures w4.pc == w3.pc.(k := w3.pc.k + 1, st := if Installs(w3.pc) then Unpinning else Copying)
  {
    hide Leads, Inv, Log.NextDiskWrite, Cache.FirstMatch, Cache.NoMatch;
    Reached(c, start, init, w0, w3);
    LogEnabled(c, start, init, w3, Put(j));
    w4 := Next(c, start, w3, Put(j));
    Go(c, start, w0, w3, Put(j), w4);
    assert w3.c.bufs[j := w3.c.bufs[j]] == w3.c.bufs;
  }

  /** bunpin of the block just installed. */
  lemma DoUnpin(c: Cache.Code, start: nat, init: Disk, w0: World, w4: World, j: nat) returns (w6: World)
    requires Inv(c, start, init, w0) && Leads(c, start, w0, w4) && !c.twice
    requires w4.pc.Writing? && w4.c.section.Open? && j < |w4.c.bufs| == |w4.notes| && w4.notes[j] == Written && Held(w4.c.bufs[j])
    ensures Leads(c, start, w0, w6) && w4.c.bufs[j].pins > 0
    ensures var b := w4.c.bufs[j];
            w6 == w4.(c := w4.c.(bufs := w4.c.bufs[j := b.(refcnt := b.refcnt - 1, pins := b.pins - 1)]), notes := w4.notes[j := Fresh], pc := w4.pc.(st := Copying))
  {
    hide Leads, Inv, Cache.FirstMatch, Cache.NoMatch;
    Reached(c, start, init, w0, w4);
    UnpinClean(c, start, init, w4, j);
    var b := w4.c.bufs[j];
    var w5 := w4.(c := w4.c.(section := Cache.Unpinning(j, b.refcnt)));
    assert w4.c.bufs[j := b] == w4.c.bufs;
    Go(c, start, w0, w4, Unpin(j), w5);
    w6 := Next(c, start, w5, Unpinned(j));
    Go(c, start, w0, w5, Unpinned(j), w6);
  }

  /** Nobody has come to refer to a buffer that was unreferenced. */
  ghost predicate NoMoreRefs(w: World, w9: World) {
    |w9.c.bufs| == |w.c.bufs| && forall x: nat | Cache.Unreferenced(w.c, x) :: Cache.Unreferenced(w9.c, x)
  }

  lemma KeepsTwo(w: World, w9: World)
    requires TwoFree(w) && NoMoreRefs(w, w9)
    ensures TwoFree(w9)
  {
    var x: nat, y: nat :| x != y && Cache.Unreferenced(w.c, x) && Cache.Unreferenced(w.c, y);
    assert Cache.Unreferenced(w9.c, x) && Cache.Unreferenced(w9.c, y);
  }

  /** The block write is made and everything let go. */
  ghost predicate JobDone(start: nat, w: World, w9: World) {
    && w.pc.Writing? && Calm(w9, None) && w9.pc == w.pc.(k := w.pc.k + 1, st := Copying)
    && Log.Enabled(start, w.l, Log.DiskWrite) && w9.l == Log.NextDiskWrite(w.l) && NoMoreRefs(w, w9)
  }

  lemma CopyJobDone(c: Cache.Code, start: nat, init: Disk, w0: World, w: World, src: nat, dst: nat) returns (w9: World)
    requires Inv(c, start, init, w0) && Leads(c, start, w0, w) && !c.twice && c.crowd >= 1
    requires Calm(w, None) && TwoFree(w) && AtCopy(start, w, src, dst) && src < |w.l.disk| && dst < |w.l.disk| && src != dst
    ensures Leads(c, start, w0, w9) && JobDone(start, w, w9)
  {
    hide Inv, Leads, NextJob, Log.Enabled, Log.NextDiskWrite, TwoFree;
    var w2, i, j := GetBoth(c, start, init, w0, w, src, dst);
    var w3 := DoCopy(c, start, w0, w, w2, i, j, src, dst);
    var w4 := DoPut(c, start, init, w0, w3, j);
    var w6 := w4;
    if Installs(w.pc) {
      w6 := DoUnpin(c, start, init, w0, w4, j);
      PinnedHasRefs(c, start, init, w0, w, j);
    }
    var w7 := Brelse(c, start, w0, w6, i);
    w9 := Brelse(c, start, w0, w7, j);
    AfterCopy(w, w6, w7, w9, i, j);
  }

  /** The buffers after a copy and both releases. */
  lemma AfterCopy(w: World, w6: World, w7: World, w9: World, i: nat, j: nat)
    requires Calm(w, None) && i < |w.c.bufs| && j < |w.c.bufs| && i != j && |w6.c.bufs| == |w.c.bufs|
    requires w6.c.bufs == w.c.bufs[i := w6.c.bufs[i]][j := w6.c.bufs[j]]
    requires Held(w6.c.bufs[i]) && Held(w6.c.bufs[j]) && w6.c.bufs[i].refcnt == w.c.bufs[i].refcnt + 1
    requires w6.c.bufs[j].refcnt == w.c.bufs[j].refcnt + 1 || (w6.c.bufs[j].refcnt == w.c.bufs[j].refcnt && w.c.bufs[j].refcnt != 0)
    requires w7.c.bufs == w6.c.bufs[i := w6.c.bufs[i].(refcnt := w6.c.bufs[i].refcnt - 1, holder := Cache.Nobody)]
    requires w9.c.bufs == w7.c.bufs[j := w7.c.bufs[j].(refcnt := w7.c.bufs[j].refcnt - 1, holder := Cache.Nobody)]
    requires w9.c.section.Open? && w9.logging.None? && |w9.notes| == |w9.c.bufs| && forall x | 0 <= x < |w9.notes| :: w9.notes[x] == Fresh
    ensures Calm(w9, None) && NoMoreRefs(w, w9)
  {
    forall x: nat | x < |w.c.bufs|
      ensures Idle(w9.c.bufs[x]) && (w.c.bufs[x].refcnt == 0 ==> w9.c.bufs[x].refcnt == 0)
    {
      assert Idle(w.c.bufs[x]);
    }
  }

  /** A pinned buffer is referenced. */
  lemma PinnedHasRefs(c: Cache.Code, start: nat, init: Disk, w0: World, w: World, j: nat)
    requires Inv(c, start, init, w0) && Leads(c, start, w0, w) && !c.twice && j < |w.c.bufs| && w.c.bufs[j].pins > 0
    ensures w.c.bufs[j].refcnt != 0
  {
    hide Inv, Leads, Cache.Inv;
    Reached(c, start, init, w0, w);
    CacheInv(c, start, init, w);
    if w.c.bufs[j].refcnt == 0 { UnreferencedIdle(c, w.c, j); }
  }

  /** A header write. */
  lemma HeadJobDone(c: Cache.Code, start: nat, init: Disk, w0: World, w: World) returns (w9: World)
    requires Inv(c, start, init, w0) && Leads(c, start, w0, w) && !c.twice && c.crowd >= 1
    requires Calm(w, None) && TwoFree(w) && AtHead(start, w) && |NextJob(start, w.pc).value.head| <= LOGBLOCKS && start < |w.l.disk|
    ensures Leads(c, start, w0, w9) && JobDone(start, w, w9)
  {
    hide Inv, Leads, Log.Enabled, Log.NextDiskWrite, TwoFree, Cache.Inv;
    Reached(c, start, init, w0, w);
    CacheInv(c, start, init, w);
    AnyFree(w);
    var w2, i := Bread(c, start, w0, w, start, None);
    var w3 := DoHead(c, start, w0, w, w2, i);
    HeadInstallsNot(start, w.pc);
    var w4 := DoPut(c, start, init, w0, w3, i);
    w9 := Brelse(c, start, w0, w4, i);
    AfterHead(w, w4, w9, i);
  }

  lemma DoHead(c: Cache.Code, start: nat, w0: World, w: World, w2: World, i: nat) returns (w3: World)
    requires Leads(c, start, w0, w2) && Calm(w, None) && Got(w, w2, i, start) && AtHead(start, w) && |NextJob(start, w.pc).value.head| <= LOGBLOCKS
    ensures Leads(c, start, w0, w3)
    ensures var b := w2.c.bufs[i].(data := EncodeHead(true, w2.c.bufs[i].data, NextJob(start, w.pc).value.head));
            w3 == w2.(c := w2.c.(bufs := w2.c.bufs[i := b]), notes := w2.notes[i := Filled], pc := w.pc.(st := Full))
  {
    hide Leads, EncodeHead, Cache.FirstMatch, Cache.NoMatch;
    w3 := Next(c, start, w2, Head(i));
    Go(c, start, w0, w2, Head(i), w3);
  }

  lemma HeadInstallsNot(start: nat, pc: Pc)
    requires pc.Writing? && NextJob(start, pc).Some? && NextJob(start, pc).value.HeadJob?
    ensures !Installs(pc)
  {
  }

  lemma AfterHead(w: World, w4: World, w9: World, i: nat)
    requires Calm(w, None) && i < |w.c.bufs| == |w4.c.bufs| && w4.c.bufs == w.c.bufs[i := w4.c.bufs[i]]
    requires Held(w4.c.bufs[i]) && w4.c.bufs[i].refcnt == w.c.bufs[i].refcnt + 1
    requires w9.c.bufs == w4.c.bufs[i := w4.c.bufs[i].(refcnt := w4.c.bufs[i].refcnt - 1, holder := Cache.Nobody)]
    requires w9.c.section.Open? && w9.logging.None? && |w9.notes| == |w9.c.bufs| && forall x | 0 <= x < |w9.notes| :: w9.notes[x] == Fresh
    ensures Calm(w9, None) && NoMoreRefs(w, w9)
  {
    forall x: nat | x < |w.c.bufs|
      ensures Idle(w9.c.bufs[x]) && (w.c.bufs[x].refcnt == 0 ==> w9.c.bufs[x].refcnt == 0)
    {
      assert Idle(w.c.bufs[x]);
    }
  }

  // ---- the whole commit, or the whole recovery ----

  lemma JobPossible(c: Cache.Code, start: nat, init: Disk, w0: World, w: World) returns (w9: World)
    requires Inv(c, start, init, w0) && Leads(c, start, w0, w) && !c.twice && c.crowd >= 1
    requires Calm(w, None) && TwoFree(w) && w.pc.Writing? && w.pc.st.Copying? && NextJob(start, w.pc).Some?
    ensures Leads(c, start, w0, w9) && JobDone(start, w, w9) && TwoFree(w9)
  {
    hide Inv, Leads, Log.Enabled, Log.NextDiskWrite, TwoFree, Cache.Inv, Log.Inv, PcOk, NextJob;
    Reached(c, start, init, w0, w);
    InvLog(c, start, init, w);
    JobWrites(start, init, w.l, w.pc);
    match NextJob(start, w.pc).value {
      case CopyJob(src, dst) => w9 := CopyJobDone(c, start, init, w0, w, src, dst);
      case HeadJob(_) => w9 := HeadJobDone(c, start, init, w0, w);
    }
    KeepsTwo(w, w9);
  }

  /** All the writes that are left, and the end. */
  lemma {:induction false} WorksThrough(c: Cache.Code, start: nat, init: Disk, w0: World, w: World, n: nat) returns (w9: World)
    requires Inv(c, start, init, w0) && Leads(c, start, w0, w) && !c.twice && c.crowd >= 1
    requires Calm(w, None) && TwoFree(w) && w.pc.Writing? && w.pc.st.Copying?
    requires (w.l.phase.Committing? || w.l.phase.Recovering?) && w.l.phase.k <= |w.l.phase.ws| && n == |w.l.phase.ws| - w.l.phase.k
    ensures Leads(c, start, w0, w9) && Calm(w9, None) && TwoFree(w9) && w9.pc.Serving?
    ensures w9.l.phase.Active? && w9.l.hist == w.l.hist && (w.l.phase.Committing? ==> w9.l.lh == []) && (w.l.phase.Recovering? ==> w9.l.lh == w.l.lh)
    decreases n
  {
    hide Inv, Leads, TwoFree, Cache.Inv, Log.Inv, NextJob;
    Reached(c, start, init, w0, w);
    InvLog(c, start, init, w);
    JobWrites(start, init, w.l, w.pc);
    if NextJob(start, w.pc).Some? {
      var w1 := JobPossible(c, start, init, w0, w);
      w9 := WorksThrough(c, start, init, w0, w1, n - 1);
    } else {
      LogEnabled(c, start, init, w, Done);
      w9 := Next(c, start, w, Done);
      Go(c, start, w0, w, Done, w9);
      assert w9.c == w.c;
      KeepsTwo(w, w9);
    }
  }

  // ---- from the last end_op ----

  lemma {:induction false} Extends(c: Cache.Code, start: nat, init: Disk, run: seq<World>, events: seq<Event>, w': World, n: nat)
    returns (run': seq<World>, events': seq<Event>)
    requires Run(c, start, init, run, events) && LeadsIn(c, start, run[|events|], w', n)
    ensures Run(c, start, init, run + run', events + events') && (run + run')[|events + events'|] == w'
    ensures forall i | 0 <= i < |events'| :: !events'[i].Crash?
    decreases n
  {
    hide Ready, Next, Init;
    if n == 0 {
      run', events' := [], [];
      assert run + run' == run && events + events' == events;
    } else {
      var w := run[|events|];
      var e :| Steps(c, start, w, e) && LeadsIn(c, start, Next(c, start, w, e), w', n - 1);
      var w1 := Next(c, start, w, e);
      OneMore(c, start, init, run, events, e);
      var r, es := Extends(c, start, init, run + [w1], events + [e], w', n - 1);
      run', events' := [w1] + r, [e] + es;
      assert run + [w1] + r == run + run' && events + [e] + es == events + events';
    }
  }

  lemma OneMore(c: Cache.Code, start: nat, init: Disk, run: seq<World>, events: seq<Event>, e: Event)
    requires Run(c, start, init, run, events) && Ready(c, start, run[|events|], e)
    ensures Run(c, start, init, run + [Next(c, start, run[|events|], e)], events + [e])
  {
    hide Ready, Next, Init;
    var run', events' := run + [Next(c, start, run[|events|], e)], events + [e];
    forall i | 0 <= i < |events'|
      ensures Ready(c, start, run'[i], events'[i]) && run'[i + 1] == Next(c, start, run'[i], events'[i])
    {
      if i < |events| { assert Ready(c, start, run[i], events[i]); }
    }
  }

  /** Every run in which one operation is left, nobody is using the cache and two buffers are
      unreferenced can go on, without a crash, with its end_op and the commit to a point
      where all updates are in the home blocks on the disk. */
  lemma CommitPossible(c: Cache.Code, start: nat, init: Disk, run: seq<World>, events: seq<Event>, o: nat)
    returns (run': seq<World>, events': seq<Event>)
    requires !c.twice && c.crowd >= 1 && Run(c, start, init, run, events)
    requires Calm(run[|events|], None) && TwoFree(run[|events|]) && run[|events|].l.outstanding == 1 && o in run[|events|].l.ops
    ensures Run(c, start, init, run + run', events + events') && forall i | 0 <= i < |events'| :: !events'[i].Crash?
    ensures var w := (run + run')[|events + events'|];
            && Commits.AllHomeOnDisk(start, init, w.l) && w.l.hist == run[|events|].l.hist && IsDisk(w.c, w.l.disk)
            && Calm(w, None) && TwoFree(w) && w.pc.Serving?
  {
    hide Inv, Leads, LeadsIn, TwoFree, Init, Log.Inv, Commits.CommitsAll, Commits.AllHomeOnDisk;
    var w := run[|events|];
    RunInv(c, start, init, run, events, |events|);
    var w1 := Next(c, start, w, End(o));
    OneMore(c, start, init, run, events, End(o));
    LastOpCommits(c, start, init, run + [w1], events + [End(o)], |events|);
    Stay(c, start, w);
    Go(c, start, w, w, End(o), w1);
    assert w1.c == w.c && w1.notes == w.notes;
    KeepsTwo(w, w1);
    Reached(c, start, init, w, w1);
    InvLog(c, start, init, w1);
    PhaseBound(start, init, w1.l);
    CommitsCommit(start, w1.l);
    var w9 := WorksThrough(c, start, init, w, w1, |w1.l.phase.ws| - w1.l.phase.k);
    Reached(c, start, init, w, w9);
    InvLog(c, start, init, w9);
    Commits.FinishedMeans(start, init, w9.l);
    UnderCache(c, start, init, w9);
    run', events' := ExtendsTo(c, start, init, run, events, w9);
  }

  lemma ExtendsTo(c: Cache.Code, start: nat, init: Disk, run: seq<World>, events: seq<Event>, w': World)
    returns (run': seq<World>, events': seq<Event>)
    requires Run(c, start, init, run, events) && Leads(c, start, run[|events|], w')
    ensures Run(c, start, init, run + run', events + events') && (run + run')[|events + events'|] == w'
    ensures forall i | 0 <= i < |events'| :: !events'[i].Crash?
  {
    hide LeadsIn;
    var n: nat :| LeadsIn(c, start, run[|events|], w', n);
    run', events' := Extends(c, start, init, run, events, w', n);
  }
}
