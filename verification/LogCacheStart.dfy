/** From boot on: a first operation on top of the cache, its commit, and a recovery. */
module LogCacheStart {
  import opened Common
  import opened BlockDisk
  import opened LogFormat
  import Cache = BufferCache
  import Log = LogRuns
  import Commits = LogCommits
  import opened LogCache
  import opened LogCacheSteps
  import opened LogCacheRuns
  import opened LogCacheCommits
  import opened LogCacheBread
  import opened LogCacheWork

  /** Operation o changes a block that it holds and calls log_write, which pins it. */
  lemma LogsBlock(c: Cache.Code, start: nat, init: Disk, w0: World, w: World, i: nat, o: nat, data: Block) returns (w4: World)
    requires Inv(c, start, init, w0) && Leads(c, start, w0, w) && !c.twice && Calm(w, Some(i)) && o in w.l.ops
    requires var b := w.c.bufs[i].key; b.0 == DEV && Home(start, |w.l.view|, b.1) && b.1 !in w.l.lh && |w.l.ops[o] + {b.1}| < MAXOPBLOCKS
    ensures Leads(c, start, w0, w4) && Log.Enabled(start, w.l, Log.Log(o, w.c.bufs[i].key.1, data))
    ensures var b := w.c.bufs[i];
            w4 == w.(c := w.c.(bufs := w.c.bufs[i := b.(data := data, refcnt := b.refcnt + 1, pins := b.pins + 1)]),
                     l := Log.NextLog(w.l, o, b.key.1, data))
  {
    hide Leads, Inv, Log.NextLog, Cache.FirstMatch, Cache.NoMatch;
    var b := w.c.bufs[i];
    var w1 := w.(c := w.c.(bufs := w.c.bufs[i := b.(data := data)]), notes := w.notes[i := Dirty(o)]);
    Go(c, start, w0, w, Change(i, o, data), w1);
    var w2 := StartsPin(c, start, w0, w1, i, o);
    PinsBlock(c, start, init, w0, w, w2, i, o, data);
    w4 := Next(c, start, w2, LogPinned(i));
    assert w4.notes == w.notes;
  }

  lemma StartsPin(c: Cache.Code, start: nat, w0: World, w1: World, i: nat, o: nat) returns (w2: World)
    requires Leads(c, start, w0, w1) && i < |w1.c.bufs| == |w1.notes| && o in w1.l.ops && w1.c.section.Open? && w1.logging.None?
    requires w1.c.bufs[i].holder.Has? && w1.c.bufs[i].valid && w1.notes[i] == Dirty(o)
    requires var b := w1.c.bufs[i].key; b.0 == DEV && Home(start, |w1.l.view|, b.1) && b.1 !in w1.l.lh && |w1.l.ops[o] + {b.1}| < MAXOPBLOCKS
    ensures Leads(c, start, w0, w2)
    ensures w2 == w1.(c := w1.c.(section := Cache.Pinning(i, w1.c.bufs[i].refcnt)), logging := Some(o))
  {
    hide Leads, Cache.FirstMatch, Cache.NoMatch;
    w2 := w1.(c := w1.c.(section := Cache.Pinning(i, w1.c.bufs[i].refcnt)), logging := Some(o));
    assert w1.c.bufs[i := w1.c.bufs[i]] == w1.c.bufs;
    Go(c, start, w0, w1, LogPin(i, o), w2);
  }

  lemma PinsBlock(c: Cache.Code, start: nat, init: Disk, w0: World, w: World, w2: World, i: nat, o: nat, data: Block)
    requires Inv(c, start, init, w0) && Leads(c, start, w0, w2) && !c.twice && i < |w.c.bufs| == |w.notes|
    requires w2 == w.(c := w.c.(bufs := w.c.bufs[i := w.c.bufs[i].(data := data)], section := Cache.Pinning(i, w.c.bufs[i].refcnt)),
                      notes := w.notes[i := Dirty(o)], logging := Some(o))
    ensures Leads(c, start, w0, Next(c, start, w2, LogPinned(i))) && Log.Enabled(start, w.l, Log.Log(o, w.c.bufs[i].key.1, data))
  {
    hide Leads, Inv, Cache.FirstMatch, Cache.NoMatch;
    Reached(c, start, init, w0, w2);
    LogEnabled(c, start, init, w2, LogPinned(i));
    Go(c, start, w0, w2, LogPinned(i), Next(c, start, w2, LogPinned(i)));
  }

  /** A whole update of block b: bread, the change, log_write, brelse. */
  lemma UpdatePossible(c: Cache.Code, start: nat, init: Disk, w0: World, w: World, o: nat, b: nat, data: Block) returns (w9: World, i: nat)
    requires Inv(c, start, init, w0) && Leads(c, start, w0, w) && !c.twice && c.crowd >= 1
    requires Calm(w, None) && SomeFree(w) && o in w.l.ops && Home(start, |w.l.view|, b) && b !in w.l.lh && |w.l.ops[o] + {b}| < MAXOPBLOCKS
    ensures Leads(c, start, w0, w9) && Calm(w9, None) && w9.pc == w.pc
    ensures Log.Enabled(start, w.l, Log.Log(o, b, data)) && w9.l == Log.NextLog(w.l, o, b, data)
    ensures i < |w.c.bufs| == |w9.c.bufs| && forall x: nat | x < |w.c.bufs| && x != i :: w9.c.bufs[x] == w.c.bufs[x]
  {
    hide Leads, Inv, Log.NextLog, Log.Enabled, Cache.Inv;
    Reached(c, start, init, w0, w);
    CacheInv(c, start, init, w);
    var w1: World;
    w1, i := Bread(c, start, w0, w, b, None);
    CalmAfter(w, w1, i, b);
    var w4 := LogsBlock(c, start, init, w0, w1, i, o, data);
    w9 := Brelse(c, start, w0, w4, i);
    forall x: nat | x < |w.c.bufs|
      ensures Idle(w9.c.bufs[x]) && (x != i ==> w9.c.bufs[x] == w.c.bufs[x])
    {
      assert Idle(w.c.bufs[x]);
    }
  }

  /** A freshly booted machine is calm, with all its buffers unreferenced. */
  lemma InitCalm(start: nat, init: Disk, w: World)
    requires Init(start, init, w)
    ensures Calm(w, None) && forall x: nat | x < |w.c.bufs| :: Cache.Unreferenced(w.c, x)
  {
  }

  /** From boot, with three buffers or more: an operation begins, changes one block and ends,
      and after its commit the block is on the disk under the cache. */
  lemma FirstOperation(c: Cache.Code, start: nat, init: Disk, w: World, b: nat, data: Block) returns (run: seq<World>, events: seq<Event>)
    requires !c.twice && c.crowd >= 1 && Init(start, init, w) && |w.c.bufs| >= 3 && Home(start, |init|, b)
    ensures Run(c, start, init, run, events) && run[0] == w && forall i | 0 <= i < |events| :: !events[i].Crash?
    ensures var w' := run[|events|];
            && Commits.AllHomeOnDisk(start, init, w'.l) && w'.l.hist == [Log.Update(0, b, data)]
            && Cache.Read(w'.c.disk, (DEV, b)) == data
  {
    hide Leads, Inv, Cache.Inv, TwoFree, Commits.AllHomeOnDisk, Cache.Init;
    InitCalm(start, init, w);
    assert Run(c, start, init, [w], []);
    RunInv(c, start, init, [w], [], 0);
    var w1 := Next(c, start, w, Begin);
    Stay(c, start, w);
    Go(c, start, w, w, Begin, w1);
    assert w1.c == w.c && w1.l == Log.NextBegin(w.l);
    assert Cache.Unreferenced(w1.c, 0);
    assert w1.l.ops[0] + {b} == {b};
    var w2, i := UpdatePossible(c, start, init, w, w1, 0, b, data);
    LeavesTwo(w, w2, i);
    var r, es := ExtendsTo(c, start, init, [w], [], w2);
    run, events := [w] + r, [] + es;
    var r', es' := CommitPossible(c, start, init, run, events, 0);
    var w9 := (run + r')[|events + es'|];
    HomeHolds(start, init, w9, b, data);
    run, events := run + r', events + es';
  }

  lemma LeavesTwo(w: World, w2: World, i: nat)
    requires |w.c.bufs| == |w2.c.bufs| >= 3 && i < |w.c.bufs| && (forall x: nat | x < |w.c.bufs| :: Cache.Unreferenced(w.c, x))
    requires forall x: nat | x < |w.c.bufs| && x != i :: w2.c.bufs[x] == w.c.bufs[x]
    ensures TwoFree(w2)
  {
    var x := if i == 0 then 1 else 0;
    var y := if i == 2 then 1 else 2;
    assert Cache.Unreferenced(w.c, x) && Cache.Unreferenced(w.c, y);
    assert Cache.Unreferenced(w2.c, x) && Cache.Unreferenced(w2.c, y);
  }

  lemma HomeHolds(start: nat, init: Disk, w: World, b: nat, data: Block)
    requires Commits.AllHomeOnDisk(start, init, w.l) && w.l.hist == [Log.Update(0, b, data)] && IsDisk(w.c, w.l.disk)
    requires Home(start, |init|, b)
    ensures Cache.Read(w.c.disk, (DEV, b)) == data
  {
    Log.ReplaySnoc(init, [], Log.Update(0, b, data));
    assert [] + [Log.Update(0, b, data)] == [Log.Update(0, b, data)];
  }

  /** A recovery on top of the cache can be completed: after a crash at the end of a run, on
      a machine with two buffers or more, the header is read and its blocks are copied
      home, and then the disk holds exactly what was durable. */
  lemma RecoveryPossible(c: Cache.Code, start: nat, init: Disk, run: seq<World>, events: seq<Event>)
    returns (run': seq<World>, events': seq<Event>)
    requires !c.twice && c.crowd >= 1 && Run(c, start, init, run, events) && events != [] && events[|events| - 1].Crash?
    requires |run[|events|].c.bufs| >= 2
    ensures Run(c, start, init, run + run', events + events') && forall i | 0 <= i < |events'| :: !events'[i].Crash?
    ensures var w := (run + run')[|events + events'|];
            && Commits.AllHomeOnDisk(start, init, w.l) && w.l.hist == run[|events|].l.hist && IsDisk(w.c, w.l.disk)
            && Calm(w, None) && TwoFree(w) && w.pc.Serving?
  {
    hide Leads, Inv, Cache.Inv, TwoFree, Commits.AllHomeOnDisk, Init, Log.Inv, PcOk;
    var w := run[|events|];
    RunInv(c, start, init, run, events, |events|);
    CrashCalm(c, start, init, run, events);
    Stay(c, start, w);
    CacheInv(c, start, init, w);
    AnyFree(w);
    var w1, i := Bread(c, start, w, w, start, None);
    CalmAfter(w, w1, i, start);
    var w2 := Next(c, start, w1, ReadHead(i));
    Go(c, start, w, w1, ReadHead(i), w2);
    assert w2.c == w1.c && w2.notes == w1.notes && w2.l == w1.l;
    var w3 := Brelse(c, start, w, w2, i);
    AfterHead(w, w2, w3, i);
    KeepsTwo(w, w3);
    Reached(c, start, init, w, w3);
    InvLog(c, start, init, w3);
    PhaseBound(start, init, w3.l);
    RecoverPhase(start, init, w3.l, w3.pc);
    var w9 := WorksThrough(c, start, init, w, w3, |w3.l.phase.ws| - w3.l.phase.k);
    Reached(c, start, init, w, w9);
    InvLog(c, start, init, w9);
    Commits.FinishedMeans(start, init, w9.l);
    UnderCache(c, start, init, w9);
    run', events' := ExtendsTo(c, start, init, run, events, w9);
  }

  lemma RecoverPhase(start: nat, init: Disk, l: Log.State, pc: Pc)
    requires Log.Inv(start, init, l) && PcOk(start, l, pc) && pc.Writing? && pc.recovering
    ensures l.phase.Recovering? && l.lh == []
  {
  }

  lemma CrashCalm(c: Cache.Code, start: nat, init: Disk, run: seq<World>, events: seq<Event>)
    requires Run(c, start, init, run, events) && events != [] && events[|events| - 1].Crash? && |run[|events|].c.bufs| >= 2
    ensures Calm(run[|events|], None) && TwoFree(run[|events|]) && run[|events|].pc.Boot?
  {
    hide Init;
    var n := |events| - 1;
    assert Ready(c, start, run[n], events[n]) && run[n + 1] == Next(c, start, run[n], events[n]);
    var w := run[n + 1];
    assert Cache.Unreferenced(w.c, 0) && Cache.Unreferenced(w.c, 1);
  }
}
