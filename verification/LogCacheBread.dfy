/** Accesses of the cache as a process makes them when nobody else is using it: bread and
    brelse of riscv-os/kernel/disk/bio.c from beginning to end, in the code with one
    increment. They can always be had while there is an unreferenced buffer. */
module LogCacheBread {
  import opened Common
  import opened BlockDisk
  import opened LogFormat
  import Cache = BufferCache
  import Log = LogRuns
  import opened LogCache

  /** n steps other than crashes lead from w to w'. */
  ghost predicate LeadsIn(c: Cache.Code, start: nat, w: World, w': World, n: nat)
    decreases n
  {
    if n == 0 then w == w' else exists e :: Steps(c, start, w, e) && LeadsIn(c, start, Next(c, start, w, e), w', n - 1)
  }

  ghost predicate Steps(c: Cache.Code, start: nat, w: World, e: Event) { Ready(c, start, w, e) && !e.Crash? }

  ghost predicate Leads(c: Cache.Code, start: nat, w: World, w': World) { exists n: nat :: LeadsIn(c, start, w, w', n) }

  lemma {:induction false} LeadsOn(c: Cache.Code, start: nat, w: World, w1: World, e: Event, n: nat)
    requires LeadsIn(c, start, w, w1, n) && Steps(c, start, w1, e)
    ensures LeadsIn(c, start, w, Next(c, start, w1, e), n + 1)
    decreases n
  {
    hide Ready, Next;
    if n == 0 {
      assert LeadsIn(c, start, Next(c, start, w, e), Next(c, start, w1, e), 0);
    } else {
      var d :| Steps(c, start, w, d) && LeadsIn(c, start, Next(c, start, w, d), w1, n - 1);
      LeadsOn(c, start, Next(c, start, w, d), w1, e, n - 1);
    }
  }

  /** One step more. */
  lemma Go(c: Cache.Code, start: nat, w: World, w1: World, e: Event, w2: World)
    requires Leads(c, start, w, w1) && Ready(c, start, w1, e) && !e.Crash? && Next(c, start, w1, e) == w2
    ensures Leads(c, start, w, w2)
  {
    hide Ready, Next, LeadsIn;
    var n: nat :| LeadsIn(c, start, w, w1, n);
    LeadsOn(c, start, w, w1, e, n);
  }

  lemma Stay(c: Cache.Code, start: nat, w: World)
    ensures Leads(c, start, w, w)
  {
    assert LeadsIn(c, start, w, w, 0);
  }

  /** The world with another buffer i, in another section. */
  function With(w: World, i: nat, b: Cache.Buf, sec: Cache.Section, started: nat): World
    requires i < |w.c.bufs|
  {
    w.(c := Cache.State(w.c.bufs[i := b], w.c.order, w.c.disk, sec, started))
  }

  /** An access that is no release and moves nothing in the list. */
  lemma GoAccess(c: Cache.Code, start: nat, w: World, w1: World, i: nat, e: Cache.Event)
    requires Leads(c, start, w, w1) && Ordinary(e) && Cache.Ready(c, w1.c, i, e) && |w1.notes| == |w1.c.bufs|
    requires e.Release? ==> w1.notes[i] == Fresh
    requires e.StartHit? || e.StartMiss? ==> e.k.0 == DEV && e.k.1 < |w1.l.disk|
    ensures Leads(c, start, w, w1.(c := Cache.Next(c, w1.c, i, e)))
  {
    hide Leads, Cache.Ready, Cache.Next;
    ReadyIn(c, w1.c, i, e);
    Go(c, start, w, w1, Access(i, e), w1.(c := Cache.Next(c, w1.c, i, e)));
  }

  lemma ReadyIn(c: Cache.Code, s: Cache.State, i: nat, e: Cache.Event)
    requires Cache.Ready(c, s, i, e)
    ensures i < |s.bufs|
  {
  }

  predicate Idle(b: Cache.Buf) { b.holder == Cache.Nobody && b.waitHit == {} && b.waitMiss == {} && b.leaving == {} }

  // ---- bread of a block that is in the cache ----

  lemma BreadHit(c: Cache.Code, start: nat, w: World, w1: World, i: nat, b: nat)
    requires Leads(c, start, w, w1) && !c.twice && c.crowd >= 1 && w1.c.section.Open? && |w1.notes| == |w1.c.bufs|
    requires i < |w1.c.bufs| && Idle(w1.c.bufs[i]) && Cache.FirstMatch(w1.c, (DEV, b), i) && b < |w1.l.disk|
    ensures var buf, t := w1.c.bufs[i], w1.c.started;
            Leads(c, start, w, With(w1, i, buf.(refcnt := buf.refcnt + 1, holder := Cache.Has(t)), Cache.Open, t + 1))
  {
    hide Leads, Cache.FirstMatch, Cache.NoMatch;
    var buf, t := w1.c.bufs[i], w1.c.started;
    GoAccess(c, start, w, w1, i, Cache.StartHit((DEV, b)));
    var w2 := With(w1, i, buf, Cache.Adding(i, buf.refcnt), t);
    assert w1.c.bufs[i := buf] == w1.c.bufs;
    GoAccess(c, start, w, w2, i, Cache.AddHit);
    var w3 := With(w1, i, buf.(refcnt := buf.refcnt + 1, waitHit := {t}), Cache.Open, t + 1);
    assert w2.(c := Cache.Next(c, w2.c, i, Cache.AddHit)) == w3;
    GoAccess(c, start, w, w3, i, Cache.Lock(t));
    var w4 := With(w1, i, buf.(refcnt := buf.refcnt + 1, holder := Cache.Has(t)), Cache.Open, t + 1);
    assert w3.(c := Cache.Next(c, w3.c, i, Cache.Lock(t))) == w4;
  }

  // ---- bread of a block that is not ----

  /** The second loop, from position q on. */
  lemma {:induction false} ScanOn(c: Cache.Code, start: nat, w: World, w1: World, k: Cache.Key, q: nat, p: nat)
    requires q <= p < |w1.c.order| && |w1.notes| == |w1.c.bufs| && Cache.Ordered(w1.c)
    requires Leads(c, start, w, w1.(c := w1.c.(section := Cache.Scanning(k, q))))
    requires Cache.Unreferenced(w1.c, w1.c.order[p]) && forall x | q <= x < p :: !Cache.Unreferenced(w1.c, w1.c.order[x])
    ensures Leads(c, start, w, w1.(c := w1.c.(section := Cache.Recycling(w1.c.order[p], k))))
    decreases p - q
  {
    hide Leads;
    var w2 := w1.(c := w1.c.(section := Cache.Scanning(k, q)));
    var i := w1.c.order[q];
    assert i in w1.c.order;
    GoAccess(c, start, w, w2, i, Cache.Scan);
    assert w1.c.bufs[i := w1.c.bufs[i]] == w1.c.bufs;
    if q < p {
      assert !Cache.Unreferenced(w1.c, w1.c.order[q]);
      ScanOn(c, start, w, w1, k, q + 1, p);
    }
  }

  lemma BreadMiss(c: Cache.Code, start: nat, w: World, w1: World, i: nat, b: nat)
    requires Leads(c, start, w, w1) && w1.c.section.Open? && |w1.notes| == |w1.c.bufs| && Cache.Ordered(w1.c)
    requires Cache.NoMatch(w1.c, (DEV, b), |w1.c.order|) && Cache.FirstUnreferenced(w1.c, i) && b < |w1.l.disk|
    requires i < |w1.c.bufs| && Idle(w1.c.bufs[i]) && w1.c.bufs[i].pins == 0
    ensures var k, t := (DEV, b), w1.c.started;
            Leads(c, start, w, With(w1, i, Cache.Buf(k, true, 1, Cache.Read(w1.c.disk, k), Cache.Has(t), {}, {}, {}, 0), Cache.Open, t + 1))
  {
    hide Leads, Cache.NoMatch, Cache.Ordered;
    var k, t, buf := (DEV, b), w1.c.started, w1.c.bufs[i];
    var p :| 0 <= p < |w1.c.order| && w1.c.order[p] == i && Cache.Unreferenced(w1.c, i) && forall q | 0 <= q < p :: !Cache.Unreferenced(w1.c, w1.c.order[q]);
    GoAccess(c, start, w, w1, i, Cache.StartMiss(k));
    assert w1.c.bufs[i := buf] == w1.c.bufs;
    ScanOn(c, start, w, w1, k, 0, p);
    var w2 := w1.(c := w1.c.(section := Cache.Recycling(i, k)));
    GoAccess(c, start, w, w2, i, Cache.Recycle);
    var w3 := With(w1, i, buf.(key := k, valid := false, refcnt := 1, waitMiss := {t}), Cache.Open, t + 1);
    OneIn(t);
    assert Cache.NextBuf(c, w2.c, i, Cache.Recycle) == w3.c.bufs[i];
    assert w2.(c := Cache.Next(c, w2.c, i, Cache.Recycle)) == w3;
    LockAndFill(c, start, w, w1, i, b);
  }

  lemma OneIn(t: nat)
    ensures var none: set<nat> := {}; var one: set<nat> := {t}; none + {t} == one && one - {t} == none
  {
  }

  lemma LockAndFill(c: Cache.Code, start: nat, w: World, w1: World, i: nat, b: nat)
    requires i < |w1.c.bufs| == |w1.notes| && Idle(w1.c.bufs[i]) && w1.c.bufs[i].pins == 0
    requires Leads(c, start, w, With(w1, i, w1.c.bufs[i].(key := (DEV, b), valid := false, refcnt := 1, waitMiss := {w1.c.started}), Cache.Open, w1.c.started + 1))
    ensures var k, t := (DEV, b), w1.c.started;
            Leads(c, start, w, With(w1, i, Cache.Buf(k, true, 1, Cache.Read(w1.c.disk, k), Cache.Has(t), {}, {}, {}, 0), Cache.Open, t + 1))
  {
    hide Leads;
    var k, t, buf := (DEV, b), w1.c.started, w1.c.bufs[i];
    var w3 := With(w1, i, buf.(key := k, valid := false, refcnt := 1, waitMiss := {t}), Cache.Open, t + 1);
    GoAccess(c, start, w, w3, i, Cache.Lock(t));
    var w4 := With(w1, i, buf.(key := k, valid := false, refcnt := 1, holder := Cache.Has(t)), Cache.Open, t + 1);
    OneIn(t);
    assert Cache.NextBuf(c, w3.c, i, Cache.Lock(t)) == w4.c.bufs[i];
    assert w3.(c := Cache.Next(c, w3.c, i, Cache.Lock(t))) == w4;
    GoAccess(c, start, w, w4, i, Cache.Fill);
    var w5 := With(w1, i, Cache.Buf(k, true, 1, Cache.Read(w1.c.disk, k), Cache.Has(t), {}, {}, {}, 0), Cache.Open, t + 1);
    assert w4.(c := Cache.Next(c, w4.c, i, Cache.Fill)) == w5;
  }

  // ---- brelse ----

  lemma Brelse(c: Cache.Code, start: nat, w: World, w1: World, i: nat) returns (w2: World)
    requires Leads(c, start, w, w1) && w1.c.section.Open? && |w1.notes| == |w1.c.bufs|
    requires i < |w1.c.bufs| && w1.c.bufs[i].holder.Has? && w1.c.bufs[i].valid && w1.c.bufs[i].leaving == {} && w1.notes[i] == Fresh
    ensures Leads(c, start, w, w2) && w2 == w1.(c := w2.c)
    ensures w2.c.bufs == w1.c.bufs[i := w1.c.bufs[i].(refcnt := w1.c.bufs[i].refcnt - 1, holder := Cache.Nobody)]
    ensures w2.c.section.Open? && w2.c.disk == w1.c.disk
  {
    hide Leads;
    var buf, t := w1.c.bufs[i], w1.c.bufs[i].holder.t;
    GoAccess(c, start, w, w1, i, Cache.Release);
    var w3 := With(w1, i, buf.(holder := Cache.Nobody, leaving := {t}), Cache.Open, w1.c.started);
    OneIn(t);
    assert Cache.NextBuf(c, w1.c, i, Cache.Release) == w3.c.bufs[i];
    assert w1.(c := Cache.Next(c, w1.c, i, Cache.Release)) == w3;
    GoAccess(c, start, w, w3, i, Cache.StartDrop(t));
    var w4 := With(w1, i, buf.(holder := Cache.Nobody, leaving := {t}), Cache.Dropping(i, t, buf.refcnt), w1.c.started);
    assert w3.(c := Cache.Next(c, w3.c, i, Cache.StartDrop(t))) == w4;
    GoAccess(c, start, w, w4, i, Cache.EndDrop);
    w2 := w4.(c := Cache.Next(c, w4.c, i, Cache.EndDrop));
    assert Cache.NextBuf(c, w4.c, i, Cache.EndDrop) == buf.(refcnt := buf.refcnt - 1, holder := Cache.Nobody);
  }

  // ---- either ----

  /** Buffer h, if any, is held by one access, and nobody else is doing anything. */
  ghost predicate Calm(w: World, h: Option<nat>) {
    && w.c.section.Open? && w.logging.None? && |w.notes| == |w.c.bufs|
    && (forall i | 0 <= i < |w.notes| :: w.notes[i] == Fresh)
    && (forall i: nat | i < |w.c.bufs| && Some(i) != h :: Idle(w.c.bufs[i]))
    && (h.Some? ==> h.value < |w.c.bufs| && Held(w.c.bufs[h.value]))
  }

  predicate Held(b: Cache.Buf) { b.holder.Has? && b.valid && b.waitHit == {} && b.waitMiss == {} && b.leaving == {} }

  ghost predicate SomeFree(w: World) { exists x: nat :: Cache.Unreferenced(w.c, x) }

  lemma {:induction false} FirstFree(s: Cache.State, p: nat, q: nat) returns (i: nat)
    requires Cache.Ordered(s) && p <= q < |s.order| && Cache.Unreferenced(s, s.order[q])
    requires forall r | 0 <= r < p :: !Cache.Unreferenced(s, s.order[r])
    ensures Cache.FirstUnreferenced(s, i) && Cache.Unreferenced(s, i)
    decreases q - p
  {
    if Cache.Unreferenced(s, s.order[p]) {
      i := s.order[p];
    } else {
      i := FirstFree(s, p + 1, q);
    }
  }

  lemma {:induction false} FirstWith(s: Cache.State, k: Cache.Key, j: nat, p: nat, q: nat)
    requires p <= q < |s.order| && s.order[q] == j < |s.bufs| && s.bufs[j].key == k && Cache.NoMatch(s, k, p)
    requires forall i | 0 <= i < |s.bufs| && s.bufs[i].key == k :: i == j
    ensures Cache.FirstMatch(s, k, j)
    decreases q - p
  {
    if Cache.Matches(s, s.order[p], k) {
      assert s.order[p] == j;
    } else {
      FirstWith(s, k, j, p + 1, q);
    }
  }

  /** A buffer without references has no users. */
  lemma UnreferencedIdle(c: Cache.Code, s: Cache.State, i: nat)
    requires !c.twice && Cache.Inv(c, s) && Cache.Unreferenced(s, i)
    ensures Idle(s.bufs[i]) && s.bufs[i].pins == 0
  {
    hide Cache.SectionCounts, Cache.Ordered, Cache.Absent, Cache.Distinct, Cache.Tokens;
    assert Cache.Good(c, s.bufs[i], s.started);
    Cache.NotInUse(s.bufs[i]);
  }

  /** What bread leaves. */
  ghost predicate Got(w1: World, w2: World, i: nat, b: nat) {
    && i < |w1.c.bufs| == |w2.c.bufs| && w2 == w1.(c := w2.c)
    && w2.c.bufs == w1.c.bufs[i := w2.c.bufs[i]] && w2.c.order == w1.c.order && w2.c.disk == w1.c.disk && w2.c.section.Open?
    && Held(w2.c.bufs[i]) && w2.c.bufs[i].key == (DEV, b)
    && w2.c.bufs[i].refcnt == w1.c.bufs[i].refcnt + 1 && w2.c.bufs[i].pins == w1.c.bufs[i].pins
  }

  /** bread of block b, while buffer h at most is held. */
  lemma Bread(c: Cache.Code, start: nat, w: World, w1: World, b: nat, h: Option<nat>) returns (w2: World, i: nat)
    requires Leads(c, start, w, w1) && !c.twice && c.crowd >= 1 && Cache.Inv(c, w1.c) && Calm(w1, h) && b < |w1.l.disk|
    requires SomeFree(w1) && (h.Some? ==> w1.c.bufs[h.value].key != (DEV, b))
    ensures Leads(c, start, w, w2) && Got(w1, w2, i, b) && Some(i) != h
  {
    hide Leads, Cache.Ready, Cache.SectionCounts, Cache.Absent, Cache.Good, Cache.FirstMatch, Cache.NoMatch, Cache.FirstUnreferenced;
    var k := (DEV, b);
    if j: nat :| j < |w1.c.bufs| && w1.c.bufs[j].key == k {
      i := j;
      var buf, t := w1.c.bufs[j], w1.c.started;
      OnlyOne(w1.c, k, j);
      BreadHit(c, start, w, w1, j, b);
      w2 := With(w1, j, buf.(refcnt := buf.refcnt + 1, holder := Cache.Has(t)), Cache.Open, t + 1);
      if !buf.valid { w2 := FillHit(c, start, w, w2, j); }
    } else {
      NoneMatches(w1.c, k);
      var x: nat :| Cache.Unreferenced(w1.c, x);
      assert x in w1.c.order;
      var q :| 0 <= q < |w1.c.order| && w1.c.order[q] == x;
      i := FirstFree(w1.c, 0, q);
      UnreferencedIdle(c, w1.c, i);
      BreadMiss(c, start, w, w1, i, b);
      w2 := With(w1, i, Cache.Buf(k, true, 1, Cache.Read(w1.c.disk, k), Cache.Has(w1.c.started), {}, {}, {}, 0), Cache.Open, w1.c.started + 1);
    }
  }

  lemma OnlyOne(s: Cache.State, k: Cache.Key, j: nat)
    requires Cache.Ordered(s) && Cache.Distinct(s) && j < |s.bufs| && s.bufs[j].key == k && k.0 != 0
    ensures Cache.FirstMatch(s, k, j)
  {
    assert j in s.order;
    var q: nat :| q < |s.order| && s.order[q] == j;
    FirstWith(s, k, j, 0, q);
  }

  lemma NoneMatches(s: Cache.State, k: Cache.Key)
    requires forall j: nat | j < |s.bufs| :: s.bufs[j].key != k
    ensures Cache.NoMatch(s, k, |s.order|)
  {
  }

  lemma FillHit(c: Cache.Code, start: nat, w: World, w1: World, i: nat) returns (w2: World)
    requires Leads(c, start, w, w1) && i < |w1.c.bufs| == |w1.notes| && w1.c.bufs[i].holder.Has? && !w1.c.bufs[i].valid && w1.c.section.Open?
    ensures Leads(c, start, w, w2)
    ensures w2 == With(w1, i, w1.c.bufs[i].(data := Cache.Read(w1.c.disk, w1.c.bufs[i].key), valid := true), Cache.Open, w1.c.started)
  {
    hide Leads;
    GoAccess(c, start, w, w1, i, Cache.Fill);
    w2 := w1.(c := Cache.Next(c, w1.c, i, Cache.Fill));
  }
}
