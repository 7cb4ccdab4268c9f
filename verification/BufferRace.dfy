/** When the shown bget of riscv-os/kernel/disk/bio.c is safe: a run from binit in which
    three hits on one block make the cache recycle a buffer that is still awaited, and
    with it the exact condition under which that never happens. */
module BufferRace {
  import opened BlockDisk
  import opened BufferCache

  /** Some run ends in s, with all blocks as they were at first. */
  ghost predicate Reaches(c: Code, s: State) {
    exists run: seq<State>, arrs: seq<map<Key, Block>>, steps: seq<Step> ::
      Run(c, run, arrs, steps) && run[|run| - 1] == s
  }

  lemma StepReaches(c: Code, s: State, i: nat, e: Event)
    requires Reaches(c, s) && Enabled(c, s, i, e)
    ensures Reaches(c, Next(c, s, i, e))
  {
    hide Enabled, Next, Init;
    var run: seq<State>, arrs: seq<map<Key, Block>>, steps: seq<Step> :| Run(c, run, arrs, steps) && run[|run| - 1] == s;
    EnabledIn(c, s, i, e);
    var run', arrs', steps' := run + [Next(c, s, i, e)], arrs + [NextArray(s, arrs[|arrs| - 1], i, e)], steps + [Step(i, e)];
    forall n | 0 <= n < |steps'|
      ensures Link(c, run', arrs', steps', n)
    {
      if n < |steps| { assert Link(c, run, arrs, steps, n); }
    }
    assert Run(c, run', arrs', steps');
  }

  lemma EnabledIn(c: Code, s: State, i: nat, e: Event)
    requires Enabled(c, s, i, e)
    ensures i < |s.bufs| && Ready(c, s, i, e)
  {
  }

  /** A cache of one buffer. */
  function Solo(b: Buf, sec: Section, n: nat): State { State([b], [0], map[], sec, n) }

  lemma StepSolo(c: Code, b: Buf, sec: Section, n: nat, e: Event)
    requires Reaches(c, Solo(b, sec, n)) && Enabled(c, Solo(b, sec, n), 0, e) && !e.Flush?
    ensures var s := Solo(b, sec, n);
            Reaches(c, Solo(NextBuf(c, s, 0, e), NextSection(c, s, 0, e), if e.AddHit? || e.Recycle? then n + 1 else n))
  {
    hide Reaches, Ready, NextBuf, NextSection;
    var s := Solo(b, sec, n);
    EnabledIn(c, s, 0, e);
    StepReaches(c, s, 0, e);
    assert [b][0 := NextBuf(c, s, 0, e)] == [NextBuf(c, s, 0, e)];
    assert ToFront([0], 0) == [0];
  }

  lemma SoloMatch(b: Buf, sec: Section, n: nat, k: Key)
    ensures FirstMatch(Solo(b, sec, n), k, 0) <==> b.key == k
    ensures NoMatch(Solo(b, sec, n), k, 1) <==> b.key != k
  {
    var s := Solo(b, sec, n);
    assert s.order[0] == 0 && NoMatch(s, k, 0);
    assert Matches(s, s.order[0], k) <==> b.key == k;
  }

  /** bget finds the block. */
  lemma DoHit(c: Code, b: Buf, n: nat)
    requires Reaches(c, Solo(b, Open, n)) && b.key.0 != 0 && b.Crowd() < c.crowd
    ensures Reaches(c, Solo(b.(refcnt := b.refcnt + 1, waitHit := b.waitHit + {n}), Open, n + 1))
  {
    hide Reaches;
    SoloMatch(b, Open, n, b.key);
    StepSolo(c, b, Open, n, StartHit(b.key));
    StepSolo(c, b, Adding(0, b.refcnt), n, AddHit);
  }

  /** A miss goes as far as finding refcnt 0. */
  lemma DoMiss(c: Code, b: Buf, n: nat, k: Key)
    requires Reaches(c, Solo(b, Open, n)) && k.0 != 0 && b.key != k && b.refcnt == 0
    ensures Reaches(c, Solo(b, Recycling(0, k), n))
  {
    hide Reaches;
    SoloMatch(b, Open, n, k);
    StepSolo(c, b, Open, n, StartMiss(k));
    StepSolo(c, b, Scanning(k, 0), n, Scan);
  }

  lemma DoRecycle(c: Code, b: Buf, n: nat, k: Key)
    requires Reaches(c, Solo(b, Recycling(0, k), n))
    ensures Reaches(c, Solo(b.(key := k, valid := false, refcnt := 1, waitMiss := b.waitMiss + {n}), Open, n + 1))
  {
    hide Reaches;
    StepSolo(c, b, Recycling(0, k), n, Recycle);
  }

  lemma DoLock(c: Code, b: Buf, sec: Section, n: nat, t: nat)
    requires c.twice && Reaches(c, Solo(b, sec, n)) && b.holder == Nobody
    ensures t in b.waitHit ==> Reaches(c, Solo(b.(holder := Hit(t), waitHit := b.waitHit - {t}), sec, n))
    ensures t in b.waitMiss && t !in b.waitHit ==> Reaches(c, Solo(b.(holder := Has(t), waitMiss := b.waitMiss - {t}), sec, n))
  {
    hide Reaches;
    if t in b.waitHit || t in b.waitMiss { StepSolo(c, b, sec, n, Lock(t)); }
  }

  lemma DoLoad(c: Code, b: Buf, sec: Section, n: nat)
    requires Reaches(c, Solo(b, sec, n)) && b.holder.Hit?
    ensures Reaches(c, Solo(b.(holder := Raising(b.holder.t, b.refcnt)), sec, n))
  {
    hide Reaches;
    StepSolo(c, b, sec, n, Load);
  }

  lemma DoStore(c: Code, b: Buf, sec: Section, n: nat)
    requires Reaches(c, Solo(b, sec, n)) && b.holder.Raising?
    ensures Reaches(c, Solo(b.(holder := Has(b.holder.t), refcnt := b.holder.seen + 1), sec, n))
  {
    hide Reaches;
    StepSolo(c, b, sec, n, Store);
  }

  lemma DoFill(c: Code, b: Buf, n: nat)
    requires Reaches(c, Solo(b, Open, n)) && b.holder.Has? && !b.valid
    ensures Reaches(c, Solo(b.(data := Blank(), valid := true), Open, n))
  {
    hide Reaches;
    StepSolo(c, b, Open, n, Fill);
  }

  lemma DoRelease(c: Code, b: Buf, n: nat)
    requires Reaches(c, Solo(b, Open, n)) && b.holder.Has? && b.valid && b.data == Blank()
    ensures Reaches(c, Solo(b.(holder := Nobody, leaving := b.leaving + {b.holder.t}), Open, n))
  {
    hide Reaches;
    StepSolo(c, b, Open, n, Release);
  }

  lemma DoStartDrop(c: Code, b: Buf, n: nat, t: nat)
    requires Reaches(c, Solo(b, Open, n)) && t in b.leaving
    ensures Reaches(c, Solo(b, Dropping(0, t, b.refcnt), n))
  {
    hide Reaches;
    StepSolo(c, b, Open, n, StartDrop(t));
  }

  lemma DoEndDrop(c: Code, b: Buf, n: nat, t: nat, seen: int)
    requires Reaches(c, Solo(b, Dropping(0, t, seen), n))
    ensures Reaches(c, Solo(b.(refcnt := seen - 1, leaving := b.leaving - {t}), Open, n))
  {
    hide Reaches;
    StepSolo(c, b, Dropping(0, t, seen), n, EndDrop);
  }

  /** Block k in the one buffer, filled from the disk, with this count and these users. */
  function Cached(k: Key, r: int, h: Holder, waiting: set<nat>, leaving: set<nat>): Buf {
    Buf(k, true, r, Blank(), h, waiting, {}, leaving, 0)
  }

  /** The block is brought in and let go again. */
  lemma BringIn(c: Code, k: Key)
    requires c.twice && k.0 != 0
    ensures Reaches(c, Solo(Cached(k, 0, Nobody, {}, {}), Open, 1))
  {
    hide Reaches;
    var b0 := Buf((0, 0), false, 0, Blank(), Nobody, {}, {}, {}, 0);
    Start(c, b0);
    DoMiss(c, b0, 0, k);
    DoRecycle(c, b0, 0, k);
    var b1 := b0.(key := k, refcnt := 1, waitMiss := {0});
    assert {} + {0} == {0};
    DoLock(c, b1, Open, 1, 0);
    var b2 := b1.(holder := Has(0), waitMiss := {});
    assert {0} - {0} == {};
    DoFill(c, b2, 1);
    var b3 := b2.(valid := true);
    DoRelease(c, b3, 1);
    var b4 := b3.(holder := Nobody, leaving := {0});
    assert {} + {0} == {0};
    DoStartDrop(c, b4, 1, 0);
    DoEndDrop(c, b4, 1, 0, 1);
  }

  lemma Start(c: Code, b0: Buf)
    requires b0 == Buf((0, 0), false, 0, Blank(), Nobody, {}, {}, {}, 0)
    ensures Reaches(c, Solo(b0, Open, 0))
  {
    var s := Solo(b0, Open, 0);
    assert s.order[0] == 0;
    assert Init(s, map[]);
    assert Run(c, [s], [map[]], []);
  }

  /** Access 1 is between load and store of its second increment when accesses 2 and 3
      hit; its store erases both their increments. */
  lemma TwoErased(c: Code, k: Key)
    requires c.twice && c.crowd >= 3 && k.0 != 0
    ensures Reaches(c, Solo(Cached(k, 2, Has(1), {2, 3}, {}), Open, 4))
  {
    hide Reaches;
    BringIn(c, k);
    DoHit(c, Cached(k, 0, Nobody, {}, {}), 1);
    assert {} + {1} == {1};
    DoLock(c, Cached(k, 1, Nobody, {1}, {}), Open, 2, 1);
    assert {1} - {1} == {};
    DoLoad(c, Cached(k, 1, Hit(1), {}, {}), Open, 2);
    DoHit(c, Cached(k, 1, Raising(1, 1), {}, {}), 2);
    assert {} + {2} == {2};
    DoHit(c, Cached(k, 2, Raising(1, 1), {2}, {}), 3);
    assert {2} + {3} == {2, 3};
    DoStore(c, Cached(k, 3, Raising(1, 1), {2, 3}, {}), Open, 4);
  }

  /** Then brelse of access 1 has read refcnt when access 2 stores its second
      increment; brelse erases that too. */
  lemma ThirdErased(c: Code, k: Key)
    requires c.twice && c.crowd >= 3 && k.0 != 0
    ensures Reaches(c, Solo(Cached(k, 1, Has(2), {3}, {}), Open, 4))
  {
    hide Reaches;
    TwoErased(c, k);
    DoRelease(c, Cached(k, 2, Has(1), {2, 3}, {}), 4);
    assert {} + {1} == {1};
    DoLock(c, Cached(k, 2, Nobody, {2, 3}, {1}), Open, 4, 2);
    assert {2, 3} - {2} == {3};
    DoLoad(c, Cached(k, 2, Hit(2), {3}, {1}), Open, 4);
    DoStartDrop(c, Cached(k, 2, Raising(2, 2), {3}, {1}), 4, 1);
    DoStore(c, Cached(k, 2, Raising(2, 2), {3}, {1}), Dropping(0, 1, 2), 4);
    DoEndDrop(c, Cached(k, 3, Has(2), {3}, {1}), 4, 1, 2);
    assert {1} - {1} == {};
  }

  /** Access 2 leaves, refcnt is 0, and a miss takes the buffer that access 3 awaits. */
  lemma RecycledInUse(c: Code, k: Key, k': Key)
    requires c.twice && c.crowd >= 3 && k.0 != 0 && k'.0 != 0 && k != k'
    ensures Reaches(c, Solo(Cached(k, 0, Nobody, {3}, {}), Recycling(0, k'), 4))
    ensures Reaches(c, Solo(Buf(k', false, 1, Blank(), Hit(3), {}, {4}, {}, 0), Open, 5))
  {
    hide Reaches;
    ThirdErased(c, k);
    DoRelease(c, Cached(k, 1, Has(2), {3}, {}), 4);
    assert {} + {2} == {2};
    DoStartDrop(c, Cached(k, 1, Nobody, {3}, {2}), 4, 2);
    DoEndDrop(c, Cached(k, 1, Nobody, {3}, {2}), 4, 2, 1);
    assert {2} - {2} == {};
    DoMiss(c, Cached(k, 0, Nobody, {3}, {}), 4, k');
    DoRecycle(c, Cached(k, 0, Nobody, {3}, {}), 4, k');
    var b := Buf(k', false, 1, Blank(), Nobody, {3}, {4}, {}, 0);
    assert {} + {4} == {4};
    DoLock(c, b, Open, 5, 3);
    assert {3} - {3} == {};
  }

  /** No run ever recycles a buffer in use. */
  ghost predicate NoneRecycledInUse(c: Code) {
    forall s: State | Reaches(c, s) && s.section.Recycling? && s.section.i < |s.bufs| :: !s.bufs[s.section.i].InUse()
  }

  lemma SafeRuns(c: Code, s: State)
    requires Safe(c) && Reaches(c, s) && s.section.Recycling? && s.section.i < |s.bufs|
    ensures !s.bufs[s.section.i].InUse()
  {
    hide Ordered, Absent, Distinct, Link;
    var run: seq<State>, arrs: seq<map<Key, Block>>, steps: seq<Step> :| Run(c, run, arrs, steps) && run[|run| - 1] == s;
    RunInv(c, run, arrs, steps, |run| - 1);
    assert Good(c, s.bufs[s.section.i], s.started);
    NotInUse(s.bufs[s.section.i]);
  }

  /** The cache is safe in all runs if and only if a hit raises refcnt once, or at most
      two hits on one buffer are ever between the two increments. */
  lemma SafeIff(c: Code)
    ensures NoneRecycledInUse(c) <==> Safe(c)
  {
    if Safe(c) {
      forall s: State | Reaches(c, s) && s.section.Recycling? && s.section.i < |s.bufs|
        ensures !s.bufs[s.section.i].InUse()
      {
        SafeRuns(c, s);
      }
    } else {
      RecycledInUse(c, (1, 0), (1, 1));
    }
  }

  /** The shown code keeps a reference for every hit, even without any overlap. */
  lemma HitsLeak(c: Code, k: Key)
    requires c.twice && c.crowd >= 1 && k.0 != 0
    ensures Reaches(c, Solo(Cached(k, 1, Nobody, {}, {}), Open, 2))
  {
    hide Reaches;
    BringIn(c, k);
    DoHit(c, Cached(k, 0, Nobody, {}, {}), 1);
    assert {} + {1} == {1};
    DoLock(c, Cached(k, 1, Nobody, {1}, {}), Open, 2, 1);
    assert {1} - {1} == {};
    DoLoad(c, Cached(k, 1, Hit(1), {}, {}), Open, 2);
    DoStore(c, Cached(k, 1, Raising(1, 1), {}, {}), Open, 2);
    DoRelease(c, Cached(k, 2, Has(1), {}, {}), 2);
    DoStartDrop(c, Cached(k, 2, Nobody, {}, {1}), 2, 1);
    DoEndDrop(c, Cached(k, 2, Nobody, {}, {1}), 2, 1, 2);
  }
}
