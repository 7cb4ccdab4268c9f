/** Which unused buffer bget of riscv-os/kernel/disk/bio.c recycles. The list is in the order
    of the last release, the latest first, and the second loop starts at its front: it
    takes the buffer used most recently, not the one used least recently. */
module BufferOrder {
  import opened BlockDisk
  import opened BufferCache
  import opened BufferRace

  /** brelse has made buffer i unreferenced in step n. */
  ghost predicate Freed(run: seq<State>, steps: seq<Step>, n: nat, i: nat)
    requires n < |steps| && |run| == |steps| + 1
  {
    steps[n].e.EndDrop? && steps[n].i == i && i < |run[n + 1].bufs| && run[n + 1].bufs[i].refcnt == 0
  }

  /** One more than the number of the last such step before n, or 0. */
  ghost function LastFreed(run: seq<State>, steps: seq<Step>, n: nat, i: nat): nat
    requires n <= |steps| && |run| == |steps| + 1
  {
    if n == 0 then 0 else if Freed(run, steps, n - 1, i) then n else LastFreed(run, steps, n - 1, i)
  }

  lemma {:induction false} FreedBefore(run: seq<State>, steps: seq<Step>, n: nat, i: nat)
    requires n <= |steps| && |run| == |steps| + 1
    ensures LastFreed(run, steps, n, i) <= n
  {
    if n > 0 { FreedBefore(run, steps, n - 1, i); }
  }

  /** The list without one buffer keeps its order. */
  lemma {:induction false} WithoutOrder(order: seq<nat>, i: nat, p: nat, q: nat) returns (p': nat, q': nat)
    requires p < q < |Without(order, i)|
    ensures p' < q' < |order| && order[p'] == Without(order, i)[p] && order[q'] == Without(order, i)[q]
    ensures order[p'] != i && order[q'] != i
  {
    if order[0] == i {
      p', q' := WithoutOrder(order[1..], i, p, q);
      p', q' := p' + 1, q' + 1;
    } else if p > 0 {
      p', q' := WithoutOrder(order[1..], i, p - 1, q - 1);
      p', q' := p' + 1, q' + 1;
    } else {
      p' := 0;
      q' := WithoutIn(order[1..], i, q - 1);
      q' := q' + 1;
    }
  }

  lemma {:induction false} WithoutIn(order: seq<nat>, i: nat, q: nat) returns (q': nat)
    requires q < |Without(order, i)|
    ensures q' < |order| && order[q'] == Without(order, i)[q] && order[q'] != i
  {
    if order[0] == i {
      q' := WithoutIn(order[1..], i, q);
      q' := q' + 1;
    } else if q == 0 {
      q' := 0;
    } else {
      q' := WithoutIn(order[1..], i, q - 1);
      q' := q' + 1;
    }
  }

  /** a was released after b, or neither ever was. */
  ghost predicate NotBefore(run: seq<State>, steps: seq<Step>, n: nat, a: nat, b: nat)
    requires n <= |steps| && |run| == |steps| + 1
  {
    LastFreed(run, steps, n, a) > LastFreed(run, steps, n, b) || LastFreed(run, steps, n, a) == LastFreed(run, steps, n, b) == 0
  }

  /** In every run the list is in the order of the last release. */
  lemma {:induction false} OrderByRecency(c: Code, run: seq<State>, arrs: seq<map<Key, Block>>, steps: seq<Step>, n: nat, p: nat, q: nat)
    requires Run(c, run, arrs, steps) && n < |run| && p < q < |run[n].order|
    ensures NotBefore(run, steps, n, run[n].order[p], run[n].order[q])
  {
    hide Ready, NextBuf, NextSection, NextArray, Init;
    if n > 0 {
      assert Link(c, run, arrs, steps, n - 1);
      var s, st := run[n - 1], steps[n - 1];
      if Freed(run, steps, n - 1, st.i) {
        assert run[n].order == ToFront(s.order, st.i);
        if p == 0 {
          var q' := WithoutIn(s.order, st.i, q - 1);
          FreedBefore(run, steps, n - 1, s.order[q']);
        } else {
          var p', q' := WithoutOrder(s.order, st.i, p - 1, q - 1);
          OrderByRecency(c, run, arrs, steps, n - 1, p', q');
        }
      } else {
        assert run[n].order == s.order;
        OrderByRecency(c, run, arrs, steps, n - 1, p, q);
      }
    }
  }

  /** The buffer at which the second loop stops is, of all unreferenced ones, the one that
      was released last, or none of them ever was. */
  lemma RecyclesMostRecent(c: Code, run: seq<State>, arrs: seq<map<Key, Block>>, steps: seq<Step>, n: nat, i: nat, j: nat)
    requires Run(c, run, arrs, steps) && n < |run| && FirstUnreferenced(run[n], i)
    requires j in run[n].order && Unreferenced(run[n], j) && j != i
    ensures NotBefore(run, steps, n, i, j)
  {
    var p :| 0 <= p < |run[n].order| && run[n].order[p] == i && forall q | 0 <= q < p :: !Unreferenced(run[n], run[n].order[q]);
    var q :| 0 <= q < |run[n].order| && run[n].order[q] == j;
    OrderByRecency(c, run, arrs, steps, n, p, q);
  }

  /** No unreferenced buffer was released before buffer i. */
  ghost predicate LeastRecent(run: seq<State>, steps: seq<Step>, n: nat, i: nat)
    requires n <= |steps| && |run| == |steps| + 1
  {
    forall j | j in run[n].order && Unreferenced(run[n], j) :: LastFreed(run, steps, n, i) <= LastFreed(run, steps, n, j)
  }

  /** So it is the least recently used one, as documented, if and only if it is the only
      unreferenced one or none of them was ever released. */
  lemma LruIff(c: Code, run: seq<State>, arrs: seq<map<Key, Block>>, steps: seq<Step>, n: nat, i: nat)
    requires Run(c, run, arrs, steps) && n < |run| && FirstUnreferenced(run[n], i)
    ensures LeastRecent(run, steps, n, i) <==>
              forall j | j in run[n].order && Unreferenced(run[n], j) && j != i ::
                LastFreed(run, steps, n, i) == 0 && LastFreed(run, steps, n, j) == 0
  {
    forall j | j in run[n].order && Unreferenced(run[n], j) && j != i
      ensures NotBefore(run, steps, n, i, j)
    {
      RecyclesMostRecent(c, run, arrs, steps, n, i, j);
    }
  }

  // ---- a run in which it is not ----

  lemma GoOn(c: Code, run: seq<State>, arrs: seq<map<Key, Block>>, steps: seq<Step>, i: nat, e: Event, s': State)
    requires Run(c, run, arrs, steps) && Enabled(c, run[|steps|], i, e) && !e.Modify? && s' == Next(c, run[|steps|], i, e)
    ensures Run(c, run + [s'], arrs + [arrs[|steps|]], steps + [Step(i, e)])
  {
    hide Enabled, Next, Init;
    var run', arrs', steps' := run + [s'], arrs + [arrs[|steps|]], steps + [Step(i, e)];
    forall n | 0 <= n < |steps'|
      ensures Link(c, run', arrs', steps', n)
    {
      if n < |steps| { assert Link(c, run, arrs, steps, n); }
    }
  }

  lemma {:induction false} NeverFreed(run: seq<State>, steps: seq<Step>, n: nat, i: nat)
    requires n <= |steps| && |run| == |steps| + 1 && forall m | 0 <= m < |steps| :: steps[m].i != i
    ensures LastFreed(run, steps, n, i) == 0
  {
    if n > 0 { NeverFreed(run, steps, n - 1, i); }
  }

  /** Two buffers, of which the second was never used. */
  function Pair(b: Buf, sec: Section, n: nat): State {
    State([b, Buf((0, 0), false, 0, Blank(), Nobody, {}, {}, {}, 0)], [0, 1], map[], sec, n)
  }

  function Used(k: Key, valid: bool, refcnt: int, holder: Holder, waitMiss: set<nat>, leaving: set<nat>): Buf {
    Buf(k, valid, refcnt, Blank(), holder, {}, waitMiss, leaving, 0)
  }

  /** From binit with two buffers, one access to block k and its brelse. */
  lemma FirstAccess(c: Code, k: Key) returns (run: seq<State>, arrs: seq<map<Key, Block>>, steps: seq<Step>)
    requires k.0 != 0
    ensures Run(c, run, arrs, steps) && |steps| == 6 && forall m | 0 <= m < |steps| :: steps[m].i == 0
    ensures run[|steps|] == Pair(Used(k, true, 1, Nobody, {}, {0}), Open, 1)
  {
    hide Run;
    var s0 := Pair(Used((0, 0), false, 0, Nobody, {}, {}), Open, 0);
    run, arrs, steps := [s0], [map[]], [];
    assert Run(c, run, arrs, steps) by { StartsHere(c, s0); }
    var s1 := Pair(Used((0, 0), false, 0, Nobody, {}, {}), Scanning(k, 0), 0);
    GoOn(c, run, arrs, steps, 0, StartMiss(k), s1);
    run, arrs, steps := run + [s1], arrs + [map[]], steps + [Step(0, StartMiss(k))];
    var s2 := Pair(Used((0, 0), false, 0, Nobody, {}, {}), Recycling(0, k), 0);
    GoOn(c, run, arrs, steps, 0, Scan, s2);
    run, arrs, steps := run + [s2], arrs + [map[]], steps + [Step(0, Scan)];
    var s3 := Pair(Used(k, false, 1, Nobody, {0}, {}), Open, 1);
    GoOn(c, run, arrs, steps, 0, Recycle, s3);
    run, arrs, steps := run + [s3], arrs + [map[]], steps + [Step(0, Recycle)];
    var s4 := Pair(Used(k, false, 1, Has(0), {}, {}), Open, 1);
    GoOn(c, run, arrs, steps, 0, Lock(0), s4);
    run, arrs, steps := run + [s4], arrs + [map[]], steps + [Step(0, Lock(0))];
    var s5 := Pair(Used(k, true, 1, Has(0), {}, {}), Open, 1);
    GoOn(c, run, arrs, steps, 0, Fill, s5);
    run, arrs, steps := run + [s5], arrs + [map[]], steps + [Step(0, Fill)];
    var s6 := Pair(Used(k, true, 1, Nobody, {}, {0}), Open, 1);
    GoOn(c, run, arrs, steps, 0, Release, s6);
    run, arrs, steps := run + [s6], arrs + [map[]], steps + [Step(0, Release)];
  }

  lemma StartsHere(c: Code, s: State)
    requires Init(s, map[])
    ensures Run(c, [s], [map[]], [])
  {
  }

  /** After it the next miss recycles the same buffer, although the other one was never
      used. */
  lemma LruFails(c: Code, k: Key) returns (run: seq<State>, arrs: seq<map<Key, Block>>, steps: seq<Step>)
    requires k.0 != 0
    ensures Run(c, run, arrs, steps) && FirstUnreferenced(run[|steps|], 0)
    ensures 1 in run[|steps|].order && Unreferenced(run[|steps|], 1) && !LeastRecent(run, steps, |steps|, 0)
  {
    hide Run;
    run, arrs, steps := FirstAccess(c, k);
    assert |run| == |arrs| == |steps| + 1 by { Lengths(c, run, arrs, steps); }
    var s7 := Pair(Used(k, true, 1, Nobody, {}, {0}), Dropping(0, 0, 1), 1);
    GoOn(c, run, arrs, steps, 0, StartDrop(0), s7);
    run, arrs, steps := run + [s7], arrs + [arrs[|steps|]], steps + [Step(0, StartDrop(0))];
    var s8 := Pair(Used(k, true, 0, Nobody, {}, {}), Open, 1);
    DropsToFront(c, k);
    GoOn(c, run, arrs, steps, 0, EndDrop, s8);
    run, arrs, steps := run + [s8], arrs + [arrs[|steps|]], steps + [Step(0, EndDrop)];
    assert s8.order[0] == 0;
    assert Freed(run, steps, |steps| - 1, 0);
    NeverFreed(run, steps, |steps|, 1);
  }

  lemma DropsToFront(c: Code, k: Key)
    ensures var s := Pair(Used(k, true, 1, Nobody, {}, {0}), Dropping(0, 0, 1), 1);
            Enabled(c, s, 0, EndDrop) && Next(c, s, 0, EndDrop) == Pair(Used(k, true, 0, Nobody, {}, {}), Open, 1)
  {
    var s := Pair(Used(k, true, 1, Nobody, {}, {0}), Dropping(0, 0, 1), 1);
    var leaving: set<nat> := {0};
    assert leaving - {0} == {};
    assert NextBuf(c, s, 0, EndDrop) == Used(k, true, 0, Nobody, {}, {});
    assert Without([1], 0) == [1] + Without([], 0) == [1];
    assert [0, 1][1..] == [1];
    assert ToFront([0, 1], 0) == [0] + [1];
  }

  lemma Lengths(c: Code, run: seq<State>, arrs: seq<map<Key, Block>>, steps: seq<Step>)
    requires Run(c, run, arrs, steps)
    ensures |run| == |arrs| == |steps| + 1
  {
  }
}
