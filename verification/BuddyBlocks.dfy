/** Free lists and handed-out blocks of the buddy allocator as numbered blocks:
    block i of level k is half of block i/2 of level k+1, and level 0 is the
    pages. What every call of bd_malloc keeps, and when it fails. */
module BuddyBlocks {
  import opened Common
  import opened BuddyMath
  import opened BuddyInit

  /** The block n levels up that block i is part of. */
  function Up(i: nat, n: nat): nat {
    if n == 0 then i else Up(i / 2, n - 1)
  }

  /** The first of the blocks n levels down that make up block i. */
  function Down(i: nat, n: nat): nat
    decreases n
  {
    if n == 0 then i else Down(2 * i, n - 1)
  }

  type FreeLists = seq<seq<nat>>
  type Blocks = set<(nat, nat)>

  ghost predicate OnList(free: FreeLists, k: nat, i: nat) {
    k < |free| && i in free[k]
  }

  /** Block i of level k is free or handed out. */
  ghost predicate Known(free: FreeLists, live: Blocks, k: nat, i: nat) {
    OnList(free, k, i) || (k, i) in live
  }

  /** So is the block n levels up that it is part of. */
  ghost predicate KnownUp(free: FreeLists, live: Blocks, k: nat, i: nat, n: nat) {
    Known(free, live, k + n, Up(i, n))
  }

  ghost predicate Placed(a: nat, b: nat, free: FreeLists, live: Blocks) {
    forall k: nat, i: nat | Known(free, live, k, i) :: Inside(a, b, k, i)
  }

  /** No block, free or handed out, is part of another one, and none is both. */
  ghost predicate Separate(free: FreeLists, live: Blocks) {
    && (forall k: nat, i: nat, n: nat | Known(free, live, k, i) && n > 0 :: !KnownUp(free, live, k, i, n))
    && (forall k: nat, i: nat | OnList(free, k, i) :: (k, i) !in live)
    && (forall k | 0 <= k < |free| :: NoDup(free[k]))
  }

  ghost predicate PageKnown(free: FreeLists, live: Blocks, x: nat) {
    exists k: nat :: Known(free, live, k, Up(x, k))
  }

  ghost predicate Covered(a: nat, b: nat, free: FreeLists, live: Blocks) {
    forall x: nat | a <= x < b :: PageKnown(free, live, x)
  }

  ghost predicate NoBuddies(free: FreeLists) {
    forall k: nat, i: nat | OnList(free, k, i) :: !OnList(free, k, Buddy(i))
  }

  /** What every state of the allocator satisfies: the free and the handed-out
      blocks lie in [a, b), share no page and leave none out, and no two free
      blocks are halves of the same block. */
  ghost predicate Inv(a: nat, b: nat, free: FreeLists, live: Blocks) {
    && Placed(a, b, free, live)
    && Separate(free, live)
    && Covered(a, b, free, live)
    && NoBuddies(free)
  }

  // ---- block numbers ----

  lemma {:induction false} UpUp(i: nat, n: nat, j: nat)
    ensures Up(Up(i, n), j) == Up(i, n + j)
  {
    if n > 0 { UpUp(i / 2, n - 1, j); }
  }

  lemma UpNext(i: nat, n: nat)
    ensures Up(i, n + 1) == Up(i, n) / 2
  {
    UpUp(i, n, 1);
  }

  lemma {:induction false} UpDown(i: nat, n: nat)
    ensures Up(Down(i, n), n) == i
    decreases n
  {
    if n > 0 {
      UpDown(2 * i, n - 1);
      UpNext(Down(i, n), n - 1);
    }
  }

  lemma HalvesInside(a: nat, b: nat, k: nat, i: nat)
    ensures Inside(a, b, k + 1, i / 2) ==> Inside(a, b, k, i)
    ensures Inside(a, b, k, i) && Inside(a, b, k, Buddy(i)) ==> Inside(a, b, k + 1, i / 2)
  {
    var w, h := Pow2(k), i / 2;
    assert h * (2 * w) == (2 * h) * w;
    assert (h + 1) * (2 * w) == (2 * h + 2) * w;
    MulMono(2 * h, i, w);
    MulMono(i + 1, 2 * h + 2, w);
  }

  lemma {:induction false} PartInside(a: nat, b: nat, k: nat, i: nat, n: nat)
    requires Inside(a, b, k + n, Up(i, n))
    ensures Inside(a, b, k, i)
    decreases n
  {
    if n > 0 {
      PartInside(a, b, k + 1, i / 2, n - 1);
      HalvesInside(a, b, k, i);
    }
  }

  lemma PageInside(a: nat, b: nat, x: nat)
    ensures Inside(a, b, 0, x) <==> a <= x < b
  {
    assert Pow2(0) == 1;
  }

  // ---- the lists that bd_init builds ----

  ghost predicate MaximalLists(a: nat, b: nat, free: FreeLists) {
    && (forall k | 0 <= k < |free| :: NoDup(free[k]))
    && (forall k: nat, i: nat :: OnList(free, k, i) <==> k + 1 < |free| && Maximal(a, b, k, i))
  }

  lemma {:induction false} Climb(a: nat, b: nat, m: nat, x: nat, k: nat) returns (j: nat)
    requires 1 <= a <= b <= Pow2(m) && k <= m && Inside(a, b, k, Up(x, k))
    ensures k <= j < m && Maximal(a, b, j, Up(x, j))
    decreases m - k
  {
    TopOutside(a, b, m, Up(x, k));
    UpNext(x, k);
    if Inside(a, b, k + 1, Up(x, k + 1)) {
      if k + 1 == m { TopOutside(a, b, m, Up(x, m)); }
      j := Climb(a, b, m, x, k + 1);
    } else {
      j := k;
    }
  }

  lemma TopOutside(a: nat, b: nat, m: nat, i: nat)
    requires 1 <= a <= b <= Pow2(m)
    ensures !Inside(a, b, m, i)
  {
    if i > 0 { MulMono(2, i + 1, Pow2(m)); }
  }

  /** bd_init establishes the invariant. */
  lemma InitInv(a: nat, b: nat, m: nat, free: FreeLists)
    requires 1 <= a <= b <= Pow2(m) && |free| == m + 1 && MaximalLists(a, b, free)
    ensures Inv(a, b, free, {})
  {
    forall k: nat, i: nat, n: nat | Known(free, {}, k, i) && n > 0
      ensures !KnownUp(free, {}, k, i, n)
    {
      if KnownUp(free, {}, k, i, n) { PartInside(a, b, k + 1, i / 2, n - 1); }
    }
    forall x: nat | a <= x < b
      ensures PageKnown(free, {}, x)
    {
      PageInside(a, b, x);
      var j := Climb(a, b, m, x, 0);
      assert OnList(free, j, Up(x, j));
    }
    forall k: nat, i: nat | OnList(free, k, i)
      ensures !OnList(free, k, Buddy(i))
    {
      HalvesInside(a, b, k, i);
    }
  }

  // ---- bd_malloc ----

  /** Taking block i of level k off the front of its list. */
  lemma TakeKeeps(a: nat, b: nat, free: FreeLists, live: Blocks, k: nat)
    requires Inv(a, b, free, live) && k < |free| && free[k] != []
    ensures Inv(a, b, free[k := free[k][1..]], live + {(k, free[k][0])})
  {
    var i := free[k][0];
    var free', live' := free[k := free[k][1..]], live + {(k, i)};
    assert free[k] == [i] + free[k][1..];
    forall j: nat, l: nat
      ensures Known(free', live', j, l) <==> Known(free, live, j, l)
      ensures OnList(free', j, l) <==> OnList(free, j, l) && (j, l) != (k, i)
    {
    }
    forall j: nat, l: nat, n: nat | Known(free', live', j, l) && n > 0
      ensures !KnownUp(free', live', j, l, n)
    {
      assert !KnownUp(free, live, j, l, n);
    }
    forall x: nat | a <= x < b
      ensures PageKnown(free', live', x)
    {
      assert PageKnown(free, live, x);
      var j: nat :| Known(free, live, j, Up(x, j));
      assert Known(free', live', j, Up(x, j));
    }
  }

  /** Splitting a taken block: its second half goes on the list below. */
  lemma SplitKeeps(a: nat, b: nat, free: FreeLists, live: Blocks, k: nat, i: nat)
    requires Inv(a, b, free, live) && 0 < k && (k, i) in live && k - 1 < |free|
    ensures Inv(a, b, free[k - 1 := [2 * i + 1] + free[k - 1]], live - {(k, i)} + {(k - 1, 2 * i)})
  {
    hide Inside, Separate, NoDup;
    var free', live' := free[k - 1 := [2 * i + 1] + free[k - 1]], live - {(k, i)} + {(k - 1, 2 * i)};
    SplitKnown(free, live, k, i);
    SplitSeparate(free, live, k, i);
    HalvesInside(a, b, k - 1, 2 * i);
    HalvesInside(a, b, k - 1, 2 * i + 1);
    forall x: nat | a <= x < b
      ensures PageKnown(free', live', x)
    {
      assert PageKnown(free, live, x);
      var j: nat :| Known(free, live, j, Up(x, j));
      UpNext(x, k - 1);
      assert Known(free', live', j, Up(x, j)) || Known(free', live', k - 1, Up(x, k - 1));
    }
  }

  lemma SplitKnown(free: FreeLists, live: Blocks, k: nat, i: nat)
    requires Separate(free, live) && 0 < k && (k, i) in live && k - 1 < |free|
    ensures !Known(free, live, k - 1, 2 * i) && !Known(free, live, k - 1, 2 * i + 1)
    ensures var free', live' := free[k - 1 := [2 * i + 1] + free[k - 1]], live - {(k, i)} + {(k - 1, 2 * i)};
            && (forall j: nat, l: nat :: OnList(free', j, l) <==> OnList(free, j, l) || (j, l) == (k - 1, 2 * i + 1))
            && (forall j: nat, l: nat :: Known(free', live', j, l) <==>
                  (Known(free, live, j, l) && (j, l) != (k, i)) || (j == k - 1 && l / 2 == i))
  {
    UpOne(2 * i);
    UpOne(2 * i + 1);
    assert KnownUp(free, live, k - 1, 2 * i, 1) && KnownUp(free, live, k - 1, 2 * i + 1, 1);
  }

  lemma UpOne(i: nat)
    ensures Up(i, 1) == i / 2
  {
    assert Up(i / 2, 0) == i / 2;
  }

  lemma SplitSeparate(free: FreeLists, live: Blocks, k: nat, i: nat)
    requires Separate(free, live) && 0 < k && (k, i) in live && k - 1 < |free|
    ensures Separate(free[k - 1 := [2 * i + 1] + free[k - 1]], live - {(k, i)} + {(k - 1, 2 * i)})
  {
    var free', live' := free[k - 1 := [2 * i + 1] + free[k - 1]], live - {(k, i)} + {(k - 1, 2 * i)};
    SplitKnown(free, live, k, i);
    forall j: nat, l: nat, n: nat | Known(free', live', j, l) && n > 0
      ensures !KnownUp(free', live', j, l, n)
    {
      if j == k - 1 && l / 2 == i {
        assert Known(free, live, k, i);
        assert KnownUp(free, live, k, i, n - 1) == Known(free, live, j + n, Up(l, n));
      } else {
        UpNext(l, n);
        assert !KnownUp(free, live, j, l, n);
        assert !KnownUp(free, live, j, l, n + 1);
      }
    }
  }

  // ---- which alloc bits are clear ----

  /** Block i of level k is on a free list, or part of a larger block that is free or
      handed out. */
  ghost predicate Clear(free: FreeLists, live: Blocks, k: nat, i: nat) {
    OnList(free, k, i) || exists n: nat :: n > 0 && KnownUp(free, live, k, i, n)
  }

  /** After bd_init these are the blocks within the free pages. */
  lemma InitClear(a: nat, b: nat, m: nat, free: FreeLists, k: nat, i: nat)
    requires 1 <= a <= b <= Pow2(m) && |free| == m + 1 && MaximalLists(a, b, free) && k <= m
    ensures Clear(free, {}, k, i) <==> Inside(a, b, k, i)
  {
    if n: nat :| n > 0 && KnownUp(free, {}, k, i, n) { PartInside(a, b, k, i, n); }
    if Inside(a, b, k, i) {
      UpDown(i, k);
      var j := Climb(a, b, m, Down(i, k), k);
      UpUp(Down(i, k), k, j - k);
      assert OnList(free, j, Up(i, j - k));
      assert Up(i, 0) == i;
      assert j > k ==> KnownUp(free, {}, k, i, j - k);
    }
  }

  /** Taking a block sets one bit. */
  lemma TakeClear(free: FreeLists, live: Blocks, k: nat, j: nat, l: nat)
    requires Separate(free, live) && k < |free| && free[k] != []
    ensures Clear(free[k := free[k][1..]], live + {(k, free[k][0])}, j, l) <==> Clear(free, live, j, l) && (j, l) != (k, free[k][0])
  {
    var i := free[k][0];
    var free', live' := free[k := free[k][1..]], live + {(k, i)};
    assert free[k] == [i] + free[k][1..];
    forall j: nat, l: nat
      ensures Known(free', live', j, l) <==> Known(free, live, j, l)
      ensures OnList(free', j, l) <==> OnList(free, j, l) && (j, l) != (k, i)
    {
    }
    forall n: nat
      ensures KnownUp(free', live', j, l, n) <==> KnownUp(free, live, j, l, n)
    {
    }
    assert Known(free, live, k, i);
  }

  /** Splitting a block sets the bit of its first half. */
  lemma SplitClear(free: FreeLists, live: Blocks, k: nat, i: nat, j: nat, l: nat)
    requires Separate(free, live) && 0 < k && (k, i) in live && k - 1 < |free|
    ensures Clear(free[k - 1 := [2 * i + 1] + free[k - 1]], live - {(k, i)} + {(k - 1, 2 * i)}, j, l)
       <==> Clear(free, live, j, l) && (j, l) != (k - 1, 2 * i)
  {
    var free', live' := free[k - 1 := [2 * i + 1] + free[k - 1]], live - {(k, i)} + {(k - 1, 2 * i)};
    SplitKnown(free, live, k, i);
    SplitSeparate(free, live, k, i);
    hide OnList, Known;
    UpOne(l);
    assert Known(free, live, k, i) && Known(free', live', k - 1, 2 * i);
    if n: nat :| n > 0 && KnownUp(free, live, j, l, n) {
      UpNext(l, n - 1);
      assert KnownUp(free', live', j, l, n) || (n > 1 && KnownUp(free', live', j, l, n - 1)) || n == 1;
    }
    if n: nat :| n > 0 && KnownUp(free', live', j, l, n) {
      UpNext(l, n);
      assert KnownUp(free, live, j, l, n) || KnownUp(free, live, j, l, n + 1);
    }
    if j == k - 1 && l / 2 == i { assert KnownUp(free, live, j, l, 1); }
  }

  /** Pages on the free lists of levels below k. */
  function FreePages(free: FreeLists, k: nat): nat
    requires k <= |free|
  {
    if k == 0 then 0 else FreePages(free, k - 1) + BlockPages(|free[k - 1]|, k - 1)
  }

  lemma {:induction false} FreePagesUpdate(free: FreeLists, k: nat, list: seq<nat>, n: nat)
    requires k < |free| && n <= |free|
    ensures FreePages(free[k := list], n) - FreePages(free, n)
         == if k < n then BlockPages(|list|, k) - BlockPages(|free[k]|, k) else 0
  {
    if n > 0 { FreePagesUpdate(free, k, list, n - 1); }
  }

  // ---- when a request can be met ----

  /** Page x lies in a free block. */
  ghost predicate PageFree(free: FreeLists, x: nat) {
    exists k: nat :: OnList(free, k, Up(x, k))
  }

  ghost predicate WhollyFree(free: FreeLists, k: nat, i: nat) {
    forall x: nat | Up(x, k) == i :: PageFree(free, x)
  }

  lemma PartsFree(free: FreeLists, k: nat, i: nat)
    requires k > 0 && WhollyFree(free, k, i)
    ensures WhollyFree(free, k - 1, 2 * i) && WhollyFree(free, k - 1, 2 * i + 1)
  {
    forall x: nat | Up(x, k - 1) / 2 == i
      ensures PageFree(free, x)
    {
      UpNext(x, k - 1);
    }
  }

  /** A wholly free block lies in one free block: were it only pieced together,
      two of the pieces would be buddies. */
  lemma {:induction false} InOneFreeBlock(free: FreeLists, k: nat, i: nat) returns (n: nat)
    requires NoBuddies(free) && WhollyFree(free, k, i)
    ensures OnList(free, k + n, Up(i, n))
  {
    if k == 0 {
      assert Up(i, 0) == i;
      assert PageFree(free, i);
      n :| OnList(free, n, Up(i, n));
    } else {
      PartsFree(free, k, i);
      var l := InOneFreeBlock(free, k - 1, 2 * i);
      var r := InOneFreeBlock(free, k - 1, 2 * i + 1);
      if l > 0 {
        n := l - 1;
      } else {
        assert OnList(free, k - 1, 2 * i) ==> !OnList(free, k - 1, Buddy(2 * i));
        n := r - 1;
      }
    }
  }

  lemma FreeBlockSuffices(free: FreeLists, k: nat, j: nat, i: nat)
    requires k <= j && OnList(free, j, i)
    ensures WhollyFree(free, k, Down(i, j - k))
  {
    UpDown(i, j - k);
    forall x: nat | Up(x, k) == Down(i, j - k)
      ensures PageFree(free, x)
    {
      UpUp(x, k, j - k);
      assert OnList(free, j, Up(x, j));
    }
  }

  /** A list of level k or above is non-empty exactly when some block of level k
      is wholly free. */
  lemma RequestCanBeMet(free: FreeLists, k: nat)
    requires NoBuddies(free)
    ensures (exists j :: k <= j < |free| && free[j] != []) <==> (exists i: nat :: WhollyFree(free, k, i))
  {
    if i: nat :| WhollyFree(free, k, i) {
      var n := InOneFreeBlock(free, k, i);
      assert free[k + n] != [];
    }
    if j :| k <= j < |free| && free[j] != [] {
      FreeBlockSuffices(free, k, j, free[j][0]);
    }
  }

  lemma InvMeans(a: nat, b: nat, free: FreeLists, live: Blocks)
    requires Inv(a, b, free, live)
    ensures NoBuddies(free)
    ensures forall k: nat, i: nat | (k, i) in live :: Inside(a, b, k, i)
  {
    hide Inside, Separate, Covered;
    forall k: nat, i: nat | (k, i) in live
      ensures Inside(a, b, k, i)
    {
      assert Known(free, live, k, i);
    }
  }
}
