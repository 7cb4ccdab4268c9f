/** The alloc and split bitmaps of the buddy allocator against its blocks: what bd_init
    and every call of bd_malloc keep, and what the bits tell about a block in use. */
module BuddyMaps {
  import opened Common
  import opened BuddyMath
  import opened BuddyInit
  import opened BuddyBits
  import opened BuddyBlocks

  /** The split bitmaps as the set of their one bits, (level, block). */
  type SplitBits = set<(nat, nat)>

  /** An alloc bit is clear exactly for a free block and for the parts of a free or
      handed-out one. */
  ghost predicate AllocOk(m: nat, bits: seq<bool>, free: FreeLists, live: Blocks) {
    && |bits| == Base(m, m + 1)
    && forall k: nat, i: nat | k <= m && i < Pow2(m - k) :: BitSet(m, bits, k, i) <==> !Clear(free, live, k, i)
  }

  /** Above the pages, a split bit is set exactly for an allocated block that is not in
      use as a whole. */
  ghost predicate SplitOk(m: nat, bits: seq<bool>, split: SplitBits, live: Blocks) {
    forall k: nat, i: nat | k <= m && i < Pow2(m - k) :: (k, i) in split <==> k > 0 && BitSet(m, bits, k, i) && (k, i) !in live
  }

  /** bd_mark sets both bits of a block, or above level 0 at least. */
  ghost predicate Mirrors(m: nat, bits: seq<bool>, split: SplitBits) {
    forall k: nat, i: nat | k <= m && i < LevelBits(m, k) :: (k, i) in split <==> k > 0 && BitSet(m, bits, k, i)
  }

  lemma InHeap(a: nat, b: nat, m: nat, k: nat, i: nat)
    requires Inside(a, b, k, i) && b <= Pow2(m) && k <= m
    ensures i < Pow2(m - k) <= LevelBits(m, k)
  {
    LevelBitsCover(m, k);
    Pow2Add(k, m - k);
    FewerBlocks(i, Pow2(k), Pow2(m - k));
  }

  lemma FewerBlocks(i: nat, w: nat, q: nat)
    requires w > 0 && (i + 1) * w <= w * q
    ensures i < q
  {
    if i >= q { MulMono(q + 1, i + 1, w); }
  }

  lemma InitMaps(a: nat, b: nat, m: nat, bits: seq<bool>, split: SplitBits, free: FreeLists)
    requires 1 <= a <= b <= Pow2(m) && |free| == m + 1 && MaximalLists(a, b, free)
    requires Marked(m, bits, a, b) && Mirrors(m, bits, split)
    ensures AllocOk(m, bits, free, {}) && SplitOk(m, bits, split, {})
  {
    hide Clear, Inside, BitSet, Left, Right, LevelBits, Base;
    forall k: nat, i: nat | k <= m && i < Pow2(m - k)
      ensures BitSet(m, bits, k, i) <==> !Clear(free, {}, k, i)
      ensures (k, i) in split <==> k > 0 && BitSet(m, bits, k, i)
    {
      LevelBitsCover(m, k);
      InitClear(a, b, m, free, k, i);
      InsideIff(a, b, k, i);
    }
  }

  /** lst_pop and bit_set on the alloc bitmap. */
  lemma TakeMaps(m: nat, bits: seq<bool>, split: SplitBits, free: FreeLists, live: Blocks, k: nat)
    requires Separate(free, live) && k < |free| == m + 1 && free[k] != [] && free[k][0] < Pow2(m - k)
    requires AllocOk(m, bits, free, live) && SplitOk(m, bits, split, live)
    ensures Base(m, k) + free[k][0] < |bits|
    ensures var bits', live' := bits[Base(m, k) + free[k][0] := true], live + {(k, free[k][0])};
            AllocOk(m, bits', free[k := free[k][1..]], live') && SplitOk(m, bits', split, live')
  {
    hide Separate, Clear, BitSet, LevelBits, Base;
    var i := free[k][0];
    var free', live' := free[k := free[k][1..]], live + {(k, i)};
    assert Clear(free, live, k, i) by { ListClear(free, live, k, i); }
    LevelBitsCover(m, k);
    BitUpdate(m, bits, k, i, k, i);
    forall j: nat, l: nat | j <= m && l < Pow2(m - j)
      ensures BitSet(m, bits[Base(m, k) + i := true], j, l) <==> !Clear(free', live', j, l)
      ensures BitSet(m, bits[Base(m, k) + i := true], j, l) <==> BitSet(m, bits, j, l) || (j, l) == (k, i)
    {
      LevelBitsCover(m, j);
      BitUpdate(m, bits, k, i, j, l);
      TakeClear(free, live, k, j, l);
    }
  }

  lemma ListClear(free: FreeLists, live: Blocks, k: nat, i: nat)
    requires k < |free| && i in free[k]
    ensures Clear(free, live, k, i)
  {
  }

  /** A block in use is not a free one's part, nor another's. */
  lemma LiveNotClear(free: FreeLists, live: Blocks, k: nat, i: nat)
    requires Separate(free, live) && (k, i) in live
    ensures !Clear(free, live, k, i)
  {
    assert Known(free, live, k, i);
  }

  /** One turn of bd_malloc's splitting loop. */
  lemma SplitMaps(m: nat, bits: seq<bool>, split: SplitBits, free: FreeLists, live: Blocks, k: nat, i: nat)
    requires Separate(free, live) && 0 < k < |free| == m + 1 && (k, i) in live && i < Pow2(m - k)
    requires AllocOk(m, bits, free, live) && SplitOk(m, bits, split, live)
    ensures Base(m, k - 1) + 2 * i < |bits|
    ensures var bits', live' := bits[Base(m, k - 1) + 2 * i := true], live - {(k, i)} + {(k - 1, 2 * i)};
            AllocOk(m, bits', free[k - 1 := [2 * i + 1] + free[k - 1]], live') && SplitOk(m, bits', split + {(k, i)}, live')
  {
    hide Separate, Clear, BitSet, LevelBits, Base;
    var free', live' := free[k - 1 := [2 * i + 1] + free[k - 1]], live - {(k, i)} + {(k - 1, 2 * i)};
    LiveNotClear(free, live, k, i);
    HalfClear(free, live, k, i);
    assert Pow2(m - (k - 1)) == 2 * Pow2(m - k);
    LevelBitsCover(m, k - 1);
    BitUpdate(m, bits, k - 1, 2 * i, k - 1, 2 * i);
    forall j: nat, l: nat | j <= m && l < Pow2(m - j)
      ensures BitSet(m, bits[Base(m, k - 1) + 2 * i := true], j, l) <==> !Clear(free', live', j, l)
      ensures BitSet(m, bits[Base(m, k - 1) + 2 * i := true], j, l) <==> BitSet(m, bits, j, l) || (j, l) == (k - 1, 2 * i)
    {
      LevelBitsCover(m, j);
      BitUpdate(m, bits, k - 1, 2 * i, j, l);
      SplitClear(free, live, k, i, j, l);
    }
  }

  lemma HalfClear(free: FreeLists, live: Blocks, k: nat, i: nat)
    requires 0 < k && (k, i) in live
    ensures Clear(free, live, k - 1, 2 * i)
  {
    UpOne(2 * i);
    assert KnownUp(free, live, k - 1, 2 * i, 1);
  }

  /** The level of a block in use can be read off the split bitmaps from its address
      alone: walking up from the page it starts at, the first block marked as split is
      the one that it is half of. */
  lemma LevelInSplit(a: nat, b: nat, m: nat, bits: seq<bool>, split: SplitBits, free: FreeLists, live: Blocks, k: nat, i: nat, j: nat)
    requires Inv(a, b, free, live) && 1 <= a <= b <= Pow2(m) && |free| == m + 1 && k <= m
    requires AllocOk(m, bits, free, live) && SplitOk(m, bits, split, live)
    requires (k, i) in live && j <= k
    ensures k < m && (k + 1, i / 2) in split
    ensures (j, Down(i, k - j)) !in split
  {
    hide Inside, BitSet, Base, Covered, NoBuddies;
    assert Known(free, live, k, i);
    TopOutside(a, b, m, i);
    InHeap(a, b, m, k, i);
    assert Pow2(m - k) == 2 * Pow2(m - (k + 1));
    ParentNotClear(free, live, k, i);
    UpDown(i, k - j);
    DownInHeap(m, k, i, j);
    if j < k { assert KnownUp(free, live, j, Down(i, k - j), k - j); }
  }

  lemma ParentNotClear(free: FreeLists, live: Blocks, k: nat, i: nat)
    requires Separate(free, live) && (k, i) in live
    ensures !Clear(free, live, k + 1, i / 2) && (k + 1, i / 2) !in live
  {
    var k', i' := k + 1, i / 2;
    UpOne(i);
    assert Known(free, live, k, i);
    assert !KnownUp(free, live, k, i, 1);
    forall n: nat | n > 0
      ensures !KnownUp(free, live, k', i', n)
    {
      assert !KnownUp(free, live, k, i, n + 1);
      assert Up(i, n + 1) == Up(i', n);
    }
  }

  lemma {:induction false} DownInHeap(m: nat, k: nat, i: nat, j: nat)
    requires j <= k <= m && i < Pow2(m - k)
    ensures Down(i, k - j) < Pow2(m - j)
    decreases k - j
  {
    if j < k {
      assert Pow2(m - (k - 1)) == 2 * Pow2(m - k);
      DownInHeap(m, k - 1, 2 * i, j);
    }
  }
}
