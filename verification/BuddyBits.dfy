/** The metadata that bd_init places at the start of the heap: one allocation
    bitmap per level, laid out one after the other, and their size. */
module BuddyBits {
  import opened Common
  import opened BuddyMath
  import opened BuddyInit

  /** Bytes of a bitmap of n bits. */
  function BitBytes(n: nat): nat { (n + 7) / 8 }

  /** Bytes of the bitmaps for 2^j, 2^(j-1), ... and 1 blocks. */
  function SumBytes(j: nat): nat {
    BitBytes(Pow2(j)) + if j == 0 then 0 else SumBytes(j - 1)
  }

  /** One Sz_info of 32 bytes per level, alloc bitmaps for levels 0..m, split
      bitmaps for levels 1..m. */
  function MetaBytes(m: nat): nat {
    32 * (m + 1) + SumBytes(m) + if m == 0 then 0 else SumBytes(m - 1)
  }

  function MetaPages(m: nat): nat { CeilDiv(MetaBytes(m), PGSIZE) }

  lemma {:induction false} SumBytesBound(j: nat)
    ensures 4 * SumBytes(j) <= Pow2(j) + 12
  {
    if j <= 3 {
      assert Pow2(0) == 1 && Pow2(1) == 2 && Pow2(2) == 4 && Pow2(3) == 8;
      assert SumBytes(0) == 1 && SumBytes(1) == 2 && SumBytes(2) == 3 && SumBytes(3) == 4;
    } else {
      SumBytesBound(j - 1);
      Pow2Add(3, j - 3);
      assert Pow2(3) == 8;
      assert BitBytes(Pow2(j)) == Pow2(j - 3);
      Pow2Add(2, j - 3);
      assert Pow2(j - 1) == 4 * Pow2(j - 3);
    }
  }

  lemma {:induction false} LinearBelowPow2(m: nat)
    requires m >= 14
    ensures 32 * m + 64 <= Pow2(m)
  {
    if m == 14 {
      Pow2Add(7, 7);
      assert Pow2(7) == 128;
    } else {
      LinearBelowPow2(m - 1);
    }
  }

  lemma Pow13()
    ensures Pow2(13) == 8192
  {
    assert Pow2(6) == 64 && Pow2(7) == 128;
    Pow2Add(6, 7);
    hide Pow2;
  }

  /** The metadata take one page, or at most an eighth of the heap. */
  lemma MetaBound(m: nat)
    ensures MetaPages(m) == 1 || 8 * MetaPages(m) <= Pow2(m)
    ensures MetaPages(m) >= 1
  {
    hide MetaPages;
    if m <= 13 {
      Pow2Mono(m, 13);
      Pow13();
      SmallMeta(m);
    } else {
      LargeMeta(m);
    }
  }

  lemma LargeMeta(m: nat)
    requires m >= 14
    ensures MetaPages(m) >= 1 && 8 * MetaPages(m) <= Pow2(m)
  {
    SumBytesBound(m);
    SumBytesBound(m - 1);
    LinearBelowPow2(m);
    var n, p := MetaBytes(m), MetaPages(m);
    assert 0 < n <= 2 * Pow2(m);
    assert p == 0 || (p - 1) * 4096 < n;
  }

  lemma SmallMeta(m: nat)
    requires m <= 13 && Pow2(m) <= 8192
    ensures MetaPages(m) == 1
  {
    SumBytesBound(m);
    if m > 0 { SumBytesBound(m - 1); }
    assert 0 < MetaBytes(m) <= PGSIZE;
    CeilUnique(MetaBytes(m), PGSIZE, 1);
  }

  // ---- the bitmaps as one array of bits ----

  /** Bits that level k's bitmap occupies: its blocks, rounded up to whole bytes. */
  function LevelBits(m: nat, k: nat): nat
    requires k <= m
  {
    8 * BitBytes(Pow2(m - k))
  }

  /** Where level k's bitmap starts. */
  function Base(m: nat, k: nat): nat
    requires k <= m + 1
  {
    if k == 0 then 0 else Base(m, k - 1) + LevelBits(m, k - 1)
  }

  lemma {:induction false} BaseMono(m: nat, j: nat, k: nat)
    requires j < k <= m + 1
    ensures Base(m, j) + LevelBits(m, j) <= Base(m, k)
    decreases k - j
  {
    if j + 1 < k { BaseMono(m, j, k - 1); }
  }

  /** bit_isset(bd_sizes[k].alloc, i), also for an i beyond level k's own bitmap. */
  predicate BitSet(m: nat, bits: seq<bool>, k: nat, i: nat) {
    k <= m && Base(m, k) + i < |bits| && bits[Base(m, k) + i]
  }

  lemma BitUpdate(m: nat, bits: seq<bool>, k: nat, i: nat, k': nat, i': nat)
    requires |bits| == Base(m, m + 1) && k <= m && i < LevelBits(m, k) && k' <= m && i' < LevelBits(m, k')
    ensures Base(m, k) + i < |bits|
    ensures BitSet(m, bits[Base(m, k) + i := true], k', i') <==> BitSet(m, bits, k', i') || (k == k' && i == i')
  {
    BaseMono(m, k, m + 1);
    BaseMono(m, k', m + 1);
    if k < k' { BaseMono(m, k, k'); }
    if k' < k { BaseMono(m, k', k); }
  }

  lemma LevelBitsCover(m: nat, k: nat)
    requires k <= m
    ensures Pow2(m - k) <= LevelBits(m, k)
    ensures LevelBits(m, k) >= 8
    ensures Pow2(m - k) >= 8 ==> LevelBits(m, k) == Pow2(m - k)
  {
    if Pow2(m - k) >= 8 {
      if m - k < 3 { assert Pow2(2) == 4; Pow2Mono(m - k, 2); }
      Pow2Add(3, m - k - 3);
      assert Pow2(3) == 8;
    }
  }

  /** The bitmaps after both calls of bd_mark: a block is marked when it touches
      the metadata [0, a) or the unavailable end [b, 2^m). */
  ghost predicate Marked(m: nat, bits: seq<bool>, a: nat, b: nat) {
    && |bits| == Base(m, m + 1)
    && forall k, i | 0 <= k <= m && 0 <= i < LevelBits(m, k) ::
         BitSet(m, bits, k, i) <==> i < Pow2(m - k) && (i < Left(a, k) || i >= Right(b, k))
  }

  /** The block that bd_initfree_pair(k, i) puts on the free list, if any. */
  function PairBlocks(m: nat, bits: seq<bool>, k: nat, i: nat): seq<nat> {
    if BitSet(m, bits, k, i) == BitSet(m, bits, k, Buddy(i)) then []
    else if BitSet(m, bits, k, i) then [Buddy(i)]
    else [i]
  }

  /** The free list of level k that bd_initfree(a, b) builds, front first. */
  function LevelBlocks(m: nat, bits: seq<bool>, a: nat, b: nat, k: nat): seq<nat> {
    (if Right(b, k) > Left(a, k) then PairBlocks(m, bits, k, Right(b, k)) else [])
    + PairBlocks(m, bits, k, Left(a, k))
  }

  lemma LeftInRange(a: nat, b: nat, m: nat, k: nat)
    requires Roomy(a, b, m) && k < m
    ensures 1 <= Left(a, k) < Pow2(m - k)
    ensures Pow2(m - k) % 2 == 0
    ensures Right(b, k) <= Pow2(m - k)
    ensures b < Pow2(m) ==> Right(b, k) < Pow2(m - k)
    ensures b == Pow2(m) ==> Right(b, k) == Pow2(m - k)
  {
    Pow2Add(k, m - k);
    EvenPow(m - k);
    hide Pow2, CeilDiv, Quot;
    EndsInRange(a, b, Pow2(k), Pow2(m - k));
  }

  lemma EvenPow(j: nat)
    requires j > 0
    ensures Pow2(j) % 2 == 0 && Pow2(j) >= 2
  {
  }

  lemma EndsInRange(a: nat, b: nat, w: nat, q: nat)
    requires w > 0 && q >= 2 && 1 <= a && b <= w * q && (a == 1 || 8 * a <= w * q)
    ensures 1 <= CeilDiv(a, w) < q && Quot(b, w) <= q && (b < w * q <==> Quot(b, w) < q)
  {
    hide CeilDiv, Quot;
    RightRange(b, w, q);
    if a == 1 { CeilUnique(1, w, 1); } else { LeftBelow(a, w, q); }
  }

  lemma RightRange(b: nat, w: nat, q: nat)
    requires w > 0 && b <= w * q
    ensures Quot(b, w) <= q && (b < w * q <==> Quot(b, w) < q)
  {
    DivBounds(b, w);
    var r := b / w;
    if r > q { MulMono(q + 1, r, w); }
    if b < w * q && r >= q { MulMono(q, r, w); }
    if b == w * q { DivUnique(b, w, q); }
  }

  lemma LeftBelow(a: nat, w: nat, q: nat)
    requires w > 0 && q >= 2 && 1 <= a && 8 * a <= w * q
    ensures 1 <= CeilDiv(a, w) < q
  {
    hide CeilDiv;
    var l := CeilDiv(a, w);
    assert 2 * ((q - 1) * w) >= w * q;
    if l >= q { MulMono(q - 1, l - 1, w); }
  }

  /** The left pair of a level: it yields the left end when that index is odd. */
  lemma LeftPair(m: nat, bits: seq<bool>, a: nat, b: nat, k: nat)
    requires Roomy(a, b, m) && k < m && Marked(m, bits, a, b)
    ensures var l, r := Left(a, k), Right(b, k);
            PairBlocks(m, bits, k, l) == if l < r && l % 2 == 1 then [l] else []
  {
    hide Left, Right, Pow2, LevelBits;
    var l := Left(a, k);
    LeftInRange(a, b, m, k);
    PairsApart(a, b, m, k);
    LevelBitsCover(m, k);
    assert Buddy(l) < LevelBits(m, k);
    assert BitSet(m, bits, k, l) <==> l < Pow2(m - k) && (l < Left(a, k) || l >= Right(b, k));
    assert BitSet(m, bits, k, Buddy(l)) <==> Buddy(l) < Pow2(m - k) && (Buddy(l) < Left(a, k) || Buddy(l) >= Right(b, k));
  }

  /** The right pair of a level when the free pages stop short of the heap's end. */
  lemma RightPair(m: nat, bits: seq<bool>, a: nat, b: nat, k: nat)
    requires Roomy(a, b, m) && k < m && Marked(m, bits, a, b) && Left(a, k) < Right(b, k)
    requires b < Pow2(m) || Pow2(m - k) < 8
    ensures var r := Right(b, k);
            PairBlocks(m, bits, k, r) == if r % 2 == 1 then [r - 1] else []
  {
    hide Left, Right, Pow2, LevelBits;
    var r := Right(b, k);
    LeftInRange(a, b, m, k);
    LevelBitsCover(m, k);
    assert Buddy(r) < LevelBits(m, k);
    assert BitSet(m, bits, k, r) <==> r < Pow2(m - k) && (r < Left(a, k) || r >= Right(b, k));
    assert BitSet(m, bits, k, Buddy(r)) <==> Buddy(r) < Pow2(m - k) && (Buddy(r) < Left(a, k) || Buddy(r) >= Right(b, k));
  }

  /** The right pair when the heap is exactly 2^m pages and level k has whole
      bytes of bits: the indices lie past level k's bitmap, so the bits read are
      those of blocks 0 and 1 of level k+1. */
  lemma SpilledPair(m: nat, bits: seq<bool>, a: nat, b: nat, k: nat)
    requires Roomy(a, b, m) && k < m && Marked(m, bits, a, b)
    requires b == Pow2(m) && Pow2(m - k) >= 8
    ensures PairBlocks(m, bits, k, Right(b, k)) == if a <= Pow2(k + 1) then [Right(b, k) + 1] else []
  {
    var r := Right(b, k);
    LeftInRange(a, b, m, k);
    LevelBitsCover(m, k);
    LevelBitsCover(m, k + 1);
    BaseMono(m, k + 1, m + 1);
    assert Base(m, k + 1) == Base(m, k) + r;
    assert BitSet(m, bits, k, r) == BitSet(m, bits, k + 1, 0);
    assert BitSet(m, bits, k, r + 1) == BitSet(m, bits, k + 1, 1);
    RightUp(b, k);
    assert Right(b, k + 1) >= 4;
    var w := Pow2(k + 1);
    if a <= w { CeilUnique(a, w, 1); } else if Left(a, k + 1) <= 1 { MulMono(Left(a, k + 1), 1, w); }
  }
}
