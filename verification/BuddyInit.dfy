/** How bd_init of riscv-os/kernel/mm/buddy.c cuts the free pages [a, b) of a heap
    of 2^m pages into blocks: a block of level k covers 2^k pages and starts at
    a multiple of 2^k. Pages are counted from bd_base. */
module BuddyInit {
  import opened BuddyMath

  /** blk_index_next(k, a): the first block of level k that starts at or after page a. */
  function Left(a: nat, k: nat): nat { CeilDiv(a, Pow2(k)) }

  /** blk_index(k, b): the first block of level k that ends after page b. */
  function Right(b: nat, k: nat): nat { Quot(b, Pow2(k)) }

  /** Block i of level k lies within [a, b). */
  predicate Inside(a: nat, b: nat, k: nat, i: nat) {
    a <= i * Pow2(k) && (i + 1) * Pow2(k) <= b
  }

  /** A block that lies within [a, b) while the block it is half of does not. */
  predicate Maximal(a: nat, b: nat, k: nat, i: nat) {
    Inside(a, b, k, i) && !Inside(a, b, k + 1, i / 2)
  }

  lemma InsideIff(a: nat, b: nat, k: nat, i: nat)
    ensures Inside(a, b, k, i) <==> Left(a, k) <= i < Right(b, k)
  {
    var w, l, r := Pow2(k), Left(a, k), Right(b, k);
    DivBounds(b, w);
    if l <= i { MulMono(l, i, w); } else { MulMono(i, l - 1, w); }
    if i < r { MulMono(i + 1, r, w); } else { MulMono(r + 1, i + 1, w); }
  }

  lemma LeftUp(a: nat, k: nat)
    ensures Left(a, k + 1) == (Left(a, k) + 1) / 2
  {
    CeilHalf(a, Pow2(k));
  }

  lemma CeilHalf(a: nat, w: nat)
    requires w > 0
    ensures CeilDiv(a, 2 * w) == (CeilDiv(a, w) + 1) / 2
  {
    hide CeilDiv;
    var l := CeilDiv(a, w);
    var h := (l + 1) / 2;
    assert h * (2 * w) >= a by { MulMono(l, 2 * h, w); assert h * (2 * w) == (2 * h) * w; }
    assert h == 0 || (h - 1) * (2 * w) < a by {
      if h > 0 { MulMono(2 * (h - 1), l - 1, w); assert (h - 1) * (2 * w) == (2 * (h - 1)) * w; }
    }
    CeilUnique(a, 2 * w, h);
  }

  lemma CeilUnique(x: nat, w: nat, q: nat)
    requires w > 0 && q * w >= x && (q == 0 || (q - 1) * w < x)
    ensures CeilDiv(x, w) == q
  {
    hide CeilDiv;
    var c := CeilDiv(x, w);
    if c < q { MulMono(c, q - 1, w); }
    if q < c { MulMono(q, c - 1, w); }
  }

  lemma RightUp(b: nat, k: nat)
    ensures Right(b, k + 1) == Right(b, k) / 2
  {
    var w, r := Pow2(k), Right(b, k);
    DivBounds(b, w);
    var h := r / 2;
    assert 2 * h <= r <= 2 * h + 1;
    MulMono(2 * h, r, w);
    MulMono(r + 1, 2 * h + 2, w);
    assert h * Pow2(k + 1) == (2 * h) * w;
    assert (h + 1) * Pow2(k + 1) == (2 * h + 2) * w;
    DivUnique(b, Pow2(k + 1), h);
  }

  /** At each level the maximal blocks are at most two: one at the left end of
      the free pages when its index is odd, one at the right end when the index
      after it is odd. */
  lemma MaximalIff(a: nat, b: nat, k: nat, i: nat)
    ensures var l, r := Left(a, k), Right(b, k);
            Maximal(a, b, k, i) <==> l < r && ((i == l && l % 2 == 1) || (i == r - 1 && r % 2 == 1))
  {
    InsideIff(a, b, k, i);
    InsideIff(a, b, k + 1, i / 2);
    LeftUp(a, k);
    RightUp(b, k);
  }

  function B2N(c: bool): nat { if c then 1 else 0 }

  /** Pages of [a, b) that blocks of level k and above can cover. */
  function Rest(a: nat, b: nat, k: nat): nat {
    if Left(a, k) < Right(b, k) then BlockPages(Right(b, k) - Left(a, k), k) else 0
  }

  /** How many maximal blocks level k has. */
  function Ends(a: nat, b: nat, k: nat): nat {
    if Left(a, k) < Right(b, k) then B2N(Left(a, k) % 2 == 1) + B2N(Right(b, k) % 2 == 1) else 0
  }

  lemma RestStep(a: nat, b: nat, k: nat)
    ensures Rest(a, b, k) == BlockPages(Ends(a, b, k), k) + Rest(a, b, k + 1)
  {
    hide Left, Right;
    var w, l, r := Pow2(k), Left(a, k), Right(b, k);
    LeftUp(a, k);
    RightUp(b, k);
    if l < r {
      var l', r', e := (l + 1) / 2, r / 2, Ends(a, b, k);
      assert l' <= r' && r - l == e + 2 * (r' - l');
      Distribute(r - l, e, r' - l', w);
    }
  }

  lemma Distribute(x: int, e: int, y: int, w: int)
    requires x == e + 2 * y
    ensures x * w == e * w + y * (2 * w)
  {
  }

  /** Pages in n blocks of level k. */
  function BlockPages(n: nat, k: nat): nat { n * Pow2(k) }

  /** Pages in maximal blocks of levels below k. */
  function PagesBelow(a: nat, b: nat, k: nat): nat {
    if k == 0 then 0 else PagesBelow(a, b, k - 1) + BlockPages(Ends(a, b, k - 1), k - 1)
  }

  lemma {:induction false} PagesSplit(a: nat, b: nat, k: nat)
    requires a <= b
    ensures PagesBelow(a, b, k) + Rest(a, b, k) == b - a
  {
    if k == 0 {
      assert Left(a, 0) == a by { CeilUnique(a, 1, a); }
      assert Right(b, 0) == b;
    } else {
      PagesSplit(a, b, k - 1);
      RestStep(a, b, k - 1);
    }
  }

  /** Below the top level the maximal blocks cover all of [a, b): the top block
      is never wholly free, because page 0 holds metadata. */
  lemma AllPagesBelowTop(a: nat, b: nat, m: nat)
    requires 1 <= a <= b <= Pow2(m)
    ensures PagesBelow(a, b, m) == b - a
  {
    PagesSplit(a, b, m);
    CeilUnique(a, Pow2(m), 1);
    DivBounds(b, Pow2(m));
    if Right(b, m) >= 2 {
      MulMono(2, Right(b, m), Pow2(m));
    }
  }

  /** The free pages end in the upper half of the heap and the metadata take one
      page or at most an eighth of it. */
  predicate Roomy(a: nat, b: nat, m: nat) {
    && 1 <= a <= b <= Pow2(m) <= 2 * b
    && (a == 1 || 8 * a <= Pow2(m))
  }

  /** The left pair and the right pair are never the same pair, so that no block
      is pushed twice. */
  lemma PairsApart(a: nat, b: nat, m: nat, k: nat)
    requires Roomy(a, b, m) && k < m
    ensures var l, r := Left(a, k), Right(b, k);
            l < r && l % 2 == 0 ==> l + 1 < r
  {
    var w, l, r := Pow2(k), Left(a, k), Right(b, k);
    if a <= w {
      CeilUnique(a, w, 1);
    } else {
      Pow2Add(k, m - k);
      Over8(a, w, Pow2(m - k));
      PowAbove8(m - k);
      FarApart(a, b, w, Pow2(m - k) / 16);
    }
  }

  lemma Over8(a: nat, w: nat, q: nat)
    requires w < a && 8 * a <= w * q
    ensures q > 8
  {
    if q <= 8 { MulMono(q, 8, w); }
  }

  lemma FarApart(a: nat, b: nat, w: nat, p: nat)
    requires w > 0 && p > 0 && 8 * a <= w * (16 * p) <= 2 * b
    ensures CeilDiv(a, w) + 1 < b / w
  {
    hide CeilDiv;
    assert w * (16 * p) == 8 * ((2 * p) * w) == 2 * ((8 * p) * w);
    LeftAtMost(a, w, 2 * p);
    DivBounds(b, w);
    assert b / w >= 8 * p by { if b / w < 8 * p { MulMono(b / w + 1, 8 * p, w); } }
  }

  lemma LeftAtMost(a: nat, w: nat, c: nat)
    requires w > 0 && a <= c * w
    ensures CeilDiv(a, w) <= c
  {
    hide CeilDiv;
    if CeilDiv(a, w) > c { MulMono(c, CeilDiv(a, w) - 1, w); }
  }

  lemma PowAbove8(j: nat)
    requires Pow2(j) > 8
    ensures Pow2(j) % 16 == 0 && Pow2(j) >= 16
  {
    assert Pow2(3) == 8 && Pow2(4) == 16;
    if j < 4 { Pow2Mono(j, 3); } else { Pow2Add(4, j - 4); }
  }
}
