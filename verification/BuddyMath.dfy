/** Powers of two, riscv-os/kernel/lib/math.c and the rounding arithmetic that
    the buddy allocator is built on. */
module BuddyMath {
  function Pow2(k: nat): (r: nat)
    ensures r >= 1
  {
    if k == 0 then 1 else 2 * Pow2(k - 1)
  }

  lemma {:induction false} Pow2Mono(j: nat, k: nat)
    requires j <= k
    ensures Pow2(j) <= Pow2(k)
    ensures j < k ==> 2 * Pow2(j) <= Pow2(k)
    decreases k - j
  {
    if j < k {
      Pow2Mono(j, k - 1);
    }
  }

  lemma {:induction false} Pow2Add(j: nat, k: nat)
    ensures Pow2(j + k) == Pow2(j) * Pow2(k)
  {
    if j > 0 {
      Pow2Add(j - 1, k);
    }
  }

  /** log2 of math.c: the floor logarithm, with log2(0) == 0. */
  method Log2(x: nat) returns (k: nat)
    ensures x == 0 ==> k == 0
    ensures x > 0 ==> Pow2(k) <= x < Pow2(k + 1)
  {
    k := 0;
    var y := x;
    while y > 1
      invariant x == 0 ==> y == 0 && k == 0
      invariant x > 0 ==> y >= 1 && y * Pow2(k) <= x < (y + 1) * Pow2(k)
      decreases y
    {
      HalveStep(x, y, k);
      k := k + 1;
      y := y / 2;
    }
  }

  lemma HalveStep(x: nat, y: nat, k: nat)
    requires y > 1 && y * Pow2(k) <= x < (y + 1) * Pow2(k)
    ensures (y / 2) * Pow2(k + 1) <= x < (y / 2 + 1) * Pow2(k + 1)
  {
    var h, w := y / 2, Pow2(k);
    assert 2 * h <= y <= 2 * h + 1;
    assert h * (2 * w) == (2 * h) * w <= y * w;
    assert (y + 1) * w <= (2 * h + 2) * w == (h + 1) * (2 * w);
  }

  /** The other half of block i/2. */
  function Buddy(i: nat): nat { if i % 2 == 0 then i + 1 else i - 1 }

  /** How many blocks of w pages reach up to page x. */
  function CeilDiv(x: nat, w: nat): (r: nat)
    requires w > 0
    ensures r * w >= x && (r == 0 || (r - 1) * w < x)
  {
    var q := x / w;
    assert q * w <= x < (q + 1) * w by { DivBounds(x, w); }
    if x % w == 0 then assert q * w == x by { DivBounds(x, w); } q else q + 1
  }

  lemma DivBounds(x: nat, w: nat)
    requires w > 0
    ensures (x / w) * w <= x < (x / w + 1) * w
    ensures x % w == 0 <==> (x / w) * w == x
  {
    assert x == w * (x / w) + x % w;
  }

  /** x / w as a natural number. */
  function Quot(x: nat, w: nat): nat
    requires w > 0
  {
    x / w
  }

  lemma MulMono(x: int, y: int, w: nat)
    requires x <= y
    ensures x * w <= y * w
  {
  }

  /** A block index is determined by the pages it covers. */
  lemma DivUnique(x: nat, w: nat, q: nat)
    requires w > 0 && q * w <= x < (q + 1) * w
    ensures x / w == q
  {
    DivBounds(x, w);
    if x / w < q {
      MulMono(x / w + 1, q, w);
    } else if x / w > q {
      MulMono(q + 1, x / w, w);
    }
  }
}
