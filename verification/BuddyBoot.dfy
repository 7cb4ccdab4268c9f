/** bd_init of riscv-os/kernel/mm/buddy.c, with its bitmaps and free lists
    updated in place, and exactly when its own consistency check panics. */
module BuddyBoot {
  import opened Common
  import opened BuddyMath
  import opened BuddyInit
  import opened BuddyBits
  import opened BuddyBlocks
  import opened BuddyMaps

  /** The page at which block i of level k starts. */
  function Addr(k: nat, i: nat): nat { i * Pow2(k) }

  function Addrs(k: nat, blocks: seq<nat>): seq<nat> {
    seq(|blocks|, j requires 0 <= j < |blocks| => Addr(k, blocks[j]))
  }

  /** What bd_initfree(a, b) puts on the free lists of the levels below the top. */
  function Levels(m: nat, bits: seq<bool>, a: nat, b: nat): seq<seq<nat>> {
    seq(m, k requires 0 <= k < m => LevelBlocks(m, bits, a, b, k))
  }

  /** Pages that bd_initfree counts as free in levels below k. */
  function Counted(levels: seq<seq<nat>>, k: nat): nat
    requires k <= |levels|
  {
    if k == 0 then 0 else Counted(levels, k - 1) + BlockPages(|levels[k - 1]|, k - 1)
  }

  /** The heap is exactly 2^m pages. */
  predicate Exact(b: nat, m: nat) { b == Pow2(m) }

  lemma LevelMaximal(m: nat, bits: seq<bool>, a: nat, b: nat, k: nat)
    requires Roomy(a, b, m) && k < m && Marked(m, bits, a, b) && (!Exact(b, m) || Pow2(m) < 8)
    ensures var s := LevelBlocks(m, bits, a, b, k);
            NoDup(s) && |s| == Ends(a, b, k) && forall i: nat :: i in s <==> Maximal(a, b, k, i)
  {
    hide Marked, PairBlocks, Left, Right, Maximal;
    Pow2Mono(m - k, m);
    LeftPair(m, bits, a, b, k);
    if Left(a, k) < Right(b, k) { RightPair(m, bits, a, b, k); }
    forall i: nat
      ensures i in LevelBlocks(m, bits, a, b, k) <==> Maximal(a, b, k, i)
    {
      MaximalIff(a, b, k, i);
    }
  }

  /** At level k bd_initfree reads past the bitmap and pushes a block that does
      not exist. */
  predicate Spills(a: nat, b: nat, m: nat, k: nat)
    requires k <= m
  {
    Exact(b, m) && Pow2(m - k) >= 8 && a <= Pow2(k + 1)
  }

  lemma LevelCount(m: nat, bits: seq<bool>, a: nat, b: nat, k: nat)
    requires Roomy(a, b, m) && k < m && Marked(m, bits, a, b)
    ensures var s := LevelBlocks(m, bits, a, b, k);
            |s| == Ends(a, b, k) + B2N(Spills(a, b, m, k))
  {
    LeftPair(m, bits, a, b, k);
    LeftInRange(a, b, m, k);
    if Left(a, k) < Right(b, k) {
      if Exact(b, m) && Pow2(m - k) >= 8 {
        SpilledPair(m, bits, a, b, k);
      } else {
        RightPair(m, bits, a, b, k);
      }
    }
  }

  /** Pages of blocks that do not exist, counted below level k. */
  function Extra(a: nat, b: nat, m: nat, k: nat): nat
    requires k <= m
  {
    if k == 0 then 0 else Extra(a, b, m, k - 1) + BlockPages(B2N(Spills(a, b, m, k - 1)), k - 1)
  }

  lemma {:induction false} CountedBelow(levels: seq<seq<nat>>, a: nat, b: nat, m: nat, k: nat)
    requires k <= m == |levels|
    requires forall j | 0 <= j < m :: |levels[j]| == Ends(a, b, j) + B2N(Spills(a, b, m, j))
    ensures Counted(levels, k) == PagesBelow(a, b, k) + Extra(a, b, m, k)
  {
    if k > 0 {
      CountedBelow(levels, a, b, m, k - 1);
      SumPages(Ends(a, b, k - 1), B2N(Spills(a, b, m, k - 1)), k - 1);
    }
  }

  lemma SumPages(x: nat, y: nat, k: nat)
    ensures BlockPages(x + y, k) == BlockPages(x, k) + BlockPages(y, k)
  {
  }

  lemma {:induction false} NoExtra(a: nat, b: nat, m: nat, k: nat)
    requires k <= m && !(Exact(b, m) && m >= 3)
    ensures Extra(a, b, m, k) == 0
  {
    if k > 0 {
      NoExtra(a, b, m, k - 1);
      assert Pow2(2) == 4;
      if m < 3 { Pow2Mono(m - (k - 1), 2); }
    }
  }

  lemma {:induction false} SomeExtra(a: nat, b: nat, m: nat, k: nat)
    requires Exact(b, m) && m >= 3 && m - 3 < k <= m && (a == 1 || 8 * a <= Pow2(m))
    ensures Extra(a, b, m, k) > 0
  {
    if k == m - 2 {
      assert Pow2(3) == 8;
      EighthFits(a, m);
      assert Spills(a, b, m, m - 3);
      assert BlockPages(1, m - 3) == Pow2(m - 3);
    } else {
      SomeExtra(a, b, m, k - 1);
    }
  }

  lemma EighthFits(a: nat, m: nat)
    requires m >= 3 && (a == 1 || 8 * a <= Pow2(m))
    ensures a <= Pow2(m - 2)
  {
    Pow2Add(2, m - 2);
    assert Pow2(2) == 4;
  }

  /** The check at the end of bd_init passes exactly when the heap is not a power
      of two of eight pages or more. */
  lemma CheckPasses(m: nat, bits: seq<bool>, a: nat, b: nat)
    requires Roomy(a, b, m) && Marked(m, bits, a, b)
    ensures Counted(Levels(m, bits, a, b), m) == b - a <==> !(Exact(b, m) && m >= 3)
  {
    var levels := Levels(m, bits, a, b);
    forall j | 0 <= j < m
      ensures |levels[j]| == Ends(a, b, j) + B2N(Spills(a, b, m, j))
    {
      LevelCount(m, bits, a, b, j);
    }
    CountedBelow(levels, a, b, m, m);
    AllPagesBelowTop(a, b, m);
    if Exact(b, m) && m >= 3 { SomeExtra(a, b, m, m); } else { NoExtra(a, b, m, m); }
  }

  /** Bytes of the bitmaps of levels k and up, as the loops add them. */
  function BytesFrom(m: nat, k: nat): nat { if k > m then 0 else SumBytes(m - k) }

  lemma BytesNext(m: nat, k: nat)
    requires k <= m
    ensures BytesFrom(m, k) == BitBytes(Pow2(m - k)) + BytesFrom(m, k + 1)
  {
  }

  lemma BaseNext(m: nat, k: nat)
    requires k <= m
    ensures Base(m, k + 1) == Base(m, k) + 8 * BitBytes(Pow2(m - k))
  {
  }

  /** The alloc bitmaps from p on. */
  method LayAlloc(m: nat, p: nat) returns (alloc: seq<nat>, end: nat)
    ensures |alloc| == m + 1 && forall k | 0 <= k <= m :: 8 * alloc[k] == 8 * p + Base(m, k)
    ensures end == p + BytesFrom(m, 0) == alloc[m] + BitBytes(Pow2(0))
  {
    hide Pow2, BitBytes, SumBytes, Base, BytesFrom;
    assert Base(m, 0) == 0 && BytesFrom(m, m + 1) == 0 by { BytesEnd(m); }
    end, alloc := p, [];
    var k := 0;
    while k <= m
      invariant k <= m + 1 && |alloc| == k
      invariant end + BytesFrom(m, k) == p + BytesFrom(m, 0) && 8 * end == 8 * p + Base(m, k)
      invariant forall j | 0 <= j < k :: 8 * alloc[j] == 8 * p + Base(m, j)
      invariant k == m + 1 ==> end == alloc[m] + BitBytes(Pow2(0))
    {
      BytesNext(m, k);
      BaseNext(m, k);
      alloc := alloc + [end];
      end := end + BitBytes(Pow2(m - k));
      k := k + 1;
    }
  }

  lemma BytesEnd(m: nat)
    ensures Base(m, 0) == 0 && BytesFrom(m, m + 1) == 0
  {
  }

  /** Where the split bitmap of level k begins, if that of level 1 begins at p. */
  function SplitAt(m: nat, p: nat, k: nat): nat
    requires 1 <= k <= m + 1
  {
    if k == 1 then p else SplitAt(m, p, k - 1) + BitBytes(Pow2(m - (k - 1)))
  }

  /** The split bitmaps from p on. */
  method LaySplit(m: nat, p: nat) returns (split: seq<nat>, end: nat)
    ensures |split| == m + 1 && (forall k | 1 <= k <= m :: split[k] == SplitAt(m, p, k))
    ensures end == p + if m == 0 then 0 else BytesFrom(m, 1)
  {
    hide Pow2, BitBytes, SumBytes, BytesFrom;
    BytesEnd(m);
    end, split := p, [0];
    var k := 1;
    while k <= m
      invariant 1 <= k <= m + 1 && |split| == k && end == SplitAt(m, p, k)
      invariant end + BytesFrom(m, k) == p + if m == 0 then 0 else BytesFrom(m, 1)
      invariant forall j | 1 <= j < k :: split[j] == SplitAt(m, p, j)
    {
      BytesNext(m, k);
      split := split + [end];
      end := end + BitBytes(Pow2(m - k));
      k := k + 1;
    }
  }

  /** The pointer arithmetic of bd_init: Sz_info records, alloc bitmaps, split bitmaps, then
      up to a page boundary. Each bitmap begins where the one before it ends, so that a
      bit past the end of level k is one of level k + 1; together they take MetaPages. */
  method LayOut(m: nat) returns (alloc: seq<nat>, split: seq<nat>, end: nat)
    ensures |alloc| == m + 1 && forall k | 0 <= k <= m :: 8 * alloc[k] == 8 * 32 * (m + 1) + Base(m, k)
    ensures |split| == m + 1 && forall k | 1 <= k <= m :: split[k] == SplitAt(m, alloc[m] + BitBytes(Pow2(0)), k)
    ensures end == MetaPages(m) * PGSIZE
  {
    hide Pow2, BitBytes, SumBytes, Base, BytesFrom, SplitAt, MetaPages;
    var p: nat;
    alloc, p := LayAlloc(m, 32 * (m + 1));
    split, p := LaySplit(m, p);
    MetaIs(m, p);
    end := (p + PGSIZE - 1) / PGSIZE * PGSIZE;
  }

  lemma MetaIs(m: nat, p: nat)
    requires p == 32 * (m + 1) + BytesFrom(m, 0) + if m == 0 then 0 else BytesFrom(m, 1)
    ensures (p + PGSIZE - 1) / PGSIZE == MetaPages(m)
  {
    assert p == MetaBytes(m);
    CeilIs(p);
  }

  lemma CeilIs(p: nat)
    ensures (p + PGSIZE - 1) / PGSIZE == CeilDiv(p, PGSIZE)
  {
    CeilUnique(p, PGSIZE, (p + PGSIZE - 1) / PGSIZE);
  }

  class BuddyHeap {
    var m: nat               // MAXSIZE: the level of the whole heap
    var a: nat               // pages before this one hold metadata
    var b: nat               // pages from this one on are unavailable
    var bits: seq<bool>      // the alloc bitmaps, one level after the other
    var split: SplitBits     // the split bitmaps of the levels above 0
    var free: seq<seq<nat>>  // bd_sizes[k].free: start pages, front first

    ghost var blocks: FreeLists  // the same lists as block numbers
    ghost var live: Blocks       // blocks handed out, as (level, number)

    /** The lists stand for blocks that satisfy the allocator's invariant, and the
        bitmaps tell the same. */
    ghost predicate Valid()
      reads this
    {
      && |free| == |blocks| == m + 1
      && (forall k | 0 <= k <= m :: free[k] == Addrs(k, blocks[k]))
      && 1 <= a <= b <= Pow2(m)
      && Inv(a, b, blocks, live)
      && AllocOk(m, bits, blocks, live) && SplitOk(m, bits, split, live)
    }

    constructor ()
      ensures m == 0 && a == 0 && b == 0 && bits == [] && split == {} && free == []
    {
      m, a, b, bits, split, free := 0, 0, 0, [], {}, [];
      blocks, live := [], {};
    }

    /** Set bits lo..hi of level k. */
    method MarkLevel(k: nat, lo: nat, hi: nat)
      requires k <= m && hi <= LevelBits(m, k) && |bits| == Base(m, m + 1) && Mirrors(m, bits, split)
      modifies this`bits, this`split
      ensures |bits| == Base(m, m + 1) && Mirrors(m, bits, split)
      ensures forall j, i | 0 <= j <= m && 0 <= i < LevelBits(m, j) ::
                BitSet(m, bits, j, i) <==> BitSet(m, old(bits), j, i) || (j == k && lo <= i < hi)
    {
      var bi := lo;
      while bi < hi
        invariant |bits| == Base(m, m + 1) && Mirrors(m, bits, split)
        invariant lo <= bi
        invariant forall j, i | 0 <= j <= m && 0 <= i < LevelBits(m, j) ::
                    BitSet(m, bits, j, i) <==> BitSet(m, old(bits), j, i) || (j == k && lo <= i < bi && i < hi)
      {
        if k > 0 { split := split + {(k, bi)}; }
        BitUpdate(m, bits, k, bi, k, bi);
        ghost var before := bits;
        bits := bits[Base(m, k) + bi := true];
        forall j, i | 0 <= j <= m && 0 <= i < LevelBits(m, j)
          ensures BitSet(m, bits, j, i) <==> BitSet(m, before, j, i) || (j == k && i == bi)
        {
          BitUpdate(m, before, k, bi, j, i);
        }
        bi := bi + 1;
      }
    }

    /** bd_mark: every block of every level that touches pages start..stop. */
    method Mark(start: nat, stop: nat)
      requires stop <= Pow2(m) && |bits| == Base(m, m + 1) && Mirrors(m, bits, split)
      modifies this`bits, this`split
      ensures |bits| == Base(m, m + 1) && Mirrors(m, bits, split)
      ensures forall k, i | 0 <= k <= m && 0 <= i < LevelBits(m, k) ::
                BitSet(m, bits, k, i) <==>
                BitSet(m, old(bits), k, i) || Right(start, k) <= i < Left(stop, k)
    {
      var k := 0;
      while k <= m
        invariant k <= m + 1
        invariant |bits| == Base(m, m + 1) && Mirrors(m, bits, split)
        invariant forall j, i | 0 <= j <= m && 0 <= i < LevelBits(m, j) ::
                    BitSet(m, bits, j, i) <==>
                    BitSet(m, old(bits), j, i) || (j < k && Right(start, j) <= i < Left(stop, j))
      {
        StopFits(m, k, stop);
        MarkLevel(k, Right(start, k), Left(stop, k));
        k := k + 1;
      }
    }

    /** bd_initfree_pair: the pages it adds to the free lists. */
    method InitFreePair(k: nat, i: nat) returns (pages: nat)
      requires k < |free|
      modifies this`free
      ensures pages == BlockPages(|PairBlocks(m, bits, k, i)|, k)
      ensures free == old(free)[k := Addrs(k, PairBlocks(m, bits, k, i)) + old(free)[k]]
    {
      var buddy := if i % 2 == 0 then i + 1 else i - 1;
      pages := 0;
      if BitSet(m, bits, k, i) != BitSet(m, bits, k, buddy) {
        pages := Pow2(k);
        if BitSet(m, bits, k, i) {
          free := free[k := [Addr(k, buddy)] + free[k]];
        } else {
          free := free[k := [Addr(k, i)] + free[k]];
        }
      }
      PairPushed(m, bits, k, i, old(free)[k]);
    }

    /** One turn of bd_initfree's loop. */
    method InitFreeLevel(k: nat, ghost blocks: seq<nat>) returns (pages: nat)
      requires k < |free| && free[k] == [] && blocks == LevelBlocks(m, bits, a, b, k)
      modifies this`free
      ensures pages == BlockPages(|blocks|, k)
      ensures free == old(free)[k := Addrs(k, blocks)]
    {
      LevelPushed(m, bits, a, b, k);
      var left, right := Left(a, k), Right(b, k);
      pages := InitFreePair(k, left);
      if right > left {
        var more := InitFreePair(k, right);
        pages := pages + more;
      }
    }

    /** bd_initfree over the levels below the top one. */
    method InitFree() returns (pages: nat)
      requires |free| == m + 1 && forall k | 0 <= k <= m :: free[k] == []
      modifies this`free
      ensures |free| == m + 1 && free[m] == []
      ensures var levels := Levels(m, bits, a, b);
              && pages == Counted(levels, m)
              && forall k | 0 <= k < m :: free[k] == Addrs(k, levels[k])
    {
      hide LevelBlocks, Addrs, BlockPages;
      pages := 0;
      var k := 0;
      ghost var levels := Levels(m, bits, a, b);
      while k < m
        invariant k <= m && |free| == m + 1
        invariant pages == Counted(levels, k)
        invariant forall j | k <= j <= m :: free[j] == []
        invariant forall j | 0 <= j < k :: free[j] == Addrs(j, levels[j])
      {
        var p := InitFreeLevel(k, levels[k]);
        pages := pages + p;
        k := k + 1;
      }
    }

    /** bd_init up to bd_initfree: size the levels, mark metadata and the
        unavailable end. */
    method Prepare(size: nat)
      modifies this
      ensures HeapOf(size, m, a, b) && Marked(m, bits, a, b) && Mirrors(m, bits, split)
      ensures |free| == m + 1 && forall k | 0 <= k <= m :: free[k] == []
    {
      hide Base, MetaPages, LevelBits, Left, Right, Pow2;
      var lg := Log2(size / PGSIZE);
      m := if size > Pow2(lg) * PGSIZE then lg + 1 else lg;
      HeapLevel(size, lg, m);
      var _, _, end := LayOut(m);
      a := end / PGSIZE;
      b := EndPage(size, m);
      bits, split := seq(Base(m, m + 1), _ => false), {};
      free := seq(m + 1, _ => []);
      Mark(0, a);
      Mark(b, Pow2(m));
      BothMarks(m, bits, a, b);
    }

    /** bd_init on `size` bytes from bd_base; false stands for its panic. It
        panics exactly when there is not even one page, or the pages are a power
        of two, eight or more; otherwise each free list holds, once each, the
        maximal blocks within the free pages. */
    method Init(size: nat) returns (ok: bool)
      modifies this
      ensures ok <==> size >= PGSIZE && !exists j: nat :: j >= 3 && size == Pow2(j) * PGSIZE
      ensures ok ==> Roomy(a, b, m) && a == MetaPages(m) && b == size / PGSIZE
      ensures ok ==> Valid() && live == {} && MaximalLists(a, b, blocks)
    {
      hide Marked, Counted, Inv, MaximalLists, LevelBlocks, MetaPages, AllocOk, SplitOk, Mirrors;
      Prepare(size);
      var pages := InitFree();
      ok := pages == b - a;
      live := {};
      blocks := Levels(m, bits, a, b) + [[]];
      InitOutcome(size, m, bits, a, b, pages);
      if ok {
        InitInv(a, b, m, blocks);
        InitMaps(a, b, m, bits, split, blocks);
      }
    }

    /** bd_malloc. It fails exactly when no block of the level that the request
        needs is wholly free; otherwise the block it returns is of that level,
        was free, and everything else stays where it was. */
    method Malloc(nbytes: nat) returns (p: Option<nat>, ghost fk: nat, ghost i: nat)
      requires Valid() && nbytes <= 0x8000_0000_0000_0000
      modifies this`bits, this`split, this`free, this`blocks, this`live
      ensures Valid()
      ensures Fits(nbytes, fk)
      ensures p.None? <==> !exists j: nat :: WhollyFree(old(blocks), fk, j)
      ensures p.None? ==> free == old(free) && live == old(live) && bits == old(bits) && split == old(split)
      ensures p.Some? ==> p.value == Addr(fk, i) && Inside(a, b, fk, i)
      ensures p.Some? ==> (fk, i) !in old(live) && live == old(live) + {(fk, i)}
      ensures p.Some? ==> FreePages(blocks, m + 1) + Pow2(fk) == FreePages(old(blocks), m + 1)
    {
      hide Inv, NoBuddies, WhollyFree, FreePages, Fits, Inside, BlockPages, Known, Pow2, AllocOk, SplitOk;
      var k0 := FirstK(nbytes);
      fk, i := k0, 0;
      InvMeans(a, b, blocks, live);
      RequestCanBeMet(blocks, fk);
      var k := k0;
      while k <= m && free[k] == []
        invariant k0 <= k
        invariant forall j | k0 <= j < k && j <= m :: free[j] == []
      {
        k := k + 1;
      }
      if k > m { return None, fk, 0; }
      ghost var was, pages := live, FreePages(blocks, m + 1);
      i := blocks[k][0];
      var page := Take(k);
      while k > k0
        invariant k0 <= k <= m
        invariant Valid() && page == Addr(k, i)
        invariant (k, i) !in was && live == was + {(k, i)}
        invariant FreePages(blocks, m + 1) + Pow2(k) == pages
      {
        Split(k, page, i);
        k, i := k - 1, 2 * i;
        assert live == was + {(k, i)} by { assert was + {(k + 1, i / 2)} - {(k + 1, i / 2)} == was; }
      }
      InvMeans(a, b, blocks, live);
      return Some(page), fk, i;
    }

    /** lst_pop from the list of level k; its alloc bit is set. */
    method Take(k: nat) returns (page: nat)
      requires Valid() && k <= m && free[k] != []
      modifies this`bits, this`free, this`blocks, this`live
      ensures Valid()
      ensures page == Addr(k, old(blocks)[k][0])
      ensures (k, old(blocks)[k][0]) !in old(live) && live == old(live) + {(k, old(blocks)[k][0])}
      ensures FreePages(blocks, m + 1) + Pow2(k) == FreePages(old(blocks), m + 1)
    {
      hide Placed, Separate, Covered, NoBuddies, AllocOk, SplitOk, Base, Pow2, FreePages, Addr;
      TakeKeeps(a, b, blocks, live, k);
      PopPages(blocks, k);
      ghost var i := blocks[k][0];
      assert OnList(blocks, k, i);
      ListedInHeap(a, b, m, blocks, live, k, i);
      TakeMaps(m, bits, split, blocks, live, k);
      page := free[k][0];
      BlkIndex(k, i);
      bits := bits[Base(m, k) + page / Pow2(k) := true];
      free := free[k := free[k][1..]];
      live := live + {(k, i)};
      blocks := blocks[k := blocks[k][1..]];
    }

    /** Split the block of level k at `page`: its second half goes on the list below,
        its first half is marked allocated. */
    method Split(k: nat, page: nat, ghost i: nat)
      requires Valid() && 0 < k <= m && page == Addr(k, i) && (k, i) in live
      modifies this`bits, this`split, this`free, this`blocks, this`live
      ensures Valid()
      ensures page == Addr(k - 1, 2 * i)
      ensures (k - 1, 2 * i) !in old(live) && live == old(live) - {(k, i)} + {(k - 1, 2 * i)}
      ensures FreePages(blocks, m + 1) + Pow2(k - 1) == FreePages(old(blocks), m + 1) + Pow2(k)
    {
      hide Placed, Separate, Covered, NoBuddies, AllocOk, SplitOk, Base;
      LiveInHeap(a, b, m, blocks, live, k, i);
      SplitMaps(m, bits, split, blocks, live, k, i);
      SplitKeeps(a, b, blocks, live, k, i);
      SplitKnown(blocks, live, k, i);
      HalfAddrs(k, i);
      PushPages(blocks, k - 1, 2 * i + 1);
      PushAddrs(k - 1, 2 * i + 1, blocks[k - 1]);
      assert !Known(blocks, live, k - 1, 2 * i);
      var q := page + Pow2(k - 1);
      BlkIndex(k, i);
      BlkIndex(k - 1, 2 * i);
      split := split + {(k, page / Pow2(k))};
      bits := bits[Base(m, k - 1) + page / Pow2(k - 1) := true];
      free := free[k - 1 := [q] + free[k - 1]];
      live := live - {(k, i)} + {(k - 1, 2 * i)};
      blocks := blocks[k - 1 := [2 * i + 1] + blocks[k - 1]];
    }
  }

  /** blk_index of the page that a block starts at. */
  lemma BlkIndex(k: nat, i: nat)
    ensures Addr(k, i) / Pow2(k) == i
  {
    DivUnique(Addr(k, i), Pow2(k), i);
  }

  lemma ListedInHeap(a: nat, b: nat, m: nat, free: FreeLists, live: Blocks, k: nat, i: nat)
    requires Inv(a, b, free, live) && b <= Pow2(m) && k <= m && OnList(free, k, i)
    ensures i < Pow2(m - k) && (k, i) !in live
  {
    assert Known(free, live, k, i);
    InHeap(a, b, m, k, i);
  }

  lemma LiveInHeap(a: nat, b: nat, m: nat, free: FreeLists, live: Blocks, k: nat, i: nat)
    requires Inv(a, b, free, live) && b <= Pow2(m) && k <= m && (k, i) in live
    ensures i < Pow2(m - k)
  {
    assert Known(free, live, k, i);
    InHeap(a, b, m, k, i);
  }

  /** bd_mark_unavailable: the heap's end less what lies beyond `size` bytes,
      rounded up to whole pages. */
  function EndPage(size: nat, m: nat): (b: nat)
    requires size <= Pow2(m) * PGSIZE
    ensures b == size / PGSIZE
  {
    var unavailable := Pow2(m) * PGSIZE - size;
    var rounded := if unavailable > 0 then ((unavailable - 1) / PGSIZE + 1) * PGSIZE else unavailable;
    (Pow2(m) * PGSIZE - rounded) / PGSIZE
  }

  /** The heap of 2^m pages that bd_init lays over `size` bytes: no fewer levels
      would cover them. */
  ghost predicate HeapOf(size: nat, m: nat, a: nat, b: nat) {
    && a == MetaPages(m)
    && b == size / PGSIZE
    && 1 <= a <= Pow2(m) && b <= Pow2(m)
    && (a == 1 || 8 * a <= Pow2(m))
    && (if b == 0 then m == 0 else Pow2(m) <= 2 * b)
    && (size == Pow2(m) * PGSIZE <==> Exact(b, m))
    && (b >= 1 && !Exact(b, m) ==> m >= 1 && size > Pow2(m - 1) * PGSIZE)
  }

  lemma HeapLevel(size: nat, lg: nat, m: nat)
    requires var q := size / PGSIZE; if q == 0 then lg == 0 else Pow2(lg) <= q < Pow2(lg + 1)
    requires m == if size > Pow2(lg) * PGSIZE then lg + 1 else lg
    ensures size <= Pow2(m) * PGSIZE
    ensures HeapOf(size, m, MetaPages(m), size / PGSIZE)
  {
    MetaBound(m);
  }

  lemma BothMarks(m: nat, bits: seq<bool>, a: nat, b: nat)
    requires |bits| == Base(m, m + 1) && a <= Pow2(m)
    requires forall k, i | 0 <= k <= m && 0 <= i < LevelBits(m, k) ::
               BitSet(m, bits, k, i) <==>
               Right(0, k) <= i < Left(a, k) || Right(b, k) <= i < Left(Pow2(m), k)
    ensures Marked(m, bits, a, b)
  {
    forall k, i | 0 <= k <= m && 0 <= i < LevelBits(m, k)
      ensures BitSet(m, bits, k, i) <==> i < Pow2(m - k) && (i < Left(a, k) || i >= Right(b, k))
    {
      MarkEnds(m, a, k);
    }
  }

  lemma MarkEnds(m: nat, a: nat, k: nat)
    requires k <= m && a <= Pow2(m)
    ensures Right(0, k) == 0 && Left(Pow2(m), k) == Pow2(m - k) && Left(a, k) <= Pow2(m - k)
  {
    StopFits(m, k, a);
    Pow2Add(k, m - k);
    DivUnique(0, Pow2(k), 0);
    CeilExact(Pow2(k), Pow2(m - k));
  }

  lemma CeilExact(w: nat, q: nat)
    requires w > 0 && q > 0
    ensures CeilDiv(w * q, w) == q
  {
    MulMono(q - 1, q, w);
    assert (q - 1) * w == w * q - w;
    CeilUnique(w * q, w, q);
  }

  lemma InitOutcome(size: nat, m: nat, bits: seq<bool>, a: nat, b: nat, pages: nat)
    requires HeapOf(size, m, a, b)
    requires Marked(m, bits, a, b)
    requires pages == Counted(Levels(m, bits, a, b), m)
    ensures pages == b - a <==> size >= PGSIZE && !exists j: nat :: j >= 3 && size == Pow2(j) * PGSIZE
    ensures pages == b - a ==> Roomy(a, b, m) && MaximalLists(a, b, Levels(m, bits, a, b) + [[]])
  {
    if b >= 1 {
      CheckPasses(m, bits, a, b);
      PowerOfTwoSize(size, m, b);
      if pages == b - a {
        assert Pow2(2) == 4;
        if m < 3 { Pow2Mono(m, 2); }
        LevelsMaximal(m, bits, a, b);
      }
    }
  }

  lemma LevelsMaximal(m: nat, bits: seq<bool>, a: nat, b: nat)
    requires Roomy(a, b, m) && Marked(m, bits, a, b) && (!Exact(b, m) || Pow2(m) < 8)
    ensures MaximalLists(a, b, Levels(m, bits, a, b) + [[]])
  {
    var levels := Levels(m, bits, a, b);
    forall k | 0 <= k < m
      ensures NoDup(levels[k]) && forall i: nat :: i in levels[k] <==> Maximal(a, b, k, i)
    {
      LevelMaximal(m, bits, a, b, k);
    }
  }

  lemma PowerOfTwoSize(size: nat, m: nat, b: nat)
    requires b == size / PGSIZE && 1 <= b <= Pow2(m)
    requires size == Pow2(m) * PGSIZE <==> Exact(b, m)
    requires !Exact(b, m) ==> m >= 1 && size > Pow2(m - 1) * PGSIZE
    ensures Exact(b, m) && m >= 3 <==> exists j: nat :: j >= 3 && size == Pow2(j) * PGSIZE
  {
    if j: nat :| j >= 3 && size == Pow2(j) * PGSIZE {
      assert b == Pow2(j);
      if m < j { Pow2Mono(m, j); }
      if j < m { Pow2Mono(j, m - 1); }
    }
  }

  /** The request of n bytes fits a block of level k and of no smaller one. */
  predicate Fits(n: nat, k: nat) {
    n <= Pow2(k) * PGSIZE && (k == 0 || n > Pow2(k - 1) * PGSIZE)
  }

  lemma HalfAddrs(k: nat, i: nat)
    requires k > 0
    ensures Addr(k - 1, 2 * i) == Addr(k, i) && Addr(k - 1, 2 * i + 1) == Addr(k, i) + Pow2(k - 1)
  {
    assert i * (2 * Pow2(k - 1)) == (2 * i) * Pow2(k - 1);
  }

  lemma PushAddrs(k: nat, i: nat, list: seq<nat>)
    ensures Addrs(k, [i] + list) == [Addr(k, i)] + Addrs(k, list)
  {
  }

  lemma PushPages(blocks: FreeLists, k: nat, i: nat)
    requires k < |blocks|
    ensures FreePages(blocks[k := [i] + blocks[k]], |blocks|) == FreePages(blocks, |blocks|) + Pow2(k)
  {
    FreePagesUpdate(blocks, k, [i] + blocks[k], |blocks|);
    SumPages(1, |blocks[k]|, k);
  }

  lemma PopPages(blocks: FreeLists, k: nat)
    requires k < |blocks| && blocks[k] != []
    ensures FreePages(blocks[k := blocks[k][1..]], |blocks|) + Pow2(k) == FreePages(blocks, |blocks|)
  {
    FreePagesUpdate(blocks, k, blocks[k][1..], |blocks|);
    SumPages(1, |blocks[k]| - 1, k);
  }

  lemma DoubleFits(k: nat)
    requires Pow2(k) * PGSIZE < 0x8000_0000_0000_0000
    ensures Pow2(k + 1) * PGSIZE <= 0x8000_0000_0000_0000
  {
    Pow51();
    if k >= 51 { Pow2Mono(51, k); } else { Pow2Mono(k + 1, 51); }
  }

  lemma Pow5()
    ensures Pow2(5) == 32 && Pow2(1) == 2
  {
  }

  lemma Pow51()
    ensures Pow2(51) == 0x8_0000_0000_0000
  {
    hide Pow2;
    Pow5();
    Pow2Add(5, 5);
    Pow2Add(10, 10);
    Pow2Add(20, 20);
    Pow2Add(40, 10);
    Pow2Add(50, 1);
  }

  /** firstk, whose size is a 64-bit number. */
  method FirstK(n: nat) returns (k: nat)
    requires n <= 0x8000_0000_0000_0000
    ensures Fits(n, k)
  {
    k := 0;
    var size := PGSIZE;
    while size < n
      invariant size == Pow2(k) * PGSIZE
      invariant k == 0 || n > Pow2(k - 1) * PGSIZE
      invariant size <= 0x8000_0000_0000_0000
      decreases n - size
    {
      DoubleFits(k);
      k := k + 1;
      size := Double(size);
    }
  }

  lemma PairPushed(m: nat, bits: seq<bool>, k: nat, i: nat, list: seq<nat>)
    ensures var blocks := PairBlocks(m, bits, k, i);
            && BlockPages(|blocks|, k) == (if blocks == [] then 0 else Pow2(k))
            && Addrs(k, blocks) + list == if blocks == [] then list else [Addr(k, blocks[0])] + list
  {
  }

  lemma LevelPushed(m: nat, bits: seq<bool>, a: nat, b: nat, k: nat)
    ensures var left, right := PairBlocks(m, bits, k, Left(a, k)), PairBlocks(m, bits, k, Right(b, k));
            var blocks := LevelBlocks(m, bits, a, b, k);
            if Right(b, k) > Left(a, k) then
              && BlockPages(|blocks|, k) == BlockPages(|left|, k) + BlockPages(|right|, k)
              && Addrs(k, blocks) == Addrs(k, right) + (Addrs(k, left) + [])
            else
              BlockPages(|blocks|, k) == BlockPages(|left|, k) && Addrs(k, blocks) == Addrs(k, left) + []
  {
    var left, right := PairBlocks(m, bits, k, Left(a, k)), PairBlocks(m, bits, k, Right(b, k));
    AddrsConcat(k, right, left);
  }

  lemma AddrsConcat(k: nat, s: seq<nat>, t: seq<nat>)
    ensures Addrs(k, s + t) == Addrs(k, s) + Addrs(k, t)
    ensures BlockPages(|s + t|, k) == BlockPages(|s|, k) + BlockPages(|t|, k)
  {
  }

  lemma StopFits(m: nat, k: nat, stop: nat)
    requires k <= m && stop <= Pow2(m)
    ensures Left(stop, k) <= Pow2(m - k) <= LevelBits(m, k)
  {
    Pow2Add(k, m - k);
    LeftAtMost(stop, Pow2(k), Pow2(m - k));
    LevelBitsCover(m, k);
  }

  /** firstk's size after j turns of its loop. */
  function SizeAfter(j: nat): nat {
    if j == 0 then PGSIZE else Double(SizeAfter(j - 1))
  }

  /** size *= 2 in 64 bits. */
  function Double(x: nat): nat { x * 2 % 0x1_0000_0000_0000_0000 }

  lemma DoubleInRange(x: nat)
    requires 2 * x <= 0x8000_0000_0000_0000
    ensures Double(x) == 2 * x
  {
  }

  lemma {:induction false} SizeWraps(j: nat)
    ensures SizeAfter(j) == if j <= 51 then Pow2(j) * PGSIZE else 0
  {
    if j == 0 {
      assert Pow2(0) == 1;
    } else {
      hide Pow2, Double;
      SizeWraps(j - 1);
      Pow51();
      DoubleWraps();
      if j <= 51 {
        Pow2Mono(j, 51);
        DoublePow(j - 1);
      }
    }
  }

  lemma DoubleWraps()
    ensures Double(0) == 0 && Double(0x8_0000_0000_0000 * PGSIZE) == 0
  {
  }

  lemma DoublePow(k: nat)
    requires Pow2(k + 1) <= 0x8_0000_0000_0000
    ensures Double(Pow2(k) * PGSIZE) == Pow2(k + 1) * PGSIZE
  {
    var p := Pow2(k);
    assert Pow2(k + 1) == 2 * p;
    hide Pow2, Double;
    DoubleInRange(p * PGSIZE);
  }

  /** firstk leaves its loop exactly for requests of at most 2^63 bytes: beyond
      that its size wraps to zero and stays there. */
  lemma FirstKStops(n: nat)
    requires n < 0x1_0000_0000_0000_0000
    ensures (exists j: nat :: SizeAfter(j) >= n) <==> n <= 0x8000_0000_0000_0000
  {
    Pow51();
    SizeWraps(51);
    if j: nat :| SizeAfter(j) >= n {
      SizeWraps(j);
      if j <= 51 { Pow2Mono(j, 51); }
    }
  }
}
