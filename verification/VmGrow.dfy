/** uVmAlloc of riscv-os/kernel/mm/vm.c, with its failure path as it stands. */
module VmGrow {
  import opened Common
  import opened PageAlloc
  import opened PageTable
  import opened Vm
  import opened VmSpace
  import opened VmTeardown
  import opened VmBuild
  import opened VmLife

  /** Cleared pages with these flags. */
  ghost function ZeroImage(a: nat, n: nat, flags: nat): Image {
    map w: nat | w < a + n && From(a, w) :: (Filled(0), flags)
  }

  predicate From(a: nat, w: nat) { a <= w }

  datatype Outcome = Smaller | Grew | Dropped | Panic

  /** Of a half-filled space, the first a pages still own their frames, and every
      mapping is a leaf. */
  lemma HalfFilled(p0: Pages, f0: seq<nat>, t0: Tab, p: Pages, f: seq<nat>, t: Tab, a: nat, i: nat, n: nat, flags: nat)
    requires Populated(p0, f0, t0, p, f, t, a, i) && Shows(p, t, a, i, ZeroImage(a, n, flags)) && i <= n
    requires Owns(p0, f0, t0, 0, a) && LeavesOnly(p0, t0) && (flags / 2) % 8 != 0
    ensures Owns(p, f, t, 0, a) && LeavesOnly(p, t)
    ensures forall h: nat :: Holds(p, t, 0, a, h) <==> Holds(p0, t0, 0, a, h)
    ensures NoneFrom(p, t, a) <==> i == 0 && NoneFrom(p0, t0, a)
  {
    hide Flat, Flags, Inner;
    forall w: nat, h: nat | w < a
      ensures Maps(p, t, w, h) == Maps(p0, t0, w, h)
      ensures Maps(p, t, w, h) ==> h in p && h !in f && h !in Frames(t)
    {
    }
    forall w: nat | Flat(p, t, w).Some?
      ensures !Inner(Flat(p, t, w).value)
    {
      if a <= w < a + i {
        assert ShowsPage(p, t, w, (Filled(0), flags));
        InnerFlags(Flat(p, t, w).value);
      }
    }
    if i > 0 { assert ShowsPage(p, t, a, (Filled(0), flags)); }
  }

  /** Dropping a space in which only tables were added. */
  lemma DroppedAll(p0: Pages, f0: seq<nat>, t0: Tab, p: Pages, f: seq<nat>, t: Tab, a: nat, p': Pages, f': seq<nat>)
    requires Populated(p0, f0, t0, p, f, t, a, 0) && Gone(p, f, t, a, p', f')
    requires forall h: nat :: Holds(p, t, 0, a, h) <==> Holds(p0, t0, 0, a, h)
    requires Owns(p0, f0, t0, 0, a)
    ensures Gone(p0, f0, t0, a, p', f')
  {
    hide Flat, Owns;
    forall h: nat
      ensures !Holds(p, t, a, 0, h)
    {
    }
  }

  /** How many of the pages a .. a+n come before the first one that is mapped. */
  ghost function Clear(p: Pages, t: Tab, a: nat, n: nat): nat
    decreases n
  {
    if n == 0 || Flat(p, t, a).Some? then 0 else 1 + Clear(p, t, a + 1, n - 1)
  }

  lemma {:induction false} ClearMeans(p: Pages, t: Tab, a: nat, n: nat)
    ensures Clear(p, t, a, n) <= n
    ensures forall w: nat | a <= w < a + Clear(p, t, a, n) :: Flat(p, t, w) == None
    ensures Clear(p, t, a, n) < n ==> Flat(p, t, a + Clear(p, t, a, n)).Some? && !NoneFrom(p, t, a)
    decreases n
  {
    hide Flat;
    if n > 0 && Flat(p, t, a).None? { ClearMeans(p, t, a + 1, n - 1); }
  }

  /** The pages that uVmAlloc is to add. */
  function NewPages(oldsz: nat, newsz: nat): nat {
    if PagesOf(newsz) < PagesOf(oldsz) then 0 else PagesOf(newsz) - PagesOf(oldsz)
  }

  /** Pages and tables suffice for n pages from a on. */
  predicate Suffices(free: nat, t: Tab, a: nat, n: nat) { free >= n + Tables(t, a, n) }

  /** uVmAlloc panics: at a page that is mapped already, or, out of memory, in uVmFree,
      when one page has been added by then or some page above oldsz was mapped before. */
  ghost predicate AllocPanics(p: Pages, free: nat, t: Tab, a: nat, n: nat) {
    Clear(p, t, a, n) < n || (!Suffices(free, t, a, n) && (Suffices(free, t, a, 1) || !NoneFrom(p, t, a)))
  }

  lemma Step(free: nat, t: Tab, a: nat, i: nat, n: nat)
    requires i < n
    ensures free < i + 1 + Tables(t, a, i) + Fresh(t, a, a + i) ==> !Suffices(free, t, a, n)
    ensures i == 0 && free < 1 + Fresh(t, a, a) ==> !Suffices(free, t, a, 1)
    ensures i > 0 && free >= i + Tables(t, a, i) ==> Suffices(free, t, a, 1)
  {
    hide Fresh;
    TablesMono(t, a, i + 1, n);
    if i > 0 { TablesMono(t, a, 1, i); }
    assert Tables(t, a, 0) == 0;
  }

  /** uVmAlloc. If memory suffices, exactly the pages from PGROUNDUP(oldsz) up to newsz are
      added, each to a cleared frame of its own. If it runs out, uVmFree is asked to drop
      the pages below oldsz only. What happens is decided by the space and the number of
      free pages at the start. */
  method VmAlloc(k: Kmem, root: nat, oldsz: nat, newsz: nat, xperm: nat, ghost t: Tab) returns (r: Outcome, ghost t': Tab)
    requires TreeOk(k, t) && t.root == root && oldsz <= VPNS * PGSIZE && xperm in {0, 4, 8, 12}
    requires Owns(k.pages, k.free, t, 0, PagesOf(oldsz)) && LeavesOnly(k.pages, t)
    requires var a, n := PagesOf(oldsz), NewPages(oldsz, newsz); a + n <= VPNS || a + Clear(k.pages, t, a, n) < VPNS
    modifies k
    ensures k.Valid()
    ensures r.Smaller? <==> newsz < oldsz
    ensures r.Smaller? ==> t' == t && k.pages == old(k.pages) && k.free == old(k.free)
    ensures r.Panic? <==> newsz >= oldsz && AllocPanics(old(k.pages), |old(k.free)|, t, PagesOf(oldsz), NewPages(oldsz, newsz))
    ensures r.Dropped? <==>
      && newsz >= oldsz && !Suffices(|old(k.free)|, t, PagesOf(oldsz), NewPages(oldsz, newsz))
      && !AllocPanics(old(k.pages), |old(k.free)|, t, PagesOf(oldsz), NewPages(oldsz, newsz))
    ensures r.Grew? ==>
      var a, n := PagesOf(oldsz), NewPages(oldsz, newsz);
      && TreeOk(k, t') && Populated(old(k.pages), old(k.free), t, k.pages, k.free, t', a, n)
      && Shows(k.pages, t', a, n, ZeroImage(a, n, 19 + xperm))
      && Paths(t, t', a, n) && |old(k.free)| == |k.free| + n + Tables(t, a, n)
    ensures r.Dropped? ==> Gone(old(k.pages), old(k.free), t, PagesOf(oldsz), k.pages, k.free)
  {
    hide TabOk, InUse, Chain, Agree, Owns, LeavesOnly, Flat, Populated, Shows, ZeroImage, NoneFrom, Gone, Took, TookNothing, Put, Clear, Suffices, Paths, Fresh, Missing, Tables;
    t' := t;
    if newsz < oldsz { return Smaller, t'; }
    ghost var p0, f0 := k.pages, k.free;
    var a := PagesOf(oldsz);
    ghost var n := NewPages(oldsz, newsz);
    ghost var img := ZeroImage(a, n, 19 + xperm);
    ClearMeans(p0, t, a, n);
    AllocStart(|f0|, t, a, n);
    PopulateStart(p0, f0, t, a, img);
    var v := a;
    while v * PGSIZE < newsz
      invariant a <= v <= a + Clear(p0, t, a, n) && |f0| == |k.free| + (v - a) + Tables(t, a, v - a) && Paths(t, t', a, v - a)
      invariant TreeOk(k, t') && t'.root == root
      invariant Populated(p0, f0, t, k.pages, k.free, t', a, v - a) && Shows(k.pages, t', a, v - a, img)
      decreases a + n - v
    {
      ghost var p1, f1, t1 := k.pages, k.free, t';
      InSize(oldsz, newsz, v);
      PopulatedMeans(p0, f0, t, p1, f1, t1, a, v - a, v);
      FreshMissing(t, t1, a, v - a);
      Step(|f0|, t, a, v - a, n);
      var got: Taken;
      got, t' := TryPut(k, root, v, Filled(0), 18 + xperm, t');
      if got.Remap? { return Panic, t'; }
      if got.NoMemory? {
        PopulateStop(p0, f0, t, p1, f1, t1, k.pages, k.free, t', a, v - a);
        StillShows(p1, f1, t1, k.pages, k.free, t', a, v - a, img);
        HalfFilled(p0, f0, t, k.pages, k.free, t', a, v - a, n, 19 + xperm);
        ghost var p2, f2 := k.pages, k.free;
        var ok := VmFree(k, root, oldsz, t');
        if !ok { return Panic, t'; }
        DroppedAll(p0, f0, t, p2, f2, t', a, k.pages, k.free);
        return Dropped, t';
      }
      PopulateNext(p0, f0, t, p1, f1, t1, k.pages, k.free, t', a, v - a, got.g, 18 + xperm, Filled(0));
      ZeroAt(a, n, 19 + xperm, v);
      PutShows(p1, f1, t1, k.pages, k.free, t', a, v - a, got.g, 18 + xperm, Filled(0), img);
      PathsNext(t, t1, t', a, v - a);
      TablesNext(t, a, v - a);
      v := v + 1;
    }
    AllSize(oldsz, newsz, v);
    AllocEnd(|f0|, t, a, n);
    return Grew, t';
  }

  /** A failing input: an empty space and three free pages. The first page of two takes all
      three, two of them as tables, and uVmFree finds it still mapped. */
  lemma PanicInput(p: Pages, root: nat)
    requires TabOk(p, Tab(root, map[], map[]))
    ensures AllocPanics(p, 3, Tab(root, map[], map[]), 0, 2)
    ensures !AllocPanics(p, 4, Tab(root, map[], map[]), 0, 2) && Suffices(4, Tab(root, map[], map[]), 0, 2)
  {
    var t := Tab(root, map[], map[]);
    assert Tables(t, 0, 0) == 0 && Fresh(t, 0, 0) == 2 && Fresh(t, 0, 1) == 0;
    assert Tables(t, 0, 1) == 2 && Tables(t, 0, 2) == 2;
    assert Clear(p, t, 2, 0) == 0 && Clear(p, t, 1, 1) == 1;
  }

  /** The same from freerange on: of five managed pages one holds the bitmap and one
      becomes the root of the space. */
  method PanicFromBoot() returns (r: Outcome)
    ensures r.Panic?
  {
    hide TabOk, InUse, Chain, Agree, Owns, LeavesOnly, Flat, FlatIs, Built, AllocPanics, Clear, Tables, Missing, Suffices, NoneFrom;
    var contents: Pages := map[8 := Filled(0), 9 := Filled(0), 10 := Filled(0), 11 := Filled(0), 12 := Filled(0)];
    var k := new Kmem(8, 13 * PGSIZE, contents);
    FourFree(k);
    ghost var p0, f0 := k.pages, k.free;
    var root := AllocCleared(k);
    ghost var t := Tab(root, map[], map[]);
    EmptyTree(p0, f0, k.pages, k.free, root);
    FlatEmpty(k.pages, k.free, t, map[]);
    PanicInput(k.pages, root);
    r, t := VmAlloc(k, root, 0, 2 * PGSIZE, 4, t);
  }

  lemma FourFree(k: Kmem)
    requires k.Valid() && k.base == 8 && k.top == 13
    requires forall f :: f in k.free <==> 8 + BitmapPages(8, 13 * PGSIZE) <= f < k.top
    ensures |k.free| == 4
  {
    assert BitmapPages(8, 13 * PGSIZE) == 1;
    assert Members(k.free) == {9, 10, 11, 12};
    CountOnce(k.free);
  }

  function Members(s: seq<nat>): set<nat> { set f | f in s }

  /** A list without repetition has as many entries as members. */
  lemma {:induction false} CountOnce(s: seq<nat>)
    requires NoDup(s)
    ensures |Members(s)| == |s|
  {
    if s != [] {
      CountOnce(s[1..]);
      assert s == [s[0]] + s[1..];
      assert Members(s) == Members(s[1..]) + {s[0]};
    }
  }

  lemma InSize(oldsz: nat, newsz: nat, v: nat)
    requires oldsz <= newsz && PagesOf(oldsz) <= v && v * PGSIZE < newsz
    ensures v < PagesOf(oldsz) + NewPages(oldsz, newsz)
  {
  }

  lemma AllSize(oldsz: nat, newsz: nat, v: nat)
    requires oldsz <= newsz && PagesOf(oldsz) <= v <= PagesOf(oldsz) + NewPages(oldsz, newsz) && v * PGSIZE >= newsz
    ensures v == PagesOf(oldsz) + NewPages(oldsz, newsz)
  {
  }

  lemma AllocStart(free: nat, t: Tab, a: nat, n: nat)
    ensures Tables(t, a, 0) == 0 && Paths(t, t, a, 0)
  {
  }

  lemma TablesNext(t: Tab, a: nat, i: nat)
    ensures Tables(t, a, i + 1) == Tables(t, a, i) + Fresh(t, a, a + i)
  {
  }

  lemma AllocEnd(free: nat, t: Tab, a: nat, n: nat)
    ensures free >= n + Tables(t, a, n) <==> Suffices(free, t, a, n)
  {
  }

  lemma ZeroAt(a: nat, n: nat, flags: nat, v: nat)
    requires a <= v < a + n
    ensures v in ZeroImage(a, n, flags) && ZeroImage(a, n, flags)[v] == (Filled(0), flags)
  {
  }

  lemma StillShows(p1: Pages, f1: seq<nat>, t1: Tab, p2: Pages, f2: seq<nat>, t2: Tab, a: nat, n: nat, img: Image)
    requires Owns(p1, f1, t1, a, n) && Shows(p1, t1, a, n, img) && TookNothing(p1, f1, t1, p2, f2, t2)
    ensures Shows(p2, t2, a, n, img)
  {
    hide Flat, Flags;
    forall w: nat | a <= w < a + n && w in img
      ensures ShowsPage(p2, t2, w, img[w])
    {
      assert ShowsPage(p1, t1, w, img[w]);
      assert Maps(p1, t1, w, Frame(Flat(p1, t1, w).value));
    }
  }
}
