/** Which pages an address space owns, and uVmUnmap of riscv-os/kernel/mm/vm.c. */
module VmSpace {
  import opened Common
  import opened PageAlloc
  import opened PageTable
  import opened Vm

  /** Page v is mapped to frame f. */
  predicate Maps(pages: Pages, t: Tab, v: nat, f: nat) {
    Flat(pages, t, v).Some? && Frame(Flat(pages, t, v).value) == f
  }

  /** Some page of v .. v+n is mapped to frame f. */
  ghost predicate Holds(pages: Pages, t: Tab, v: nat, n: nat, f: nat) {
    exists w: nat :: v <= w < v + n && Maps(pages, t, w, f)
  }

  /** Pages v .. v+n own their frames: managed pages, in use, not tables of this
      tree, and no two alike. */
  ghost predicate Owns(pages: Pages, free: seq<nat>, t: Tab, v: nat, n: nat) {
    && (forall w: nat, f: nat | v <= w < v + n && Maps(pages, t, w, f) :: f in pages && f !in free && f !in Frames(t))
    && (forall w: nat, x: nat, f: nat | v <= w < v + n && v <= x < v + n && Maps(pages, t, w, f) && Maps(pages, t, x, f) :: w == x)
  }

  /** The flat map without the range v .. v+n. */
  ghost predicate Unmapped(pages: Pages, t: Tab, pages': Pages, v: nat, n: nat) {
    forall w: nat :: Flat(pages', t, w) == if v <= w < v + n then None else Flat(pages, t, w)
  }

  /** The frames of the range have become free, and nothing else. */
  ghost predicate Returned(pages: Pages, free: seq<nat>, t: Tab, free': seq<nat>, v: nat, n: nat) {
    forall f :: f in free' <==> f in free || Holds(pages, t, v, n, f)
  }

  /** Pages other than the tree's and the frames of the range are as they were. */
  ghost predicate Untouched(pages: Pages, t: Tab, pages': Pages, v: nat, n: nat) {
    forall f | f in pages && f !in Frames(t) && !Holds(pages, t, v, n, f) :: f in pages' && pages'[f] == pages[f]
  }

  /** Unmapping the range, with its frames given back when `freed` says so. */
  ghost predicate Unmap(pages: Pages, free: seq<nat>, t: Tab, pages': Pages, free': seq<nat>, v: nat, n: nat, freed: bool) {
    && Unmapped(pages, t, pages', v, n)
    && Returned(pages, free, t, free', v, if freed then n else 0)
    && Untouched(pages, t, pages', v, if freed then n else 0)
  }

  lemma UnmapNothing(pages: Pages, free: seq<nat>, t: Tab, v: nat, freed: bool)
    ensures Unmap(pages, free, t, pages, free, v, 0, freed)
  {
  }

  lemma HoldsNext(pages: Pages, t: Tab, v: nat, i: nat, f: nat)
    ensures Holds(pages, t, v, i + 1, f) <==> Holds(pages, t, v, i, f) || Maps(pages, t, v + i, f)
  {
  }

  lemma HoldsOne(pages: Pages, t: Tab, v: nat, f: nat)
    ensures Holds(pages, t, v, 1, f) <==> Maps(pages, t, v, f)
    ensures !Holds(pages, t, v, 0, f)
  {
    if Maps(pages, t, v, f) { assert v <= v < v + 1; }
  }

  lemma UnmapTurn(p0: Pages, f0: seq<nat>, t: Tab, p1: Pages, f1: seq<nat>, p2: Pages, f2: seq<nat>, v: nat, i: nat, freed: bool)
    requires Unmap(p0, f0, t, p1, f1, v, i, freed) && Unmap(p1, f1, t, p2, f2, v + i, 1, freed)
    ensures Unmap(p0, f0, t, p2, f2, v, i + 1, freed)
  {
    forall f
      ensures f in f2 <==> f in f0 || Holds(p0, t, v, if freed then i + 1 else 0, f)
      ensures f in p0 && f !in Frames(t) && !Holds(p0, t, v, if freed then i + 1 else 0, f) ==> f in p2 && p2[f] == p0[f]
    {
      if f >= 0 {
        HoldsNext(p0, t, v, i, f);
        HoldsOne(p1, t, v + i, f);
        assert Maps(p1, t, v + i, f) == Maps(p0, t, v + i, f);
      }
    }
  }

  /** What is left of the range still owns its frames. */
  lemma OwnsNext(p0: Pages, f0: seq<nat>, t: Tab, p1: Pages, f1: seq<nat>, v: nat, i: nat, n: nat)
    requires Owns(p0, f0, t, v, n) && i < n && Unmap(p0, f0, t, p1, f1, v, i, true)
    ensures Owns(p1, f1, t, v + i, 1)
  {
    forall f: nat | Maps(p1, t, v + i, f)
      ensures f in p1 && f !in f1 && f !in Frames(t)
    {
      assert Maps(p0, t, v + i, f);
      assert !Holds(p0, t, v, i, f);
    }
  }

  /** The entry of page v is cleared, its frame having been given back or not. */
  lemma UnmapEntry(p0: Pages, f0: seq<nat>, t: Tab, p1: Pages, f1: seq<nat>, p2: Pages, v: nat, freed: bool)
    requires TabOk(p0, t) && Flat(p0, t, v).Some?
    requires f1 == if freed then [Frame(Flat(p0, t, v).value)] + f0 else f0
    requires p1.Keys == p0.Keys && forall f | f in p0 && !(freed && f == Frame(Flat(p0, t, v).value)) :: p1[f] == p0[f]
    requires freed ==> Frame(Flat(p0, t, v).value) !in Frames(t)
    requires Flat(p2, t, v) == None
    requires forall w: nat | w != v :: Flat(p2, t, w) == Flat(p1, t, w)
    requires p2.Keys == p1.Keys && forall f | f in p1 && f !in Frames(t) :: p2[f] == p1[f]
    ensures Unmap(p0, f0, t, p2, f1, v, 1, freed)
  {
    TabFrame(p0, p1, t);
    forall f
      ensures f in f1 <==> f in f0 || Holds(p0, t, v, if freed then 1 else 0, f)
      ensures f in p0 && f !in Frames(t) && !Holds(p0, t, v, if freed then 1 else 0, f) ==> f in p2 && p2[f] == p0[f]
    {
      if f >= 0 { HoldsOne(p0, t, v, f); }
    }
  }

  /** One turn of uVmUnmap's loop. */
  method UnmapOne(k: Kmem, root: nat, v: nat, freed: bool, ghost t: Tab)
    requires TreeOk(k, t) && t.root == root && v < VPNS
    requires freed ==> Owns(k.pages, k.free, t, v, 1)
    modifies k
    ensures TreeOk(k, t)
    ensures Unmap(old(k.pages), old(k.free), t, k.pages, k.free, v, 1, freed)
  {
    hide Shape, Apart;
    ghost var t': Tab;
    var table: Option<nat>;
    table, t' := Walk(k, root, v, false, t);
    if table.None? { return; }
    EntryOf(k.pages, t, v, table.value);
    var pte := k.pages[table.value][I0(v)];
    if !V(pte) { return; }
    if freed {
      assert Maps(k.pages, t, v, Frame(pte));
      var ok := k.Free(Frame(pte));
      TabFrame(old(k.pages), k.pages, t);
    }
    ghost var p1 := k.pages;
    SetLeaf(k, table.value, v, 0, t);
    UnmapEntry(old(k.pages), old(k.free), t, p1, k.free, k.pages, v, freed);
  }

  /** uVmUnmap of n pages from v: exactly this range leaves the flat map, and with
      `freed` exactly its frames become free. No page outside the tables and
      these frames changes, and kfree never panics. */
  method UnmapRange(k: Kmem, root: nat, v: nat, n: nat, freed: bool, ghost t: Tab)
    requires TreeOk(k, t) && t.root == root && v + n <= VPNS
    requires freed ==> Owns(k.pages, k.free, t, v, n)
    modifies k
    ensures TreeOk(k, t)
    ensures Unmap(old(k.pages), old(k.free), t, k.pages, k.free, v, n, freed)
  {
    hide TreeOk, Unmap, Owns;
    UnmapNothing(k.pages, k.free, t, v, freed);
    var i := 0;
    while i < n
      invariant i <= n
      invariant TreeOk(k, t)
      invariant Unmap(old(k.pages), old(k.free), t, k.pages, k.free, v, i, freed)
    {
      ghost var p1, f1 := k.pages, k.free;
      if freed { OwnsNext(old(k.pages), old(k.free), t, p1, f1, v, i, n); }
      UnmapOne(k, root, v + i, freed, t);
      UnmapTurn(old(k.pages), old(k.free), t, p1, f1, k.pages, k.free, v, i, freed);
      i := i + 1;
    }
  }
}
