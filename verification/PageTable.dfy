/** Sv39 page tables of riscv-os/kernel/mm/vm.c: a tree of table pages in memory
    against a flat map from virtual page numbers to leaf entries. */
module PageTable {
  import opened Common
  import opened PageAlloc

  // ---- page table entries and indices ----

  /** PA2PTE of page f, with flags in the low ten bits. */
  function Pte(f: nat, flags: nat): nat { f * 1024 + flags }
  function Frame(pte: nat): nat { pte / 1024 }
  function Flags(pte: nat): nat { pte % 1024 }
  predicate V(pte: nat) { pte % 2 == 1 }
  predicate U(pte: nat) { (pte / 16) % 2 == 1 }
  /** None of R, W and X: the entry points to another table. */
  predicate Inner(pte: nat) { (pte / 2) % 8 == 0 }
  /** perm | PTE_V */
  function WithV(perm: nat): nat { if perm % 2 == 0 then perm + 1 else perm }

  lemma PteFields(f: nat, flags: nat)
    requires flags < 1024
    ensures Frame(Pte(f, flags)) == f && Flags(Pte(f, flags)) == flags
    ensures V(Pte(f, flags)) <==> flags % 2 == 1
    ensures Inner(Pte(f, flags)) <==> (flags / 2) % 8 == 0
    ensures U(Pte(f, flags)) <==> (flags / 16) % 2 == 1
  {
    var q := flags / 16;
    assert Pte(f, flags) / 16 == f * 64 + q;
    assert (f * 64 + q) % 2 == q % 2 by { assert f * 64 + q == 2 * (f * 32) + q; }
    var h := flags / 2;
    assert Pte(f, flags) / 2 == f * 512 + h;
    assert (f * 512 + h) % 8 == h % 8 by { assert f * 512 + h == 8 * (f * 64) + h; }
  }

  const VPNS: nat := 0x400_0000   // MAXVA / PGSIZE

  /** PX(level, va). */
  function Px(level: nat, va: nat): nat {
    if level == 0 then (va / 0x1000) % 512
    else if level == 1 then (va / 0x20_0000) % 512
    else (va / 0x4000_0000) % 512
  }

  /** The indices of a page number. */
  function I2(v: nat): nat { v / 0x4_0000 }
  function I1(v: nat): nat { (v / 512) % 512 }
  function I0(v: nat): nat { v % 512 }

  lemma PxOfVpn(va: nat)
    requires va < VPNS * PGSIZE
    ensures Px(2, va) == I2(va / PGSIZE) && Px(1, va) == I1(va / PGSIZE) && Px(0, va) == I0(va / PGSIZE)
  {
    assert va / 0x20_0000 == (va / 0x1000) / 512;
    assert va / 0x4000_0000 == (va / 0x1000) / 0x4_0000;
  }

  /** Three 9-bit indices name one page below MAXVA. */
  lemma IndicesNamePage(v: nat, w: nat)
    requires v < VPNS && w < VPNS
    ensures v == I2(v) * 0x4_0000 + I1(v) * 512 + I0(v) && I2(v) < 256
    ensures I2(v) == I2(w) && I1(v) == I1(w) && I0(v) == I0(w) ==> v == w
  {
    assert v / 0x4_0000 == (v / 512) / 512;
    assert w / 0x4_0000 == (w / 512) / 512;
  }

  // ---- the tree ----

  /** The table pages of one tree: the root, the level-1 table under each root
      index, and the level-0 table that serves each group of 512 pages. */
  datatype Tab = Tab(root: nat, mid: map<nat, nat>, leaf: map<nat, nat>)

  function Frames(t: Tab): set<nat> { {t.root} + t.mid.Values + t.leaf.Values }

  ghost predicate Apart(t: Tab) {
    && t.root !in t.mid.Values && t.root !in t.leaf.Values && t.mid.Values !! t.leaf.Values
    && (forall i, j | i in t.mid && j in t.mid && i != j :: t.mid[i] != t.mid[j])
    && (forall g, h | g in t.leaf && h in t.leaf && g != h :: t.leaf[g] != t.leaf[h])
  }

  /** Entry i of table page f points to page g, or is not valid. */
  predicate Points(pages: Pages, f: nat, i: nat, down: map<nat, nat>, key: nat) {
    && f in pages && i < ENTRIES
    && if key in down then pages[f][i] == Pte(down[key], 1) else !V(pages[f][i])
  }

  ghost predicate Shape(t: Tab) {
    && (forall i | i in t.mid :: i < ENTRIES)
    && (forall g | g in t.leaf :: g / 512 in t.mid)
  }

  /** Memory holds the tree t. */
  ghost predicate TabOk(pages: Pages, t: Tab) {
    && Apart(t) && Shape(t)
    && Frames(t) <= pages.Keys
    && (forall i: nat | i < ENTRIES :: Points(pages, t.root, i, t.mid, i))
    && (forall g: nat | g / 512 in t.mid :: Points(pages, t.mid[g / 512], g % 512, t.leaf, g))
  }

  /** The flat view: the valid leaf entry of page v. */
  function Flat(pages: Pages, t: Tab, v: nat): Option<nat> {
    if v / 512 in t.leaf && t.leaf[v / 512] in pages && V(pages[t.leaf[v / 512]][v % 512])
    then Some(pages[t.leaf[v / 512]][v % 512]) else None
  }

  function Write(pages: Pages, f: nat, i: nat, pte: nat): Pages
    requires f in pages && i < ENTRIES
  {
    pages[f := pages[f][i := pte]]
  }

  /** Only the tree's own pages matter. */
  lemma TabFrame(pages: Pages, pages': Pages, t: Tab)
    requires TabOk(pages, t)
    requires forall f | f in Frames(t) :: f in pages' && pages'[f] == pages[f]
    ensures TabOk(pages', t)
    ensures forall v: nat :: Flat(pages', t, v) == Flat(pages, t, v)
  {
    forall i: nat | i < ENTRIES
      ensures Points(pages', t.root, i, t.mid, i)
    {
      assert Points(pages, t.root, i, t.mid, i);
    }
    forall g: nat | g / 512 in t.mid
      ensures Points(pages', t.mid[g / 512], g % 512, t.leaf, g)
    {
      assert Points(pages, t.mid[g / 512], g % 512, t.leaf, g);
      assert t.mid[g / 512] in t.mid.Values;
    }
    forall v: nat
      ensures Flat(pages', t, v) == Flat(pages, t, v)
    {
      if v / 512 in t.leaf { assert t.leaf[v / 512] in t.leaf.Values; }
    }
  }

  /** Writing the leaf entry of page v changes the flat map there and nowhere else. */
  lemma WriteLeaf(pages: Pages, t: Tab, v: nat, pte: nat)
    requires TabOk(pages, t) && v / 512 in t.leaf
    ensures t.leaf[v / 512] in pages
    ensures var pages' := Write(pages, t.leaf[v / 512], v % 512, pte);
            && TabOk(pages', t)
            && Flat(pages', t, v) == (if V(pte) then Some(pte) else None)
            && forall w: nat | w != v :: Flat(pages', t, w) == Flat(pages, t, w)
  {
    var f := t.leaf[v / 512];
    assert f in t.leaf.Values;
    var pages' := Write(pages, f, v % 512, pte);
    forall i: nat | i < ENTRIES
      ensures Points(pages', t.root, i, t.mid, i)
    {
      assert Points(pages, t.root, i, t.mid, i);
    }
    forall g: nat | g / 512 in t.mid
      ensures Points(pages', t.mid[g / 512], g % 512, t.leaf, g)
    {
      assert Points(pages, t.mid[g / 512], g % 512, t.leaf, g);
      assert t.mid[g / 512] in t.mid.Values;
    }
    forall w: nat | w != v
      ensures Flat(pages', t, w) == Flat(pages, t, w)
    {
      if w / 512 in t.leaf && w / 512 == v / 512 { assert w % 512 != v % 512; }
    }
  }

  /** Hanging a cleared page under the root changes no mapping. */
  lemma GrowMid(pages: Pages, t: Tab, i: nat, g: nat)
    requires TabOk(pages, t) && i < ENTRIES && i !in t.mid && g !in Frames(t) && g in pages && pages[g] == Filled(0)
    ensures var pages', t' := Write(pages, t.root, i, Pte(g, 1)), t.(mid := t.mid[i := g]);
            && TabOk(pages', t') && Frames(t') == Frames(t) + {g}
            && forall v: nat :: Flat(pages', t', v) == Flat(pages, t, v)
  {
    var pages', t' := Write(pages, t.root, i, Pte(g, 1)), t.(mid := t.mid[i := g]);
    MapAdd(t.mid, i, g);
    forall j: nat | j < ENTRIES
      ensures Points(pages', t'.root, j, t'.mid, j)
    {
      assert Points(pages, t.root, j, t.mid, j);
    }
    forall k: nat | k / 512 in t'.mid
      ensures Points(pages', t'.mid[k / 512], k % 512, t'.leaf, k)
    {
      if k / 512 != i {
        assert Points(pages, t.mid[k / 512], k % 512, t.leaf, k);
        assert t.mid[k / 512] in t.mid.Values;
      } else {
        assert k !in t.leaf;
      }
    }
    forall v: nat
      ensures Flat(pages', t', v) == Flat(pages, t, v)
    {
      if v / 512 in t.leaf { assert t.leaf[v / 512] in t.leaf.Values; }
    }
  }

  lemma MapAdd(m: map<nat, nat>, k: nat, x: nat)
    requires k !in m
    ensures m[k := x].Values == m.Values + {x}
  {
    assert m[k := x][k] == x;
    forall y | y in m.Values
      ensures y in m[k := x].Values
    {
      var j :| j in m && m[j] == y;
      assert m[k := x][j] == y;
    }
  }

  /** Nor does hanging one under a level-1 table. */
  lemma GrowLeaf(pages: Pages, t: Tab, k: nat, g: nat)
    requires TabOk(pages, t) && k / 512 in t.mid && k !in t.leaf && g !in Frames(t) && g in pages && pages[g] == Filled(0)
    ensures t.mid[k / 512] in pages
    ensures var pages', t' := Write(pages, t.mid[k / 512], k % 512, Pte(g, 1)), t.(leaf := t.leaf[k := g]);
            && TabOk(pages', t') && Frames(t') == Frames(t) + {g}
            && forall v: nat :: Flat(pages', t', v) == Flat(pages, t, v)
  {
    assert t.mid[k / 512] in t.mid.Values;
    var pages', t' := Write(pages, t.mid[k / 512], k % 512, Pte(g, 1)), t.(leaf := t.leaf[k := g]);
    MapAdd(t.leaf, k, g);
    forall j: nat | j < ENTRIES
      ensures Points(pages', t'.root, j, t'.mid, j)
    {
      assert Points(pages, t.root, j, t.mid, j);
    }
    forall h: nat | h / 512 in t'.mid
      ensures Points(pages', t'.mid[h / 512], h % 512, t'.leaf, h)
    {
      assert Points(pages, t.mid[h / 512], h % 512, t.leaf, h);
      assert t.mid[h / 512] in t.mid.Values;
      if h != k && h / 512 == k / 512 { assert h % 512 != k % 512; }
    }
    forall v: nat
      ensures Flat(pages', t', v) == Flat(pages, t, v)
    {
      if v / 512 in t.leaf { assert t.leaf[v / 512] in t.leaf.Values; }
    }
  }
}
