/** freePgtbl, uVmFree, procPagetable and uFreeUserVM: riscv-os/kernel/mm/vm.c and
    riscv-os/kernel/proc/proc.c. What is built is given back, page by page. */
module VmTeardown {
  import opened Common
  import opened PageAlloc
  import opened PageTable
  import opened Vm
  import opened VmSpace

  // ---- parts of a tree ----

  /** Table `key` of a level: the root, a level-1 table by root index, or a
      level-0 table by the group of pages that it serves. */
  predicate Present(t: Tab, level: nat, key: nat) {
    if level == 2 then key == 0 else if level == 1 then key in t.mid else key in t.leaf
  }

  function TableOf(t: Tab, level: nat, key: nat): nat
    requires Present(t, level, key)
  {
    if level == 2 then t.root else if level == 1 then t.mid[key] else t.leaf[key]
  }

  /** Key of the table below entry i. */
  function Below(key: nat, i: nat): nat { key * 512 + i }

  /** Page f belongs to the subtree of table `key`. */
  ghost predicate Under(t: Tab, level: nat, key: nat, f: nat)
    decreases level
  {
    || (Present(t, level, key) && f == TableOf(t, level, key))
    || (level > 0 && exists i: nat :: i < ENTRIES && Under(t, level - 1, Below(key, i), f))
  }

  /** ... of the subtrees below its first n entries. */
  ghost predicate UnderFirst(t: Tab, level: nat, key: nat, n: nat, f: nat) {
    level > 0 && exists i: nat :: i < n && Under(t, level - 1, Below(key, i), f)
  }

  /** The tables of level 0 whose pages lie under table `key`. */
  predicate Covers(level: nat, key: nat, g: nat) {
    if level == 2 then key == 0 else if level == 1 then g / 512 == key else g == key
  }

  lemma UnderLeaf(t: Tab, key: nat, f: nat)
    ensures Under(t, 0, key, f) <==> key in t.leaf && t.leaf[key] == f
  {
  }

  lemma UnderMid(t: Tab, key: nat, f: nat)
    requires Shape(t)
    ensures Under(t, 1, key, f) <==>
            (key in t.mid && t.mid[key] == f) || (exists g :: g in t.leaf && g / 512 == key && t.leaf[g] == f)
  {
    if g: nat :| g in t.leaf && g / 512 == key && t.leaf[g] == f {
      assert g == Below(key, g % 512);
      UnderLeaf(t, g, f);
      assert Under(t, 0, Below(key, g % 512), f);
    }
    if i: nat :| i < ENTRIES && Under(t, 0, Below(key, i), f) {
      UnderLeaf(t, Below(key, i), f);
      assert Below(key, i) / 512 == key;
    }
  }

  lemma UnderRoot(t: Tab, f: nat)
    requires Shape(t)
    ensures Under(t, 2, 0, f) <==> f in Frames(t)
  {
    if f in t.mid.Values {
      var i :| i in t.mid && t.mid[i] == f;
      UnderMid(t, i, f);
      assert Under(t, 1, Below(0, i), f);
    }
    if f in t.leaf.Values {
      var g :| g in t.leaf && t.leaf[g] == f;
      UnderMid(t, g / 512, f);
      assert Under(t, 1, Below(0, g / 512), f);
    }
    if i: nat :| i < ENTRIES && Under(t, 1, Below(0, i), f) {
      UnderMid(t, i, f);
    }
  }

  lemma ValuesOf(t: Tab)
    ensures forall i | i in t.mid :: t.mid[i] in t.mid.Values
    ensures forall g | g in t.leaf :: t.leaf[g] in t.leaf.Values
  {
  }

  /** A page belongs to one table of a level only. */
  lemma UnderOnce(t: Tab, level: nat, a: nat, b: nat, f: nat)
    requires Apart(t) && Shape(t) && level <= 1 && Under(t, level, a, f) && Under(t, level, b, f)
    ensures a == b
  {
    ValuesOf(t);
    if level == 0 {
      UnderLeaf(t, a, f);
      UnderLeaf(t, b, f);
    } else {
      UnderMid(t, a, f);
      UnderMid(t, b, f);
    }
  }

  /** A table is not part of the subtrees below it. */
  lemma UnderSelf(t: Tab, level: nat, key: nat, i: nat)
    requires Apart(t) && Shape(t) && 1 <= level <= 2 && Present(t, level, key) && i < ENTRIES
    ensures !Under(t, level - 1, Below(key, i), TableOf(t, level, key))
  {
    ValuesOf(t);
    if level == 1 { UnderLeaf(t, Below(key, i), t.mid[key]); } else { UnderMid(t, Below(key, i), t.root); }
  }

  // ---- freePgtbl ----

  /** Every mapping carries R, W or X, so that no leaf reads as a table. */
  ghost predicate LeavesOnly(pages: Pages, t: Tab) {
    forall v: nat | Flat(pages, t, v).Some? :: !Inner(Flat(pages, t, v).value)
  }

  ghost predicate NoLeaf(pages: Pages, t: Tab, level: nat, key: nat) {
    forall v: nat | Covers(level, key, v / 512) :: Flat(pages, t, v) == None
  }

  /** No leaf below entry i. */
  ghost predicate NoLeafBelow(pages: Pages, t: Tab, level: nat, key: nat, i: nat) {
    if level == 0 then Flat(pages, t, Below(key, i)) == None else NoLeaf(pages, t, level - 1, Below(key, i))
  }

  /** What entry i of a table says. */
  lemma EntryBelow(p0: Pages, t: Tab, level: nat, key: nat, i: nat)
    requires TabOk(p0, t) && level <= 2 && Present(t, level, key) && i < ENTRIES
    ensures TableOf(t, level, key) in p0
    ensures var e := p0[TableOf(t, level, key)][i];
            if level == 0 then Flat(p0, t, Below(key, i)) == (if V(e) then Some(e) else None)
            else (V(e) <==> Present(t, level - 1, Below(key, i)))
                 && (V(e) ==> Inner(e) && Frame(e) == TableOf(t, level - 1, Below(key, i)))
  {
    var g := Below(key, i);
    assert g / 512 == key && g % 512 == i;
    if level == 0 {
      assert t.leaf[key] in t.leaf.Values;
    } else if level == 1 {
      assert Points(p0, t.mid[g / 512], g % 512, t.leaf, g);
      if g in t.leaf { PteFields(t.leaf[g], 1); }
    } else {
      assert Points(p0, t.root, i, t.mid, i);
      if i in t.mid { PteFields(t.mid[i], 1); }
    }
  }

  /** An absent table covers no leaf and no page. */
  lemma AbsentBelow(p0: Pages, t: Tab, level: nat, key: nat)
    requires TabOk(p0, t) && level <= 1 && !Present(t, level, key)
    ensures NoLeaf(p0, t, level, key)
    ensures forall f: nat :: !Under(t, level, key, f)
  {
    forall f: nat
      ensures !Under(t, level, key, f)
    {
      if level == 0 { UnderLeaf(t, key, f); } else { UnderMid(t, key, f); }
    }
  }

  /** The subtree is whole: its pages are in use and hold what p0 holds. */
  ghost predicate Whole(pages: Pages, free: seq<nat>, p0: Pages, t: Tab, level: nat, key: nat) {
    forall f: nat | Under(t, level, key, f) :: f in pages && f in p0 && f !in free && pages[f] == p0[f]
  }

  /** The subtrees below the first n entries of the table have become free, and no
      other page but the table has changed. */
  ghost predicate FreedFirst(pages: Pages, free: seq<nat>, pages': Pages, free': seq<nat>, t: Tab, level: nat, key: nat, n: nat)
    requires Present(t, level, key)
  {
    && (forall f :: f in free' <==> f in free || UnderFirst(t, level, key, n, f))
    && (forall f | f in pages && f != TableOf(t, level, key) && !UnderFirst(t, level, key, n, f) :: f in pages' && pages'[f] == pages[f])
  }

  /** The whole subtree has become free, and no other page has changed. */
  ghost predicate FreedAll(pages: Pages, free: seq<nat>, pages': Pages, free': seq<nat>, t: Tab, level: nat, key: nat) {
    && (forall f :: f in free' <==> f in free || Under(t, level, key, f))
    && (forall f | f in pages && !Under(t, level, key, f) :: f in pages' && pages'[f] == pages[f])
  }

  /** The subtree below entry i is still whole when the first i are gone. */
  lemma ChildWhole(p: Pages, f: seq<nat>, p1: Pages, f1: seq<nat>, p0: Pages, t: Tab, level: nat, key: nat, i: nat)
    requires TabOk(p0, t) && 1 <= level <= 2 && Present(t, level, key) && i < ENTRIES
    requires Whole(p, f, p0, t, level, key) && FreedFirst(p, f, p1, f1, t, level, key, i)
    ensures Whole(p1, f1, p0, t, level - 1, Below(key, i))
  {
    forall g: nat | Under(t, level - 1, Below(key, i), g)
      ensures g in p1 && g in p0 && g !in f1 && p1[g] == p0[g]
    {
      assert Under(t, level, key, g);
      UnderSelf(t, level, key, i);
      if j: nat :| j < i && Under(t, level - 1, Below(key, j), g) {
        UnderOnce(t, level - 1, Below(key, i), Below(key, j), g);
        assert false;
      }
    }
  }

  lemma UnderFirstNext(t: Tab, level: nat, key: nat, i: nat, f: nat)
    requires level > 0
    ensures UnderFirst(t, level, key, i + 1, f) <==> UnderFirst(t, level, key, i, f) || Under(t, level - 1, Below(key, i), f)
  {
  }

  lemma FreedNext(p: Pages, f: seq<nat>, p1: Pages, f1: seq<nat>, p2: Pages, f2: seq<nat>, p3: Pages, t: Tab, level: nat, key: nat, i: nat)
    requires level > 0 && Present(t, level, key) && FreedFirst(p, f, p1, f1, t, level, key, i)
    requires FreedAll(p1, f1, p2, f2, t, level - 1, Below(key, i))
    requires forall g | g in p2 && g != TableOf(t, level, key) :: g in p3 && p3[g] == p2[g]
    ensures FreedFirst(p, f, p3, f2, t, level, key, i + 1)
  {
    forall g: nat
      ensures UnderFirst(t, level, key, i + 1, g) <==> UnderFirst(t, level, key, i, g) || Under(t, level - 1, Below(key, i), g)
    {
      UnderFirstNext(t, level, key, i, g);
    }
  }

  lemma FreedSkip(p: Pages, f: seq<nat>, p1: Pages, f1: seq<nat>, p0: Pages, t: Tab, level: nat, key: nat, i: nat)
    requires TabOk(p0, t) && level <= 2 && Present(t, level, key) && i < ENTRIES
    requires level > 0 ==> !Present(t, level - 1, Below(key, i))
    requires FreedFirst(p, f, p1, f1, t, level, key, i)
    ensures FreedFirst(p, f, p1, f1, t, level, key, i + 1)
    ensures level > 0 ==> NoLeafBelow(p0, t, level, key, i)
  {
    if level > 0 {
      AbsentBelow(p0, t, level - 1, Below(key, i));
      forall g: nat
        ensures UnderFirst(t, level, key, i + 1, g) <==> UnderFirst(t, level, key, i, g)
      {
        UnderFirstNext(t, level, key, i, g);
      }
    }
  }

  /** With all 512 entries done, the table itself is what is left. */
  lemma FreedTable(p: Pages, f: seq<nat>, p1: Pages, f1: seq<nat>, p2: Pages, f2: seq<nat>, p0: Pages, t: Tab, level: nat, key: nat)
    requires TabOk(p0, t) && level <= 2 && Present(t, level, key) && FreedFirst(p, f, p1, f1, t, level, key, ENTRIES)
    requires f2 == [TableOf(t, level, key)] + f1
    requires forall g | g in p1 && g != TableOf(t, level, key) :: g in p2 && p2[g] == p1[g]
    ensures FreedAll(p, f, p2, f2, t, level, key)
  {
    forall g: nat
      ensures Under(t, level, key, g) <==> g == TableOf(t, level, key) || UnderFirst(t, level, key, ENTRIES, g)
    {
    }
  }

  lemma TableNotFreed(p: Pages, f: seq<nat>, p1: Pages, f1: seq<nat>, p0: Pages, t: Tab, level: nat, key: nat, n: nat)
    requires TabOk(p0, t) && level <= 2 && Present(t, level, key) && n <= ENTRIES
    requires Whole(p, f, p0, t, level, key) && FreedFirst(p, f, p1, f1, t, level, key, n)
    ensures TableOf(t, level, key) !in f1
  {
    assert Under(t, level, key, TableOf(t, level, key));
    if i: nat :| level > 0 && i < n && Under(t, level - 1, Below(key, i), TableOf(t, level, key)) {
      UnderSelf(t, level, key, i);
      assert false;
    }
  }

  lemma LeafBelow(p0: Pages, t: Tab, level: nat, key: nat, i: nat)
    requires TabOk(p0, t) && level <= 2 && Present(t, level, key) && i < ENTRIES && !NoLeafBelow(p0, t, level, key, i)
    ensures !NoLeaf(p0, t, level, key)
  {
    var g := Below(key, i);
    assert g / 512 == key;
    if level > 0 {
      var v: nat :| Covers(level - 1, g, v / 512) && Flat(p0, t, v) != None;
      assert Covers(level, key, v / 512);
    }
  }

  lemma NoLeafAtAll(p0: Pages, t: Tab, level: nat, key: nat)
    requires TabOk(p0, t) && level <= 2 && Present(t, level, key)
    requires forall i: nat | i < ENTRIES :: NoLeafBelow(p0, t, level, key, i)
    ensures NoLeaf(p0, t, level, key)
  {
    forall v: nat | Covers(level, key, v / 512)
      ensures Flat(p0, t, v) == None
    {
      if level == 0 {
        assert NoLeafBelow(p0, t, level, key, v % 512);
      } else if level == 1 {
        assert NoLeafBelow(p0, t, level, key, (v / 512) % 512);
      } else if v / 512 in t.leaf {
        assert NoLeafBelow(p0, t, level, key, (v / 512) / 512);
      }
    }
  }

  /** freePgtbl on the subtree of a table: it gives back exactly the tables of the
      subtree, and it panics (false) exactly when a leaf is still mapped there. */
  method FreePgtbl(k: Kmem, table: nat, level: nat, ghost t: Tab, ghost key: nat, ghost p0: Pages) returns (ok: bool)
    requires k.Valid() && TabOk(p0, t) && level <= 2 && Present(t, level, key) && table == TableOf(t, level, key)
    requires LeavesOnly(p0, t) && Whole(k.pages, k.free, p0, t, level, key)
    modifies k
    ensures k.Valid()
    ensures ok <==> NoLeaf(p0, t, level, key)
    ensures ok ==> FreedAll(old(k.pages), old(k.free), k.pages, k.free, t, level, key)
    decreases level
  {
    hide TabOk, Whole, FreedFirst, FreedAll, NoLeaf, Under, Chain, Agree;
    FreeStart(k.pages, k.free, p0, t, level, key);
    var i := 0;
    while i < ENTRIES
      invariant i <= ENTRIES && k.Valid()
      invariant FreedFirst(old(k.pages), old(k.free), k.pages, k.free, t, level, key, i)
      invariant table in k.pages && forall j | i <= j < ENTRIES :: k.pages[table][j] == p0[table][j]
      invariant forall j: nat | j < i :: NoLeafBelow(p0, t, level, key, j)
    {
      EntryBelow(p0, t, level, key, i);
      var pte := k.pages[table][i];
      if V(pte) && Inner(pte) {
        assert level > 0;
        ghost var p1, f1 := k.pages, k.free;
        ChildWhole(old(k.pages), old(k.free), p1, f1, p0, t, level, key, i);
        ok := FreePgtbl(k, Frame(pte), level - 1, t, Below(key, i), p0);
        if !ok {
          LeafBelow(p0, t, level, key, i);
          return false;
        }
        ghost var p2 := k.pages;
        TableStill(old(k.pages), old(k.free), p1, f1, p2, k.free, p0, t, level, key, i);
        k.Store(table, k.pages[table][i := 0]);
        FreedNext(old(k.pages), old(k.free), p1, f1, p2, k.free, k.pages, t, level, key, i);
      } else if V(pte) {
        LeafBelow(p0, t, level, key, i);
        return false;
      } else {
        FreedSkip(old(k.pages), old(k.free), k.pages, k.free, p0, t, level, key, i);
      }
      i := i + 1;
    }
    NoLeafAtAll(p0, t, level, key);
    TableNotFreed(old(k.pages), old(k.free), k.pages, k.free, p0, t, level, key, ENTRIES);
    ghost var p1, f1 := k.pages, k.free;
    ok := k.Free(table);
    FreedTable(old(k.pages), old(k.free), p1, f1, k.pages, k.free, p0, t, level, key);
  }

  lemma FreeStart(p: Pages, f: seq<nat>, p0: Pages, t: Tab, level: nat, key: nat)
    requires Present(t, level, key) && Whole(p, f, p0, t, level, key)
    ensures FreedFirst(p, f, p, f, t, level, key, 0)
    ensures TableOf(t, level, key) in p && TableOf(t, level, key) in p0 && p[TableOf(t, level, key)] == p0[TableOf(t, level, key)]
  {
    assert Under(t, level, key, TableOf(t, level, key));
  }

  /** The table is in use and unchanged after a subtree below it has gone. */
  lemma TableStill(p: Pages, f: seq<nat>, p1: Pages, f1: seq<nat>, p2: Pages, f2: seq<nat>, p0: Pages, t: Tab, level: nat, key: nat, i: nat)
    requires TabOk(p0, t) && 1 <= level <= 2 && Present(t, level, key) && i < ENTRIES
    requires Whole(p, f, p0, t, level, key) && FreedFirst(p, f, p1, f1, t, level, key, i) && TableOf(t, level, key) in p1
    requires FreedAll(p1, f1, p2, f2, t, level - 1, Below(key, i))
    ensures TableOf(t, level, key) !in f2 && TableOf(t, level, key) in p2 && p2[TableOf(t, level, key)] == p1[TableOf(t, level, key)]
  {
    TableNotFreed(p, f, p1, f1, p0, t, level, key, i);
    UnderSelf(t, level, key, i);
  }
}
