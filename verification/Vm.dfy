/** walk, mapPages, uVmUnmap, uvmcopy and freePgtbl of riscv-os/kernel/mm/vm.c in
    their own form, on memory that the page allocator hands out. */
module Vm {
  import opened Common
  import opened PageAlloc
  import opened PageTable

  /** The tree's pages are in use. */
  ghost predicate InUse(free: seq<nat>, t: Tab) {
    forall f | f in Frames(t) :: f !in free
  }

  /** From one state to a later one the pages of the tree and the free pages are
      together the same, and no other page has changed. */
  ghost predicate Kept(pages: Pages, free: seq<nat>, t: Tab, pages': Pages, free': seq<nat>, t': Tab) {
    && t'.root == t.root
    && Frames(t) <= Frames(t')
    && (forall f :: (f in Frames(t') || f in free') <==> (f in Frames(t) || f in free))
    && (forall f | f in pages' && f !in Frames(t') :: f in pages && pages'[f] == pages[f])
  }

  ghost predicate SameFlat(pages: Pages, t: Tab, pages': Pages, t': Tab) {
    forall v: nat :: Flat(pages', t', v) == Flat(pages, t, v)
  }

  /** The tree has only grown: besides, every mapping is as before. */
  ghost predicate Grew(pages: Pages, free: seq<nat>, t: Tab, pages': Pages, free': seq<nat>, t': Tab) {
    Kept(pages, free, t, pages', free', t') && SameFlat(pages, t, pages', t')
  }

  ghost predicate TreeOk(k: Kmem, t: Tab)
    reads k
  {
    k.Valid() && TabOk(k.pages, t) && InUse(k.free, t)
  }

  /** Where walk stands after following the tree down to `level`. */
  predicate AtLevel(t: Tab, level: nat, table: nat, v: nat) {
    if level == 2 then table == t.root
    else if level == 1 then I2(v) in t.mid && table == t.mid[I2(v)]
    else v / 512 in t.leaf && table == t.leaf[v / 512]
  }

  /** Index of page v in a table of this level. */
  function Index(level: nat, v: nat): nat {
    if level == 2 then I2(v) else if level == 1 then I1(v) else I0(v)
  }

  lemma IndexSplit(v: nat)
    ensures I2(v) == (v / 512) / 512 && I1(v) == (v / 512) % 512
  {
  }

  /** The tree with page g hung below the table at `level`. */
  function Grown(t: Tab, level: nat, v: nat, g: nat): Tab {
    if level == 2 then t.(mid := t.mid[I2(v) := g]) else t.(leaf := t.leaf[v / 512 := g])
  }

  function One(c: bool): nat { if c then 1 else 0 }

  /** How many tables on the path of page v the tree lacks. */
  function Missing(t: Tab, v: nat): nat { One(I2(v) !in t.mid) + One(v / 512 !in t.leaf) }

  /** The tables that t' has and t has not are those on the paths of pages v .. v+n. */
  ghost predicate Paths(t: Tab, t': Tab, v: nat, n: nat) {
    && (forall i: nat :: i in t'.mid <==> i in t.mid || (n > 0 && I2(v) <= i <= I2(v + n - 1)))
    && (forall g: nat :: g in t'.leaf <==> g in t.leaf || (n > 0 && v / 512 <= g <= (v + n - 1) / 512))
  }

  /** How many tables those are: page w needs one that no page before it has needed. */
  function Tables(t: Tab, v: nat, n: nat): nat {
    if n == 0 then 0
    else Tables(t, v, n - 1) + Fresh(t, v, v + n - 1)
  }

  function Fresh(t: Tab, v: nat, w: nat): nat {
    One(I2(w) !in t.mid && (w <= v || I2(w - 1) != I2(w))) + One(w / 512 !in t.leaf && (w <= v || (w - 1) / 512 != w / 512))
  }

  lemma FreshMissing(t: Tab, t': Tab, v: nat, n: nat)
    requires Paths(t, t', v, n)
    ensures Missing(t', v + n) == Fresh(t, v, v + n)
  {
    if n > 0 {
      IndexStep(v + n - 1);
      IndexMono(v, v + n - 1);
    }
  }

  lemma IndexStep(w: nat)
    ensures I2(w) <= I2(w + 1) <= I2(w) + 1 && w / 512 <= (w + 1) / 512 <= w / 512 + 1
  {
  }

  lemma IndexMono(v: nat, w: nat)
    requires v <= w
    ensures I2(v) <= I2(w) && v / 512 <= w / 512
  {
  }

  lemma PathsNext(t: Tab, t1: Tab, t2: Tab, v: nat, n: nat)
    requires Paths(t, t1, v, n) && Paths(t1, t2, v + n, 1)
    ensures Paths(t, t2, v, n + 1)
  {
    if n > 0 {
      IndexStep(v + n - 1);
      IndexMono(v, v + n - 1);
    }
  }

  lemma {:induction false} TablesMono(t: Tab, v: nat, m: nat, n: nat)
    requires m <= n
    ensures Tables(t, v, m) <= Tables(t, v, n)
    decreases n
  {
    if m < n { TablesMono(t, v, m, n - 1); }
  }

  lemma TablesOne(t: Tab, v: nat)
    ensures Tables(t, v, 1) == Missing(t, v)
  {
    assert Tables(t, v, 0) == 0;
  }

  /** What walk has added on its way down to `level`. */
  ghost predicate PathTo(t: Tab, t': Tab, v: nat, level: nat) {
    && (forall i: nat :: i in t'.mid <==> i in t.mid || (level <= 1 && i == I2(v)))
    && (forall g: nat :: g in t'.leaf <==> g in t.leaf || (level == 0 && g == v / 512))
  }

  function MissingTo(t: Tab, v: nat, level: nat): nat {
    One(level <= 1 && I2(v) !in t.mid) + One(level == 0 && v / 512 !in t.leaf)
  }

  lemma GrowTree(pages: Pages, t: Tab, level: nat, table: nat, v: nat, g: nat)
    requires TabOk(pages, t) && 1 <= level <= 2 && v < VPNS && AtLevel(t, level, table, v)
    requires table in pages && !V(pages[table][Index(level, v)])
    requires g in pages && g !in Frames(t) && pages[g] == Filled(0)
    ensures var pages', t' := Write(pages, table, Index(level, v), Pte(g, 1)), Grown(t, level, v, g);
            && TabOk(pages', t') && Frames(t') == Frames(t) + {g} && AtLevel(t', level - 1, g, v)
            && forall w: nat :: Flat(pages', t', w) == Flat(pages, t, w)
  {
    hide TabOk, Flat, Points, Frames;
    SlotEmpty(pages, t, level, table, v);
    if level == 2 {
      GrowMid(pages, t, I2(v), g);
    } else {
      GrowLeaf(pages, t, v / 512, g);
    }
  }

  /** An entry that is not valid has no table below it. */
  lemma SlotEmpty(pages: Pages, t: Tab, level: nat, table: nat, v: nat)
    requires TabOk(pages, t) && 1 <= level <= 2 && v < VPNS && AtLevel(t, level, table, v)
    requires table in pages && !V(pages[table][Index(level, v)])
    ensures I2(v) < ENTRIES
    ensures if level == 2 then table == t.root && I2(v) !in t.mid
            else (v / 512) / 512 in t.mid && table == t.mid[(v / 512) / 512] && v / 512 !in t.leaf && I1(v) == (v / 512) % 512
  {
    IndexSplit(v);
    if level == 2 {
      assert Points(pages, t.root, I2(v), t.mid, I2(v));
      if I2(v) in t.mid { PteFields(t.mid[I2(v)], 1); }
    } else {
      assert Points(pages, t.mid[(v / 512) / 512], (v / 512) % 512, t.leaf, v / 512);
      if v / 512 in t.leaf { PteFields(t.leaf[v / 512], 1); }
    }
  }

  /** Taking page g from the free list, clearing it and hanging it into the tree. */
  lemma GrowKeeps(pages: Pages, free: seq<nat>, free': seq<nat>, t: Tab, level: nat, table: nat, v: nat, g: nat)
    requires TabOk(pages, t) && InUse(free, t) && 1 <= level <= 2 && v < VPNS && AtLevel(t, level, table, v)
    requires table in pages && !V(pages[table][Index(level, v)])
    requires free == [g] + free' && g in pages && g !in free'
    ensures table != g && table !in free'
    ensures var pages', t' := Write(pages[g := Filled(0)], table, Index(level, v), Pte(g, 1)), Grown(t, level, v, g);
            && TabOk(pages', t') && InUse(free', t') && AtLevel(t', level - 1, g, v)
            && Grew(pages, free, t, pages', free', t')
  {
    assert forall f :: f in free <==> f == g || f in free';
    assert g in free;
    assert table in Frames(t) by {
      if level == 2 { } else { assert t.mid[I2(v)] in t.mid.Values; }
    }
    TabFrame(pages, pages[g := Filled(0)], t);
    GrowTree(pages[g := Filled(0)], t, level, table, v, g);
  }

  /** walk's allocation of a missing table below the table at `level`. */
  method GrowLevel(k: Kmem, table: nat, level: nat, v: nat, ghost t: Tab) returns (g: nat, ghost t': Tab)
    requires TreeOk(k, t) && 1 <= level <= 2 && v < VPNS && AtLevel(t, level, table, v)
    requires table in k.pages && !V(k.pages[table][Index(level, v)])
    modifies k
    ensures TreeOk(k, t')
    ensures g == 0 <==> old(k.free) == []
    ensures if g == 0 then k.free == [] else |k.free| + 1 == |old(k.free)|
    ensures g != 0 ==> AtLevel(t', level - 1, g, v) && t' == Grown(t, level, v, g)
    ensures g == 0 ==> t' == t
    ensures Grew(old(k.pages), old(k.free), t, k.pages, k.free, t')
  {
    t' := t;
    g := AllocCleared(k);
    if g != 0 {
      GrowKeeps(old(k.pages), old(k.free), k.free, t, level, table, v, g);
      k.Store(table, k.pages[table][Index(level, v) := Pte(g, 1)]);
      t' := Grown(t, level, v, g);
    }
  }

  lemma GrewNothing(pages: Pages, free: seq<nat>, t: Tab)
    ensures Grew(pages, free, t, pages, free, t)
  {
  }

  lemma GrewTrans(p0: Pages, f0: seq<nat>, t0: Tab, p1: Pages, f1: seq<nat>, t1: Tab, p2: Pages, f2: seq<nat>, t2: Tab)
    requires Grew(p0, f0, t0, p1, f1, t1) && Grew(p1, f1, t1, p2, f2, t2)
    ensures Grew(p0, f0, t0, p2, f2, t2)
  {
  }

  lemma Follow(pages: Pages, t: Tab, level: nat, table: nat, v: nat)
    requires TabOk(pages, t) && 1 <= level <= 2 && v < VPNS && AtLevel(t, level, table, v)
    ensures table in pages && table in Frames(t)
    ensures Index(level, v) < ENTRIES
    ensures V(pages[table][Index(level, v)]) ==> AtLevel(t, level - 1, Frame(pages[table][Index(level, v)]), v)
    ensures !V(pages[table][Index(level, v)]) ==> v / 512 !in t.leaf
  {
    IndexSplit(v);
    if level == 2 {
      assert Points(pages, t.root, I2(v), t.mid, I2(v));
      if I2(v) in t.mid { PteFields(t.mid[I2(v)], 1); }
    } else {
      assert t.mid[I2(v)] in t.mid.Values;
      assert Points(pages, t.mid[(v / 512) / 512], (v / 512) % 512, t.leaf, v / 512);
      if v / 512 in t.leaf { PteFields(t.leaf[v / 512], 1); }
    }
  }

  /** walk: the level-0 table that serves page v. With `alloc` it adds missing
      tables, which changes no mapping; it fails only when memory runs out.
      Without, it changes nothing and fails only when the table is missing. */
  method Walk(k: Kmem, root: nat, v: nat, alloc: bool, ghost t: Tab) returns (r: Option<nat>, ghost t': Tab)
    requires TreeOk(k, t) && t.root == root && v < VPNS
    modifies k
    ensures TreeOk(k, t')
    ensures Grew(old(k.pages), old(k.free), t, k.pages, k.free, t')
    ensures r.Some? ==> AtLevel(t', 0, r.value, v)
    ensures alloc ==> (r.Some? <==> |old(k.free)| >= Missing(t, v))
    ensures alloc && r.Some? ==> Paths(t, t', v, 1) && |old(k.free)| == |k.free| + Missing(t, v)
    ensures !alloc && r.None? ==> v / 512 !in t.leaf
    ensures |old(k.free)| <= |k.free| + 2
    ensures !alloc ==> t' == t && k.pages == old(k.pages) && k.free == old(k.free)
  {
    hide Kept, SameFlat, Grew, TabOk, InUse, Kmem.Valid, PathTo, Missing, MissingTo, Paths;
    t' := t;
    GrewNothing(k.pages, k.free, t);
    PathStart(t, v);
    var table, level := root, 2;
    while level > 0
      invariant level <= 2 && |old(k.free)| == |k.free| + if alloc then MissingTo(t, v, level) else 0
      invariant alloc ==> PathTo(t, t', v, level)
      invariant TreeOk(k, t') && AtLevel(t', level, table, v)
      invariant Grew(old(k.pages), old(k.free), t, k.pages, k.free, t')
      invariant !alloc ==> t' == t && k.pages == old(k.pages) && k.free == old(k.free)
    {
      Follow(k.pages, t', level, table, v);
      var pte := k.pages[table][Index(level, v)];
      if V(pte) {
        table := Frame(pte);
        if alloc { PathFollow(t, t', v, level, table); }
      } else {
        if !alloc { return None, t'; }
        ghost var p1, f1, t1 := k.pages, k.free, t';
        SlotEmpty(p1, t1, level, table, v);
        PathGrow(p1, t, t1, v, level);
        table, t' := GrowLevel(k, table, level, v, t');
        GrewTrans(old(k.pages), old(k.free), t, p1, f1, t1, k.pages, k.free, t');
        if table == 0 { return None, t'; }
        PathGrown(t, t1, v, level, table);
      }
      level := level - 1;
    }
    if alloc { PathDone(t, t', v); }
    return Some(table), t';
  }

  lemma PathStart(t: Tab, v: nat)
    ensures PathTo(t, t, v, 2) && MissingTo(t, v, 2) == 0 && MissingTo(t, v, 1) <= 1 && MissingTo(t, v, 0) <= 2
    ensures MissingTo(t, v, 0) == Missing(t, v)
  {
  }

  lemma PathFollow(t: Tab, t': Tab, v: nat, level: nat, table: nat)
    requires PathTo(t, t', v, level) && 1 <= level <= 2 && AtLevel(t', level - 1, table, v)
    ensures PathTo(t, t', v, level - 1) && MissingTo(t, v, level - 1) == MissingTo(t, v, level)
  {
  }

  lemma PathGrow(p: Pages, t: Tab, t': Tab, v: nat, level: nat)
    requires PathTo(t, t', v, level) && 1 <= level <= 2
    requires if level == 2 then I2(v) !in t'.mid else v / 512 !in t'.leaf
    ensures MissingTo(t, v, level - 1) == MissingTo(t, v, level) + 1 && MissingTo(t, v, level) < Missing(t, v)
  {
  }

  lemma PathGrown(t: Tab, t': Tab, v: nat, level: nat, g: nat)
    requires PathTo(t, t', v, level) && 1 <= level <= 2
    ensures PathTo(t, Grown(t', level, v, g), v, level - 1)
  {
  }

  lemma PathDone(t: Tab, t': Tab, v: nat)
    requires PathTo(t, t', v, 0)
    ensures Paths(t, t', v, 1) && MissingTo(t, v, 0) == Missing(t, v)
  {
  }

  // ---- mapPages ----

  lemma KeptTrans(p0: Pages, f0: seq<nat>, t0: Tab, p1: Pages, f1: seq<nat>, t1: Tab, p2: Pages, f2: seq<nat>, t2: Tab)
    requires Kept(p0, f0, t0, p1, f1, t1) && Kept(p1, f1, t1, p2, f2, t2)
    ensures Kept(p0, f0, t0, p2, f2, t2) && t2.root == t0.root
  {
  }

  /** The flat map after pages v .. v+n have been mapped to frames f, f+1, ... */
  ghost predicate MappedRange(pages: Pages, t: Tab, pages': Pages, t': Tab, v: nat, n: nat, f: nat, perm: nat) {
    forall w: nat ::
      Flat(pages', t', w) == if v <= w < v + n then Some(Pte(f + (w - v), WithV(perm))) else Flat(pages, t, w)
  }

  /** Storing a leaf entry. */
  lemma SetEntry(pages: Pages, free: seq<nat>, t: Tab, v: nat, table: nat, pte: nat)
    requires TabOk(pages, t) && AtLevel(t, 0, table, v)
    ensures table in pages && table in Frames(t)
    ensures var pages' := Write(pages, table, I0(v), pte);
            && TabOk(pages', t)
            && Kept(pages, free, t, pages', free, t)
            && Flat(pages', t, v) == (if V(pte) then Some(pte) else None)
            && forall w: nat | w != v :: Flat(pages', t, w) == Flat(pages, t, w)
  {
    assert t.leaf[v / 512] in t.leaf.Values;
    WriteLeaf(pages, t, v, pte);
  }

  lemma MappedNext(p0: Pages, t0: Tab, p1: Pages, t1: Tab, p2: Pages, t2: Tab, p3: Pages, v: nat, i: nat, f: nat, perm: nat)
    requires perm < 1024 && MappedRange(p0, t0, p1, t1, v, i, f, perm) && SameFlat(p1, t1, p2, t2)
    requires Flat(p3, t2, v + i) == Some(Pte(f + i, WithV(perm)))
    requires forall w: nat | w != v + i :: Flat(p3, t2, w) == Flat(p2, t2, w)
    ensures MappedRange(p0, t0, p3, t2, v, i + 1, f, perm)
  {
  }

  /** *pte = value, for the entry of page v in the table that walk found. */
  method SetLeaf(k: Kmem, table: nat, v: nat, pte: nat, ghost t: Tab)
    requires TreeOk(k, t) && AtLevel(t, 0, table, v)
    modifies k`pages
    ensures TreeOk(k, t)
    ensures Kept(old(k.pages), k.free, t, k.pages, k.free, t)
    ensures Flat(k.pages, t, v) == if V(pte) then Some(pte) else None
    ensures forall w: nat | w != v :: Flat(k.pages, t, w) == Flat(old(k.pages), t, w)
  {
    SetEntry(k.pages, k.free, t, v, table, pte);
    k.Store(table, k.pages[table][I0(v) := pte]);
  }

  lemma EntryOf(pages: Pages, t: Tab, v: nat, table: nat)
    requires TabOk(pages, t) && AtLevel(t, 0, table, v)
    ensures table in pages
    ensures Flat(pages, t, v) == if V(pages[table][I0(v)]) then Some(pages[table][I0(v)]) else None
  {
    assert t.leaf[v / 512] in t.leaf.Values;
  }

  lemma SameFlatAt(p0: Pages, t0: Tab, p1: Pages, t1: Tab, v: nat)
    requires SameFlat(p0, t0, p1, t1)
    ensures Flat(p1, t1, v) == Flat(p0, t0, v)
  {
  }

  datatype MapResult = Mapped | OutOfMemory | Remapped   // Remapped stands for the panic

  /** One turn of mapPages' loop: walk to page v and set its entry. */
  method MapOne(k: Kmem, root: nat, v: nat, f: nat, perm: nat, ghost t: Tab) returns (r: MapResult, ghost t': Tab)
    requires TreeOk(k, t) && t.root == root && v < VPNS && perm < 1024
    modifies k
    ensures TreeOk(k, t')
    ensures Kept(old(k.pages), old(k.free), t, k.pages, k.free, t')
    ensures r.Mapped? ==> Flat(old(k.pages), t, v) == None && MappedRange(old(k.pages), t, k.pages, t', v, 1, f, perm)
    ensures !r.Mapped? ==> SameFlat(old(k.pages), t, k.pages, t')
    ensures r.OutOfMemory? <==> |old(k.free)| < Missing(t, v)
    ensures r.Mapped? ==> Paths(t, t', v, 1) && |old(k.free)| == |k.free| + Missing(t, v)
    ensures r.Remapped? ==> Flat(old(k.pages), t, v).Some?
    ensures |old(k.free)| <= |k.free| + 2
  {
    hide Kept, MappedRange, SameFlat, TabOk, InUse, Kmem.Valid, Flat, Pte, Missing, Paths;
    var table: Option<nat>;
    table, t' := Walk(k, root, v, true, t);
    SameFlatAt(old(k.pages), t, k.pages, t', v);
    if table.None? { return OutOfMemory, t'; }
    EntryOf(k.pages, t', v, table.value);
    if V(k.pages[table.value][I0(v)]) { return Remapped, t'; }
    ghost var p1 := k.pages;
    PteFields(f, WithV(perm));
    SetLeaf(k, table.value, v, Pte(f, WithV(perm)), t');
    KeptTrans(old(k.pages), old(k.free), t, p1, k.free, t', k.pages, k.free, t');
    MapStart(old(k.pages), old(k.free), t, v, f, perm);
    MappedNext(old(k.pages), t, old(k.pages), t, p1, t', k.pages, v, 0, f, perm);
    return Mapped, t';
  }

  /** mapPages of n > 0 pages. It maps all of them, or stops with the first
      `done` mapped: at a page that is mapped already, or out of memory. */
  method MapPages(k: Kmem, root: nat, v: nat, n: nat, f: nat, perm: nat, ghost t: Tab)
    returns (r: MapResult, ghost t': Tab, ghost done: nat)
    requires TreeOk(k, t) && t.root == root && 0 < n && v + n <= VPNS && perm < 1024
    modifies k
    ensures TreeOk(k, t')
    ensures Kept(old(k.pages), old(k.free), t, k.pages, k.free, t')
    ensures done <= n && (r.Mapped? <==> done == n)
    ensures MappedRange(old(k.pages), t, k.pages, t', v, done, f, perm)
    ensures r.OutOfMemory? ==> |old(k.free)| < Tables(t, v, n)
    ensures r.Mapped? ==> Paths(t, t', v, n) && |old(k.free)| == |k.free| + Tables(t, v, n)
    ensures r.Mapped? ==> forall w: nat | v <= w < v + n :: Flat(old(k.pages), t, w) == None
    ensures |old(k.free)| <= |k.free| + 2 * n
    ensures r.Remapped? ==> Flat(old(k.pages), t, v + done).Some?
  {
    hide TreeOk, Kept, MappedRange, SameFlat, Flat, Paths, Missing, Fresh;
    t', done := t, 0;
    MapStart(k.pages, k.free, t, v, f, perm);
    PathsStart(t, v);
    var i := 0;
    while i < n
      invariant i == done <= n && |old(k.free)| <= |k.free| + 2 * i
      invariant Paths(t, t', v, i) && |old(k.free)| == |k.free| + Tables(t, v, i)
      invariant forall w: nat | v <= w < v + i :: Flat(old(k.pages), t, w) == None
      invariant TreeOk(k, t') && t'.root == root
      invariant Kept(old(k.pages), old(k.free), t, k.pages, k.free, t')
      invariant MappedRange(old(k.pages), t, k.pages, t', v, i, f, perm)
    {
      ghost var p1, f1, t1 := k.pages, k.free, t';
      FreshMissing(t, t1, v, i);
      TablesMono(t, v, i + 1, n);
      r, t' := MapOne(k, root, v + i, f + i, perm, t');
      KeptTrans(old(k.pages), old(k.free), t, p1, f1, t1, k.pages, k.free, t');
      MapTurn(old(k.pages), t, p1, t1, k.pages, t', v, i, f, perm, r.Mapped?);
      if !r.Mapped? { return r, t', done; }
      PathsNext(t, t1, t', v, i);
      i, done := i + 1, done + 1;
    }
    r := Mapped;
  }

  lemma PathsStart(t: Tab, v: nat)
    ensures Paths(t, t, v, 0)
  {
  }

  lemma MapStart(p: Pages, free: seq<nat>, t: Tab, v: nat, f: nat, perm: nat)
    ensures Kept(p, free, t, p, free, t) && MappedRange(p, t, p, t, v, 0, f, perm)
  {
  }

  lemma MapTurn(p0: Pages, t0: Tab, p1: Pages, t1: Tab, p2: Pages, t2: Tab, v: nat, i: nat, f: nat, perm: nat, ok: bool)
    requires MappedRange(p0, t0, p1, t1, v, i, f, perm)
    requires if ok then MappedRange(p1, t1, p2, t2, v + i, 1, f + i, perm) else SameFlat(p1, t1, p2, t2)
    ensures MappedRange(p0, t0, p2, t2, v, if ok then i + 1 else i, f, perm)
    ensures Flat(p1, t1, v + i) == Flat(p0, t0, v + i)
  {
  }
}
