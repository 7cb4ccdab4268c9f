/** The life of an address space: procPagetable, the memory side of kfork,
    uFreeUserVM (riscv-os/kernel/proc/proc.c), uVmCreate, uVmFree and uVmAlloc
    (riscv-os/kernel/mm/vm.c). */
module VmLife {
  import opened Common
  import opened PageAlloc
  import opened PageTable
  import opened Vm
  import opened VmSpace
  import opened VmTeardown
  import opened VmBuild

  // ---- uVmFree ----

  /** No page from n on is mapped. */
  ghost predicate NoneFrom(p: Pages, t: Tab, n: nat) {
    forall v: nat | n <= v :: Flat(p, t, v) == None
  }

  /** The tables and the frames of the first n pages have become free; no other
      page in use has changed. */
  ghost predicate Gone(p0: Pages, f0: seq<nat>, t: Tab, n: nat, p: Pages, f: seq<nat>) {
    && (forall h :: h in f <==> h in f0 || h in Frames(t) || Holds(p0, t, 0, n, h))
    && (forall h | h in p0 && h !in f0 && h !in Frames(t) && !Holds(p0, t, 0, n, h) :: h in p && p[h] == p0[h])
  }

  lemma GoneAfter(p0: Pages, f0: seq<nat>, t: Tab, n: nat, p1: Pages, f1: seq<nat>, p2: Pages, f2: seq<nat>)
    requires TabOk(p0, t) && Unmap(p0, f0, t, p1, f1, 0, n, true) && FreedAll(p1, f1, p2, f2, t, 2, 0)
    ensures Gone(p0, f0, t, n, p2, f2)
  {
    hide Flat, Under, TabOk;
    forall h: nat
      ensures Under(t, 2, 0, h) <==> h in Frames(t)
    {
      TreeShape(p0, t);
      UnderRoot(t, h);
    }
  }

  lemma TreeShape(p: Pages, t: Tab)
    requires TabOk(p, t)
    ensures Shape(t)
  {
  }

  lemma WholeTree(p: Pages, f: seq<nat>, t: Tab)
    requires TabOk(p, t) && InUse(f, t)
    ensures Present(t, 2, 0) && TableOf(t, 2, 0) == t.root && Whole(p, f, p, t, 2, 0)
  {
    hide Under;
    forall h: nat | Under(t, 2, 0, h)
      ensures h in p && h !in f
    {
      UnderRoot(t, h);
    }
  }

  lemma LeavesLeft(p0: Pages, f0: seq<nat>, t: Tab, n: nat, p1: Pages, f1: seq<nat>)
    requires LeavesOnly(p0, t) && Unmap(p0, f0, t, p1, f1, 0, n, true)
    ensures LeavesOnly(p1, t)
    ensures NoLeaf(p1, t, 2, 0) <==> NoneFrom(p0, t, n)
  {
    if NoLeaf(p1, t, 2, 0) {
      forall v: nat | n <= v
        ensures Flat(p0, t, v) == None
      {
        assert Covers(2, 0, v / 512);
        assert Flat(p1, t, v) == None;
      }
    }
  }

  /** uVmFree of a space of n pages: it panics (false) exactly when a page from n
      on is still mapped; otherwise every table and every frame of the space is
      free again and nothing else has changed. */
  method VmFree(k: Kmem, root: nat, sz: nat, ghost t: Tab) returns (ok: bool)
    requires TreeOk(k, t) && t.root == root && PagesOf(sz) <= VPNS
    requires Owns(k.pages, k.free, t, 0, PagesOf(sz)) && LeavesOnly(k.pages, t)
    modifies k
    ensures k.Valid()
    ensures ok <==> NoneFrom(old(k.pages), t, PagesOf(sz))
    ensures ok ==> Gone(old(k.pages), old(k.free), t, PagesOf(sz), k.pages, k.free)
  {
    hide TabOk, InUse, Kmem.Valid, Owns, Unmap, LeavesOnly, NoLeaf, NoneFrom, Gone, FreedAll, Whole;
    if sz > 0 {
      UnmapRange(k, root, 0, PagesOf(sz), true, t);
    } else {
      UnmapNothing(k.pages, k.free, t, 0, true);
    }
    ghost var p1, f1 := k.pages, k.free;
    LeavesLeft(old(k.pages), old(k.free), t, PagesOf(sz), p1, f1);
    WholeTree(p1, f1, t);
    ok := FreePgtbl(k, root, 2, t, 0, p1);
    if ok { GoneAfter(old(k.pages), old(k.free), t, PagesOf(sz), p1, f1, k.pages, k.free); }
  }

  /** PGROUNDUP(sz) / PGSIZE */
  function PagesOf(sz: nat): nat { (sz + PGSIZE - 1) / PGSIZE }

  // ---- procPagetable ----

  const TRAMPOLINE: nat := VPNS - 1   // page numbers
  const TRAPFRAME: nat := VPNS - 2
  const RX: nat := 10                 // PTE_R | PTE_X
  const RW: nat := 6                  // PTE_R | PTE_W

  /** The flat map is m. */
  ghost predicate FlatIs(p: Pages, t: Tab, m: map<nat, nat>) {
    forall w: nat :: Flat(p, t, w) == if w in m then Some(m[w]) else None
  }

  /** A tree built out of the free pages f0; pages in use are as they were. */
  ghost predicate Built(p0: Pages, f0: seq<nat>, p: Pages, f: seq<nat>, t: Tab) {
    && (forall h :: h in f || h in Frames(t) <==> h in f0)
    && (forall h | h in p0 && h !in f0 :: h in p && p[h] == p0[h])
  }

  /** The same pages are free as before; pages in use are as they were. */
  ghost predicate GaveBack(p0: Pages, f0: seq<nat>, p: Pages, f: seq<nat>) {
    && (forall h :: h in f <==> h in f0)
    && (forall h | h in p0 && h !in f0 :: h in p && p[h] == p0[h])
  }

  lemma EmptyTree(p0: Pages, f0: seq<nat>, p: Pages, f: seq<nat>, root: nat)
    requires f0 == [root] + f && root in p0 && root !in f && p == p0[root := Filled(0)]
    ensures var t := Tab(root, map[], map[]);
            TabOk(p, t) && InUse(f, t) && FlatIs(p, t, map[]) && Built(p0, f0, p, f, t)
  {
    assert forall h :: h in f0 <==> h == root || h in f;
    var t := Tab(root, map[], map[]);
    forall i: nat | i < ENTRIES
      ensures Points(p, root, i, t.mid, i)
    {
      assert p[root][i] == 0;
    }
  }

  lemma BuiltKept(p0: Pages, f0: seq<nat>, p1: Pages, f1: seq<nat>, t1: Tab, p2: Pages, f2: seq<nat>, t2: Tab)
    requires Built(p0, f0, p1, f1, t1) && Kept(p1, f1, t1, p2, f2, t2) && p1.Keys == p2.Keys
    ensures Built(p0, f0, p2, f2, t2) && t2.root == t1.root
  {
    forall h | h in p0 && h !in f0
      ensures h in p2 && p2[h] == p0[h]
    {
      assert h !in Frames(t2);
    }
  }

  lemma BuiltUnmap(p0: Pages, f0: seq<nat>, p1: Pages, f1: seq<nat>, t: Tab, p2: Pages, f2: seq<nat>, v: nat, n: nat)
    requires Built(p0, f0, p1, f1, t) && Unmap(p1, f1, t, p2, f2, v, n, false)
    ensures Built(p0, f0, p2, f2, t)
  {
    hide Flat;
    forall h: nat
      ensures !Holds(p1, t, v, 0, h)
    {
    }
  }

  lemma BuiltGone(p0: Pages, f0: seq<nat>, p1: Pages, f1: seq<nat>, t: Tab, p2: Pages, f2: seq<nat>)
    requires Built(p0, f0, p1, f1, t) && Gone(p1, f1, t, 0, p2, f2)
    ensures GaveBack(p0, f0, p2, f2)
  {
    hide Flat;
    forall h: nat
      ensures !Holds(p1, t, 0, 0, h)
    {
    }
  }

  lemma FlatMapped(p: Pages, t: Tab, m: map<nat, nat>, p': Pages, t': Tab, v: nat, done: nat, f: nat, perm: nat)
    requires FlatIs(p, t, m) && done <= 1 && MappedRange(p, t, p', t', v, done, f, perm)
    ensures FlatIs(p', t', if done == 1 then m[v := Pte(f, WithV(perm))] else m)
  {
    hide Flat, Pte, WithV;
    var m' := if done == 1 then m[v := Pte(f, WithV(perm))] else m;
    forall w: nat
      ensures Flat(p', t', w) == if w in m' then Some(m'[w]) else None
    {
      if w == v && done == 1 {
        assert f + (w - v) == f;
      } else {
        assert Flat(p', t', w) == Flat(p, t, w);
      }
    }
  }

  lemma FlatUnmapped(p: Pages, t: Tab, m: map<nat, nat>, p': Pages, v: nat)
    requires FlatIs(p, t, m) && Unmapped(p, t, p', v, 1)
    ensures FlatIs(p', t, m - {v})
  {
  }

  /** A space that maps nothing. */
  lemma FlatEmpty(p: Pages, f: seq<nat>, t: Tab, m: map<nat, nat>)
    requires FlatIs(p, t, m) && m.Keys == {}
    ensures LeavesOnly(p, t) && Owns(p, f, t, 0, 0) && NoneFrom(p, t, 0)
  {
    forall w: nat
      ensures Flat(p, t, w) == None
    {
      assert w !in m.Keys;
    }
  }

  /** What procPagetable maps. */
  ghost function ProcMap(trampoline: nat, trapframe: nat): map<nat, nat> {
    map[TRAMPOLINE := Pte(trampoline, WithV(RX))][TRAPFRAME := Pte(trapframe, WithV(RW))]
  }

  /** A space that holds just that: two pages, which the user can reach neither of. The
      trampoline can be executed and not written, the trap frame the other way round. */
  lemma KernelPages(p: Pages, t: Tab, trampoline: nat, trapframe: nat, v: nat)
    requires FlatIs(p, t, ProcMap(trampoline, trapframe))
    ensures Flat(p, t, v).Some? <==> v == TRAMPOLINE || v == TRAPFRAME
    ensures Flat(p, t, TRAMPOLINE).Some? && Flat(p, t, TRAPFRAME).Some?
    ensures var a, b := Flat(p, t, TRAMPOLINE).value, Flat(p, t, TRAPFRAME).value;
            && Frame(a) == trampoline && Frame(b) == trapframe && V(a) && V(b) && !U(a) && !U(b)
            && Flags(a) == 1 + 2 + 8 && Flags(b) == 1 + 2 + 4   // V, R and X; V, R and W
  {
    hide Frame, Flags, V, U, Pte, Flat, FlatIs;
    PteFields(trampoline, 11);
    PteFields(trapframe, 7);
    FlatOf(p, t, ProcMap(trampoline, trapframe), v);
    FlatOf(p, t, ProcMap(trampoline, trapframe), TRAMPOLINE);
    FlatOf(p, t, ProcMap(trampoline, trapframe), TRAPFRAME);
  }

  lemma FlatOf(p: Pages, t: Tab, m: map<nat, nat>, v: nat)
    requires FlatIs(p, t, m)
    ensures Flat(p, t, v) == if v in m then Some(m[v]) else None
  {
  }

  /** mapPages of one page takes the missing tables, and fails only without them. */
  ghost predicate Exact(ok: bool, free: nat, free': nat, t: Tab, t': Tab, v: nat) {
    (ok <==> free >= Missing(t, v)) && (ok ==> Paths(t, t', v, 1) && free == free' + Missing(t, v))
  }

  /** One page of procPagetable: mapPages(pagetable, v, PGSIZE, f, perm). */
  method MapProc(k: Kmem, root: nat, v: nat, f: nat, perm: nat, ghost t: Tab, ghost m: map<nat, nat>, ghost p0: Pages, ghost f0: seq<nat>)
    returns (ok: bool, ghost t': Tab)
    requires TreeOk(k, t) && t.root == root && v < VPNS && perm < 1024
    requires FlatIs(k.pages, t, m) && v !in m && Built(p0, f0, k.pages, k.free, t)
    modifies k
    ensures TreeOk(k, t') && t'.root == root && Built(p0, f0, k.pages, k.free, t')
    ensures FlatIs(k.pages, t', if ok then m[v := Pte(f, WithV(perm))] else m)
    ensures Exact(ok, |old(k.free)|, |k.free|, t, t', v)
  {
    hide TabOk, InUse, Chain, Agree, Built, Kept, MappedRange, Flat, Paths, Missing;
    ghost var p1, f1 := k.pages, k.free;
    assert Flat(p1, t, v) == None;
    TablesOne(t, v);
    var r: MapResult;
    ghost var done: nat;
    r, t', done := MapPages(k, root, v, 1, f, perm, t);
    FlatMapped(p1, t, m, k.pages, t', v, done, f, perm);
    BuiltKept(p0, f0, p1, f1, t, k.pages, k.free, t');
    ok := r.Mapped?;
  }

  /** The tables of a space with nothing but those two pages. */
  ghost predicate ProcKeys(t: Tab) {
    (forall i: nat :: i in t.mid <==> i == I2(TRAPFRAME)) && (forall g: nat :: g in t.leaf <==> g == TRAPFRAME / 512)
  }

  /** Trampoline and trap frame have one path: the first takes two tables, the second none. */
  lemma ProcPaths(ok: bool, free: nat, free1: nat, t: Tab, t1: Tab)
    requires t.mid == map[] && t.leaf == map[] && Exact(ok, free, free1, t, t1, TRAMPOLINE)
    ensures ok <==> free >= 2
    ensures forall ok', free2: nat, t2 | ok && Exact(ok', free1, free2, t1, t2, TRAPFRAME) :: ok' && ProcKeys(t2) && free == free2 + 2
  {
    assert I2(TRAPFRAME) == I2(TRAMPOLINE) && TRAPFRAME / 512 == TRAMPOLINE / 512;
  }

  /** uVmCreate and procPagetable. With fewer than three free pages every page taken is
      free again; otherwise the new space maps the trampoline and the trap frame. The
      second mapPages finds its tables there, so that its failure path is never taken. */
  method ProcPagetable(k: Kmem, trampoline: nat, trapframe: nat) returns (root: nat, ghost t: Tab)
    requires k.Valid()
    modifies k
    ensures k.Valid()
    ensures root == 0 <==> |old(k.free)| < 3
    ensures root == 0 ==> GaveBack(old(k.pages), old(k.free), k.pages, k.free)
    ensures root != 0 ==> TreeOk(k, t) && t.root == root && FlatIs(k.pages, t, ProcMap(trampoline, trapframe))
                          && Built(old(k.pages), old(k.free), k.pages, k.free, t)
                          && ProcKeys(t) && |old(k.free)| == |k.free| + 3
  {
    hide TabOk, InUse, Chain, Agree, Built, GaveBack, Gone, FlatIs, Unmapped, Returned, Untouched, LeavesOnly, Owns, NoneFrom, Flat, Exact, ProcKeys;
    ghost var p0, f0 := k.pages, k.free;
    root := AllocCleared(k);
    t := Tab(root, map[], map[]);
    if root == 0 {
      GaveBackAll(p0, f0);
      return;
    }
    EmptyTree(p0, f0, k.pages, k.free, root);
    var ok: bool;
    ghost var t0, n0, ok1, ok2 := t, |k.free|, true, true;
    ok, t := MapProc(k, root, TRAMPOLINE, trampoline, RX, t, map[], p0, f0);
    ghost var t1, n1, t2, n2 := t, |k.free|, t, |k.free|;
    ok1 := ok;
    if ok {
      ghost var m := map[TRAMPOLINE := Pte(trampoline, WithV(RX))];
      ok, t := MapProc(k, root, TRAPFRAME, trapframe, RW, t, m, p0, f0);
      ok2, t2, n2 := ok, t, |k.free|;
      if ok {
        ProcPaths(ok1, n0, n1, t0, t1);
        return;
      }
      ghost var p1, f1 := k.pages, k.free;
      UnmapRange(k, root, TRAMPOLINE, 1, false, t);
      FlatUnmapped(p1, t, m, k.pages, TRAMPOLINE);
      BuiltUnmap(p0, f0, p1, f1, t, k.pages, k.free, TRAMPOLINE, 1);
      FlatEmpty(k.pages, k.free, t, m - {TRAMPOLINE});
    } else {
      FlatEmpty(k.pages, k.free, t, map[]);
    }
    ghost var p3, f3 := k.pages, k.free;
    ok := VmFree(k, root, 0, t);
    BuiltGone(p0, f0, p3, f3, t, k.pages, k.free);
    root := 0;
    ProcPaths(ok1, n0, n1, t0, t1);
  }

  lemma GaveBackAll(p: Pages, f: seq<nat>)
    ensures GaveBack(p, f, p, f)
  {
  }

  // ---- uFreeUserVM and uFreeProc ----

  /** A process's space: n user pages that own their frames, and above them the
      trampoline and the trap frame only. */
  ghost predicate ProcSpace(p: Pages, f: seq<nat>, t: Tab, n: nat) {
    && n <= TRAPFRAME
    && Owns(p, f, t, 0, n) && LeavesOnly(p, t)
    && forall v: nat | n <= v && v != TRAMPOLINE && v != TRAPFRAME :: Flat(p, t, v) == None
  }

  /** After the two pages that are not the space's own have been unmapped. */
  lemma OnlyUserLeft(p0: Pages, f0: seq<nat>, t: Tab, n: nat, p1: Pages, f1: seq<nat>, p2: Pages, f2: seq<nat>)
    requires ProcSpace(p0, f0, t, n)
    requires Unmap(p0, f0, t, p1, f1, TRAMPOLINE, 1, false) && Unmap(p1, f1, t, p2, f2, TRAPFRAME, 1, false)
    requires p0.Keys == p2.Keys
    ensures Owns(p2, f2, t, 0, n) && LeavesOnly(p2, t) && NoneFrom(p2, t, n)
    ensures forall h :: h in f2 <==> h in f0
    ensures forall h: nat :: Holds(p2, t, 0, n, h) <==> Holds(p0, t, 0, n, h)
    ensures forall h | h in p0 && h !in Frames(t) :: h in p2 && p2[h] == p0[h]
  {
    hide Flat, Inner, Frame;
    forall v: nat, h: nat
      ensures !Holds(p0, t, v, 0, h) && !Holds(p1, t, v, 0, h)
    {
      HoldsOne(p0, t, v, h);
      HoldsOne(p1, t, v, h);
    }
    forall v: nat
      ensures v < n ==> Flat(p2, t, v) == Flat(p0, t, v)
      ensures n <= v ==> Flat(p2, t, v) == None
    {
    }
    forall v: nat, h: nat | v < n
      ensures Maps(p2, t, v, h) == Maps(p0, t, v, h)
    {
    }
  }

  lemma GoneBoth(p0: Pages, f0: seq<nat>, t: Tab, n: nat, p2: Pages, f2: seq<nat>, p3: Pages, f3: seq<nat>)
    requires forall h :: h in f2 <==> h in f0
    requires forall h: nat :: Holds(p2, t, 0, n, h) <==> Holds(p0, t, 0, n, h)
    requires forall h | h in p0 && h !in Frames(t) :: h in p2 && p2[h] == p0[h]
    requires Gone(p2, f2, t, n, p3, f3)
    ensures Gone(p0, f0, t, n, p3, f3)
  {
    hide Holds;
  }

  /** uFreeUserVM of a process's space never panics, and gives back its tables and
      the frames of its user pages, but not the trampoline and the trap frame. */
  method FreeUserVM(k: Kmem, root: nat, sz: nat, ghost t: Tab)
    requires TreeOk(k, t) && t.root == root && ProcSpace(k.pages, k.free, t, PagesOf(sz))
    modifies k
    ensures k.Valid()
    ensures Gone(old(k.pages), old(k.free), t, PagesOf(sz), k.pages, k.free)
  {
    hide TabOk, InUse, Chain, Agree, Unmap, Owns, LeavesOnly, NoneFrom, Gone, Holds, Flat;
    ghost var p0, f0 := k.pages, k.free;
    UnmapRange(k, root, TRAMPOLINE, 1, false, t);
    ghost var p1, f1 := k.pages, k.free;
    UnmapRange(k, root, TRAPFRAME, 1, false, t);
    ghost var p2, f2 := k.pages, k.free;
    OnlyUserLeft(p0, f0, t, PagesOf(sz), p1, f1, p2, f2);
    var ok := VmFree(k, root, sz, t);
    GoneBoth(p0, f0, t, PagesOf(sz), p2, f2, k.pages, k.free);
  }

  // ---- the memory side of kfork ----

  /** The pages f0 are now divided between the free list, the trap frame page tf,
      the tables of the space and the frames of its n pages; pages that were in
      use are as they were. */
  ghost predicate Divided(p0: Pages, f0: seq<nat>, p: Pages, f: seq<nat>, t: Tab, n: nat, tf: nat) {
    && tf in p && tf !in f && tf !in Frames(t) && !Holds(p, t, 0, n, tf)
    && (forall h :: h in f || h in Frames(t) || Holds(p, t, 0, n, h) || h == tf <==> h in f0)
    && (forall h | h in p0 && h !in f0 :: h in p && p[h] == p0[h])
  }

  lemma BesideDivided(p0: Pages, f0: seq<nat>, tp: Tab, n: nat, p: Pages, f: seq<nat>, t: Tab, tf: nat)
    requires TabOk(p0, tp) && InUse(f0, tp) && Owns(p0, f0, tp, 0, n) && Divided(p0, f0, p, f, t, 0, tf)
    ensures Beside(p, f, tp, t, n) && SameFlat(p0, tp, p, tp)
    ensures forall w: nat, h: nat | w < n && Maps(p0, tp, w, h) :: h in p0 && h in p && p[h] == p0[h]
  {
    TabFrame(p0, p, tp);
    forall w: nat, h: nat | w < n
      ensures Maps(p, tp, w, h) == Maps(p0, tp, w, h)
      ensures Maps(p0, tp, w, h) ==> h in p && h !in f && h !in Frames(t)
    {
      assert Flat(p, tp, w) == Flat(p0, tp, w);
    }
  }

  lemma NoPages(p: Pages, t: Tab)
    ensures forall h: nat :: !Holds(p, t, 0, 0, h)
  {
  }

  lemma DividedStart(p0: Pages, f0: seq<nat>, tf: nat, p1: Pages, f1: seq<nat>, p2: Pages, f2: seq<nat>, t2: Tab)
    requires f0 == [tf] + f1 && tf !in f1 && tf in p1 && p1.Keys == p0.Keys && forall h | h in p0 && h != tf :: p1[h] == p0[h]
    requires Built(p1, f1, p2, f2, t2)
    ensures Divided(p0, f0, p2, f2, t2, 0, tf)
  {
    hide Holds;
    NoPages(p2, t2);
    assert forall h :: h in f0 <==> h == tf || h in f1;
  }

  lemma DividedMade(p0: Pages, f0: seq<nat>, tf: nat, p2: Pages, f2: seq<nat>, t2: Tab, p3: Pages, f3: seq<nat>, t3: Tab, n: nat)
    requires Divided(p0, f0, p2, f2, t2, 0, tf) && Populated(p2, f2, t2, p3, f3, t3, 0, n)
    ensures Divided(p0, f0, p3, f3, t3, n, tf)
  {
    hide Holds, Flat, Owns;
    NoPages(p2, t2);
  }

  /** Page tf is in use beside the space. */
  ghost predicate OwnPage(p: Pages, f: seq<nat>, t: Tab, n: nat, tf: nat) {
    tf in p && tf !in f && tf !in Frames(t) && !Holds(p, t, 0, n, tf)
  }

  /** Giving the trap frame page back leaves the space whole. */
  lemma TrapframeGone(p: Pages, f: seq<nat>, t: Tab, n: nat, tf: nat, p': Pages, f': seq<nat>)
    requires OwnPage(p, f, t, n, tf) && TabOk(p, t) && InUse(f, t) && ProcSpace(p, f, t, n)
    requires f' == [tf] + f && p'.Keys == p.Keys && forall h | h in p && h != tf :: p'[h] == p[h]
    ensures TabOk(p', t) && InUse(f', t) && ProcSpace(p', f', t, n)
    ensures forall h: nat :: Holds(p', t, 0, n, h) <==> Holds(p, t, 0, n, h)
  {
    TabFrame(p, p', t);
    forall w: nat, h: nat
      ensures Maps(p', t, w, h) == Maps(p, t, w, h)
    {
      assert Flat(p', t, w) == Flat(p, t, w);
    }
    forall w: nat, h: nat | w < n && Maps(p, t, w, h)
      ensures h != tf
    {
      assert Holds(p, t, 0, n, h);
    }
  }

  /** The space and its trap frame page have become free; no other page in use has changed. */
  ghost predicate ProcGone(p: Pages, f: seq<nat>, t: Tab, n: nat, tf: nat, p': Pages, f': seq<nat>) {
    && (forall h :: h in f' <==> h in f || h == tf || h in Frames(t) || Holds(p, t, 0, n, h))
    && (forall h | h in p && h !in f' :: h in p' && p'[h] == p[h])
  }

  lemma GoneWithPage(p: Pages, f: seq<nat>, t: Tab, n: nat, tf: nat, p1: Pages, f1: seq<nat>, p2: Pages, f2: seq<nat>)
    requires Gone(p1, f1, t, n, p2, f2) && f1 == [tf] + f && p1.Keys == p.Keys && forall h | h in p && h != tf :: p1[h] == p[h]
    requires forall h: nat :: Holds(p1, t, 0, n, h) <==> Holds(p, t, 0, n, h)
    ensures ProcGone(p, f, t, n, tf, p2, f2)
  {
    hide Holds;
    assert forall h :: h in f1 <==> h == tf || h in f;
  }

  lemma DividedGone(p0: Pages, f0: seq<nat>, p: Pages, f: seq<nat>, t: Tab, n: nat, tf: nat, p2: Pages, f2: seq<nat>)
    requires Divided(p0, f0, p, f, t, n, tf) && ProcGone(p, f, t, n, tf, p2, f2)
    ensures GaveBack(p0, f0, p2, f2)
  {
    hide Holds;
  }

  /** The memory side of uFreeProc, trap frame page first, then the space: exactly the
      process's pages become free, and no other page in use changes. */
  method FreeProc(k: Kmem, tf: nat, root: nat, sz: nat, ghost t: Tab)
    requires TreeOk(k, t) && t.root == root && ProcSpace(k.pages, k.free, t, PagesOf(sz))
    requires OwnPage(k.pages, k.free, t, PagesOf(sz), tf)
    modifies k
    ensures k.Valid() && ProcGone(old(k.pages), old(k.free), t, PagesOf(sz), tf, k.pages, k.free)
  {
    hide TabOk, InUse, Chain, Agree, ProcSpace, Gone, ProcGone, Holds, Flat, PagesOf;
    ghost var p, f := k.pages, k.free;
    var ok := k.Free(tf);
    TrapframeGone(p, f, t, PagesOf(sz), tf, k.pages, k.free);
    ghost var p1, f1 := k.pages, k.free;
    FreeUserVM(k, root, sz, t);
    GoneWithPage(p, f, t, PagesOf(sz), tf, p1, f1, k.pages, k.free);
  }

  lemma InnerFlags(pte: nat)
    ensures Inner(pte) <==> (Flags(pte) / 2) % 8 == 0
  {
    PteFields(pte / 1024, pte % 1024);
    assert Pte(pte / 1024, pte % 1024) == pte;
  }

  lemma ProcMapLeaves(trampoline: nat, trapframe: nat)
    ensures !Inner(Pte(trampoline, WithV(RX))) && !Inner(Pte(trapframe, WithV(RW)))
  {
    PteFields(trampoline, WithV(RX));
    PteFields(trapframe, WithV(RW));
  }

  /** A fresh space is a process's space of no pages. */
  lemma FreshSpace(p: Pages, f: seq<nat>, t: Tab, trampoline: nat, trapframe: nat)
    requires FlatIs(p, t, ProcMap(trampoline, trapframe))
    ensures ProcSpace(p, f, t, 0)
    ensures forall w: nat | w < TRAPFRAME :: Flat(p, t, w) == None
  {
    hide Flat, Inner;
    ProcMapLeaves(trampoline, trapframe);
  }

  /** A copied page has the flags of the original, so it is a leaf too. */
  lemma CopiedLeaf(p0: Pages, tp: Tab, p: Pages, t: Tab, n: nat, w: nat)
    requires LeavesOnly(p0, tp) && Shows(p, t, 0, n, ImageOf(p0, tp, n)) && w < n && Flat(p, t, w).Some?
    ensures !Inner(Flat(p, t, w).value)
  {
    hide Flat, Inner, Flags;
    assert w in ImageOf(p0, tp, n);
    assert ShowsPage(p, t, w, ImageOf(p0, tp, n)[w]);
    InnerFlags(Flat(p, t, w).value);
    InnerFlags(Flat(p0, tp, w).value);
  }

  /** The child's space after a successful copy. */
  lemma CopiedSpace(p0: Pages, tp: Tab, p1: Pages, f1: seq<nat>, t1: Tab, p: Pages, f: seq<nat>, t: Tab, n: nat, trampoline: nat, trapframe: nat)
    requires LeavesOnly(p0, tp) && n <= TRAPFRAME
    requires FlatIs(p1, t1, ProcMap(trampoline, trapframe)) && Populated(p1, f1, t1, p, f, t, 0, n)
    requires Shows(p, t, 0, n, ImageOf(p0, tp, n))
    ensures ProcSpace(p, f, t, n)
    ensures Flat(p, t, TRAMPOLINE) == Some(Pte(trampoline, WithV(RX))) && Flat(p, t, TRAPFRAME) == Some(Pte(trapframe, WithV(RW)))
  {
    hide Flat, Inner, Pte, WithV, Shows, ImageOf, Owns, Holds, Steady;
    ProcMapLeaves(trampoline, trapframe);
    forall w: nat | Flat(p, t, w).Some?
      ensures !Inner(Flat(p, t, w).value)
    {
      if w < n { CopiedLeaf(p0, tp, p, t, n, w); }
    }
  }

  lemma ImageKept(p0: Pages, tp: Tab, p: Pages, n: nat)
    requires SameFlat(p0, tp, p, tp)
    requires forall w: nat, h: nat | w < n && Maps(p0, tp, w, h) :: h in p0 && h in p && p[h] == p0[h]
    ensures ImageOf(p, tp, n) == ImageOf(p0, tp, n)
  {
    hide Flat, Flags;
    forall w: nat | w < n && Flat(p0, tp, w).Some?
      ensures var h := Frame(Flat(p0, tp, w).value); h in p0 && h in p && p[h] == p0[h]
    {
      assert Maps(p0, tp, w, Frame(Flat(p0, tp, w).value));
    }
  }

  /** A space whose copy has failed is as it was made, but for more tables. */
  lemma CopyFailed(p0: Pages, f0: seq<nat>, tf: nat, p2: Pages, f2: seq<nat>, t2: Tab, p3: Pages, f3: seq<nat>, t3: Tab, trampoline: nat)
    requires Divided(p0, f0, p2, f2, t2, 0, tf) && TookNothing(p2, f2, t2, p3, f3, t3) && FlatIs(p2, t2, ProcMap(trampoline, tf))
    ensures Divided(p0, f0, p3, f3, t3, 0, tf) && ProcSpace(p3, f3, t3, 0)
  {
    PopulateStart(p2, f2, t2, 0, map[]);
    PopulateStop(p2, f2, t2, p2, f2, t2, p3, f3, t3, 0, 0);
    DividedMade(p0, f0, tf, p2, f2, t2, p3, f3, t3, 0);
    FlatSame(p2, t2, p3, t3, ProcMap(trampoline, tf));
    FreshSpace(p3, f3, t3, trampoline, tf);
  }

  lemma FlatSame(p: Pages, t: Tab, p': Pages, t': Tab, m: map<nat, nat>)
    requires FlatIs(p, t, m) && SameFlat(p, t, p', t')
    ensures FlatIs(p', t', m)
  {
  }

  /** The memory side of allocproc: a trap frame page and a page table, or, when
      memory runs out, all that was taken is free again. */
  method AllocProc(k: Kmem, trampoline: nat) returns (root: nat, tf: nat, ghost t: Tab)
    requires k.Valid()
    modifies k
    ensures k.Valid()
    ensures root == 0 <==> |old(k.free)| < 4
    ensures root == 0 ==> GaveBack(old(k.pages), old(k.free), k.pages, k.free)
    ensures root != 0 ==> TreeOk(k, t) && t.root == root && FlatIs(k.pages, t, ProcMap(trampoline, tf))
                          && Divided(old(k.pages), old(k.free), k.pages, k.free, t, 0, tf)
                          && |old(k.free)| == |k.free| + 4
  {
    hide TabOk, InUse, Chain, Agree, GaveBack, Built, FlatIs, Divided, Flat;
    ghost var p0, f0 := k.pages, k.free;
    root, t := 0, Tab(0, map[], map[]);
    tf := k.Alloc();
    if tf == 0 {
      GaveBackAll(p0, f0);
      return;
    }
    ghost var p1, f1 := k.pages, k.free;
    root, t := ProcPagetable(k, trampoline, tf);
    if root == 0 {
      TrapframeBack(p0, f0, tf, p1, f1, k.pages, k.free);
      ghost var p2, f2 := k.pages, k.free;
      var ok := k.Free(tf);
      TrapframeFreed(p0, f0, tf, p1, f1, p2, f2, k.pages, k.free);
    } else {
      DividedStart(p0, f0, tf, p1, f1, k.pages, k.free, t);
    }
  }

  /** allocproc and uvmcopy as kfork calls them: a trap frame page, a page table and
      a copy of the parent's memory. When memory runs out on the way, all that was
      taken is free again. In either case no page that was in use has changed. */
  method Fork(k: Kmem, parent: nat, sz: nat, trampoline: nat, ghost tp: Tab) returns (root: nat, tf: nat, ghost t: Tab)
    requires TreeOk(k, tp) && tp.root == parent && ProcSpace(k.pages, k.free, tp, PagesOf(sz))
    modifies k
    ensures k.Valid()
    ensures root == 0 ==> GaveBack(old(k.pages), old(k.free), k.pages, k.free) && |old(k.free)| < 4 + 3 * PagesOf(sz)
    ensures root != 0 ==>
      && TreeOk(k, t) && t.root == root && ProcSpace(k.pages, k.free, t, PagesOf(sz))
      && Divided(old(k.pages), old(k.free), k.pages, k.free, t, PagesOf(sz), tf)
      && Shows(k.pages, t, 0, PagesOf(sz), ImageOf(old(k.pages), tp, PagesOf(sz)))
      && Flat(k.pages, t, TRAMPOLINE) == Some(Pte(trampoline, WithV(RX)))
      && Flat(k.pages, t, TRAPFRAME) == Some(Pte(tf, WithV(RW)))
  {
    hide TabOk, InUse, Chain, Agree, GaveBack, FlatIs, Divided, Beside, Populated, Shows, TookNothing, ImageOf, Owns, LeavesOnly, Flat, Steady, SameFlat;
    var n := PagesOf(sz);
    ghost var p0, f0 := k.pages, k.free;
    root, tf, t := AllocProc(k, trampoline);
    if root == 0 { return; }
    ghost var p2, f2, t2 := k.pages, k.free, t;
    BesideDivided(p0, f0, tp, n, p2, f2, t2, tf);
    FreshSpace(p2, f2, t2, trampoline, tf);
    ImageKept(p0, tp, p2, n);
    var ok: bool;
    ok, t := Copy(k, parent, root, n, tp, t);
    if !ok {
      CopyFailed(p0, f0, tf, p2, f2, t2, k.pages, k.free, t, trampoline);
      DividedOwns(p0, f0, k.pages, k.free, t, 0, tf);
      ghost var p3, f3 := k.pages, k.free;
      FreeProc(k, tf, root, 0, t);
      DividedGone(p0, f0, p3, f3, t, 0, tf, k.pages, k.free);
      root := 0;
      return;
    }
    DividedMade(p0, f0, tf, p2, f2, t2, k.pages, k.free, t, n);
    CopiedSpace(p0, tp, p2, f2, t2, k.pages, k.free, t, n, trampoline, tf);
  }

  lemma DividedOwns(p0: Pages, f0: seq<nat>, p: Pages, f: seq<nat>, t: Tab, n: nat, tf: nat)
    requires Divided(p0, f0, p, f, t, n, tf)
    ensures OwnPage(p, f, t, n, tf)
  {
  }

  lemma TrapframeBack(p0: Pages, f0: seq<nat>, tf: nat, p1: Pages, f1: seq<nat>, p2: Pages, f2: seq<nat>)
    requires f0 == [tf] + f1 && tf !in f1 && tf in p1 && GaveBack(p1, f1, p2, f2)
    ensures tf !in f2 && tf in p2
  {
  }

  lemma TrapframeFreed(p0: Pages, f0: seq<nat>, tf: nat, p1: Pages, f1: seq<nat>, p2: Pages, f2: seq<nat>, p3: Pages, f3: seq<nat>)
    requires f0 == [tf] + f1 && p1.Keys == p0.Keys && forall h | h in p0 && h != tf :: p1[h] == p0[h]
    requires GaveBack(p1, f1, p2, f2) && f3 == [tf] + f2 && p3.Keys == p2.Keys && forall h | h in p2 && h != tf :: p3[h] == p2[h]
    ensures GaveBack(p0, f0, p3, f3)
  {
    assert tf in f0;
    assert forall h :: h in f0 <==> h == tf || h in f1;
    assert forall h :: h in f3 <==> h == tf || h in f2;
  }

  /** From fork to wait: whatever happens on the way, in the end the same pages are
      free as at the start, and no page that was in use then has changed. */
  method ForkThenFree(k: Kmem, parent: nat, sz: nat, trampoline: nat, ghost tp: Tab) returns (forked: bool)
    requires TreeOk(k, tp) && tp.root == parent && ProcSpace(k.pages, k.free, tp, PagesOf(sz))
    modifies k
    ensures k.Valid() && GaveBack(old(k.pages), old(k.free), k.pages, k.free)
    ensures |old(k.free)| >= 4 + 3 * PagesOf(sz) ==> forked
  {
    hide GaveBack, Divided, OwnPage, ProcGone, ProcSpace, PagesOf, Shows, ImageOf, Flat;
    ghost var p0, f0 := k.pages, k.free;
    var root, tf, t := Fork(k, parent, sz, trampoline, tp);
    forked := root != 0;
    if forked {
      ghost var p, f := k.pages, k.free;
      DividedOwns(p0, f0, p, f, t, PagesOf(sz), tf);
      FreeProc(k, tf, root, sz, t);
      DividedGone(p0, f0, p, f, t, PagesOf(sz), tf, k.pages, k.free);
    }
  }
}
