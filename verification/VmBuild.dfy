/** The functions of riscv-os/kernel/mm/vm.c that fill an address space: uvmcopy,
    uVmAlloc and the page that vmfault supplies. All three take a page, fill it
    and map it, and give it back when mapping fails. */
module VmBuild {
  import opened Common
  import opened PageAlloc
  import opened PageTable
  import opened Vm
  import opened VmSpace

  /** Pages in use outside the tree are as they were. */
  ghost predicate Steady(p0: Pages, f0: seq<nat>, t0: Tab, p: Pages) {
    forall g | g in p0 && g !in f0 && g !in Frames(t0) :: g in p && p[g] == p0[g]
  }

  /** The tree has grown from t0 to t out of free pages, and frame g was taken. */
  ghost predicate Took(p0: Pages, f0: seq<nat>, t0: Tab, p: Pages, f: seq<nat>, t: Tab, g: nat) {
    && t.root == t0.root && Frames(t0) <= Frames(t)
    && g in f0 && g in p && g !in f && g !in Frames(t)
    && (forall h :: h in f || h in Frames(t) || h == g <==> h in f0 || h in Frames(t0))
    && Steady(p0, f0, t0, p)
  }

  /** Nothing was taken for good, though tables may have been added. */
  ghost predicate TookNothing(p0: Pages, f0: seq<nat>, t0: Tab, p: Pages, f: seq<nat>, t: Tab) {
    && t.root == t0.root && Frames(t0) <= Frames(t)
    && (forall h :: h in f || h in Frames(t) <==> h in f0 || h in Frames(t0))
    && Steady(p0, f0, t0, p)
    && SameFlat(p0, t0, p, t)
  }

  /** Page v now maps to frame g, with these flags and contents. */
  ghost predicate Put(p0: Pages, t0: Tab, p: Pages, t: Tab, v: nat, g: nat, flags: nat, page: Page) {
    && g in p && p[g] == page
    && Flat(p, t, v) == Some(Pte(g, WithV(flags)))
    && forall w: nat | w != v :: Flat(p, t, w) == Flat(p0, t0, w)
  }

  lemma PutDone(p0: Pages, f0: seq<nat>, t0: Tab, p1: Pages, f1: seq<nat>, p2: Pages, f2: seq<nat>, t2: Tab, v: nat, g: nat, flags: nat, page: Page)
    requires TabOk(p0, t0) && InUse(f0, t0) && flags < 1024
    requires f0 == [g] + f1 && g in p0 && g !in f1 && p1 == p0[g := page] && p1.Keys == p2.Keys
    requires Kept(p1, f1, t0, p2, f2, t2) && MappedRange(p1, t0, p2, t2, v, 1, g, flags)
    ensures Took(p0, f0, t0, p2, f2, t2, g) && Put(p0, t0, p2, t2, v, g, flags, page)
  {
    assert g in f0;
    assert forall h :: h in f0 <==> h == g || h in f1;
    TabFrame(p0, p1, t0);
  }

  lemma PutUndone(p0: Pages, f0: seq<nat>, t0: Tab, p1: Pages, f1: seq<nat>, p2: Pages, f2: seq<nat>, t2: Tab, p3: Pages, f3: seq<nat>, g: nat, page: Page)
    requires TabOk(p0, t0) && InUse(f0, t0) && TabOk(p2, t2)
    requires f0 == [g] + f1 && g in p0 && g !in f1 && p1 == p0[g := page] && p1.Keys == p2.Keys == p3.Keys
    requires Kept(p1, f1, t0, p2, f2, t2) && SameFlat(p1, t0, p2, t2)
    requires f3 == [g] + f2 && forall h | h in p2 && h != g :: p3[h] == p2[h]
    requires InUse(f2, t2)
    ensures TookNothing(p0, f0, t0, p3, f3, t2) && TabOk(p3, t2) && InUse(f3, t2)
  {
    assert g in f0;
    assert forall h :: h in f0 <==> h == g || h in f1;
    assert forall h :: h in f3 <==> h == g || h in f2;
    assert g !in Frames(t2);
    TabFrame(p0, p1, t0);
    TabFrame(p2, p3, t2);
  }

  /** Taking and filling page g leaves the tree alone. */
  lemma FreshBeside(p0: Pages, f0: seq<nat>, t: Tab, g: nat, f1: seq<nat>, p1: Pages)
    requires TabOk(p0, t) && InUse(f0, t) && f0 == [g] + f1
    requires p1.Keys == p0.Keys && forall h | h in p0 && h != g :: p1[h] == p0[h]
    ensures TabOk(p1, t) && InUse(f1, t) && SameFlat(p0, t, p1, t)
  {
    assert g in f0;
    assert forall h :: h in f0 <==> h == g || h in f1;
    TabFrame(p0, p1, t);
  }

  lemma MappedNone(p: Pages, t: Tab, p': Pages, t': Tab, v: nat, f: nat, flags: nat)
    requires MappedRange(p, t, p', t', v, 0, f, flags)
    ensures SameFlat(p, t, p', t')
  {
  }

  datatype Taken = Got(g: nat) | NoMemory | Remap   // Remap stands for the panic of mapPages

  /** kalloc, fill, mapPages of one page, kfree when that fails. One page and the missing
      tables on the path of v are needed, and taken. */
  method TryPut(k: Kmem, root: nat, v: nat, page: Page, flags: nat, ghost t: Tab) returns (r: Taken, ghost t': Tab)
    requires TreeOk(k, t) && t.root == root && v < VPNS && flags < 1024
    modifies k
    ensures k.Valid() && (!r.Remap? ==> TreeOk(k, t') && |old(k.free)| <= |k.free| + 3)
    ensures r.Got? ==>
      && r.g != 0 && Flat(old(k.pages), t, v) == None && Took(old(k.pages), old(k.free), t, k.pages, k.free, t', r.g)
      && Put(old(k.pages), t, k.pages, t', v, r.g, flags, page)
      && Paths(t, t', v, 1) && |old(k.free)| == |k.free| + 1 + Missing(t, v)
    ensures r.NoMemory? ==> TookNothing(old(k.pages), old(k.free), t, k.pages, k.free, t') && |old(k.free)| < 1 + Missing(t, v)
    ensures r.Remap? ==> Flat(old(k.pages), t, v).Some?
  {
    hide TabOk, InUse, Chain, Agree, Kept, MappedRange, SameFlat, Took, TookNothing, Put, Flat, Missing, Paths;
    var g := k.Alloc();
    if g == 0 {
      NothingTaken(k.pages, k.free, t);
      return NoMemory, t;
    }
    k.Store(g, page);
    ghost var p1, f1 := k.pages, k.free;
    FreshBeside(old(k.pages), old(k.free), t, g, f1, p1);
    SameFlatAt(old(k.pages), t, p1, t, v);
    var m: MapResult;
    ghost var done: nat;
    TablesOne(t, v);
    m, t', done := MapPages(k, root, v, 1, g, flags, t);
    if m.Mapped? {
      PutDone(old(k.pages), old(k.free), t, p1, f1, k.pages, k.free, t', v, g, flags, page);
      return Got(g), t';
    }
    ghost var p2, f2 := k.pages, k.free;
    MappedNone(p1, t, p2, t', v, g, flags);
    NotFreed(old(k.free), t, g, p1, f1, p2, f2, t');
    if m.Remapped? { return Remap, t'; }
    var ok := k.Free(g);
    PutUndone(old(k.pages), old(k.free), t, p1, f1, p2, f2, t', k.pages, k.free, g, page);
    return NoMemory, t';
  }

  /** The same for a page that is not mapped. */
  method PutPage(k: Kmem, root: nat, v: nat, page: Page, flags: nat, ghost t: Tab) returns (g: nat, ghost t': Tab)
    requires TreeOk(k, t) && t.root == root && v < VPNS && flags < 1024 && Flat(k.pages, t, v) == None
    modifies k
    ensures TreeOk(k, t')
    ensures g != 0 <==> |old(k.free)| >= 1 + Missing(t, v)
    ensures g != 0 ==> Took(old(k.pages), old(k.free), t, k.pages, k.free, t', g)
                       && Put(old(k.pages), t, k.pages, t', v, g, flags, page)
    ensures g == 0 ==> TookNothing(old(k.pages), old(k.free), t, k.pages, k.free, t') && |old(k.free)| < 3
    ensures |old(k.free)| <= |k.free| + 3
  {
    hide TabOk, InUse, Chain, Agree, Took, TookNothing, Put, Flat, Paths;
    var r: Taken;
    r, t' := TryPut(k, root, v, page, flags, t);
    g := if r.Got? then r.g else 0;
  }

  lemma NothingTaken(p: Pages, f: seq<nat>, t: Tab)
    ensures TookNothing(p, f, t, p, f, t)
  {
  }

  lemma NotFreed(f0: seq<nat>, t0: Tab, g: nat, p1: Pages, f1: seq<nat>, p2: Pages, f2: seq<nat>, t2: Tab)
    requires InUse(f0, t0) && f0 == [g] + f1 && g !in f1 && Kept(p1, f1, t0, p2, f2, t2)
    ensures g !in f2
  {
    assert g in f0;
  }

  // ---- filling a range ----

  /** Pages a .. a+n were unmapped in t0 and have been filled since. Free pages,
      tables and the range's frames are together what free pages and tables were;
      the range owns its frames; nothing else has changed. */
  ghost predicate Populated(p0: Pages, f0: seq<nat>, t0: Tab, p: Pages, f: seq<nat>, t: Tab, a: nat, n: nat) {
    && t.root == t0.root && Frames(t0) <= Frames(t)
    && (forall g :: g in f || g in Frames(t) || Holds(p, t, a, n, g) <==> g in f0 || g in Frames(t0))
    && Steady(p0, f0, t0, p)
    && Owns(p, f, t, a, n)
    && (forall w: nat | !(a <= w < a + n) :: Flat(p, t, w) == Flat(p0, t0, w))
  }

  /** The contents and flags that page w is to have, for the pages that are to be mapped. */
  type Image = map<nat, (Page, nat)>

  ghost predicate Shows(p: Pages, t: Tab, a: nat, n: nat, img: Image) {
    forall w: nat | a <= w < a + n ::
      if w in img then ShowsPage(p, t, w, img[w]) else Flat(p, t, w) == None
  }

  predicate ShowsPage(p: Pages, t: Tab, w: nat, want: (Page, nat)) {
    && Flat(p, t, w).Some?
    && Flags(Flat(p, t, w).value) == want.1
    && Frame(Flat(p, t, w).value) in p && p[Frame(Flat(p, t, w).value)] == want.0
  }

  lemma PopulateStart(p: Pages, f: seq<nat>, t: Tab, a: nat, img: Image)
    ensures Populated(p, f, t, p, f, t, a, 0) && Shows(p, t, a, 0, img)
  {
  }

  lemma PopulateSkip(p0: Pages, f0: seq<nat>, t0: Tab, p: Pages, f: seq<nat>, t: Tab, a: nat, i: nat, img: Image)
    requires Populated(p0, f0, t0, p, f, t, a, i) && Shows(p, t, a, i, img)
    requires a + i !in img && Flat(p0, t0, a + i) == None
    ensures Populated(p0, f0, t0, p, f, t, a, i + 1) && Shows(p, t, a, i + 1, img)
  {
    hide Flat, Steady, ShowsPage;
    forall g: nat
      ensures Holds(p, t, a, i + 1, g) <==> Holds(p, t, a, i, g)
    {
      HoldsNext(p, t, a, i, g);
    }
  }

  /** An owned frame of the range stays mapped and unchanged when page v is put. */
  lemma PutKeeps(p1: Pages, f1: seq<nat>, t1: Tab, p2: Pages, f2: seq<nat>, t2: Tab, a: nat, i: nat, g: nat, flags: nat, page: Page, w: nat, h: nat)
    requires Owns(p1, f1, t1, a, i) && Took(p1, f1, t1, p2, f2, t2, g) && Put(p1, t1, p2, t2, a + i, g, flags, page)
    requires a <= w < a + i && Maps(p1, t1, w, h)
    ensures Maps(p2, t2, w, h) && h != g && h in p1 && h in p2 && p2[h] == p1[h] && h !in f2 && h !in Frames(t2)
  {
  }

  lemma PutOwns(p1: Pages, f1: seq<nat>, t1: Tab, p2: Pages, f2: seq<nat>, t2: Tab, a: nat, i: nat, g: nat, flags: nat, page: Page)
    requires flags < 1024 && Owns(p1, f1, t1, a, i) && Took(p1, f1, t1, p2, f2, t2, g) && Put(p1, t1, p2, t2, a + i, g, flags, page)
    ensures Owns(p2, f2, t2, a, i + 1)
    ensures forall h: nat :: Holds(p2, t2, a, i + 1, h) <==> Holds(p1, t1, a, i, h) || h == g
  {
    PteFields(g, WithV(flags));
    forall w: nat, h: nat | a <= w < a + i
      ensures Maps(p2, t2, w, h) == Maps(p1, t1, w, h)
      ensures Maps(p1, t1, w, h) ==> h in p2 && h != g && h !in f2 && h !in Frames(t2)
    {
      if Maps(p1, t1, w, h) { PutKeeps(p1, f1, t1, p2, f2, t2, a, i, g, flags, page, w, h); }
    }
    forall h: nat
      ensures Holds(p2, t2, a, i + 1, h) <==> Holds(p1, t1, a, i, h) || h == g
    {
      HoldsNext(p2, t2, a, i, h);
    }
  }

  lemma PutShows(p1: Pages, f1: seq<nat>, t1: Tab, p2: Pages, f2: seq<nat>, t2: Tab, a: nat, i: nat, g: nat, flags: nat, page: Page, img: Image)
    requires flags < 1024 && Owns(p1, f1, t1, a, i) && Took(p1, f1, t1, p2, f2, t2, g) && Put(p1, t1, p2, t2, a + i, g, flags, page)
    requires Shows(p1, t1, a, i, img) && a + i in img && img[a + i] == (page, WithV(flags))
    ensures Shows(p2, t2, a, i + 1, img)
  {
    PteFields(g, WithV(flags));
    forall w: nat | a <= w < a + i && w in img
      ensures ShowsPage(p2, t2, w, img[w])
    {
      assert ShowsPage(p1, t1, w, img[w]);
      PutKeeps(p1, f1, t1, p2, f2, t2, a, i, g, flags, page, w, Frame(Flat(p1, t1, w).value));
    }
  }

  lemma PopulateNext(p0: Pages, f0: seq<nat>, t0: Tab, p1: Pages, f1: seq<nat>, t1: Tab, p2: Pages, f2: seq<nat>, t2: Tab, a: nat, i: nat, g: nat, flags: nat, page: Page)
    requires flags < 1024 && Populated(p0, f0, t0, p1, f1, t1, a, i)
    requires Took(p1, f1, t1, p2, f2, t2, g) && Put(p1, t1, p2, t2, a + i, g, flags, page)
    ensures Populated(p0, f0, t0, p2, f2, t2, a, i + 1) && t2.root == t1.root
  {
    PutOwns(p1, f1, t1, p2, f2, t2, a, i, g, flags, page);
    SteadyNext(p0, f0, t0, p1, f1, t1, p2, a, i);
  }

  lemma SteadyNext(p0: Pages, f0: seq<nat>, t0: Tab, p1: Pages, f1: seq<nat>, t1: Tab, p2: Pages, a: nat, i: nat)
    requires Populated(p0, f0, t0, p1, f1, t1, a, i) && Steady(p1, f1, t1, p2)
    ensures Steady(p0, f0, t0, p2)
  {
  }

  /** A failed attempt leaves the range as it is. */
  lemma PopulateStop(p0: Pages, f0: seq<nat>, t0: Tab, p1: Pages, f1: seq<nat>, t1: Tab, p2: Pages, f2: seq<nat>, t2: Tab, a: nat, i: nat)
    requires Populated(p0, f0, t0, p1, f1, t1, a, i) && TookNothing(p1, f1, t1, p2, f2, t2)
    ensures Populated(p0, f0, t0, p2, f2, t2, a, i) && t2.root == t1.root
  {
    forall w: nat, h: nat
      ensures Maps(p2, t2, w, h) == Maps(p1, t1, w, h)
    {
    }
    SteadyNext(p0, f0, t0, p1, f1, t1, p2, a, i);
    forall h: nat
      ensures Holds(p2, t2, a, i, h) <==> Holds(p1, t1, a, i, h)
    {
    }
  }

  /** Taking the filled range out again gives back all that was taken but tables. */
  lemma UnfillAll(p0: Pages, f0: seq<nat>, t0: Tab, p1: Pages, f1: seq<nat>, t1: Tab, p2: Pages, f2: seq<nat>, a: nat, n: nat)
    requires Populated(p0, f0, t0, p1, f1, t1, a, n) && Unmap(p1, f1, t1, p2, f2, a, n, true)
    requires forall w: nat | a <= w < a + n :: Flat(p0, t0, w) == None
    ensures TookNothing(p0, f0, t0, p2, f2, t1)
  {
    forall g | g in p0 && g !in f0 && g !in Frames(t0)
      ensures g in p2 && p2[g] == p0[g]
    {
      assert !Holds(p1, t1, a, n, g);
    }
  }

  // ---- uvmcopy ----

  /** Tree `to` lies beside tree tn in one memory: no table shared, and the frames
      of its first n pages are in use and are no tables of tn. */
  ghost predicate Beside(p: Pages, f: seq<nat>, to: Tab, tn: Tab, n: nat) {
    && TabOk(p, to) && InUse(f, to) && Frames(to) !! Frames(tn)
    && (forall w: nat, h: nat | w < n && Maps(p, to, w, h) :: h in p && h !in f && h !in Frames(tn))
  }

  /** Contents and flags of the first n pages. */
  ghost function ImageOf(p: Pages, t: Tab, n: nat): Image {
    map w: nat | w < n && Flat(p, t, w).Some? && Frame(Flat(p, t, w).value) in p ::
      (p[Frame(Flat(p, t, w).value)], Flags(Flat(p, t, w).value))
  }

  /** Filling tn does not disturb `to`. */
  lemma BesideKept(p0: Pages, f0: seq<nat>, to: Tab, tn0: Tab, p: Pages, f: seq<nat>, tn: Tab, a: nat, i: nat, n: nat)
    requires Beside(p0, f0, to, tn0, n) && Populated(p0, f0, tn0, p, f, tn, a, i)
    ensures Beside(p, f, to, tn, n) && SameFlat(p0, to, p, to)
    ensures forall w: nat, h: nat | w < n && Maps(p0, to, w, h) :: p[h] == p0[h]
  {
    forall h | h in Frames(to)
      ensures h in p && p[h] == p0[h] && h !in f && h !in Frames(tn)
    {
      assert h in p0 && h !in f0 && h !in Frames(tn0);
    }
    TabFrame(p0, p, to);
    forall w: nat, h: nat | w < n
      ensures Maps(p, to, w, h) == Maps(p0, to, w, h)
      ensures Maps(p0, to, w, h) ==> h in p && h !in f && h !in Frames(tn) && p[h] == p0[h]
    {
      assert Flat(p, to, w) == Flat(p0, to, w);
    }
  }

  lemma ValidFlags(pte: nat)
    requires V(pte)
    ensures Flags(pte) < 1024 && WithV(Flags(pte)) == Flags(pte)
  {
    assert (pte % 1024) % 2 == pte % 2;
  }

  /** What walk and the entry say of page i in the old table, against the image. */
  lemma OldEntry(p0: Pages, f0: seq<nat>, to: Tab, tn0: Tab, p: Pages, f: seq<nat>, tn: Tab, i: nat, n: nat)
    requires Beside(p0, f0, to, tn0, n) && Populated(p0, f0, tn0, p, f, tn, 0, i) && i < n
    ensures Flat(p, to, i) == None ==> i !in ImageOf(p0, to, n)
    ensures Flat(p, to, i).Some? ==>
              var pte := Flat(p, to, i).value;
              V(pte) && Frame(pte) in p && i in ImageOf(p0, to, n) && ImageOf(p0, to, n)[i] == (p[Frame(pte)], Flags(pte))
  {
    BesideKept(p0, f0, to, tn0, p, f, tn, 0, i, n);
    assert Flat(p, to, i) == Flat(p0, to, i);
    if Flat(p, to, i).Some? { assert Maps(p0, to, i, Frame(Flat(p, to, i).value)); }
  }

  lemma PopulatedMeans(p0: Pages, f0: seq<nat>, t0: Tab, p: Pages, f: seq<nat>, t: Tab, a: nat, n: nat, w: nat)
    requires Populated(p0, f0, t0, p, f, t, a, n) && !(a <= w < a + n)
    ensures Owns(p, f, t, a, n) && Flat(p, t, w) == Flat(p0, t0, w) && t.root == t0.root
  {
  }

  lemma NoTable(p: Pages, t: Tab, v: nat)
    requires v / 512 !in t.leaf
    ensures Flat(p, t, v) == None
  {
  }

  /** One turn of uvmcopy's loop, for page i. */
  method CopyOne(k: Kmem, oldRoot: nat, newRoot: nat, i: nat, n: nat,
                 ghost to: Tab, ghost tn: Tab, ghost p0: Pages, ghost f0: seq<nat>, ghost tn0: Tab)
    returns (ok: bool, ghost tn': Tab)
    requires TreeOk(k, tn) && tn.root == newRoot && to.root == oldRoot && i < n <= VPNS
    requires Beside(p0, f0, to, tn0, n) && Flat(p0, tn0, i) == None
    requires Populated(p0, f0, tn0, k.pages, k.free, tn, 0, i) && Shows(k.pages, tn, 0, i, ImageOf(p0, to, n))
    modifies k
    ensures TreeOk(k, tn') && tn'.root == newRoot
    ensures Populated(p0, f0, tn0, k.pages, k.free, tn', 0, if ok then i + 1 else i)
    ensures ok ==> Shows(k.pages, tn', 0, i + 1, ImageOf(p0, to, n))
    ensures !ok ==> |old(k.free)| < 3
    ensures |old(k.free)| <= |k.free| + 3
  {
    hide TabOk, InUse, Kmem.Valid, Populated, Shows, Took, TookNothing, Put, ImageOf, Flat, Flags, WithV;
    ghost var p1, f1 := k.pages, k.free;
    BesideKept(p0, f0, to, tn0, p1, f1, tn, 0, i, n);
    ghost var to': Tab;
    var table: Option<nat>;
    table, to' := Walk(k, oldRoot, i, false, to);
    OldEntry(p0, f0, to, tn0, p1, f1, tn, i, n);
    if table.Some? { EntryOf(p1, to, i, table.value); } else { NoTable(p1, to, i); }
    if table.None? || !V(k.pages[table.value][I0(i)]) {
      PopulateSkip(p0, f0, tn0, p1, f1, tn, 0, i, ImageOf(p0, to, n));
      return true, tn;
    }
    var pte := k.pages[table.value][I0(i)];
    ValidFlags(pte);
    PopulatedMeans(p0, f0, tn0, p1, f1, tn, 0, i, i);
    var g: nat;
    var page := k.pages[Frame(pte)];
    g, tn' := PutPage(k, newRoot, i, page, Flags(pte), tn);
    if g == 0 {
      PopulateStop(p0, f0, tn0, p1, f1, tn, k.pages, k.free, tn', 0, i);
      return false, tn';
    }
    PopulateNext(p0, f0, tn0, p1, f1, tn, k.pages, k.free, tn', 0, i, g, Flags(pte), page);
    PutShows(p1, f1, tn, k.pages, k.free, tn', 0, i, g, Flags(pte), page, ImageOf(p0, to, n));
    return true, tn';
  }

  /** uvmcopy of n pages into a space where they are unmapped. On success each page
      of the old space has a copy with the same flags in a frame of its own, and
      the free pages, the new tables and these frames are together what free pages
      and tables were. On failure, which needs fewer than 3n free pages, every
      frame is free again and no mapping of either space has changed. */
  method Copy(k: Kmem, oldRoot: nat, newRoot: nat, n: nat, ghost to: Tab, ghost tn: Tab) returns (ok: bool, ghost tn': Tab)
    requires TreeOk(k, tn) && tn.root == newRoot && to.root == oldRoot && n <= VPNS
    requires Beside(k.pages, k.free, to, tn, n)
    requires forall w: nat | w < n :: Flat(k.pages, tn, w) == None
    modifies k
    ensures TreeOk(k, tn') && tn'.root == newRoot && Beside(k.pages, k.free, to, tn', n)
    ensures SameFlat(old(k.pages), to, k.pages, to) && Steady(old(k.pages), old(k.free), tn, k.pages)
    ensures ok ==> Populated(old(k.pages), old(k.free), tn, k.pages, k.free, tn', 0, n)
                   && Shows(k.pages, tn', 0, n, ImageOf(old(k.pages), to, n))
    ensures !ok ==> TookNothing(old(k.pages), old(k.free), tn, k.pages, k.free, tn') && |old(k.free)| < 3 * n
  {
    hide TreeOk, Beside, Populated, Shows, TookNothing, ImageOf, Flat, SameFlat, Steady, Unmap, Owns;
    ghost var p0, f0 := k.pages, k.free;
    PopulateStart(p0, f0, tn, 0, ImageOf(p0, to, n));
    tn' := tn;
    var i := 0;
    while i < n
      invariant i <= n && |f0| <= |k.free| + 3 * i
      invariant TreeOk(k, tn') && tn'.root == newRoot
      invariant Populated(p0, f0, tn, k.pages, k.free, tn', 0, i)
      invariant Shows(k.pages, tn', 0, i, ImageOf(p0, to, n))
    {
      ok, tn' := CopyOne(k, oldRoot, newRoot, i, n, to, tn', p0, f0, tn);
      if !ok {
        PopulatedMeans(p0, f0, tn, k.pages, k.free, tn', 0, i, i);
        ghost var p1, f1 := k.pages, k.free;
        UnmapRange(k, newRoot, 0, i, true, tn');
        UnfillAll(p0, f0, tn, p1, f1, tn', k.pages, k.free, 0, i);
        BesideAfter(p0, f0, to, tn, k.pages, k.free, tn', n);
        return false, tn';
      }
      i := i + 1;
    }
    BesideKept(p0, f0, to, tn, k.pages, k.free, tn', 0, n, n);
    PopulatedSteady(p0, f0, tn, k.pages, k.free, tn', 0, n);
    ok := true;
  }

  lemma BesideAfter(p0: Pages, f0: seq<nat>, to: Tab, tn0: Tab, p: Pages, f: seq<nat>, tn: Tab, n: nat)
    requires Beside(p0, f0, to, tn0, n) && TookNothing(p0, f0, tn0, p, f, tn)
    ensures Beside(p, f, to, tn, n) && SameFlat(p0, to, p, to) && Steady(p0, f0, tn0, p)
  {
    PopulateStart(p0, f0, tn0, 0, map[]);
    PopulateStop(p0, f0, tn0, p0, f0, tn0, p, f, tn, 0, 0);
    BesideKept(p0, f0, to, tn0, p, f, tn, 0, 0, n);
  }

  lemma PopulatedSteady(p0: Pages, f0: seq<nat>, t0: Tab, p: Pages, f: seq<nat>, t: Tab, a: nat, n: nat)
    requires Populated(p0, f0, t0, p, f, t, a, n)
    ensures Steady(p0, f0, t0, p)
  {
  }

  /** The copies are in other frames than the originals, which still hold what
      they held. */
  lemma CopyIsApart(p0: Pages, f0: seq<nat>, to: Tab, tn0: Tab, p: Pages, f: seq<nat>, tn: Tab, n: nat, v: nat, w: nat, g: nat, h: nat)
    requires Beside(p0, f0, to, tn0, n) && Populated(p0, f0, tn0, p, f, tn, 0, n)
    requires v < n && Maps(p0, to, v, g) && w < n && Maps(p, tn, w, h)
    ensures Maps(p, to, v, g) && g != h && g in p && g in p0 && p[g] == p0[g]
  {
    BesideKept(p0, f0, to, tn0, p, f, tn, 0, n, n);
    assert Flat(p, to, v) == Flat(p0, to, v);
    assert Holds(p, tn, 0, n, h);
  }
}
