/** The memory side of kexec, riscv-os/kernel/lib/exec.c: a new space is made, the segments
    of the program are allocated and loaded, then the stack with its guard page. The
    files and strings that it reads are parameters: what loadseg finds in the file and
    what copyout puts on the stack. */
module VmExec {
  import opened Common
  import opened PageAlloc
  import opened PageTable
  import opened Vm
  import opened VmSpace
  import opened VmTeardown
  import opened VmBuild
  import opened VmLife
  import opened VmGrow
  import opened VmUser
  import opened VmOwners

  const WORD64: nat := 0x1_0000_0000_0000_0000
  type U64 = x: nat | x < WORD64
  const USERSTACK: nat := 3
  const MAXARG: nat := 32
  const PTE_W: nat := 4

  /** A program header of type PT_LOAD; `pages` is as much of the segment as readi
      delivers, page by page, the last one filled up with zeros. */
  datatype Segment = Segment(vaddr: U64, memsz: U64, filesz: U64, perm: Perm, pages: seq<Page>)
  type Perm = x: nat | x in {0, 4, 8, 12}

  /** `args` are the lengths of the arguments, `stack` the contents of the stack pages
      when they have been copied there. */
  datatype Program = Program(segs: seq<Segment>, entry: nat, args: seq<nat>, stack: Stack)
  type Stack = s: seq<Page> | |s| == USERSTACK witness [PageAlloc.Filled(0), PageAlloc.Filled(0), PageAlloc.Filled(0)]

  // ---- what the memory of the program is to be ----

  /** Size and contents of the space so far. */
  datatype Load = Load(sz: nat, img: Image)

  predicate HeaderOk(seg: Segment) {
    seg.memsz >= seg.filesz && seg.vaddr + seg.memsz < WORD64 && seg.vaddr % PGSIZE == 0
  }

  /** uVmAlloc to size newsz. */
  ghost function Enlarged(l: Load, newsz: nat, perm: nat): Load {
    if newsz < l.sz then l
    else Load(newsz, l.img + ZeroImage(PagesOf(l.sz), NewPages(l.sz, newsz), 19 + perm))
  }

  /** The first i pages of `pages` in place of the contents from page v on. */
  ghost function Overlaid(img: Image, v: nat, pages: seq<Page>, i: nat): Image
    requires i <= |pages|
  {
    if i == 0 then img
    else
      var im := Overlaid(img, v, pages, i - 1);
      if v + i - 1 in im then im[v + i - 1 := (pages[i - 1], im[v + i - 1].1)] else im
  }

  ghost function AddSegment(l: Load, seg: Segment): Option<Load> {
    if !HeaderOk(seg) then None
    else
      var g := Enlarged(l, seg.vaddr + seg.memsz, seg.perm);
      if g.sz == 0 || |seg.pages| < PagesOf(seg.filesz) then None
      else Some(Load(g.sz, Overlaid(g.img, seg.vaddr / PGSIZE, seg.pages, PagesOf(seg.filesz))))
  }

  /** After i segments, or None when one of them is refused. */
  ghost function Loaded(segs: seq<Segment>, i: nat): Option<Load>
    requires i <= |segs|
  {
    if i == 0 then Some(Load(0, map[]))
    else match Loaded(segs, i - 1)
      case None => None
      case Some(l) => AddSegment(l, segs[i - 1])
  }

  /** How many pages uVmAlloc has been asked for by then. */
  ghost function Asked(segs: seq<Segment>, i: nat): nat
    requires i <= |segs|
  {
    if i == 0 then 0
    else match Loaded(segs, i - 1)
      case None => Asked(segs, i - 1)
      case Some(l) =>
        if !HeaderOk(segs[i - 1]) then PagesOf(l.sz)
        else PagesOf(Enlarged(l, segs[i - 1].vaddr + segs[i - 1].memsz, segs[i - 1].perm).sz)
  }

  function Aligned(sp: int): int { sp - sp % 16 }

  /** The stack pointer after i arguments, or None when they do not fit above `base`. */
  function Pushed(sp: int, base: int, args: seq<nat>, i: nat): Option<int>
    requires i <= |args|
  {
    if i == 0 then Some(sp)
    else match Pushed(sp, base, args, i - 1)
      case None => None
      case Some(x) =>
        var y := Aligned(x - (args[i - 1] + 1));
        if i > MAXARG || y < base then None else Some(y)
  }

  function StackPointer(sp: int, base: int, args: seq<nat>): Option<int> {
    match Pushed(sp, base, args, |args|)
    case None => None
    case Some(x) =>
      var y := Aligned(x - (|args| + 1) * 8);
      if y < base then None else Some(y)
  }

  /** PTE_U is taken from the guard page. */
  function WithoutU(flags: nat): nat { if (flags / 16) % 2 == 1 then flags - 16 else flags }

  // ---- a space in the making ----

  /** The pages f0 are divided between the free list and the space; pages that were in use
      are as they were. */
  ghost predicate Drawn(p0: Pages, f0: seq<nat>, p: Pages, f: seq<nat>, t: Tab, n: nat) {
    && (forall h :: h in f || h in Frames(t) || Holds(p, t, 0, n, h) <==> h in f0)
    && (forall h | h in p0 && h !in f0 :: h in p && p[h] == p0[h])
  }

  /** Trampoline and trap frame are mapped, and not for the user. */
  ghost predicate Fixed(p: Pages, t: Tab) {
    && Reserved(p, t) && Flat(p, t, TRAMPOLINE).Some? && Flat(p, t, TRAPFRAME).Some?
  }

  ghost predicate Partial(p0: Pages, f0: seq<nat>, p: Pages, f: seq<nat>, t: Tab, n: nat) {
    ProcSpace(p, f, t, n) && Fixed(p, t) && Drawn(p0, f0, p, f, t, n)
  }

  /** Every page below n is mapped for the user. */
  ghost predicate AllUser(p: Pages, t: Tab, n: nat) {
    forall v: nat | v < n :: Flat(p, t, v).Some? && U(Flat(p, t, v).value)
  }

  lemma PartialStart(p0: Pages, f0: seq<nat>, p: Pages, f: seq<nat>, t: Tab, trampoline: nat, tf: nat)
    requires FlatIs(p, t, ProcMap(trampoline, tf)) && Built(p0, f0, p, f, t)
    ensures Partial(p0, f0, p, f, t, 0) && AllUser(p, t, 0) && ImageOf(p, t, 0) == map[]
  {
    hide Flat, Pte, U, Holds, LeavesOnly, Owns;
    FreshSpace(p, f, t, trampoline, tf);
    NoPages(p, t);
    PteFields(trampoline, WithV(RX));
    PteFields(tf, WithV(RW));
  }

  // ---- uVmAlloc in such a space ----

  /** The frames of two ranges side by side. */
  lemma HoldsBoth(p: Pages, t: Tab, a: nat, m: nat, h: nat)
    ensures Holds(p, t, 0, a + m, h) <==> Holds(p, t, 0, a, h) || Holds(p, t, a, m, h)
  {
    hide Flat;
    if Holds(p, t, 0, a + m, h) {
      var w: nat :| 0 <= w < a + m && Maps(p, t, w, h);
      assert w < a || a <= w < a + m;
    }
    if Holds(p, t, 0, a, h) { var w: nat :| 0 <= w < a && Maps(p, t, w, h); assert Holds(p, t, 0, a + m, h); }
    if Holds(p, t, a, m, h) { var w: nat :| a <= w < a + m && Maps(p, t, w, h); assert Holds(p, t, 0, a + m, h); }
  }

  /** What a range filled anew leaves of the pages below it. */
  lemma BelowKept(p0: Pages, f0: seq<nat>, t0: Tab, p: Pages, f: seq<nat>, t: Tab, a: nat, m: nat)
    requires Owns(p0, f0, t0, 0, a) && Populated(p0, f0, t0, p, f, t, a, m)
    ensures forall w: nat, h: nat | w < a :: Maps(p, t, w, h) <==> Maps(p0, t0, w, h)
    ensures forall h: nat :: Holds(p, t, 0, a, h) <==> Holds(p0, t0, 0, a, h)
    ensures Owns(p, f, t, 0, a + m)
    ensures forall w: nat, h: nat | w < a && Maps(p0, t0, w, h) :: h in p0 && h in p && p[h] == p0[h]
  {
    hide Flat;
    forall w: nat, h: nat | w < a
      ensures Maps(p, t, w, h) <==> Maps(p0, t0, w, h)
      ensures Maps(p0, t0, w, h) ==> h in p0 && h in p && p[h] == p0[h] && h !in f && h !in Frames(t) && !Holds(p, t, a, m, h)
    {
    }
    forall w: nat, h: nat | a <= w < a + m && Maps(p, t, w, h)
      ensures Holds(p, t, a, m, h)
    {
    }
  }

  lemma DrawnMore(p0: Pages, f0: seq<nat>, p1: Pages, f1: seq<nat>, t1: Tab, p: Pages, f: seq<nat>, t: Tab, a: nat, m: nat)
    requires Drawn(p0, f0, p1, f1, t1, a) && Owns(p1, f1, t1, 0, a) && Populated(p1, f1, t1, p, f, t, a, m)
    ensures Drawn(p0, f0, p, f, t, a + m)
  {
    BelowKept(p1, f1, t1, p, f, t, a, m);
    hide Holds, Owns, Flat;
    forall h: nat
      ensures h in f || h in Frames(t) || Holds(p, t, 0, a + m, h) <==> h in f0
    {
      HoldsBoth(p, t, a, m, h);
    }
  }

  lemma UserFlag(pte: nat)
    ensures U(pte) <==> (Flags(pte) / 16) % 2 == 1
  {
    PteFields(pte / 1024, pte % 1024);
    assert Pte(pte / 1024, pte % 1024) == pte;
  }

  /** A page of the new range. */
  lemma NewPage(p: Pages, t: Tab, a: nat, m: nat, flags: nat, w: nat)
    requires Shows(p, t, a, m, ZeroImage(a, m, flags)) && a <= w < a + m
    requires (flags / 2) % 8 != 0 && (flags / 16) % 2 == 1
    ensures Flat(p, t, w).Some? && !Inner(Flat(p, t, w).value) && U(Flat(p, t, w).value)
    ensures ShowsPage(p, t, w, (PageAlloc.Filled(0), flags))
  {
    hide Flat, Flags, Inner, U;
    ZeroAt(a, m, flags, w);
    InnerFlags(Flat(p, t, w).value);
    UserFlag(Flat(p, t, w).value);
  }

  lemma SpaceMore(p1: Pages, f1: seq<nat>, t1: Tab, p: Pages, f: seq<nat>, t: Tab, a: nat, m: nat, flags: nat)
    requires ProcSpace(p1, f1, t1, a) && Fixed(p1, t1) && AllUser(p1, t1, a) && a + m <= TRAPFRAME
    requires Populated(p1, f1, t1, p, f, t, a, m) && Shows(p, t, a, m, ZeroImage(a, m, flags))
    requires (flags / 2) % 8 != 0 && (flags / 16) % 2 == 1
    ensures ProcSpace(p, f, t, a + m) && Fixed(p, t) && AllUser(p, t, a + m)
  {
    BelowKept(p1, f1, t1, p, f, t, a, m);
    hide Holds, Owns, Flat, U, Inner, Shows;
    forall w: nat | Flat(p, t, w).Some?
      ensures !Inner(Flat(p, t, w).value)
    {
      if a <= w < a + m { NewPage(p, t, a, m, flags, w); }
    }
    forall w: nat | w < a + m
      ensures Flat(p, t, w).Some? && U(Flat(p, t, w).value)
    {
      if a <= w { NewPage(p, t, a, m, flags, w); }
    }
  }

  ghost function At(img: Image, w: nat): Option<(Page, nat)> { if w in img then Some(img[w]) else None }

  lemma SameImage(x: Image, y: Image)
    requires forall w: nat :: At(x, w) == At(y, w)
    ensures x == y
  {
    forall w: nat
      ensures w in x <==> w in y
      ensures w in x ==> x[w] == y[w]
    {
      assert At(x, w) == At(y, w);
    }
  }

  /** One page of the image. */
  ghost function PageAt(p: Pages, t: Tab, w: nat): Option<(Page, nat)> {
    if Flat(p, t, w).Some? && Frame(Flat(p, t, w).value) in p
    then Some((p[Frame(Flat(p, t, w).value)], Flags(Flat(p, t, w).value))) else None
  }

  lemma ImageAt(p: Pages, t: Tab, n: nat, w: nat)
    ensures At(ImageOf(p, t, n), w) == if w < n then PageAt(p, t, w) else None
  {
  }

  lemma ZeroAtImage(img: Image, a: nat, m: nat, flags: nat, w: nat)
    ensures At(img + ZeroImage(a, m, flags), w) == if a <= w < a + m then Some((PageAlloc.Filled(0), flags)) else At(img, w)
  {
  }

  lemma ImageMore(p1: Pages, f1: seq<nat>, t1: Tab, p: Pages, f: seq<nat>, t: Tab, a: nat, m: nat, flags: nat)
    requires Owns(p1, f1, t1, 0, a) && Populated(p1, f1, t1, p, f, t, a, m) && Shows(p, t, a, m, ZeroImage(a, m, flags))
    requires (flags / 2) % 8 != 0 && (flags / 16) % 2 == 1
    ensures ImageOf(p, t, a + m) == ImageOf(p1, t1, a) + ZeroImage(a, m, flags)
  {
    BelowKept(p1, f1, t1, p, f, t, a, m);
    hide Holds, Owns, Flat, U, Inner, Shows, Flags, ImageOf, ZeroImage, At;
    var x, y := ImageOf(p, t, a + m), ImageOf(p1, t1, a) + ZeroImage(a, m, flags);
    forall w: nat
      ensures At(x, w) == At(y, w)
    {
      ImageAt(p, t, a + m, w);
      ImageAt(p1, t1, a, w);
      ZeroAtImage(ImageOf(p1, t1, a), a, m, flags, w);
      if a <= w < a + m { NewPage(p, t, a, m, flags, w); }
      else if w < a && Flat(p1, t1, w).Some? { assert Maps(p1, t1, w, Frame(Flat(p1, t1, w).value)); }
    }
    SameImage(x, y);
  }

  // ---- how much memory it takes ----

  lemma PathsBoth(t1: Tab, t: Tab, t': Tab, a: nat, m: nat)
    requires Paths(t1, t, 0, a) && Paths(t, t', a, m)
    ensures Paths(t1, t', 0, a + m)
  {
    if a > 0 { IndexStep(a - 1); IndexMono(0, a - 1); }
    if m > 0 { IndexMono(a, a + m - 1); }
  }

  lemma FreshSame(t1: Tab, t: Tab, a: nat, w: nat)
    requires Paths(t1, t, 0, a) && a <= w
    ensures Fresh(t, a, w) == Fresh(t1, 0, w)
  {
    if w == a {
      FreshMissing(t1, t, 0, a);
    } else {
      hide I2;
      if a > 0 { IndexMono(a - 1, w - 1); IndexMono(0, a - 1); }
      IndexStep(w - 1);
      NotBelow(t1, t, a, w);
    }
  }

  /** Where a path leaves the one before it, it is beyond all paths so far. */
  lemma NotBelow(t1: Tab, t: Tab, a: nat, w: nat)
    requires Paths(t1, t, 0, a) && a < w && I2(0) == 0
    requires a > 0 ==> I2(a - 1) <= I2(w - 1) && (a - 1) / 512 <= (w - 1) / 512
    requires I2(w - 1) <= I2(w) && (w - 1) / 512 <= w / 512
    ensures I2(w - 1) != I2(w) ==> (I2(w) in t.mid <==> I2(w) in t1.mid)
    ensures (w - 1) / 512 != w / 512 ==> (w / 512 in t.leaf <==> w / 512 in t1.leaf)
  {
    hide I2;
  }

  lemma {:induction false} TablesBoth(t1: Tab, t: Tab, a: nat, m: nat)
    requires Paths(t1, t, 0, a)
    ensures Tables(t1, 0, a + m) == Tables(t1, 0, a) + Tables(t, a, m)
    decreases m
  {
    hide Fresh, Paths;
    if m > 0 {
      TablesBoth(t1, t, a, m - 1);
      FreshSame(t1, t, a, a + m - 1);
    }
  }

  /** Of `free` pages the space has taken n and the tables for them. */
  ghost predicate Account(t1: Tab, free: nat, t: Tab, left: nat, n: nat) {
    Paths(t1, t, 0, n) && free == left + n + Tables(t1, 0, n)
  }

  /** A space of n pages is possible. */
  predicate FitsIn(free: nat, t1: Tab, n: nat) { n <= TRAPFRAME && Suffices(free, t1, 0, n) }

  lemma FitsLess(free: nat, t1: Tab, m: nat, n: nat)
    requires m <= n && FitsIn(free, t1, n)
    ensures FitsIn(free, t1, m)
  {
    TablesMono(t1, 0, m, n);
  }

  lemma SufficesBoth(t1: Tab, free: nat, t: Tab, left: nat, a: nat, m: nat)
    requires Account(t1, free, t, left, a)
    ensures Suffices(left, t, a, m) <==> Suffices(free, t1, 0, a + m)
  {
    TablesBoth(t1, t, a, m);
  }

  lemma AccountMore(t1: Tab, free: nat, t: Tab, left: nat, a: nat, t': Tab, left': nat, m: nat)
    requires Account(t1, free, t, left, a) && Paths(t, t', a, m) && left == left' + m + Tables(t, a, m)
    ensures Account(t1, free, t', left', a + m)
  {
    PathsBoth(t1, t, t', a, m);
    TablesBoth(t1, t, a, m);
  }

  /** Below the trap frame nothing but the space's own pages is mapped. */
  lemma {:induction false} ClearBelow(p: Pages, f: seq<nat>, t: Tab, n: nat, a: nat, m: nat)
    requires ProcSpace(p, f, t, n) && Fixed(p, t) && n <= a <= TRAPFRAME
    ensures Clear(p, t, a, m) == if a + m <= TRAPFRAME then m else TRAPFRAME - a
    decreases m
  {
    hide Flat, Owns, LeavesOnly;
    if m > 0 && a < TRAPFRAME { ClearBelow(p, f, t, n, a + 1, m - 1); }
  }

  /** Memory that runs out is a panic here: trampoline and trap frame are mapped. */
  lemma PanicsIff(p: Pages, f: seq<nat>, t: Tab, a: nat, m: nat, t1: Tab, free: nat)
    requires ProcSpace(p, f, t, a) && Fixed(p, t) && Account(t1, free, t, |f|, a)
    ensures a + m <= VPNS || a + Clear(p, t, a, m) < VPNS
    ensures AllocPanics(p, |f|, t, a, m) <==> !FitsIn(free, t1, a + m)
    ensures !AllocPanics(p, |f|, t, a, m) ==> Suffices(|f|, t, a, m)
  {
    hide Flat, Owns, LeavesOnly, Suffices, Clear;
    ClearBelow(p, f, t, a, a, m);
    SufficesBoth(t1, free, t, |f|, a, m);
  }

  lemma PagesGrow(sz: nat, newsz: nat)
    requires sz <= newsz
    ensures PagesOf(sz) + NewPages(sz, newsz) == PagesOf(newsz)
  {
  }

  lemma SizeFits(sz: nat)
    requires PagesOf(sz) <= TRAPFRAME
    ensures sz <= VPNS * PGSIZE
  {
  }

  /** uVmAlloc of a space in the making: a panic if and only if memory is short or the
      program is too large. */
  method GrowTo(k: Kmem, root: nat, sz: nat, newsz: nat, perm: Perm, ghost t: Tab, ghost t1: Tab, ghost free: nat, ghost p0: Pages, ghost f0: seq<nat>)
    returns (ok: bool, sz': nat, ghost t': Tab)
    requires TreeOk(k, t) && t.root == root && Partial(p0, f0, k.pages, k.free, t, PagesOf(sz)) && AllUser(k.pages, t, PagesOf(sz))
    requires Account(t1, free, t, |k.free|, PagesOf(sz))
    modifies k
    ensures k.Valid() && sz' == if newsz < sz then sz else newsz
    ensures Enlarged(Load(sz, ImageOf(old(k.pages), t, PagesOf(sz))), newsz, perm).sz == sz'
    ensures ok <==> FitsIn(free, t1, PagesOf(sz'))
    ensures ok ==>
      && TreeOk(k, t') && t'.root == root && Partial(p0, f0, k.pages, k.free, t', PagesOf(sz')) && AllUser(k.pages, t', PagesOf(sz'))
      && Account(t1, free, t', |k.free|, PagesOf(sz'))
      && Enlarged(Load(sz, ImageOf(old(k.pages), t, PagesOf(sz))), newsz, perm) == Load(sz', ImageOf(k.pages, t', PagesOf(sz')))
  {
    hide TabOk, InUse, Chain, Agree, ProcSpace, Fixed, Drawn, AllUser, Account, FitsIn, AllocPanics, Suffices, Clear, Populated, Shows, ZeroImage, ImageOf, Gone, Paths, Tables, Flat;
    ghost var p1, f1, a, m := k.pages, k.free, PagesOf(sz), NewPages(sz, newsz);
    PartialOwns(p1, f1, t, a);
    SizeFits(sz);
    PanicsIff(p1, f1, t, a, m, t1, free);
    AccountFits(p1, f1, t, a, t1, free);
    if newsz >= sz { PagesGrow(sz, newsz); }
    sz' := if newsz < sz then sz else newsz;
    var r: Outcome;
    r, t' := VmAlloc(k, root, sz, newsz, perm, t);
    ok := !r.Panic?;
    if r.Grew? {
      DrawnMore(p0, f0, p1, f1, t, k.pages, k.free, t', a, m);
      FitsMeans(free, t1, a + m);
      SpaceMore(p1, f1, t, k.pages, k.free, t', a, m, 19 + perm);
      ImageMore(p1, f1, t, k.pages, k.free, t', a, m, 19 + perm);
      AccountMore(t1, free, t, |f1|, a, t', |k.free|, m);
      PopulatedRoot(p1, f1, t, k.pages, k.free, t', a, m);
    }
  }

  lemma PartialOwns(p: Pages, f: seq<nat>, t: Tab, n: nat)
    requires ProcSpace(p, f, t, n)
    ensures n <= TRAPFRAME && Owns(p, f, t, 0, n) && LeavesOnly(p, t)
  {
  }

  lemma AccountFits(p: Pages, f: seq<nat>, t: Tab, n: nat, t1: Tab, free: nat)
    requires ProcSpace(p, f, t, n) && Account(t1, free, t, |f|, n)
    ensures FitsIn(free, t1, n)
  {
  }

  lemma FitsMeans(free: nat, t1: Tab, n: nat)
    requires FitsIn(free, t1, n)
    ensures n <= TRAPFRAME
  {
  }

  lemma PopulatedRoot(p0: Pages, f0: seq<nat>, t0: Tab, p: Pages, f: seq<nat>, t: Tab, a: nat, n: nat)
    requires Populated(p0, f0, t0, p, f, t, a, n)
    ensures t.root == t0.root
  {
  }

  // ---- loading ----

  /** What user code can reach lies below n. */
  lemma UserReach(p: Pages, f: seq<nat>, t: Tab, n: nat)
    requires ProcSpace(p, f, t, n) && Fixed(p, t)
    ensures UserFrames(p, f, t)
    ensures forall v: nat | Flat(p, t, v).Some? && U(Flat(p, t, v).value) :: v < n && Maps(p, t, v, Frame(Flat(p, t, v).value))
  {
    hide Flat, U, Frame, LeavesOnly;
    forall v: nat | Flat(p, t, v).Some? && U(Flat(p, t, v).value)
      ensures v < n && Maps(p, t, v, Frame(Flat(p, t, v).value))
    {
    }
  }

  lemma FrameFacts(p0: Pages, f0: seq<nat>, p: Pages, f: seq<nat>, t: Tab, n: nat, v: nat, g: nat)
    requires Partial(p0, f0, p, f, t, n) && v < n && Maps(p, t, v, g)
    ensures g in p && g !in f && g !in Frames(t) && Holds(p, t, 0, n, g) && g in f0
    ensures forall h: nat | Holds(p, t, 0, n, h) :: h in p && h !in f
  {
    hide Flat, LeavesOnly, Frames;
  }

  lemma DrawnStore(p0: Pages, f0: seq<nat>, p: Pages, f: seq<nat>, t: Tab, n: nat, g: nat, page: Page)
    requires Drawn(p0, f0, p, f, t, n) && g in f0 && g in p
    requires forall h: nat :: Holds(p[g := page], t, 0, n, h) <==> Holds(p, t, 0, n, h)
    ensures Drawn(p0, f0, p[g := page], f, t, n)
  {
    hide Holds, Frames;
  }

  /** A store to a frame of the space. */
  lemma StoreKeeps(p0: Pages, f0: seq<nat>, p: Pages, f: seq<nat>, t: Tab, n: nat, v: nat, g: nat, page: Page)
    requires TabOk(p, t) && InUse(f, t) && Partial(p0, f0, p, f, t, n) && v < n && Maps(p, t, v, g)
    ensures g in p && g !in f
    ensures var p' := p[g := page];
            && TabOk(p', t) && SameFlat(p, t, p', t) && Partial(p0, f0, p', f, t, n)
            && v in ImageOf(p, t, n) && ImageOf(p', t, n) == ImageOf(p, t, n)[v := (page, ImageOf(p, t, n)[v].1)]
  {
    var p' := p[g := page];
    FrameFacts(p0, f0, p, f, t, n, v, g);
    TabFrame(p, p', t);
    hide Flat, TabOk, Frames, ImageOf, Holds, Owns, Drawn, LeavesOnly, InUse;
    assert SameFlat(p, t, p', t);
    SameHolds(p, p', t, n);
    DrawnStore(p0, f0, p, f, t, n, g, page);
    OwnsKept(p, f, p', f, t, n);
    RestKept(p, t, p', f, f, n);
    StoreSeen(p, f, t, n, p', v, g, page);
  }

  lemma SameUser(p: Pages, t: Tab, p': Pages, n: nat)
    requires AllUser(p, t, n) && SameFlat(p, t, p', t)
    ensures AllUser(p', t, n)
  {
    hide Flat, U;
  }

  lemma UserPageAt(p: Pages, t: Tab, n: nat, v: nat)
    requires AllUser(p, t, n) && v < n
    ensures Flat(p, t, v).Some? && U(Flat(p, t, v).value)
  {
  }

  /** uVA2PA of a page of the space, and a store there. */
  method StorePage(k: Kmem, root: nat, n: nat, v: nat, page: Page, ghost t: Tab, ghost p0: Pages, ghost f0: seq<nat>)
    requires TreeOk(k, t) && t.root == root && Partial(p0, f0, k.pages, k.free, t, n) && v < n
    requires Flat(k.pages, t, v).Some? && U(Flat(k.pages, t, v).value)
    modifies k
    ensures TreeOk(k, t) && k.free == old(k.free) && Partial(p0, f0, k.pages, k.free, t, n) && SameFlat(old(k.pages), t, k.pages, t)
    ensures v in ImageOf(old(k.pages), t, n)
    ensures ImageOf(k.pages, t, n) == ImageOf(old(k.pages), t, n)[v := (page, ImageOf(old(k.pages), t, n)[v].1)]
  {
    hide TabOk, InUse, Chain, Agree, ProcSpace, Fixed, Drawn, ImageOf, Flat, U, Frame, SameFlat;
    UserReach(k.pages, k.free, t, n);
    PartialOwns(k.pages, k.free, t, n);
    var pa := Va2Pa(k, root, v, t);
    StoreKeeps(p0, f0, k.pages, k.free, t, n, v, pa, page);
    k.Store(pa, page);
  }

  /** loadseg: false when readi delivers too little. */
  method LoadPages(k: Kmem, root: nat, n: nat, v: nat, pages: seq<Page>, count: nat, ghost t: Tab, ghost p0: Pages, ghost f0: seq<nat>) returns (ok: bool)
    requires TreeOk(k, t) && t.root == root && Partial(p0, f0, k.pages, k.free, t, n) && AllUser(k.pages, t, n) && v + count <= n
    modifies k
    ensures TreeOk(k, t) && k.free == old(k.free) && Partial(p0, f0, k.pages, k.free, t, n) && AllUser(k.pages, t, n)
    ensures ok <==> count <= |pages|
    ensures ok ==> ImageOf(k.pages, t, n) == Overlaid(ImageOf(old(k.pages), t, n), v, pages, count)
  {
    hide TabOk, InUse, Chain, Agree, ProcSpace, Fixed, Drawn, ImageOf, Flat, U, SameFlat, AllUser;
    var i := 0;
    while i < count
      invariant i <= count && i <= |pages|
      invariant TreeOk(k, t) && k.free == old(k.free) && Partial(p0, f0, k.pages, k.free, t, n) && AllUser(k.pages, t, n)
      invariant ImageOf(k.pages, t, n) == Overlaid(ImageOf(old(k.pages), t, n), v, pages, i)
    {
      if i >= |pages| { return false; }
      ghost var p1 := k.pages;
      UserPageAt(p1, t, n, v + i);
      StorePage(k, root, n, v + i, pages[i], t, p0, f0);
      SameUser(p1, t, k.pages, n);
      i := i + 1;
    }
    return true;
  }

  // ---- the guard page ----

  lemma FlagBits(flags: nat)
    requires flags < 1024
    ensures var w := WithoutU(flags);
            w < 1024 && w % 2 == flags % 2 && (w / 2) % 8 == (flags / 2) % 8 && (w / 16) % 2 == 0
  {
    var a, b, c := flags / 32, (flags / 16) % 2, flags % 16;
    assert flags == 32 * a + 16 * b + c;
    var w := WithoutU(flags);
    assert w == 32 * a + c;
    assert w / 16 == 2 * a && w / 2 == 16 * a + c / 2 && flags / 2 == 16 * a + 8 * b + c / 2;
  }

  /** pte & ~PTE_U */
  function NoUser(pte: nat): nat { if U(pte) then pte - 16 else pte }

  lemma NoUserIs(pte: nat)
    ensures NoUser(pte) == Pte(Frame(pte), WithoutU(Flags(pte)))
  {
    hide U;
    assert pte == Pte(Frame(pte), Flags(pte));
    PteFields(Frame(pte), Flags(pte));
  }

  lemma ClearedPte(pte: nat)
    requires V(pte)
    ensures var q := NoUser(pte);
            V(q) && Frame(q) == Frame(pte) && !U(q) && (Inner(q) <==> Inner(pte)) && Flags(q) == WithoutU(Flags(pte))
  {
    var f, flags := Frame(pte), Flags(pte);
    assert pte == Pte(f, flags) && flags < 1024;
    NoUserIs(pte);
    FlagBits(flags);
    hide Pte, U, V, Inner, Frame, Flags, NoUser, WithoutU;
    PteFields(f, flags);
    PteFields(f, WithoutU(flags));
  }

  lemma GuardKeeps(p0: Pages, f0: seq<nat>, p: Pages, f: seq<nat>, t: Tab, n: nat, v: nat, p': Pages, pte: nat)
    requires Partial(p0, f0, p, f, t, n) && v < n && Flat(p, t, v) == Some(pte) && V(pte) && p.Keys == p'.Keys
    requires Flat(p', t, v) == Some(NoUser(pte))
    requires forall w: nat | w != v :: Flat(p', t, w) == Flat(p, t, w)
    requires forall h | h in p' && h !in Frames(t) :: h in p && p'[h] == p[h]
    ensures Partial(p0, f0, p', f, t, n)
    ensures v in ImageOf(p, t, n) && ImageOf(p', t, n) == ImageOf(p, t, n)[v := (ImageOf(p, t, n)[v].0, WithoutU(ImageOf(p, t, n)[v].1))]
  {
    hide Flat, U, Frame, Inner, Flags, ImageOf, At, WithoutU, NoUser, Frames;
    ClearedPte(pte);
    forall w: nat, h: nat
      ensures Maps(p', t, w, h) == Maps(p, t, w, h)
    {
    }
    var x, y := ImageOf(p, t, n), ImageOf(p', t, n);
    ImageAt(p, t, n, v);
    assert Maps(p, t, v, Frame(pte));
    AtIn(x, v);
    var z := x[v := (x[v].0, WithoutU(x[v].1))];
    forall w: nat
      ensures At(y, w) == At(z, w)
    {
      ImageAt(p, t, n, w);
      ImageAt(p', t, n, w);
      AtUpdate(x, v, (x[v].0, WithoutU(x[v].1)), w);
      if w < n && Flat(p, t, w).Some? { assert Maps(p, t, w, Frame(Flat(p, t, w).value)); }
    }
    SameImage(y, z);
  }

  lemma AtIn(img: Image, w: nat)
    requires At(img, w).Some?
    ensures w in img && img[w] == At(img, w).value
  {
  }

  lemma AtUpdate(img: Image, v: nat, x: (Page, nat), w: nat)
    ensures At(img[v := x], w) == if w == v then Some(x) else At(img, w)
  {
  }

  /** uvmclear of a page of the space. */
  method ClearUser(k: Kmem, root: nat, n: nat, v: nat, ghost t: Tab, ghost p0: Pages, ghost f0: seq<nat>)
    requires TreeOk(k, t) && t.root == root && Partial(p0, f0, k.pages, k.free, t, n) && v < n && Flat(k.pages, t, v).Some?
    modifies k
    ensures TreeOk(k, t) && k.free == old(k.free) && Partial(p0, f0, k.pages, k.free, t, n)
    ensures forall w: nat | w != v :: Flat(k.pages, t, w) == Flat(old(k.pages), t, w)
    ensures v in ImageOf(old(k.pages), t, n)
    ensures var img := ImageOf(old(k.pages), t, n); ImageOf(k.pages, t, n) == img[v := (img[v].0, WithoutU(img[v].1))]
  {
    hide TabOk, InUse, Chain, Agree, ProcSpace, Fixed, Drawn, ImageOf, Flat, U, SameFlat, WithoutU, NoUser;
    PartialOwns(k.pages, k.free, t, n);
    var table: Option<nat>;
    ghost var t': Tab;
    table, t' := Walk(k, root, v, false, t);
    if table.None? { NoTable(k.pages, t, v); }
    EntryOf(k.pages, t, v, table.value);
    var pte := k.pages[table.value][I0(v)];
    ghost var p := k.pages;
    ClearedPte(pte);
    SetLeaf(k, table.value, v, NoUser(pte), t);
    GuardKeeps(p0, f0, p, k.free, t, n, v, k.pages, pte);
  }

  // ---- kexec ----

  /** All that uVmAlloc is asked for. */
  ghost function AskedAll(prog: Program): nat {
    match Loaded(prog.segs, |prog.segs|)
    case None => Asked(prog.segs, |prog.segs|)
    case Some(l) => PagesOf(l.sz) + 1 + USERSTACK
  }

  /** The memory that the program starts with: segments, a guard page, the stack. */
  ghost function StartImage(l: Load, stack: Stack): Image {
    var n := PagesOf(l.sz);
    var img := Enlarged(Load(n * PGSIZE, l.img), (n + 1 + USERSTACK) * PGSIZE, PTE_W).img;
    if n in img then Overlaid(img[n := (img[n].0, WithoutU(img[n].1))], n + 1, stack, USERSTACK) else img
  }

  lemma AskedSize(segs: seq<Segment>, i: nat)
    requires i <= |segs| && Loaded(segs, i).Some?
    ensures Asked(segs, i) == PagesOf(Loaded(segs, i).value.sz)
  {
  }

  lemma {:induction false} AskedMono(segs: seq<Segment>, i: nat, j: nat)
    requires i <= j <= |segs|
    ensures Asked(segs, i) <= Asked(segs, j)
    ensures Loaded(segs, i).None? ==> Loaded(segs, j).None? && Asked(segs, j) == Asked(segs, i)
    decreases j
  {
    hide AddSegment, Enlarged, HeaderOk;
    if i < j {
      AskedMono(segs, i, j - 1);
      if Loaded(segs, j - 1).Some? {
        AskedSize(segs, j - 1);
        EnlargedSize(Loaded(segs, j - 1).value, segs[j - 1].vaddr + segs[j - 1].memsz, segs[j - 1].perm);
      }
    }
  }

  lemma EnlargedSize(l: Load, newsz: nat, perm: nat)
    ensures PagesOf(l.sz) <= PagesOf(Enlarged(l, newsz, perm).sz)
  {
  }

  lemma AskedAtLeast(prog: Program, i: nat)
    requires i <= |prog.segs|
    ensures Asked(prog.segs, i) <= AskedAll(prog)
  {
    AskedMono(prog.segs, i, |prog.segs|);
    if Loaded(prog.segs, |prog.segs|).Some? { AskedSize(prog.segs, |prog.segs|); }
  }

  /** Only the keys of the tables count. */
  lemma {:induction false} TablesKeys(t: Tab, t': Tab, v: nat, n: nat)
    requires t.mid.Keys == t'.mid.Keys && t.leaf.Keys == t'.leaf.Keys
    ensures Tables(t, v, n) == Tables(t', v, n)
  {
    if n > 0 { TablesKeys(t, t', v, n - 1); }
  }

  /** The tables of every space at first: those of trampoline and trap frame. */
  function ProcTab(): Tab { Tab(0, map[I2(TRAPFRAME) := 0], map[TRAPFRAME / 512 := 0]) }

  lemma FitsAlike(free: nat, t: Tab, n: nat)
    requires ProcKeys(t)
    ensures FitsIn(free, t, n) <==> FitsIn(free, ProcTab(), n)
  {
    assert t.mid.Keys == {I2(TRAPFRAME)} && t.leaf.Keys == {TRAPFRAME / 512};
    TablesKeys(t, ProcTab(), 0, n);
  }

  lemma DrawnGone(p0: Pages, f0: seq<nat>, p: Pages, f: seq<nat>, t: Tab, n: nat, p': Pages, f': seq<nat>)
    requires Drawn(p0, f0, p, f, t, n) && Gone(p, f, t, n, p', f')
    ensures GaveBack(p0, f0, p', f')
  {
    hide Holds, Frames;
  }

  datatype Progress = Complete | Refused | Crashed

  /** What holds of the space between two steps. */
  ghost predicate Making(k: Kmem, t: Tab, sz: nat, t1: Tab, free: nat, p0: Pages, f0: seq<nat>)
    reads k
  {
    && TreeOk(k, t) && Partial(p0, f0, k.pages, k.free, t, PagesOf(sz)) && AllUser(k.pages, t, PagesOf(sz))
    && Account(t1, free, t, |k.free|, PagesOf(sz))
  }

  /** One turn of the loop over the program headers. */
  method LoadSegment(k: Kmem, root: nat, sz: nat, seg: Segment, ghost t: Tab, ghost t1: Tab, ghost free: nat, ghost p0: Pages, ghost f0: seq<nat>)
    returns (r: Progress, sz': nat, ghost t': Tab)
    requires Making(k, t, sz, t1, free, p0, f0) && t.root == root
    modifies k
    ensures k.Valid()
    ensures !r.Crashed? ==> Making(k, t', sz', t1, free, p0, f0) && t'.root == root
    ensures var l := Load(sz, ImageOf(old(k.pages), t, PagesOf(sz)));
            && (r.Crashed? <==> HeaderOk(seg) && !FitsIn(free, t1, PagesOf(Enlarged(l, seg.vaddr + seg.memsz, seg.perm).sz)))
            && (r.Complete? ==> AddSegment(l, seg) == Some(Load(sz', ImageOf(k.pages, t', PagesOf(sz')))))
            && (r.Refused? ==> AddSegment(l, seg) == None)
  {
    hide TreeOk, Partial, AllUser, Account, ImageOf, Overlaid, FitsIn, PagesOf, Enlarged;
    TreeValid(k, t);
    sz', t' := sz, t;
    if seg.memsz < seg.filesz || seg.vaddr + seg.memsz >= WORD64 || seg.vaddr % PGSIZE != 0 { return Refused, sz', t'; }
    var ok: bool;
    ok, sz', t' := GrowTo(k, root, sz, seg.vaddr + seg.memsz, seg.perm, t, t1, free, p0, f0);
    if !ok { return Crashed, sz', t'; }
    TreeValid(k, t');
    if sz' == 0 { return Refused, sz', t'; }
    SegmentInside(seg, sz');
    ok := LoadPages(k, root, PagesOf(sz'), seg.vaddr / PGSIZE, seg.pages, PagesOf(seg.filesz), t', p0, f0);
    TreeValid(k, t');
    if !ok { return Refused, sz', t'; }
    return Complete, sz', t';
  }

  lemma TreeValid(k: Kmem, t: Tab)
    requires TreeOk(k, t)
    ensures k.Valid()
  {
  }

  lemma SegmentInside(seg: Segment, sz: nat)
    requires HeaderOk(seg) && seg.vaddr + seg.memsz <= sz
    ensures seg.vaddr / PGSIZE + PagesOf(seg.filesz) <= PagesOf(sz)
  {
  }

  /** The loop over the program headers. */
  method LoadSegments(k: Kmem, root: nat, prog: Program, ghost t: Tab, ghost t1: Tab, ghost free: nat, ghost p0: Pages, ghost f0: seq<nat>)
    returns (r: Progress, sz: nat, ghost t': Tab)
    requires Making(k, t, 0, t1, free, p0, f0) && t.root == root && ImageOf(k.pages, t, 0) == map[]
    modifies k
    ensures k.Valid()
    ensures !r.Crashed? ==> Making(k, t', sz, t1, free, p0, f0) && t'.root == root
    ensures r.Crashed? ==> !FitsIn(free, t1, AskedAll(prog))
    ensures r.Complete? ==> Loaded(prog.segs, |prog.segs|) == Some(Load(sz, ImageOf(k.pages, t', PagesOf(sz))))
    ensures r.Refused? ==> Loaded(prog.segs, |prog.segs|) == None && FitsIn(free, t1, AskedAll(prog))
  {
    hide TreeOk, Partial, AllUser, Account, ImageOf, AddSegment, FitsIn, Enlarged, HeaderOk;
    TreeValid(k, t);
    sz, t' := 0, t;
    var i := 0;
    MakingFits(k, t, 0, t1, free, p0, f0);
    while i < |prog.segs|
      invariant i <= |prog.segs| && Making(k, t', sz, t1, free, p0, f0) && t'.root == root && k.Valid()
      invariant Loaded(prog.segs, i) == Some(Load(sz, ImageOf(k.pages, t', PagesOf(sz))))
    {
      ghost var l := Load(sz, ImageOf(k.pages, t', PagesOf(sz)));
      MakingFits(k, t', sz, t1, free, p0, f0);
      AskedAtLeast(prog, i + 1);
      r, sz, t' := LoadSegment(k, root, sz, prog.segs[i], t', t1, free, p0, f0);
      if r.Crashed? {
        TooMuch(free, t1, Asked(prog.segs, i + 1), AskedAll(prog));
        return;
      }
      if r.Refused? {
        AskedMono(prog.segs, i + 1, |prog.segs|);
        return;
      }
      i := i + 1;
    }
    r := Complete;
  }

  lemma MakingFits(k: Kmem, t: Tab, sz: nat, t1: Tab, free: nat, p0: Pages, f0: seq<nat>)
    requires Making(k, t, sz, t1, free, p0, f0)
    ensures FitsIn(free, t1, PagesOf(sz))
  {
    hide TreeOk, AllUser, Drawn, Fixed;
    AccountFits(k.pages, k.free, t, PagesOf(sz), t1, free);
  }

  lemma TooMuch(free: nat, t1: Tab, m: nat, n: nat)
    requires m <= n && !FitsIn(free, t1, m)
    ensures !FitsIn(free, t1, n)
  {
    if FitsIn(free, t1, n) { FitsLess(free, t1, m, n); }
  }

  datatype Exec = Ready(root: nat, sz: nat, sp: int) | NotReady | Panicked

  /** The stack with its guard page: allocated, the guard taken from the user, the
      arguments copied. */
  method MakeStack(k: Kmem, root: nat, sz: nat, args: seq<nat>, stack: Stack, ghost t: Tab, ghost t1: Tab, ghost free: nat, ghost p0: Pages, ghost f0: seq<nat>)
    returns (r: Progress, sz': nat, sp: int, ghost t': Tab)
    requires Making(k, t, sz, t1, free, p0, f0) && t.root == root
    modifies k
    ensures k.Valid() && sz' == (PagesOf(sz) + 1 + USERSTACK) * PGSIZE
    ensures r.Crashed? <==> !FitsIn(free, t1, PagesOf(sz) + 1 + USERSTACK)
    ensures !r.Crashed? ==> TreeOk(k, t') && t'.root == root && Partial(p0, f0, k.pages, k.free, t', PagesOf(sz'))
    ensures r.Refused? ==> StackPointer(sz', sz' - USERSTACK * PGSIZE, args) == None
    ensures r.Complete? ==>
      && StackPointer(sz', sz' - USERSTACK * PGSIZE, args) == Some(sp)
      && ImageOf(k.pages, t', PagesOf(sz')) == StartImage(Load(sz, ImageOf(old(k.pages), t, PagesOf(sz))), stack)
  {
    hide TreeOk, Partial, AllUser, Account, ImageOf, FitsIn, Enlarged, StackPointer, Flat, U, Overlaid, WithoutU;
    var n := PagesOf(sz);
    RoundUp(n);
    RoundUp(n + 1 + USERSTACK);
    var ok: bool;
    sp := 0;
    ok, sz', t' := GrowTo(k, root, n * PGSIZE, (n + 1 + USERSTACK) * PGSIZE, PTE_W, t, t1, free, p0, f0);
    if !ok { return Crashed, sz', sp, t'; }
    TreeValid(k, t');
    ghost var p1 := k.pages;
    UserPageAt(p1, t', n + 1 + USERSTACK, n);
    ClearUser(k, root, n + 1 + USERSTACK, n, t', p0, f0);
    TreeValid(k, t');
    var pushed := PushAll(sz', sz' - USERSTACK * PGSIZE, args);
    if pushed.None? { return Refused, sz', sp, t'; }
    sp := pushed.value;
    ghost var p2 := k.pages;
    OverlaidNone(ImageOf(p2, t', n + 1 + USERSTACK), n + 1, stack);
    var i := 0;
    while i < USERSTACK
      invariant i <= USERSTACK && TreeOk(k, t') && Partial(p0, f0, k.pages, k.free, t', n + 1 + USERSTACK)
      invariant forall w: nat | w != n :: Flat(k.pages, t', w) == Flat(p1, t', w)
      invariant ImageOf(k.pages, t', n + 1 + USERSTACK) == Overlaid(ImageOf(p2, t', n + 1 + USERSTACK), n + 1, stack, i)
    {
      UserPageAt(p1, t', n + 1 + USERSTACK, n + 1 + i);
      ghost var p3 := k.pages;
      OverlaidNext(ImageOf(p2, t', n + 1 + USERSTACK), n + 1, stack, i);
      StorePage(k, root, n + 1 + USERSTACK, n + 1 + i, stack[i], t', p0, f0);
      i := i + 1;
    }
    TreeValid(k, t');
    return Complete, sz', sp, t';
  }

  lemma OverlaidNone(img: Image, v: nat, pages: seq<Page>)
    ensures Overlaid(img, v, pages, 0) == img
  {
  }

  lemma OverlaidNext(img: Image, v: nat, pages: seq<Page>, i: nat)
    requires i < |pages|
    ensures var im := Overlaid(img, v, pages, i);
            Overlaid(img, v, pages, i + 1) == if v + i in im then im[v + i := (pages[i], im[v + i].1)] else im
  {
  }

  lemma RoundUp(n: nat)
    ensures PagesOf(n * PGSIZE) == n
  {
  }

  /** The loop over the arguments and the array of pointers after it. */
  method PushAll(top: int, base: int, args: seq<nat>) returns (sp: Option<int>)
    ensures sp == StackPointer(top, base, args)
  {
    var x, argc := top, 0;
    while argc < |args|
      invariant argc <= |args| && Pushed(top, base, args, argc) == Some(x)
    {
      if argc >= MAXARG { PushedNone(top, base, args, argc + 1, |args|); return None; }
      x := x - (args[argc] + 1);
      x := x - x % 16;
      if x < base { PushedNone(top, base, args, argc + 1, |args|); return None; }
      argc := argc + 1;
    }
    x := x - (argc + 1) * 8;
    x := x - x % 16;
    if x < base { return None; }
    return Some(x);
  }

  lemma {:induction false} PushedNone(top: int, base: int, args: seq<nat>, i: nat, j: nat)
    requires i <= j <= |args| && Pushed(top, base, args, i) == None
    ensures Pushed(top, base, args, j) == None
    decreases j
  {
    if i < j { PushedNone(top, base, args, i, j - 1); }
  }

  /** The initial stack pointer, if the program can be started. */
  ghost function StartPointer(prog: Program): Option<int> {
    match Loaded(prog.segs, |prog.segs|)
    case None => None
    case Some(l) =>
      var top := (PagesOf(l.sz) + 1 + USERSTACK) * PGSIZE;
      StackPointer(top, top - USERSTACK * PGSIZE, prog.args)
  }

  /** Everything in kexec up to the switch to the new space. It panics if and only if there
      is memory for a page table but not for what uVmAlloc is asked for; otherwise the
      space holds exactly the program, or every page taken is free again. */
  method BuildImage(k: Kmem, trampoline: nat, tf: nat, prog: Program) returns (r: Exec, ghost t: Tab)
    requires k.Valid()
    modifies k
    ensures k.Valid()
    ensures r.Panicked? <==> |old(k.free)| >= 3 && !FitsIn(|old(k.free)| - 3, ProcTab(), AskedAll(prog))
    ensures r.NotReady? ==> GaveBack(old(k.pages), old(k.free), k.pages, k.free) && (|old(k.free)| < 3 || StartPointer(prog) == None)
    ensures r.Ready? ==>
      && TreeOk(k, t) && t.root == r.root && Partial(old(k.pages), old(k.free), k.pages, k.free, t, PagesOf(r.sz))
      && StartPointer(prog) == Some(r.sp)
      && var l := Loaded(prog.segs, |prog.segs|).value;
      && r.sz == (PagesOf(l.sz) + 1 + USERSTACK) * PGSIZE
      && ImageOf(k.pages, t, PagesOf(r.sz)) == StartImage(l, prog.stack)
  {
    hide TreeOk, Partial, AllUser, Account, ImageOf, FitsIn, StackPointer, GaveBack, Loaded, Asked, StartImage, FlatIs, Built, ProcKeys, Drawn, Gone;
    ghost var p0, f0 := k.pages, k.free;
    var root: nat;
    root, t := ProcPagetable(k, trampoline, tf);
    if root == 0 { return NotReady, t; }
    ghost var t1, free := t, |k.free|;
    FitsAlike(free, t1, AskedAll(prog));
    MakingStart(k, t, free, p0, f0, trampoline, tf);
    var progress: Progress;
    var sz: nat;
    progress, sz, t := LoadSegments(k, root, prog, t, t1, free, p0, f0);
    if progress.Crashed? { return Panicked, t; }
    var sp := 0;
    if progress.Complete? {
      progress, sz, sp, t := MakeStack(k, root, sz, prog.args, prog.stack, t, t1, free, p0, f0);
      if progress.Crashed? { return Panicked, t; }
      if progress.Complete? { return Ready(root, sz, sp), t; }
    } else {
      MakingPartial(k, t, sz, t1, free, p0, f0);
    }
    ghost var p1, f1 := k.pages, k.free;
    PartialSpace(p0, f0, p1, f1, t, PagesOf(sz));
    FreeUserVM(k, root, sz, t);
    DrawnGone(p0, f0, p1, f1, t, PagesOf(sz), k.pages, k.free);
    return NotReady, t;
  }

  lemma MakingStart(k: Kmem, t: Tab, free: nat, p0: Pages, f0: seq<nat>, trampoline: nat, tf: nat)
    requires TreeOk(k, t) && FlatIs(k.pages, t, ProcMap(trampoline, tf)) && Built(p0, f0, k.pages, k.free, t) && free == |k.free|
    ensures Making(k, t, 0, t, free, p0, f0) && ImageOf(k.pages, t, 0) == map[]
  {
    hide TreeOk, Partial, AllUser, ImageOf, FlatIs, Built;
    PartialStart(p0, f0, k.pages, k.free, t, trampoline, tf);
    assert Tables(t, 0, 0) == 0;
  }

  lemma MakingPartial(k: Kmem, t: Tab, sz: nat, t1: Tab, free: nat, p0: Pages, f0: seq<nat>)
    requires Making(k, t, sz, t1, free, p0, f0)
    ensures TreeOk(k, t) && Partial(p0, f0, k.pages, k.free, t, PagesOf(sz))
  {
  }

  lemma PartialSpace(p0: Pages, f0: seq<nat>, p: Pages, f: seq<nat>, t: Tab, n: nat)
    requires Partial(p0, f0, p, f, t, n)
    ensures ProcSpace(p, f, t, n) && Drawn(p0, f0, p, f, t, n)
  {
  }

  // ---- no holes ----

  ghost predicate KeysBelow(l: Load) { forall w: nat :: w in l.img <==> w < PagesOf(l.sz) }

  lemma {:induction false} OverlaidKeys(img: Image, v: nat, pages: seq<Page>, i: nat)
    requires i <= |pages|
    ensures forall w: nat :: w in Overlaid(img, v, pages, i) <==> w in img
  {
    if i > 0 { OverlaidKeys(img, v, pages, i - 1); }
  }

  lemma EnlargedKeys(l: Load, newsz: nat, perm: nat)
    requires KeysBelow(l)
    ensures KeysBelow(Enlarged(l, newsz, perm))
  {
    if newsz >= l.sz { PagesGrow(l.sz, newsz); }
  }

  lemma {:induction false} LoadedKeys(segs: seq<Segment>, i: nat)
    requires i <= |segs| && Loaded(segs, i).Some?
    ensures KeysBelow(Loaded(segs, i).value)
  {
    hide Enlarged, Overlaid, HeaderOk;
    if i > 0 {
      LoadedKeys(segs, i - 1);
      var l, seg := Loaded(segs, i - 1).value, segs[i - 1];
      EnlargedKeys(l, seg.vaddr + seg.memsz, seg.perm);
      OverlaidKeys(Enlarged(l, seg.vaddr + seg.memsz, seg.perm).img, seg.vaddr / PGSIZE, seg.pages, PagesOf(seg.filesz));
    } else {
      assert PagesOf(0) == 0;
    }
  }

  lemma StartKeys(l: Load, stack: Stack)
    requires KeysBelow(l)
    ensures forall w: nat :: w in StartImage(l, stack) <==> w < PagesOf(l.sz) + 1 + USERSTACK
  {
    hide Enlarged, Overlaid, WithoutU;
    var n := PagesOf(l.sz);
    RoundUp(n);
    RoundUp(n + 1 + USERSTACK);
    EnlargedKeys(Load(n * PGSIZE, l.img), (n + 1 + USERSTACK) * PGSIZE, PTE_W);
    var e := Enlarged(Load(n * PGSIZE, l.img), (n + 1 + USERSTACK) * PGSIZE, PTE_W);
    EnlargedTo(Load(n * PGSIZE, l.img), (n + 1 + USERSTACK) * PGSIZE, PTE_W);
    assert n in e.img;
    OverlaidKeys(e.img[n := (e.img[n].0, WithoutU(e.img[n].1))], n + 1, stack, USERSTACK);
  }

  lemma EnlargedTo(l: Load, newsz: nat, perm: nat)
    requires l.sz <= newsz
    ensures Enlarged(l, newsz, perm).sz == newsz
  {
  }

  // ---- the switch to the new space ----

  /** Trap frame words. */
  const EPC: nat := 3
  const SP: nat := 6
  const A1: nat := 15

  /** The trap frame with which the program starts. */
  function StartRegs(page: Page, entry: nat, sp: nat): (r: Page)
    ensures forall i | 0 <= i < ENTRIES :: r[i] == if i == EPC then entry else if i == SP || i == A1 then sp else page[i]
  {
    page[A1 := sp][EPC := entry][SP := sp]
  }

  /** A space made out of free pages has none of the pages in use. */
  lemma DrawnApart(p0: Pages, f0: seq<nat>, p: Pages, f: seq<nat>, t: Tab, n: nat, h: nat)
    requires Drawn(p0, f0, p, f, t, n) && h in p0 && h !in f0
    ensures h !in f && h !in Frames(t) && !Holds(p, t, 0, n, h) && h in p && p[h] == p0[h]
  {
  }

  /** While the new space is made, the old one stays as it is. */
  lemma OldKept(p0: Pages, f0: seq<nat>, sp: Space, told: Tab, p1: Pages, f1: seq<nat>, t: Tab, n: nat)
    requires SpaceOk(p0, f0, sp, told) && Drawn(p0, f0, p1, f1, t, n)
    ensures SpaceOk(p1, f1, sp, told)
    ensures forall h: nat :: OwnedBy(p1, sp, told, h) <==> OwnedBy(p0, sp, told, h)
    ensures forall h: nat | OwnedBy(p0, sp, told, h) :: h in p0 && h !in f0 && h in p1 && h !in f1 && h !in Frames(t) && !Holds(p1, t, 0, n, h)
  {
    hide SpaceOk, OwnedBy, Drawn, Holds, Frames;
    forall h: nat | OwnedBy(p0, sp, told, h)
      ensures h in p0 && h !in f0 && h in p1 && p1[h] == p0[h] && h !in f1 && h !in Frames(t) && !Holds(p1, t, 0, n, h)
    {
      OwnedInUse(p0, f0, sp, told, h);
      DrawnApart(p0, f0, p1, f1, t, n, h);
    }
    SpaceKept(p0, f0, sp, told, p1, f1);
  }

  /** From p1 to p3 the page tf is stored to and the old space is freed; the new space
      does not notice. */
  ghost predicate Freed(p1: Pages, f1: seq<nat>, sp: Space, told: Tab, p3: Pages, f3: seq<nat>) {
    && p3.Keys == p1.Keys
    && (forall h: nat :: h in f3 <==> h in f1 || (h != sp.tf && OwnedBy(p1, sp, told, h)))
    && (forall h: nat | h in p1 && h !in f1 && !OwnedBy(p1, sp, told, h) :: h in p3 && p3[h] == p1[h])
    && sp.tf in p3
  }

  lemma NewKept(p0: Pages, f0: seq<nat>, p1: Pages, f1: seq<nat>, t: Tab, n: nat, sp: Space, told: Tab, p3: Pages, f3: seq<nat>)
    requires TabOk(p1, t) && InUse(f1, t) && Partial(p0, f0, p1, f1, t, n) && Freed(p1, f1, sp, told, p3, f3)
    requires forall h: nat | OwnedBy(p1, sp, told, h) :: h !in Frames(t) && !Holds(p1, t, 0, n, h)
    ensures TabOk(p3, t) && InUse(f3, t) && ProcSpace(p3, f3, t, n) && Fixed(p3, t)
    ensures forall h: nat :: Holds(p3, t, 0, n, h) <==> Holds(p1, t, 0, n, h)
    ensures ImageOf(p3, t, n) == ImageOf(p1, t, n)
  {
    hide OwnedBy;
    forall h: nat | h in Frames(t) || Holds(p1, t, 0, n, h)
      ensures h in p1 && h in p3 && p3[h] == p1[h] && h !in f3
    {
      InUseOf(p0, f0, p1, f1, t, n, h);
    }
    TabFrame(p1, p3, t);
    hide Flat, TabOk, Frames, ImageOf, Holds, Owns, Drawn, LeavesOnly;
    assert SameFlat(p1, t, p3, t);
    SameHolds(p1, p3, t, n);
    OwnsKept(p1, f1, p3, f3, t, n);
    RestKept(p1, t, p3, f1, f3, n);
    HeldImage(p1, t, p3, n);
  }

  lemma InUseOf(p0: Pages, f0: seq<nat>, p: Pages, f: seq<nat>, t: Tab, n: nat, h: nat)
    requires TabOk(p, t) && InUse(f, t) && Partial(p0, f0, p, f, t, n) && (h in Frames(t) || Holds(p, t, 0, n, h))
    ensures h in p && h !in f && h in f0
  {
    hide Flat, LeavesOnly;
  }

  /** The process has changed its space: pages have moved between it and the free list. */
  lemma ExecMoves(p0: Pages, f0: seq<nat>, procs: Procs, tabs: Tabs, pid: nat, p1: Pages, f1: seq<nat>, t: Tab, sp: Space, p3: Pages, f3: seq<nat>)
    requires pid in procs && pid in tabs && SpaceOk(p0, f0, procs[pid], tabs[pid]) && sp.tf == procs[pid].tf && t.root == sp.root
    requires p1.Keys == p0.Keys && TabOk(p1, t) && InUse(f1, t) && Partial(p0, f0, p1, f1, t, PagesOf(sp.sz))
    requires Freed(p1, f1, procs[pid], tabs[pid], p3, f3)
    ensures SpaceOk(p3, f3, sp, t) && Moved(p0, f0, procs, tabs, p3, f3, procs[pid := sp], tabs[pid := t], pid)
    ensures ImageOf(p3, t, PagesOf(sp.sz)) == ImageOf(p1, t, PagesOf(sp.sz))
  {
    var old', told, n := procs[pid], tabs[pid], PagesOf(sp.sz);
    hide TabOk, InUse, ImageOf, ProcSpace, Holds, Frames, PagesOf, Reserved;
    OldKept(p0, f0, old', told, p1, f1, t, n);
    OwnedMeans(p0, old', told);
    NewKept(p0, f0, p1, f1, t, n, old', told, p3, f3);
    forall h: nat
      ensures Owner(p3, procs[pid := sp], tabs[pid := t], pid, h) <==> OwnedBy(p3, sp, t, h)
      ensures Owner(p0, procs, tabs, pid, h) <==> OwnedBy(p0, old', told, h)
    {
    }
    NewOwns(p1, f1, t, n, sp, p3, f3);
    hide SpaceOk;
    ExecCounts(p0, f0, p1, f1, t, n, sp, old', told, p3, f3);
  }

  lemma NewOwns(p1: Pages, f1: seq<nat>, t: Tab, n: nat, sp: Space, p3: Pages, f3: seq<nat>)
    requires n == PagesOf(sp.sz) && t.root == sp.root && TabOk(p3, t) && InUse(f3, t) && ProcSpace(p3, f3, t, n) && Fixed(p3, t)
    requires sp.tf in p3 && sp.tf !in f3 && sp.tf !in Frames(t) && !Holds(p3, t, 0, n, sp.tf)
    ensures SpaceOk(p3, f3, sp, t)
  {
    hide TabOk, InUse, ProcSpace, Reserved, Holds, PagesOf;
  }

  lemma ExecCounts(p0: Pages, f0: seq<nat>, p1: Pages, f1: seq<nat>, t: Tab, n: nat, sp: Space, old': Space, told: Tab, p3: Pages, f3: seq<nat>)
    requires n == PagesOf(sp.sz) && sp.tf == old'.tf && Drawn(p0, f0, p1, f1, t, n) && Freed(p1, f1, old', told, p3, f3)
    requires forall h: nat :: OwnedBy(p1, old', told, h) <==> OwnedBy(p0, old', told, h)
    requires forall h: nat :: Holds(p3, t, 0, n, h) <==> Holds(p1, t, 0, n, h)
    requires OwnedBy(p0, old', told, old'.tf)
    ensures forall h: nat :: h in f3 || OwnedBy(p3, sp, t, h) <==> h in f0 || OwnedBy(p0, old', told, h)
    ensures forall h: nat | h in p0 && h !in f0 && !OwnedBy(p0, old', told, h) :: h in p3 && p3[h] == p0[h]
  {
    hide Holds, Frames, PagesOf;
    forall h: nat
      ensures OwnedBy(p3, sp, t, h) <==> h == sp.tf || h in Frames(t) || Holds(p1, t, 0, n, h)
    {
    }
    hide OwnedBy;
  }
}
