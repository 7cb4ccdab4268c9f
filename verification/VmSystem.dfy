/** Page ownership over whole runs: any number of processes are made, forked, given
    pages on demand and freed, in any order. In every state each page of memory is
    free, or one of the pages set aside at the start, or owned by exactly one
    process; and what one process does changes no other process's memory. */
module VmSystem {
  import opened Common
  import opened PageAlloc
  import opened PageTable
  import opened Vm
  import opened VmSpace
  import opened VmTeardown
  import opened VmBuild
  import opened VmLife
  import opened VmUser
  import opened VmOwners
  import opened VmExec
  import opened VmGrow

  // ---- operations as moves ----

  lemma MadeMoves(p0: Pages, f0: seq<nat>, procs: Procs, tabs: Tabs, p: Pages, f: seq<nat>, pid: nat, sp: Space, t: Tab)
    requires pid !in procs && p.Keys == p0.Keys && Divided(p0, f0, p, f, t, PagesOf(sp.sz), sp.tf)
    ensures Moved(p0, f0, procs, tabs, p, f, procs[pid := sp], tabs[pid := t], pid)
  {
    hide Holds, PagesOf;
    forall h: nat
      ensures Owner(p, procs[pid := sp], tabs[pid := t], pid, h) <==> OwnedBy(p, sp, t, h)
    {
    }
  }

  lemma GoneMoves(p0: Pages, f0: seq<nat>, procs: Procs, tabs: Tabs, p: Pages, f: seq<nat>, pid: nat)
    requires pid in procs && pid in tabs && p.Keys == p0.Keys
    requires ProcGone(p0, f0, tabs[pid], PagesOf(procs[pid].sz), procs[pid].tf, p, f)
    ensures Moved(p0, f0, procs, tabs, p, f, procs - {pid}, tabs - {pid}, pid)
  {
    hide Holds, PagesOf;
    forall h: nat
      ensures h in f <==> h in f0 || Owner(p0, procs, tabs, pid, h)
    {
    }
  }

  lemma NothingMoves(p0: Pages, f0: seq<nat>, procs: Procs, tabs: Tabs, p: Pages, f: seq<nat>, pid: nat)
    requires GaveBack(p0, f0, p, f) && p.Keys == p0.Keys && pid !in procs
    ensures Moved(p0, f0, procs, tabs, p, f, procs, tabs, pid)
  {
  }

  /** A store to a page of the process that is no table. */
  lemma StoreMoves(p0: Pages, f: seq<nat>, procs: Procs, tabs: Tabs, p: Pages, pid: nat, g: nat, page: Page)
    requires pid in procs && pid in tabs && SpaceOk(p0, f, procs[pid], tabs[pid])
    requires OwnedBy(p0, procs[pid], tabs[pid], g) && g !in Frames(tabs[pid]) && p == p0[g := page]
    ensures SpaceOk(p, f, procs[pid], tabs[pid]) && SameFlat(p0, tabs[pid], p, tabs[pid])
    ensures Moved(p0, f, procs, tabs, p, f, procs, tabs, pid)
  {
    hide SpaceOk, OwnedBy, SameFlat;
    forall h: nat | OwnedBy(p0, procs[pid], tabs[pid], h)
      ensures h in p0 && h !in f
    {
      OwnedInUse(p0, f, procs[pid], tabs[pid], h);
    }
    assert TablesAlone(p0, procs[pid], tabs[pid], p, f);
    SpaceKept(p0, f, procs[pid], tabs[pid], p, f);
  }

  /** Page v < n of the space now has frame g, out of free pages. */
  lemma FaultHolds(p0: Pages, f0: seq<nat>, t0: Tab, p: Pages, f: seq<nat>, t: Tab, n: nat, v: nat, g: nat)
    requires Owns(p0, f0, t0, 0, n) && Took(p0, f0, t0, p, f, t, g) && Put(p0, t0, p, t, v, g, 22, Filled(0))
    requires v < n && Flat(p0, t0, v) == None
    ensures forall h: nat :: Holds(p, t, 0, n, h) <==> h == g || Holds(p0, t0, 0, n, h)
    ensures Owns(p, f, t, 0, n)
  {
    hide Flat, Pte, WithV, Frame, Filled, U;
    FaultPte(g);
    forall w: nat, h: nat | w < n
      ensures Maps(p, t, w, h) <==> if w == v then h == g else Maps(p0, t0, w, h)
      ensures Maps(p0, t0, w, h) ==> w != v && h != g && h in p && h !in f && h !in Frames(t)
    {
    }
    assert Maps(p, t, v, g);
  }

  lemma FaultLeaf(g: nat)
    ensures !Inner(Pte(g, WithV(22)))
  {
    PteFields(g, WithV(22));
  }

  lemma FaultRest(p0: Pages, f0: seq<nat>, t0: Tab, p: Pages, f: seq<nat>, t: Tab, n: nat, v: nat, g: nat)
    requires ProcSpace(p0, f0, t0, n) && Reserved(p0, t0) && Put(p0, t0, p, t, v, g, 22, Filled(0)) && v < n && Owns(p, f, t, 0, n)
    ensures ProcSpace(p, f, t, n) && Reserved(p, t)
  {
    hide Flat, Pte, WithV, Inner, U, Owns, Filled;
    FaultLeaf(g);
  }

  lemma FaultMoves(p0: Pages, f0: seq<nat>, procs: Procs, tabs: Tabs, p: Pages, f: seq<nat>, pid: nat, t: Tab, v: nat, g: nat)
    requires pid in procs && pid in tabs && SpaceOk(p0, f0, procs[pid], tabs[pid]) && p.Keys == p0.Keys
    requires TabOk(p, t) && InUse(f, t)
    requires Took(p0, f0, tabs[pid], p, f, t, g) && Put(p0, tabs[pid], p, t, v, g, 22, Filled(0))
    requires v * PGSIZE < procs[pid].sz && Flat(p0, tabs[pid], v) == None
    ensures SpaceOk(p, f, procs[pid], t) && Moved(p0, f0, procs, tabs, p, f, procs, tabs[pid := t], pid)
  {
    var n := PagesOf(procs[pid].sz);
    hide TabOk, InUse, PagesOf, ProcSpace, Reserved, Put, Owns, Flat, Holds;
    assert v < n by { hide *; InSize(v, procs[pid].sz); }
    SpaceOwns(p0, f0, tabs[pid], n);
    FaultHolds(p0, f0, tabs[pid], p, f, t, n, v, g);
    FaultRest(p0, f0, tabs[pid], p, f, t, n, v, g);
    forall h: nat
      ensures Owner(p, procs, tabs[pid := t], pid, h) <==> OwnedBy(p, procs[pid], t, h)
    {
    }
  }

  lemma InSize(v: nat, sz: nat)
    requires v * PGSIZE < sz
    ensures v < PagesOf(sz)
  {
  }

  lemma SpaceOwns(p: Pages, f: seq<nat>, t: Tab, n: nat)
    requires ProcSpace(p, f, t, n)
    ensures Owns(p, f, t, 0, n) && n <= TRAPFRAME
  {
  }

  /** A fault that found no memory may still have added tables. */
  lemma MissMoves(p0: Pages, f0: seq<nat>, procs: Procs, tabs: Tabs, p: Pages, f: seq<nat>, pid: nat, t: Tab)
    requires pid in procs && pid in tabs && SpaceOk(p0, f0, procs[pid], tabs[pid]) && p.Keys == p0.Keys
    requires TabOk(p, t) && InUse(f, t) && TookNothing(p0, f0, tabs[pid], p, f, t)
    ensures SpaceOk(p, f, procs[pid], t) && Moved(p0, f0, procs, tabs, p, f, procs, tabs[pid := t], pid)
  {
    var n := PagesOf(procs[pid].sz);
    hide TabOk, InUse, PagesOf, Flat, Holds;
    MissHolds(p0, f0, tabs[pid], p, f, t, n);
    forall h: nat
      ensures Owner(p, procs, tabs[pid := t], pid, h) <==> OwnedBy(p, procs[pid], t, h)
    {
    }
  }

  lemma MissHolds(p0: Pages, f0: seq<nat>, t0: Tab, p: Pages, f: seq<nat>, t: Tab, n: nat)
    requires ProcSpace(p0, f0, t0, n) && Reserved(p0, t0) && TookNothing(p0, f0, t0, p, f, t)
    ensures forall h: nat :: Holds(p, t, 0, n, h) <==> Holds(p0, t0, 0, n, h)
    ensures ProcSpace(p, f, t, n) && Reserved(p, t)
  {
    hide Flat, U, Inner;
    forall w: nat, h: nat
      ensures Maps(p, t, w, h) <==> Maps(p0, t0, w, h)
    {
      assert Flat(p, t, w) == Flat(p0, t0, w);
    }
  }

  // ---- what the operations need and promise ----

  /** What user code can reach is the process's own. */
  lemma UserOk(p: Pages, f: seq<nat>, sp: Space, t: Tab)
    requires SpaceOk(p, f, sp, t)
    ensures UserFrames(p, f, t) && sp.sz <= VPNS * PGSIZE
    ensures forall v: nat | Flat(p, t, v).Some? && U(Flat(p, t, v).value) :: v < PagesOf(sp.sz)
  {
    hide TabOk, Flat, U, Frame, LeavesOnly;
    forall v: nat | Flat(p, t, v).Some? && U(Flat(p, t, v).value)
      ensures v < PagesOf(sp.sz) && Maps(p, t, v, Frame(Flat(p, t, v).value))
    {
    }
  }

  lemma MadeReserved(p: Pages, t: Tab, trampoline: nat, tf: nat)
    requires Flat(p, t, TRAMPOLINE) == Some(Pte(trampoline, WithV(RX))) && Flat(p, t, TRAPFRAME) == Some(Pte(tf, WithV(RW)))
    ensures Reserved(p, t)
  {
    hide Flat, Pte, U;
    PteFields(trampoline, WithV(RX));
    PteFields(tf, WithV(RW));
  }

  /** What the copy shows is the parent's memory. */
  lemma ShownImage(p: Pages, t: Tab, n: nat, img: Image)
    requires Shows(p, t, 0, n, img) && forall w | w in img :: w < n
    ensures ImageOf(p, t, n) == img
  {
    hide Flat, Flags, Frame;
    forall w: nat
      ensures w in ImageOf(p, t, n) <==> w in img
      ensures w in img ==> w in ImageOf(p, t, n) && ImageOf(p, t, n)[w] == img[w]
    {
      if w in img { assert ShowsPage(p, t, w, img[w]); }
    }
  }

  const REGS: nat := 36   // words of struct trapframe
  const A0: nat := 14     // its word a0

  /** A child's trap frame: the parent's registers, but 0 for fork's result. */
  function ChildRegs(parent: Page, page: Page): (r: Page)
    ensures forall i | 0 <= i < ENTRIES :: r[i] == if i == A0 then 0 else if i < REGS then parent[i] else page[i]
  {
    (parent[..REGS] + page[REGS..])[A0 := 0]
  }

  lemma OthersKeptTrans(p0: Pages, procs0: Procs, tabs0: Tabs, p1: Pages, procs1: Procs, tabs1: Tabs, p2: Pages, procs2: Procs, tabs2: Tabs, pid: nat)
    requires OthersKept(p0, procs0, tabs0, p1, procs1, tabs1, pid) && OthersKept(p1, procs1, tabs1, p2, procs2, tabs2, pid)
    ensures OthersKept(p0, procs0, tabs0, p2, procs2, tabs2, pid)
  {
    hide ImageOf, PagesOf;
  }

  /** A store to the trap frame page is not seen in the process's memory. */
  lemma RegsUnseen(p0: Pages, f: seq<nat>, sp: Space, t: Tab, p: Pages, page: Page)
    requires SpaceOk(p0, f, sp, t) && SameFlat(p0, t, p, t) && p == p0[sp.tf := page]
    ensures ImageOf(p, t, PagesOf(sp.sz)) == ImageOf(p0, t, PagesOf(sp.sz))
  {
    hide ImageOf, SameFlat, TabOk;
    forall h: nat | Holds(p0, t, 0, PagesOf(sp.sz), h)
      ensures h in p0 && h in p && p[h] == p0[h]
    {
      OwnedInUse(p0, f, sp, t, h);
    }
    HeldImage(p0, t, p, PagesOf(sp.sz));
  }

  // ---- the operations on the whole ----

  ghost predicate Sound(p: Pages, f: seq<nat>, procs: Procs, tabs: Tabs, aside: set<nat>) {
    SpacesOk(p, f, procs, tabs) && Partition(p, f, procs, tabs, aside)
  }

  lemma SpaceOf(p: Pages, f: seq<nat>, procs: Procs, tabs: Tabs, aside: set<nat>, pid: nat)
    requires Sound(p, f, procs, tabs, aside) && pid in procs
    ensures pid in tabs && SpaceOk(p, f, procs[pid], tabs[pid])
  {
  }

  lemma SoundKeys(p: Pages, f: seq<nat>, procs: Procs, tabs: Tabs, aside: set<nat>)
    requires Sound(p, f, procs, tabs, aside)
    ensures procs.Keys == tabs.Keys
    ensures forall s | s in procs :: procs[s].tf in p
  {
    hide Partition, TabOk, ProcSpace;
  }

  lemma Nobody(p: Pages, f: seq<nat>, aside: set<nat>)
    requires (forall h | h in f :: h in p) && aside == set h | h in p && h !in f
    ensures Sound(p, f, map[], map[], aside)
  {
  }

  lemma MadeOk(p0: Pages, f0: seq<nat>, p: Pages, f: seq<nat>, sp: Space, t: Tab)
    requires TabOk(p, t) && InUse(f, t) && t.root == sp.root && Reserved(p, t) && ProcSpace(p, f, t, PagesOf(sp.sz))
    requires Divided(p0, f0, p, f, t, PagesOf(sp.sz), sp.tf)
    ensures SpaceOk(p, f, sp, t)
  {
    hide TabOk, InUse, Reserved, ProcSpace;
  }

  /** A new process in a slot that was unused. */
  lemma Made(p0: Pages, f0: seq<nat>, procs: Procs, tabs: Tabs, aside: set<nat>, p: Pages, f: seq<nat>, s: nat, sp: Space, t: Tab)
    requires Sound(p0, f0, procs, tabs, aside) && s !in procs && p.Keys == p0.Keys
    requires TabOk(p, t) && InUse(f, t) && t.root == sp.root && Reserved(p, t) && ProcSpace(p, f, t, PagesOf(sp.sz))
    requires Divided(p0, f0, p, f, t, PagesOf(sp.sz), sp.tf)
    ensures Sound(p, f, procs[s := sp], tabs[s := t], aside)
    ensures OthersKept(p0, procs, tabs, p, procs[s := sp], tabs[s := t], s)
  {
    hide Partition, Moved, OthersKept, ProcSpace, TabOk, InUse, Reserved, Divided, SpaceOk, PagesOf;
    MadeOk(p0, f0, p, f, sp, t);
    MadeMoves(p0, f0, procs, tabs, p, f, s, sp, t);
    Transfer(p0, f0, procs, tabs, aside, p, f, procs[s := sp], tabs[s := t], s);
  }

  /** A new process that did not come about. */
  lemma NotMade(p0: Pages, f0: seq<nat>, procs: Procs, tabs: Tabs, aside: set<nat>, p: Pages, f: seq<nat>, s: nat)
    requires Sound(p0, f0, procs, tabs, aside) && s !in procs && p.Keys == p0.Keys && GaveBack(p0, f0, p, f)
    ensures Sound(p, f, procs, tabs, aside) && OthersKept(p0, procs, tabs, p, procs, tabs, s)
  {
    hide Partition, Moved, OthersKept, SpaceOk;
    NothingMoves(p0, f0, procs, tabs, p, f, s);
    Transfer(p0, f0, procs, tabs, aside, p, f, procs, tabs, s);
  }

  lemma Removed(p0: Pages, f0: seq<nat>, procs: Procs, tabs: Tabs, aside: set<nat>, p: Pages, f: seq<nat>, s: nat)
    requires Sound(p0, f0, procs, tabs, aside) && s in procs && s in tabs && p.Keys == p0.Keys
    requires ProcGone(p0, f0, tabs[s], PagesOf(procs[s].sz), procs[s].tf, p, f)
    ensures Sound(p, f, procs - {s}, tabs - {s}, aside)
    ensures OthersKept(p0, procs, tabs, p, procs - {s}, tabs - {s}, s)
  {
    hide Partition, Moved, OthersKept, SpaceOk;
    GoneMoves(p0, f0, procs, tabs, p, f, s);
    Transfer(p0, f0, procs, tabs, aside, p, f, procs - {s}, tabs - {s}, s);
  }

  /** A change within process s. */
  lemma Changed(p0: Pages, f0: seq<nat>, procs: Procs, tabs: Tabs, aside: set<nat>, p: Pages, f: seq<nat>, s: nat, t: Tab)
    requires Sound(p0, f0, procs, tabs, aside) && s in procs && s in tabs && SpaceOk(p, f, procs[s], t)
    requires Moved(p0, f0, procs, tabs, p, f, procs, tabs[s := t], s)
    ensures Sound(p, f, procs, tabs[s := t], aside) && OthersKept(p0, procs, tabs, p, procs, tabs[s := t], s)
  {
    hide Partition, Moved, OthersKept, SpaceOk;
    assert procs.Keys == tabs[s := t].Keys;
    Transfer(p0, f0, procs, tabs, aside, p, f, procs, tabs[s := t], s);
  }

  lemma SameTab(tabs: Tabs, s: nat)
    requires s in tabs
    ensures tabs[s := tabs[s]] == tabs
  {
  }

  // ---- no holes ----

  /** Every page below the size of the process is mapped. */
  ghost predicate WholeSpace(p: Pages, sp: Space, t: Tab) {
    forall v: nat | v < PagesOf(sp.sz) :: v in ImageOf(p, t, PagesOf(sp.sz))
  }

  ghost predicate AllWhole(p: Pages, procs: Procs, tabs: Tabs) {
    forall pid | pid in procs && pid in tabs :: WholeSpace(p, procs[pid], tabs[pid])
  }

  lemma WholeKept(p0: Pages, procs: Procs, tabs: Tabs, p: Pages, procs': Procs, tabs': Tabs, pid: nat)
    requires AllWhole(p0, procs, tabs) && OthersKept(p0, procs, tabs, p, procs', tabs', pid) && procs.Keys == tabs.Keys
    requires forall q | q in procs' :: q in procs || q == pid
    requires pid in procs' && pid in tabs' ==> WholeSpace(p, procs'[pid], tabs'[pid])
    ensures AllWhole(p, procs', tabs')
  {
    hide ImageOf, PagesOf;
    forall q | q in procs' && q in tabs'
      ensures WholeSpace(p, procs'[q], tabs'[q])
    {
      if q != pid {
        assert q in tabs && SameMemory(p0, p, procs[q], tabs[q]);
        assert WholeSpace(p0, procs[q], tabs[q]);
      }
    }
  }

  lemma WholeOf(p: Pages, procs: Procs, tabs: Tabs, pid: nat)
    requires AllWhole(p, procs, tabs) && pid in procs && pid in tabs
    ensures WholeSpace(p, procs[pid], tabs[pid])
  {
  }

  lemma EmptyWhole(p: Pages, root: nat, tf: nat, t: Tab)
    ensures WholeSpace(p, Space(root, 0, tf), t)
  {
  }

  /** A process without holes has no page that vmfault could supply. */
  lemma NoHole(p: Pages, sp: Space, t: Tab, v: nat)
    requires WholeSpace(p, sp, t) && v * PGSIZE < sp.sz
    ensures Flat(p, t, v).Some?
  {
    InSize(v, sp.sz);
    assert v in ImageOf(p, t, PagesOf(sp.sz));
  }

  lemma MissWhole(p0: Pages, f0: seq<nat>, sp: Space, t0: Tab, p: Pages, f: seq<nat>, t: Tab)
    requires WholeSpace(p0, sp, t0) && TookNothing(p0, f0, t0, p, f, t) && p.Keys == p0.Keys
    ensures WholeSpace(p, sp, t)
  {
    hide Flat, PagesOf;
    forall v: nat | v < PagesOf(sp.sz)
      ensures v in ImageOf(p, t, PagesOf(sp.sz))
    {
      assert v in ImageOf(p0, t0, PagesOf(sp.sz));
    }
  }

  /** PCBs, as far as memory is concerned: a slot is in the map while it is not UNUSED. */
  class ProcTable {
    const k: Kmem
    const nproc: nat
    const trampoline: nat
    var procs: Procs
    ghost var tabs: Tabs
    ghost const aside: set<nat>

    ghost predicate Valid()
      reads this, k
    {
      && k.Valid() && (forall s | s in procs :: s < nproc)
      && Sound(k.pages, k.free, procs, tabs, aside)
    }

    /** No process has a hole in its memory. */
    ghost predicate Whole()
      reads this, k
    {
      AllWhole(k.pages, procs, tabs)
    }

    /** At boot no slot is used; the pages in use then are set aside for good. */
    constructor (mem: Kmem, slots: nat, code: nat)
      requires mem.Valid()
      ensures Valid() && Whole() && k == mem && nproc == slots && procs == map[]
      ensures aside == set h | h in mem.pages && h !in mem.free
    {
      hide Chain, Sound;
      k, nproc, trampoline := mem, slots, code;
      procs, tabs := map[], map[];
      aside := set h | h in mem.pages && h !in mem.free;
      new;
      Nobody(k.pages, k.free, aside);
    }

    /** The search of allocproc for an UNUSED slot. */
    method FindUnused() returns (slot: nat)
      requires Valid()
      ensures slot !in procs && slot <= nproc && forall s | 0 <= s < slot :: s in procs
    {
      hide Sound, Kmem.Valid;
      slot := 0;
      while slot < nproc && slot in procs
        invariant slot <= nproc && forall s | 0 <= s < slot :: s in procs
      {
        slot := slot + 1;
      }
    }

    /** allocproc: a slot with an empty space, unless slots or memory run out. */
    method Spawn() returns (slot: nat)
      requires Valid()
      modifies this, k
      ensures Valid() && slot <= nproc && slot !in old(procs)
      ensures OthersKept(old(k.pages), old(procs), old(tabs), k.pages, procs, tabs, slot)
      ensures slot == nproc ==> procs == old(procs) && tabs == old(tabs) && forall h :: h in k.free <==> h in old(k.free)
      ensures slot == nproc ==> (forall s | 0 <= s < nproc :: s in old(procs)) || |old(k.free)| < 4
      ensures slot < nproc ==> slot in procs && procs == old(procs)[slot := procs[slot]] && procs[slot].sz == 0
      ensures slot < nproc ==> |old(k.free)| == |k.free| + 4
      ensures old(Whole()) ==> Whole()
    {
      hide Sound, AllWhole, WholeSpace, OthersKept, Chain, Agree, TabOk, InUse, Divided, FlatIs, ProcSpace, Reserved, Flat, Pte;
      ghost var p0, f0 := k.pages, k.free;
      slot := FindUnused();
      if slot == nproc {
        GaveBackAll(p0, f0);
        NotMade(p0, f0, procs, tabs, aside, p0, f0, slot);
        return;
      }
      SoundKeys(p0, f0, procs, tabs, aside);
      var root, tf, t := AllocProc(k, trampoline);
      if root == 0 {
        NotMade(p0, f0, procs, tabs, aside, k.pages, k.free, nproc);
        if old(Whole()) { WholeKept(p0, procs, tabs, k.pages, procs, tabs, nproc); }
        slot := nproc;
        return;
      }
      FreshSpace(k.pages, k.free, t, trampoline, tf);
      FlatAt(k.pages, t, trampoline, tf);
      MadeReserved(k.pages, t, trampoline, tf);
      Made(p0, f0, procs, tabs, aside, k.pages, k.free, slot, Space(root, 0, tf), t);
      EmptyWhole(k.pages, root, tf, t);
      if old(Whole()) { WholeKept(p0, procs, tabs, k.pages, procs[slot := Space(root, 0, tf)], tabs[slot := t], slot); }
      procs, tabs := procs[slot := Space(root, 0, tf)], tabs[slot := t];
    }

    /** The memory side of kfork: the child has the parent's memory and registers, page
        for page and word for word, in pages of its own. */
    method Fork(parent: nat) returns (slot: nat)
      requires Valid() && parent in procs
      modifies this, k
      ensures Valid() && slot <= nproc && slot !in old(procs)
      ensures OthersKept(old(k.pages), old(procs), old(tabs), k.pages, procs, tabs, slot)
      ensures slot == nproc ==> procs == old(procs) && tabs == old(tabs) && forall h :: h in k.free <==> h in old(k.free)
      ensures slot == nproc ==> (forall s | 0 <= s < nproc :: s in old(procs)) || |old(k.free)| < 4 + 3 * PagesOf(old(procs)[parent].sz)
      ensures slot < nproc ==>
        && slot in procs && slot in tabs && procs == old(procs)[slot := procs[slot]] && procs[slot].sz == procs[parent].sz
        && parent in old(tabs) && ImageOf(k.pages, tabs[slot], PagesOf(procs[slot].sz)) == ImageOf(old(k.pages), old(tabs)[parent], PagesOf(procs[slot].sz))
        && procs[slot].tf in k.pages && procs[parent].tf in old(k.pages)
        && forall i | 0 <= i < REGS :: k.pages[procs[slot].tf][i] == if i == A0 then 0 else old(k.pages)[procs[parent].tf][i]
      ensures old(Whole()) ==> Whole()
    {
      hide AllWhole, WholeSpace, Sound, OthersKept, Chain, Agree, TabOk, InUse, Divided, ProcSpace, Reserved, Flat, Pte, Shows, ImageOf, PagesOf, SameFlat, Moved, ChildRegs, Frames;
      ghost var p0, f0 := k.pages, k.free;
      slot := FindUnused();
      SpaceOf(p0, f0, procs, tabs, aside, parent);
      if slot == nproc {
        GaveBackAll(p0, f0);
        NotMade(p0, f0, procs, tabs, aside, p0, f0, slot);
        return;
      }
      var sp := procs[parent];
      var root, tf, t := VmLife.Fork(k, sp.root, sp.sz, trampoline, tabs[parent]);
      SoundKeys(p0, f0, procs, tabs, aside);
      if root == 0 {
        NotMade(p0, f0, procs, tabs, aside, k.pages, k.free, nproc);
        if old(Whole()) { WholeKept(p0, procs, tabs, k.pages, procs, tabs, nproc); }
        slot := nproc;
        return;
      }
      ghost var p1, f1 := k.pages, k.free;
      MadeReserved(p1, t, trampoline, tf);
      Made(p0, f0, procs, tabs, aside, p1, f1, slot, Space(root, sp.sz, tf), t);
      procs, tabs := procs[slot := Space(root, sp.sz, tf)], tabs[slot := t];
      ImageBound(p0, tabs[parent], PagesOf(sp.sz));
      ShownImage(p1, t, PagesOf(sp.sz), ImageOf(p0, tabs[parent], PagesOf(sp.sz)));
      CopyRegs(slot, parent);
      KeptThenKept(p0, old(procs), old(tabs), p1, k.pages, procs, tabs, slot, parent);
      if old(Whole()) {
        WholeOf(p0, old(procs), old(tabs), parent);
        WholeCopy(p0, sp, old(tabs)[parent], k.pages, procs[slot], tabs[slot]);
        WholeKept(p0, old(procs), old(tabs), k.pages, procs, tabs, slot);
      }
    }

    /** The last step of the copy: the child's trap frame. */
    method CopyRegs(slot: nat, parent: nat)
      requires Valid() && slot in procs && parent in procs && slot != parent
      modifies k
      ensures Valid() && slot in tabs
      ensures OthersKept(old(k.pages), procs, tabs, k.pages, procs, tabs, slot)
      ensures ImageOf(k.pages, tabs[slot], PagesOf(procs[slot].sz)) == ImageOf(old(k.pages), tabs[slot], PagesOf(procs[slot].sz))
      ensures procs[slot].tf in k.pages && procs[parent].tf in old(k.pages)
      ensures forall i | 0 <= i < REGS :: k.pages[procs[slot].tf][i] == if i == A0 then 0 else old(k.pages)[procs[parent].tf][i]
    {
      hide Sound, OthersKept, Chain, Agree, TabOk, ProcSpace, Reserved, ImageOf, PagesOf, SameFlat, Moved;
      ghost var p0, f0, tab := k.pages, k.free, tabs;
      SpaceOf(p0, f0, procs, tabs, aside, slot);
      SpaceOf(p0, f0, procs, tabs, aside, parent);
      var tf := procs[slot].tf;
      k.Store(tf, ChildRegs(k.pages[procs[parent].tf], k.pages[tf]));
      StoreMoves(p0, f0, procs, tabs, k.pages, slot, tf, k.pages[tf]);
      SameTab(tabs, slot);
      Changed(p0, f0, procs, tabs, aside, k.pages, k.free, slot, tabs[slot]);
      RegsUnseen(p0, f0, procs[slot], tabs[slot], k.pages, k.pages[tf]);
    }

    /** vmfault, from a page fault or from copyin: no process sees a change. */
    method Fault(pid: nat, v: nat) returns (g: nat)
      requires Valid() && pid in procs
      modifies this, k
      ensures Valid() && procs == old(procs) && pid in tabs && pid in old(tabs)
      ensures OthersKept(old(k.pages), procs, old(tabs), k.pages, procs, tabs, pid)
      ensures SameView(old(k.pages), old(tabs)[pid], k.pages, tabs[pid], procs[pid].sz)
      ensures old(Whole()) ==> g == 0 && Whole()
    {
      hide AllWhole, WholeSpace, Sound, OthersKept, Chain, Agree, TabOk, InUse, SpaceOk, UserFrames, Moved, SameView, PageView, Flat, Took, TookNothing, Put;
      ghost var p0, f0 := k.pages, k.free;
      SpaceOf(p0, f0, procs, tabs, aside, pid);
      UserOk(p0, f0, procs[pid], tabs[pid]);
      SpaceTree(p0, f0, procs[pid], tabs[pid]);
      ghost var t: Tab;
      g, t := VmFault(k, procs[pid].root, v, procs[pid].sz, tabs[pid]);
      if g == 0 {
        MissMoves(p0, f0, procs, tabs, k.pages, k.free, pid, t);
      } else {
        FaultMoves(p0, f0, procs, tabs, k.pages, k.free, pid, t, v, g);
      }
      Changed(p0, f0, procs, tabs, aside, k.pages, k.free, pid, t);
      SoundKeys(p0, f0, procs, tabs, aside);
      FaultWhole(p0, f0, procs, tabs, k.pages, k.free, pid, t, v, g);
      tabs := tabs[pid := t];
    }

    /** User code stores to its page v: seen on that page of that process only. */
    method UserStore(pid: nat, v: nat, page: Page) returns (ok: bool)
      requires Valid() && pid in procs
      modifies k
      ensures Valid() && pid in tabs
      ensures OthersKept(old(k.pages), procs, tabs, k.pages, procs, tabs, pid)
      ensures ok <==> v < VPNS && Flat(old(k.pages), tabs[pid], v).Some? && Writable(Flat(old(k.pages), tabs[pid], v).value)
      ensures
        var before, after := ImageOf(old(k.pages), tabs[pid], PagesOf(procs[pid].sz)), ImageOf(k.pages, tabs[pid], PagesOf(procs[pid].sz));
        if ok then v in before && after == before[v := (page, before[v].1)] else after == before
      ensures old(Whole()) ==> Whole()
    {
      hide AllWhole, WholeSpace, Sound, OthersKept, Chain, Agree, TabOk, InUse, SpaceOk, UserFrames, Moved, Flat, U, W, ImageOf, PagesOf, SameFlat, Frame;
      ghost var p0, f0 := k.pages, k.free;
      SpaceOf(p0, f0, procs, tabs, aside, pid);
      UserOk(p0, f0, procs[pid], tabs[pid]);
      SpaceTree(p0, f0, procs[pid], tabs[pid]);
      var g := Va2Pa(k, procs[pid].root, v, tabs[pid]);
      ok := false;
      if g != 0 {
        var table, t' := Walk(k, procs[pid].root, v, false, tabs[pid]);
        HasTable(k.pages, tabs[pid], v);
        EntryOf(k.pages, tabs[pid], v, table.value);
        ok := Writable(k.pages[table.value][I0(v)]);
      }
      SoundKeys(p0, f0, procs, tabs, aside);
      SameTab(tabs, pid);
      if !ok {
        KeptRefl(p0, procs, tabs, pid);
        return;
      }
      ReachedOwned(p0, f0, procs[pid], tabs[pid], v, g);
      k.Store(g, page);
      StoreMoves(p0, f0, procs, tabs, k.pages, pid, g, page);
      Changed(p0, f0, procs, tabs, aside, k.pages, k.free, pid, tabs[pid]);
      StoreSeen(p0, f0, tabs[pid], PagesOf(procs[pid].sz), k.pages, v, g, page);
      if old(Whole()) {
        WholeOf(p0, procs, tabs, pid);
        WholeStored(p0, k.pages, procs[pid], tabs[pid]);
        WholeKept(p0, procs, tabs, k.pages, procs, tabs, pid);
      }
    }

    /** The memory side of kexec. It panics if and only if there is memory for a page table
        but not for the program. Otherwise the process runs on in its old space, or its
        memory is exactly the program's and its old pages are free. */
    method Exec(pid: nat, prog: Program) returns (r: Exec)
      requires Valid() && pid in procs
      modifies this, k
      ensures r.Panicked? <==> |old(k.free)| >= 3 && !FitsIn(|old(k.free)| - 3, ProcTab(), AskedAll(prog))
      ensures !r.Panicked? ==> Valid()
      ensures r.NotReady? ==>
        && procs == old(procs) && tabs == old(tabs) && (|old(k.free)| < 3 || StartPointer(prog) == None)
        && OthersKept(old(k.pages), procs, tabs, k.pages, procs, tabs, nproc)
      ensures r.Ready? ==>
        && OthersKept(old(k.pages), old(procs), old(tabs), k.pages, procs, tabs, pid)
        && procs == old(procs)[pid := Space(r.root, r.sz, old(procs)[pid].tf)] && pid in tabs
        && StartPointer(prog) == Some(r.sp) && 0 <= r.sp
        && r.sz == (PagesOf(Loaded(prog.segs, |prog.segs|).value.sz) + 1 + USERSTACK) * PGSIZE
        && ImageOf(k.pages, tabs[pid], PagesOf(r.sz)) == StartImage(Loaded(prog.segs, |prog.segs|).value, prog.stack)
        && procs[pid].tf in k.pages && procs[pid].tf in old(k.pages)
        && k.pages[procs[pid].tf] == StartRegs(old(k.pages)[procs[pid].tf], prog.entry, r.sp)
      ensures !r.Panicked? && old(Whole()) ==> Whole()
    {
      hide AllWhole, WholeSpace, Sound, OthersKept, Chain, Agree, TabOk, InUse, SpaceOk, Partial, ImageOf, PagesOf, Moved, Freed, FitsIn, AskedAll, StartPointer, StartImage, Loaded, GaveBack, StartRegs;
      ghost var p0, f0 := k.pages, k.free;
      SpaceOf(p0, f0, procs, tabs, aside, pid);
      var sp := procs[pid];
      ghost var t: Tab;
      r, t := BuildImage(k, trampoline, sp.tf, prog);
      if r.Panicked? { return; }
      SoundKeys(p0, f0, procs, tabs, aside);
      if r.NotReady? {
        NotMade(p0, f0, procs, tabs, aside, k.pages, k.free, nproc);
        if old(Whole()) { WholeKept(p0, procs, tabs, k.pages, procs, tabs, nproc); }
        return;
      }
      PointerPositive(prog);
      ghost var p1, f1 := k.pages, k.free;
      PartialSpace(p0, f0, p1, f1, t, PagesOf(r.sz));
      OldKept(p0, f0, sp, tabs[pid], p1, f1, t, PagesOf(r.sz));
      TfKept(p0, f0, sp, tabs[pid], p1, f1, t, PagesOf(r.sz));
      Switch(sp, StartRegs(k.pages[sp.tf], prog.entry, r.sp), tabs[pid]);
      var sp' := Space(r.root, r.sz, sp.tf);
      ExecMoves(p0, f0, procs, tabs, pid, p1, f1, t, sp', k.pages, k.free);
      Replaced(p0, f0, procs, tabs, aside, k.pages, k.free, pid, sp', t);
      StartWhole(prog, r.sz);
      ImageWhole(k.pages, sp', t);
      if old(Whole()) { WholeKept(p0, procs, tabs, k.pages, procs[pid := sp'], tabs[pid := t], pid); }
      procs, tabs := procs[pid := sp'], tabs[pid := t];
    }

    /** The end of kexec: the trap frame is set and the old space freed. */
    method Switch(sp: Space, regs: Page, ghost told: Tab)
      requires k.Valid() && SpaceOk(k.pages, k.free, sp, told)
      modifies k
      ensures k.Valid() && Freed(old(k.pages), old(k.free), sp, told, k.pages, k.free)
      ensures sp.tf in k.pages && k.pages[sp.tf] == regs
    {
      hide Chain, Agree, TabOk, InUse, ProcSpace, Reserved, Freed, Gone, Holds, Frames, PagesOf;
      ghost var p1, f1 := k.pages, k.free;
      k.Store(sp.tf, regs);
      TfStored(p1, f1, sp, told, regs);
      ghost var p2 := k.pages;
      FreeUserVM(k, sp.root, sp.sz, told);
      GoneFreed(p1, f1, sp, told, regs, k.pages, k.free);
    }

    /** uFreeProc as kwait calls it: the slot and all the pages of the process. */
    method Free(pid: nat)
      requires Valid() && pid in procs
      modifies this, k
      ensures Valid() && procs == old(procs) - {pid} && pid in old(tabs)
      ensures OthersKept(old(k.pages), old(procs), old(tabs), k.pages, procs, tabs, pid)
      ensures forall h: nat :: h in k.free <==> h in old(k.free) || OwnedBy(old(k.pages), old(procs)[pid], old(tabs)[pid], h)
      ensures old(Whole()) ==> Whole()
    {
      hide AllWhole, WholeSpace, Sound, OthersKept, Chain, Agree, TabOk, InUse, ProcSpace, Reserved, OwnPage, Holds, PagesOf, Frames;
      ghost var p0, f0 := k.pages, k.free;
      SpaceOf(p0, f0, procs, tabs, aside, pid);
      FreeProc(k, procs[pid].tf, procs[pid].root, procs[pid].sz, tabs[pid]);
      Removed(p0, f0, procs, tabs, aside, k.pages, k.free, pid);
      SoundKeys(p0, f0, procs, tabs, aside);
      if old(Whole()) { WholeKept(p0, procs, tabs, k.pages, procs - {pid}, tabs - {pid}, pid); }
      procs, tabs := procs - {pid}, tabs - {pid};
    }

    /** When no process is left, whatever happened before, the free pages are exactly
        those that were free at boot. */
    lemma AllFreed()
      requires Valid() && procs == map[]
      ensures forall h :: h in k.free <==> h in k.pages && h !in aside
    {
      hide Chain;
      FreeManaged(k.base, k.top, k.bits, k.pages, k.free);
    }
  }

  lemma FreeManaged(base: nat, top: nat, bits: seq<bool>, p: Pages, f: seq<nat>)
    requires (forall h :: h in p <==> base <= h < top) && Agree(base, top, bits, f)
    ensures forall h | h in f :: h in p
  {
  }

  predicate W(pte: nat) { (pte / 4) % 2 == 1 }

  /** PTE_U and PTE_W are set. */
  predicate Writable(pte: nat) { U(pte) && W(pte) }

  lemma HasTable(p: Pages, t: Tab, v: nat)
    requires Flat(p, t, v).Some?
    ensures v / 512 in t.leaf
  {
  }

  lemma SpaceTree(p: Pages, f: seq<nat>, sp: Space, t: Tab)
    requires SpaceOk(p, f, sp, t)
    ensures TabOk(p, t) && InUse(f, t) && t.root == sp.root
  {
  }

  lemma FlatAt(p: Pages, t: Tab, trampoline: nat, tf: nat)
    requires FlatIs(p, t, ProcMap(trampoline, tf))
    ensures Flat(p, t, TRAMPOLINE) == Some(Pte(trampoline, WithV(RX))) && Flat(p, t, TRAPFRAME) == Some(Pte(tf, WithV(RW)))
  {
    hide Flat, Pte;
  }

  lemma ImageBound(p: Pages, t: Tab, n: nat)
    ensures forall w | w in ImageOf(p, t, n) :: w < n
  {
  }

  /** The page that user code reaches is one of the process's frames. */
  lemma ReachedOwned(p: Pages, f: seq<nat>, sp: Space, t: Tab, v: nat, g: nat)
    requires SpaceOk(p, f, sp, t) && Flat(p, t, v).Some? && U(Flat(p, t, v).value) && g == Frame(Flat(p, t, v).value)
    ensures v < PagesOf(sp.sz) && Maps(p, t, v, g) && Owns(p, f, t, 0, PagesOf(sp.sz))
    ensures OwnedBy(p, sp, t, g) && g in p && g !in f && g !in Frames(t)
  {
    hide TabOk, Flat, U, Frame, LeavesOnly, PagesOf;
    UserOk(p, f, sp, t);
    assert Maps(p, t, v, g);
    assert Holds(p, t, 0, PagesOf(sp.sz), g);
  }

  lemma KeptThenKept(p0: Pages, procs0: Procs, tabs0: Tabs, p1: Pages, p2: Pages, procs: Procs, tabs: Tabs, slot: nat, parent: nat)
    requires OthersKept(p0, procs0, tabs0, p1, procs, tabs, slot) && OthersKept(p1, procs, tabs, p2, procs, tabs, slot)
    requires parent in procs0 && parent in tabs0 && parent != slot
    ensures OthersKept(p0, procs0, tabs0, p2, procs, tabs, slot)
    ensures parent in procs && procs[parent] == procs0[parent] && procs[parent].tf in p0 && procs[parent].tf in p1
    ensures p1[procs[parent].tf] == p0[procs[parent].tf]
  {
    OthersKeptTrans(p0, procs0, tabs0, p1, procs, tabs, p2, procs, tabs, slot);
  }

  lemma KeptRefl(p: Pages, procs: Procs, tabs: Tabs, pid: nat)
    requires forall s | s in procs && s in tabs :: procs[s].tf in p
    ensures OthersKept(p, procs, tabs, p, procs, tabs, pid)
  {
  }

  lemma WholeCopy(p0: Pages, sp: Space, t0: Tab, p: Pages, sp': Space, t: Tab)
    requires WholeSpace(p0, sp, t0) && sp'.sz == sp.sz && ImageOf(p, t, PagesOf(sp.sz)) == ImageOf(p0, t0, PagesOf(sp.sz))
    ensures WholeSpace(p, sp', t)
  {
    hide ImageOf;
  }

  lemma WholeStored(p0: Pages, p: Pages, sp: Space, t: Tab)
    requires WholeSpace(p0, sp, t)
    requires forall v | v in ImageOf(p0, t, PagesOf(sp.sz)) :: v in ImageOf(p, t, PagesOf(sp.sz))
    ensures WholeSpace(p, sp, t)
  {
    hide ImageOf;
  }

  lemma FaultWhole(p0: Pages, f0: seq<nat>, procs: Procs, tabs: Tabs, p: Pages, f: seq<nat>, pid: nat, t: Tab, v: nat, g: nat)
    requires pid in procs && pid in tabs && procs.Keys == tabs.Keys && p.Keys == p0.Keys
    requires OthersKept(p0, procs, tabs, p, procs, tabs[pid := t], pid)
    requires g != 0 ==> v * PGSIZE < procs[pid].sz && Flat(p0, tabs[pid], v) == None
    requires g == 0 ==> TookNothing(p0, f0, tabs[pid], p, f, t)
    ensures AllWhole(p0, procs, tabs) ==> g == 0 && AllWhole(p, procs, tabs[pid := t])
  {
    hide OthersKept, TookNothing, WholeSpace;
    if AllWhole(p0, procs, tabs) {
      if v * PGSIZE < procs[pid].sz { NoHole(p0, procs[pid], tabs[pid], v); }
      MissWhole(p0, f0, procs[pid], tabs[pid], p, f, t);
      WholeKept(p0, procs, tabs, p, procs, tabs[pid := t], pid);
    }
  }

  lemma ImageWhole(p: Pages, sp: Space, t: Tab)
    requires forall v: nat | v < PagesOf(sp.sz) :: v in ImageOf(p, t, PagesOf(sp.sz))
    ensures WholeSpace(p, sp, t)
  {
  }

  lemma StartWhole(prog: Program, sz: nat)
    requires Loaded(prog.segs, |prog.segs|).Some? && sz == (PagesOf(Loaded(prog.segs, |prog.segs|).value.sz) + 1 + USERSTACK) * PGSIZE
    ensures forall v: nat | v < PagesOf(sz) :: v in StartImage(Loaded(prog.segs, |prog.segs|).value, prog.stack)
  {
    LoadedKeys(prog.segs, |prog.segs|);
    StartKeys(Loaded(prog.segs, |prog.segs|).value, prog.stack);
    RoundUp(PagesOf(Loaded(prog.segs, |prog.segs|).value.sz) + 1 + USERSTACK);
  }

  lemma PointerPositive(prog: Program)
    requires StartPointer(prog).Some?
    ensures StartPointer(prog).value >= 0 && Loaded(prog.segs, |prog.segs|).Some?
  {
    hide Pushed, PagesOf, Loaded;
  }

  lemma TfKept(p0: Pages, f0: seq<nat>, sp: Space, told: Tab, p1: Pages, f1: seq<nat>, t: Tab, n: nat)
    requires SpaceOk(p0, f0, sp, told) && Drawn(p0, f0, p1, f1, t, n)
    ensures sp.tf in p0 && sp.tf in p1 && p1[sp.tf] == p0[sp.tf]
  {
    hide TabOk, ProcSpace, Holds, Frames;
    DrawnApart(p0, f0, p1, f1, t, n, sp.tf);
  }

  /** A store to the trap frame page leaves the space whole. */
  lemma TfStored(p: Pages, f: seq<nat>, sp: Space, t: Tab, page: Page)
    requires SpaceOk(p, f, sp, t)
    ensures sp.tf in p && SpaceOk(p[sp.tf := page], f, sp, t)
    ensures forall h: nat :: OwnedBy(p[sp.tf := page], sp, t, h) <==> OwnedBy(p, sp, t, h)
    ensures forall h: nat :: Holds(p[sp.tf := page], t, 0, PagesOf(sp.sz), h) <==> Holds(p, t, 0, PagesOf(sp.sz), h)
  {
    OwnTf(p, f, sp, t);
    hide OwnedBy, SpaceOk, Holds, Frames, PagesOf;
    forall h: nat | OwnedBy(p, sp, t, h)
      ensures h in p && h !in f
    {
      OwnedInUse(p, f, sp, t, h);
    }
    assert TablesAlone(p, sp, t, p[sp.tf := page], f);
    SpaceKept(p, f, sp, t, p[sp.tf := page], f);
    SameHolds(p, p[sp.tf := page], t, PagesOf(sp.sz));
  }

  lemma OwnTf(p: Pages, f: seq<nat>, sp: Space, t: Tab)
    requires SpaceOk(p, f, sp, t)
    ensures sp.tf in p && sp.tf !in f && sp.tf !in Frames(t) && !Holds(p, t, 0, PagesOf(sp.sz), sp.tf)
  {
  }

  lemma GoneFreed(p1: Pages, f1: seq<nat>, sp: Space, told: Tab, regs: Page, p3: Pages, f3: seq<nat>)
    requires SpaceOk(p1, f1, sp, told) && p3.Keys == p1.Keys && sp.tf in p1
    requires Gone(p1[sp.tf := regs], f1, told, PagesOf(sp.sz), p3, f3)
    requires forall h: nat :: Holds(p1[sp.tf := regs], told, 0, PagesOf(sp.sz), h) <==> Holds(p1, told, 0, PagesOf(sp.sz), h)
    ensures Freed(p1, f1, sp, told, p3, f3) && sp.tf in p3 && p3[sp.tf] == regs
  {
    OwnTf(p1, f1, sp, told);
    hide SpaceOk, Holds, Frames, PagesOf;
  }

  lemma Replaced(p0: Pages, f0: seq<nat>, procs: Procs, tabs: Tabs, aside: set<nat>, p: Pages, f: seq<nat>, s: nat, sp: Space, t: Tab)
    requires Sound(p0, f0, procs, tabs, aside) && s in procs && s in tabs && SpaceOk(p, f, sp, t)
    requires Moved(p0, f0, procs, tabs, p, f, procs[s := sp], tabs[s := t], s)
    ensures Sound(p, f, procs[s := sp], tabs[s := t], aside) && OthersKept(p0, procs, tabs, p, procs[s := sp], tabs[s := t], s)
  {
    hide Partition, Moved, OthersKept, SpaceOk;
    Transfer(p0, f0, procs, tabs, aside, p, f, procs[s := sp], tabs[s := t], s);
  }

  // ---- a run in which a process has memory of its own ----

  /** A program of one page that the file does not fill. */
  function OnePage(): Program {
    Program([Segment(0, PGSIZE, 0, PTE_W, [])], 0, [], [PageAlloc.Filled(0), PageAlloc.Filled(0), PageAlloc.Filled(0)])
  }

  lemma OnePageLoads()
    ensures Loaded(OnePage().segs, 1) == Some(Load(PGSIZE, map[] + ZeroImage(0, 1, 23)))
    ensures StartPointer(OnePage()).Some? && AskedAll(OnePage()) == 5
  {
    var segs := OnePage().segs;
    assert Loaded(segs, 0) == Some(Load(0, map[]));
    assert PagesOf(0) == 0 && PagesOf(PGSIZE) == 1;
    assert Enlarged(Load(0, map[]), PGSIZE, PTE_W) == Load(PGSIZE, map[] + ZeroImage(0, 1, 23));
    assert Overlaid(map[] + ZeroImage(0, 1, 23), 0, [], 0) == map[] + ZeroImage(0, 1, 23);
    assert Pushed(5 * PGSIZE, 2 * PGSIZE, [], 0) == Some(5 * PGSIZE);
  }

  lemma OnePageFits(free: nat)
    requires free >= 7
    ensures FitsIn(free, ProcTab(), 5)
  {
    var t := ProcTab();
    assert Tables(t, 0, 0) == 0 && Fresh(t, 0, 0) == 2;
    assert Fresh(t, 0, 1) == 0 && Fresh(t, 0, 2) == 0 && Fresh(t, 0, 3) == 0 && Fresh(t, 0, 4) == 0;
    assert Tables(t, 0, 1) == 2 && Tables(t, 0, 2) == 2 && Tables(t, 0, 3) == 2;
    assert Tables(t, 0, 4) == 2 && Tables(t, 0, 5) == 2;
  }

  /** Page 0 of its memory is there for the user. */
  lemma OnePageUser(img: Image)
    requires img == StartImage(Load(PGSIZE, map[] + ZeroImage(0, 1, 23)), OnePage().stack)
    ensures 0 in img && img[0].1 == 23
  {
    hide ZeroImage;
    ZeroAt(0, 1, 23, 0);
    var l := Load(PGSIZE, map[] + ZeroImage(0, 1, 23));
    assert PagesOf(PGSIZE) == 1;
    StackAbove(l.img, OnePage().stack);
  }

  lemma StackAbove(img: Image, stack: Stack)
    requires 0 in img
    ensures var i := StartImage(Load(PGSIZE, img), stack); 0 in i && i[0] == img[0]
  {
    assert PagesOf(PGSIZE) == 1;
    var e := Enlarged(Load(PGSIZE, img), 5 * PGSIZE, PTE_W).img;
    assert 0 in e && e[0] == img[0];
    if 1 in e {
      var g := e[1 := (e[1].0, WithoutU(e[1].1))];
      OverlaidAbove(g, 2, stack, USERSTACK);
    }
  }

  lemma {:induction false} OverlaidAbove(img: Image, v: nat, pages: seq<Page>, i: nat)
    requires i <= |pages| && v > 0 && 0 in img
    ensures 0 in Overlaid(img, v, pages, i) && Overlaid(img, v, pages, i)[0] == img[0]
  {
    if i > 0 { OverlaidAbove(img, v, pages, i - 1); }
  }

  lemma UserIn(p: Pages, t: Tab, n: nat, v: nat)
    requires v in ImageOf(p, t, n) && ImageOf(p, t, n)[v].1 == 23
    ensures Flat(p, t, v).Some? && Writable(Flat(p, t, v).value)
  {
    hide Flat;
    var pte := Flat(p, t, v).value;
    assert pte % 1024 == 23 && pte == 1024 * (pte / 1024) + 23;
  }

  /** From boot with fourteen free pages: a process is made, executes a program and stores
      to its memory. */
  method FirstStore(mem: Kmem, code: nat, page: Page) returns (table: ProcTable, slot: nat, ok: bool)
    requires mem.Valid() && |mem.free| >= 14
    modifies mem
    ensures table.k == mem && table.Valid() && slot in table.procs && slot in table.tabs && ok
    ensures table.procs[slot].sz == 5 * PGSIZE
    ensures var img := ImageOf(mem.pages, table.tabs[slot], 5); 0 in img && img[0] == (page, 23)
  {
    hide ProcTable.Valid, OthersKept, FitsIn, AskedAll, StartPointer, StartImage, Loaded, ImageOf, Flat, Writable, ZeroImage;
    table := new ProcTable(mem, 1, code);
    ghost var procs := table.procs;
    assert 0 !in procs;
    slot := table.Spawn();
    assert slot < table.nproc;
    OnePageLoads();
    OnePageFits(|mem.free| - 3);
    var r := table.Exec(slot, OnePage());
    assert PagesOf(PGSIZE) == 1 && PagesOf(5 * PGSIZE) == 5;
    OnePageUser(ImageOf(mem.pages, table.tabs[slot], 5));
    UserIn(mem.pages, table.tabs[slot], 5, 0);
    ok := table.UserStore(slot, 0, page);
  }
}
