/** Which process owns a page. A process owns its tables, the frames of its pages and
    its trap frame page. An operation on one process moves pages between that process
    and the free list only, and then all other processes keep their pages and their
    memory. */
module VmOwners {
  import opened PageAlloc
  import opened PageTable
  import opened Vm
  import opened VmSpace
  import opened VmTeardown
  import opened VmBuild
  import opened VmLife

  /** The memory side of a PCB: page table, size and trap frame page. */
  datatype Space = Space(root: nat, sz: nat, tf: nat)

  /** Page h is a table, a frame or the trap frame page of this process. */
  ghost predicate OwnedBy(p: Pages, sp: Space, t: Tab, h: nat) {
    h == sp.tf || h in Frames(t) || Holds(p, t, 0, PagesOf(sp.sz), h)
  }

  /** The two pages above the process's memory are not for the user. */
  ghost predicate Reserved(p: Pages, t: Tab) {
    forall v: nat | (v == TRAMPOLINE || v == TRAPFRAME) && Flat(p, t, v).Some? :: !U(Flat(p, t, v).value)
  }

  ghost predicate SpaceOk(p: Pages, f: seq<nat>, sp: Space, t: Tab) {
    && TabOk(p, t) && InUse(f, t) && t.root == sp.root && Reserved(p, t)
    && ProcSpace(p, f, t, PagesOf(sp.sz)) && OwnPage(p, f, t, PagesOf(sp.sz), sp.tf)
  }

  /** Owned pages are managed and in use. */
  lemma OwnedInUse(p: Pages, f: seq<nat>, sp: Space, t: Tab, h: nat)
    requires SpaceOk(p, f, sp, t) && OwnedBy(p, sp, t, h)
    ensures h in p && h !in f
  {
    hide Flat, LeavesOnly;
  }

  /** The pages that the process owns are in use, and its tables are as they were. */
  ghost predicate TablesAlone(p0: Pages, sp: Space, t: Tab, p: Pages, f: seq<nat>) {
    forall h: nat | OwnedBy(p0, sp, t, h) :: h in p0 && h in p && h !in f && (h in Frames(t) ==> p[h] == p0[h])
  }

  /** Such a space owns what it did. */
  lemma SpaceKept(p0: Pages, f0: seq<nat>, sp: Space, t: Tab, p: Pages, f: seq<nat>)
    requires SpaceOk(p0, f0, sp, t) && TablesAlone(p0, sp, t, p, f)
    ensures SpaceOk(p, f, sp, t) && SameFlat(p0, t, p, t)
    ensures forall h: nat :: OwnedBy(p, sp, t, h) <==> OwnedBy(p0, sp, t, h)
  {
    var n := PagesOf(sp.sz);
    assert forall h | h in Frames(t) :: OwnedBy(p0, sp, t, h);
    TabFrame(p0, p, t);
    hide TabOk, PagesOf, Flat, Owns, Holds;
    assert SameFlat(p0, t, p, t);
    SameHolds(p0, p, t, n);
    forall h: nat | Holds(p0, t, 0, n, h)
      ensures h in p && h !in f
    {
      assert OwnedBy(p0, sp, t, h);
    }
    OwnsKept(p0, f0, p, f, t, n);
    RestKept(p0, t, p, f0, f, n);
    assert OwnedBy(p0, sp, t, sp.tf);
  }

  lemma RestKept(p0: Pages, t: Tab, p: Pages, f0: seq<nat>, f: seq<nat>, n: nat)
    requires SameFlat(p0, t, p, t) && Reserved(p0, t) && ProcSpace(p0, f0, t, n) && Owns(p, f, t, 0, n)
    ensures Reserved(p, t) && ProcSpace(p, f, t, n)
  {
    hide Flat, Owns, U, Inner;
  }

  lemma HeldImage(p0: Pages, t: Tab, p: Pages, n: nat)
    requires SameFlat(p0, t, p, t)
    requires forall h: nat | Holds(p0, t, 0, n, h) :: h in p0 && h in p && p[h] == p0[h]
    ensures ImageOf(p, t, n) == ImageOf(p0, t, n)
  {
    hide Flat, ImageOf;
    forall w: nat, h: nat | w < n && Maps(p0, t, w, h)
      ensures h in p0 && h in p && p[h] == p0[h]
    {
      assert Holds(p0, t, 0, n, h);
    }
    ImageKept(p0, t, p, n);
  }

  lemma SameHolds(p0: Pages, p: Pages, t: Tab, n: nat)
    requires SameFlat(p0, t, p, t)
    ensures forall h: nat :: Holds(p, t, 0, n, h) <==> Holds(p0, t, 0, n, h)
  {
    hide Flat;
    forall w: nat, h: nat
      ensures Maps(p, t, w, h) == Maps(p0, t, w, h)
    {
      assert Flat(p, t, w) == Flat(p0, t, w);
    }
  }

  lemma OwnsKept(p0: Pages, f0: seq<nat>, p: Pages, f: seq<nat>, t: Tab, n: nat)
    requires SameFlat(p0, t, p, t) && Owns(p0, f0, t, 0, n)
    requires forall h: nat | Holds(p0, t, 0, n, h) :: h in p && h !in f
    ensures Owns(p, f, t, 0, n)
  {
    hide Flat;
    forall w: nat, h: nat
      ensures Maps(p, t, w, h) == Maps(p0, t, w, h)
      ensures w < n && Maps(p, t, w, h) ==> h in p && h !in f
    {
      assert Flat(p, t, w) == Flat(p0, t, w);
      if w < n && Maps(p0, t, w, h) { assert Holds(p0, t, 0, n, h); }
    }
  }

  /** A store through one page of the space is seen there and nowhere else. */
  lemma StoreSeen(p0: Pages, f: seq<nat>, t: Tab, n: nat, p: Pages, v: nat, g: nat, page: Page)
    requires Owns(p0, f, t, 0, n) && v < n && Maps(p0, t, v, g) && p == p0[g := page] && SameFlat(p0, t, p, t)
    ensures v in ImageOf(p0, t, n) && ImageOf(p, t, n) == ImageOf(p0, t, n)[v := (page, ImageOf(p0, t, n)[v].1)]
  {
    hide Flat, Flags;
    var old', new' := ImageOf(p0, t, n), ImageOf(p, t, n);
    forall w: nat
      ensures Flat(p, t, w) == Flat(p0, t, w)
      ensures w < n && Flat(p0, t, w).Some? && w != v ==> Frame(Flat(p0, t, w).value) != g
    {
      if w < n && Flat(p0, t, w).Some? { assert Maps(p0, t, w, Frame(Flat(p0, t, w).value)); }
    }
    assert old'[v].1 == new'[v].1;
  }

  // ---- all processes ----

  type Procs = map<nat, Space>
  type Tabs = map<nat, Tab>

  ghost predicate Owner(p: Pages, procs: Procs, tabs: Tabs, pid: nat, h: nat) {
    pid in procs && pid in tabs && OwnedBy(p, procs[pid], tabs[pid], h)
  }

  ghost predicate SpacesOk(p: Pages, f: seq<nat>, procs: Procs, tabs: Tabs) {
    procs.Keys == tabs.Keys && forall pid | pid in procs :: pid in tabs && SpaceOk(p, f, procs[pid], tabs[pid])
  }

  /** Every page is free, or set aside, or owned by one process, and by one only. */
  ghost predicate Partition(p: Pages, f: seq<nat>, procs: Procs, tabs: Tabs, aside: set<nat>) {
    && (forall pid: nat, qid: nat, h: nat | Owner(p, procs, tabs, pid, h) && Owner(p, procs, tabs, qid, h) :: pid == qid)
    && (forall pid: nat, h: nat | Owner(p, procs, tabs, pid, h) :: h in p && h !in f && h !in aside)
    && (forall h | h in f :: h !in aside)
    && (forall h: nat | h in p :: h in f || h in aside || exists pid: nat :: Owner(p, procs, tabs, pid, h))
  }

  /** The memory of a process, with the page that keeps its registers, is the same. */
  ghost predicate SameMemory(p0: Pages, p: Pages, sp: Space, t: Tab) {
    && sp.tf in p0 && sp.tf in p && p[sp.tf] == p0[sp.tf]
    && ImageOf(p, t, PagesOf(sp.sz)) == ImageOf(p0, t, PagesOf(sp.sz))
  }

  /** Every process but pid is still there, and its memory is as it was. */
  ghost predicate OthersKept(p0: Pages, procs: Procs, tabs: Tabs, p: Pages, procs': Procs, tabs': Tabs, pid: nat) {
    forall qid | qid in procs && qid in tabs && qid != pid ::
      && qid in procs' && procs'[qid] == procs[qid] && qid in tabs' && tabs'[qid] == tabs[qid]
      && SameMemory(p0, p, procs[qid], tabs[qid])
  }

  /** Pages move only between the free list and process pid: what they held together
      they still hold together, and no other page in use has changed. */
  ghost predicate Moved(p0: Pages, f0: seq<nat>, procs: Procs, tabs: Tabs, p: Pages, f: seq<nat>, procs': Procs, tabs': Tabs, pid: nat) {
    && p.Keys == p0.Keys
    && (forall h: nat :: h in f || Owner(p, procs', tabs', pid, h) <==> h in f0 || Owner(p0, procs, tabs, pid, h))
    && (forall h | h in p0 && h !in f0 && !Owner(p0, procs, tabs, pid, h) :: h in p && p[h] == p0[h])
  }

  ghost predicate SameBut(procs: Procs, tabs: Tabs, procs': Procs, tabs': Tabs, pid: nat) {
    && procs'.Keys == tabs'.Keys
    && forall qid | qid != pid ::
         && (qid in procs' <==> qid in procs) && (qid in procs && qid in procs' ==> procs'[qid] == procs[qid])
         && (qid in tabs' <==> qid in tabs) && (qid in tabs && qid in tabs' ==> tabs'[qid] == tabs[qid])
  }

  lemma OtherKept(p0: Pages, f0: seq<nat>, procs: Procs, tabs: Tabs, aside: set<nat>, p: Pages, f: seq<nat>, procs': Procs, tabs': Tabs, pid: nat, qid: nat)
    requires SpacesOk(p0, f0, procs, tabs) && Partition(p0, f0, procs, tabs, aside)
    requires Moved(p0, f0, procs, tabs, p, f, procs', tabs', pid) && qid != pid && qid in procs && qid in tabs
    ensures SpaceOk(p, f, procs[qid], tabs[qid])
    ensures forall h: nat :: OwnedBy(p, procs[qid], tabs[qid], h) <==> OwnedBy(p0, procs[qid], tabs[qid], h)
    ensures SameMemory(p0, p, procs[qid], tabs[qid])
  {
    hide SpaceOk, OwnedBy, ImageOf, PagesOf, SameFlat;
    var sp, t := procs[qid], tabs[qid];
    forall h: nat | OwnedBy(p0, sp, t, h)
      ensures h in p0 && h in p && p[h] == p0[h] && h !in f
    {
      assert Owner(p0, procs, tabs, qid, h);
      assert !Owner(p0, procs, tabs, pid, h);
    }
    SpaceKept(p0, f0, sp, t, p, f);
    OwnedMeans(p0, sp, t);
    HeldImage(p0, t, p, PagesOf(sp.sz));
  }

  lemma OwnedMeans(p: Pages, sp: Space, t: Tab)
    ensures OwnedBy(p, sp, t, sp.tf)
    ensures forall h: nat | Holds(p, t, 0, PagesOf(sp.sz), h) :: OwnedBy(p, sp, t, h)
  {
  }

  /** A move keeps the ownership of every page and the memory of every other process. */
  lemma Transfer(p0: Pages, f0: seq<nat>, procs: Procs, tabs: Tabs, aside: set<nat>, p: Pages, f: seq<nat>, procs': Procs, tabs': Tabs, pid: nat)
    requires SpacesOk(p0, f0, procs, tabs) && Partition(p0, f0, procs, tabs, aside) && SameBut(procs, tabs, procs', tabs', pid)
    requires Moved(p0, f0, procs, tabs, p, f, procs', tabs', pid)
    requires pid in procs' && pid in tabs' ==> SpaceOk(p, f, procs'[pid], tabs'[pid])
    ensures SpacesOk(p, f, procs', tabs') && Partition(p, f, procs', tabs', aside)
    ensures OthersKept(p0, procs, tabs, p, procs', tabs', pid)
  {
    hide SpaceOk, OwnedBy, SameMemory;
    forall qid | qid in procs && qid in tabs && qid != pid
      ensures SpaceOk(p, f, procs[qid], tabs[qid])
      ensures forall h: nat :: OwnedBy(p, procs[qid], tabs[qid], h) <==> OwnedBy(p0, procs[qid], tabs[qid], h)
      ensures SameMemory(p0, p, procs[qid], tabs[qid])
    {
      OtherKept(p0, f0, procs, tabs, aside, p, f, procs', tabs', pid, qid);
    }
    forall qid: nat, h: nat | qid != pid
      ensures Owner(p, procs', tabs', qid, h) <==> Owner(p0, procs, tabs, qid, h)
    {
    }
    OwnInUse(p, f, procs', tabs', pid);
    StillOwned(p0, f0, procs, tabs, aside, p, f, procs', tabs', pid);
  }

  lemma OwnInUse(p: Pages, f: seq<nat>, procs: Procs, tabs: Tabs, pid: nat)
    requires pid in procs && pid in tabs ==> SpaceOk(p, f, procs[pid], tabs[pid])
    ensures forall h: nat | Owner(p, procs, tabs, pid, h) :: h in p && h !in f
  {
    hide SpaceOk, OwnedBy;
    forall h: nat | Owner(p, procs, tabs, pid, h)
      ensures h in p && h !in f
    {
      OwnedInUse(p, f, procs[pid], tabs[pid], h);
    }
  }

  lemma StillOwned(p0: Pages, f0: seq<nat>, procs: Procs, tabs: Tabs, aside: set<nat>, p: Pages, f: seq<nat>, procs': Procs, tabs': Tabs, pid: nat)
    requires Partition(p0, f0, procs, tabs, aside) && Moved(p0, f0, procs, tabs, p, f, procs', tabs', pid)
    requires forall h: nat | Owner(p, procs', tabs', pid, h) :: h in p && h !in f
    requires forall qid: nat, h: nat | qid != pid :: Owner(p, procs', tabs', qid, h) <==> Owner(p0, procs, tabs, qid, h)
    ensures Partition(p, f, procs', tabs', aside)
  {
    hide Owner;
    forall h: nat | h in p
      ensures h in f || h in aside || exists qid: nat :: Owner(p, procs', tabs', qid, h)
    {
      assert h in p0;
      if h !in f0 && h !in aside {
        var qid: nat :| Owner(p0, procs, tabs, qid, h);
        assert qid != pid ==> Owner(p, procs', tabs', qid, h);
      }
    }
  }
}
