/** The physical page allocator of riscv-os/kernel/mm/kalloc.c: a free list
    threaded through the free pages themselves, and a bitmap with one bit per
    page that is set while the page is in use. Pages are named by their number. */
module PageAlloc {
  import opened Common
  const ENTRIES: nat := 512   // 64-bit words in a page

  /** A page as its 512 words. */
  type Page = p: seq<nat> | |p| == ENTRIES witness seq(ENTRIES, _ => 0)
  type Pages = map<nat, Page>

  function Filled(w: nat): Page { seq(ENTRIES, _ => w) }

  /** memset(pa, 1, PGSIZE) and memset(pa, 5, PGSIZE), as words. */
  const JUNK_FREED: nat := 0x0101_0101_0101_0101
  const JUNK_NEW: nat := 0x0505_0505_0505_0505

  /** The list that starts at page `head` and follows the first word of each
      page, 0 being null, is `list`. */
  ghost predicate Chain(pages: Pages, head: nat, list: seq<nat>)
    decreases |list|
  {
    if list == [] then head == 0
    else head == list[0] && head != 0 && head in pages && Chain(pages, pages[head][0], list[1..])
  }

  lemma {:induction false} ChainFrame(pages: Pages, pages': Pages, head: nat, list: seq<nat>)
    requires Chain(pages, head, list)
    requires forall f | f in list :: f in pages && f in pages' && pages'[f][0] == pages[f][0]
    ensures Chain(pages', head, list)
    decreases |list|
  {
    if list != [] {
      assert list[0] in list;
      assert forall f | f in list[1..] :: f in list;
      ChainFrame(pages, pages', pages[head][0], list[1..]);
    }
  }

  /** The bitmap and the free list agree, page by page. */
  ghost predicate Agree(base: nat, top: nat, bits: seq<bool>, free: seq<nat>) {
    && |bits| >= top - base
    && NoDup(free)
    && (forall f | f in free :: base <= f < top)
    && (forall f | base <= f < top :: bits[f - base] <==> f !in free)
  }

  class Kmem {
    const base: nat      // addr_base
    const top: nat       // pages from here on end beyond PHYSTOP
    var pages: Pages     // contents of the managed pages
    var bits: seq<bool>  // kmem.bitmap
    var head: nat        // kmem.freelist
    ghost var free: seq<nat>

    ghost predicate Valid()
      reads this
    {
      && 0 < base <= top
      && (forall f :: f in pages <==> base <= f < top)
      && Chain(pages, head, free)
      && Agree(base, top, bits, free)
    }

    /** freerange over the bytes from page `first` up to byte `end`: the first
        pages hold the bitmap, every whole page after them becomes free. */
    constructor (first: nat, end: nat, contents: Pages)
      requires 0 < first && first * PGSIZE <= end
      requires forall f :: f in contents <==> first <= f < end / PGSIZE
      ensures Valid()
      ensures base == first && top == end / PGSIZE
      ensures forall f :: f in free <==> first + BitmapPages(first, end) <= f < top
    {
      base := first;
      top := end / PGSIZE;
      pages := contents;
      head := 0;
      free := [];
      bits := seq(8 * PGSIZE * BitmapPages(first, end), _ => true);
      new;
      EnoughBits(first, end);
      var p := first + BitmapPages(first, end);
      while (p + 1) * PGSIZE <= end
        invariant first <= p
        invariant Valid()
        invariant forall f :: f in free <==> first + BitmapPages(first, end) <= f < p && f < top
        decreases top - p
      {
        var ok := Free(p);
        p := p + 1;
      }
    }

    /** kfree of the page with number f; false stands for its panics: a page that
        is not managed, or one that is free already. */
    method Free(f: nat) returns (ok: bool)
      requires Valid()
      modifies this
      ensures Valid()
      ensures ok <==> base <= f < top && f !in old(free)
      ensures free == if ok then [f] + old(free) else old(free)
      ensures forall g | g in pages && g != f :: g in old(pages) && pages[g] == old(pages)[g]
    {
      if f < base || f >= top { return false; }
      if !bits[f - base] { return false; }
      bits := bits[f - base := false];
      ghost var before := pages;
      pages := pages[f := Filled(JUNK_FREED)[0 := head]];
      ChainFrame(before, pages, head, free);
      head := f;
      free := [f] + free;
      assert free[1..] == old(free);
      return true;
    }

    /** A store to a page that is in use. */
    method Store(f: nat, page: Page)
      requires Valid() && f in pages && f !in free
      modifies this`pages
      ensures Valid()
      ensures pages == old(pages)[f := page]
    {
      ghost var before := pages;
      pages := pages[f := page];
      ChainFrame(before, pages, head, free);
    }

    /** kalloc with the test for null first: the page from the front of the list,
        or none when the list is empty. */
    method Alloc() returns (f: nat)
      requires Valid()
      modifies this
      ensures Valid()
      ensures f == 0 <==> old(free) == []
      ensures f == 0 ==> free == old(free) && pages == old(pages) && bits == old(bits)
      ensures f != 0 ==> old(free) == [f] + free && f in pages && f !in free && pages == old(pages)[f := Filled(JUNK_NEW)]
    {
      f := head;
      if f != 0 {
        head := pages[f][0];
        bits := bits[f - base := true];
        ghost var before := pages;
        pages := pages[f := Filled(JUNK_NEW)];
        free := free[1..];
        assert old(free) == [f] + free;
        assert forall g :: g in old(free) <==> g == f || g in free;
        assert f !in free;
        ChainFrame(before, pages, head, free);
      }
    }

    /** kalloc as it stands: it sets the bit of the page before it looks for null. The
        byte it changes lies in the bitmap if and only if the list is not empty; then
        it does what Alloc does. */
    method AllocShown() returns (f: nat, byte: int)
      requires Valid() && 8 <= base && top * PGSIZE < 0x1_0000_0000
      modifies this
      ensures Valid()
      ensures 0 <= 8 * byte < |old(bits)| <==> old(free) != []
      ensures f == 0 <==> old(free) == []
      ensures f == 0 ==> byte < 0 && free == old(free) && pages == old(pages) && bits == old(bits)
      ensures f != 0 ==> old(free) == [f] + free && f in pages && f !in free && pages == old(pages)[f := Filled(JUNK_NEW)]
    {
      f := head;
      assert f != 0 ==> f == free[0] && f in free;
      if f == 0 { IndexOfNull(base); } else { IndexOfPage(base, f); }
      var i := PageIndex(base, f);
      byte := ByteIndex(i);
      f := Alloc();
    }
  }

  /** kalloc followed by memset(page, 0, PGSIZE). */
  method AllocCleared(k: Kmem) returns (f: nat)
    requires k.Valid()
    modifies k
    ensures k.Valid()
    ensures f == 0 <==> old(k.free) == []
    ensures f == 0 ==> k.free == old(k.free) && k.pages == old(k.pages)
    ensures f != 0 ==> old(k.free) == [f] + k.free && f in k.pages && f !in k.free && k.pages == old(k.pages)[f := Filled(0)]
  {
    f := k.Alloc();
    if f != 0 { k.Store(f, Filled(0)); }
  }

  /** Pages that freerange gives to the bitmap. */
  function BitmapPages(first: nat, end: nat): nat
    requires first * PGSIZE <= end
  {
    var cnt := (end - first * PGSIZE + PGSIZE - 1) / PGSIZE;
    (cnt + 8 * PGSIZE - 1) / (8 * PGSIZE)
  }

  lemma EnoughBits(first: nat, end: nat)
    requires first * PGSIZE <= end
    ensures end / PGSIZE >= first
    ensures 8 * PGSIZE * BitmapPages(first, end) >= end / PGSIZE - first
  {
  }

  /** PAGE_INDEX of page f: a difference of addresses in 64 bits, kept in a 32-bit int. */
  function PageIndex(base: nat, f: nat): int
    requires base * PGSIZE < 0x1_0000_0000 && f * PGSIZE < 0x1_0000_0000
  {
    var wide := (0x1_0000_0000_0000_0000 + f * PGSIZE - base * PGSIZE) % 0x1_0000_0000_0000_0000 / PGSIZE;
    var low: int := wide % 0x1_0000_0000;
    if low >= 0x8000_0000 then low - 0x1_0000_0000 else low
  }

  /** The byte of the bitmap that holds bit i: C division, towards zero. */
  function ByteIndex(i: int): int { if i >= 0 then i / 8 else -(-i / 8) }

  lemma IndexOfPage(base: nat, f: nat)
    requires base <= f && f * PGSIZE < 0x1_0000_0000
    ensures PageIndex(base, f) == f - base
  {
  }

  lemma IndexOfNull(base: nat)
    requires 0 < base && base * PGSIZE < 0x1_0000_0000
    ensures PageIndex(base, 0) == 0 - base
  {
  }
}
