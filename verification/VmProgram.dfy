/** The memory that kexec gives a program, page by page: what stands in each page and
    with which flags, which programs are refused, and where the arguments lie. */
module VmProgram {
  import opened Common
  import opened PageAlloc
  import opened PageTable
  import opened Vm
  import opened VmBuild
  import opened VmLife
  import opened VmGrow
  import opened VmExec

  /** Where a segment ends. */
  function End(seg: Segment): nat { seg.vaddr + seg.memsz }

  /** loadseg puts a page of the file at page v. */
  predicate FilePage(seg: Segment, v: nat) {
    seg.vaddr / PGSIZE <= v < seg.vaddr / PGSIZE + PagesOf(seg.filesz)
  }

  /** Segment k is the last of the first i to put a page of its file at page v. */
  predicate LastAt(segs: seq<Segment>, i: nat, v: nat, k: nat) {
    k < i <= |segs| && FilePage(segs[k], v) && forall j | k < j < i :: !FilePage(segs[j], v)
  }

  /** Segment k is the first of the first i to reach page v. */
  predicate FirstTo(segs: seq<Segment>, i: nat, v: nat, k: nat) {
    k < i <= |segs| && v < PagesOf(End(segs[k])) && forall j | 0 <= j < k :: v >= PagesOf(End(segs[j]))
  }

  lemma {:induction false} OverlaidAt(img: Image, v: nat, pages: seq<Page>, i: nat, w: nat)
    requires i <= |pages| && w in img
    ensures w in Overlaid(img, v, pages, i)
    ensures Overlaid(img, v, pages, i)[w] == (if v <= w < v + i then pages[w - v] else img[w].0, img[w].1)
  {
    if i > 0 {
      OverlaidAt(img, v, pages, i - 1, w);
      if v + i - 1 in img { OverlaidAt(img, v, pages, i - 1, v + i - 1); }
      OverlaidKeys(img, v, pages, i - 1);
    }
  }

  lemma EnlargedAt(l: Load, newsz: nat, perm: nat, w: nat)
    requires KeysBelow(l) && w < PagesOf(Enlarged(l, newsz, perm).sz)
    ensures w in Enlarged(l, newsz, perm).img
    ensures Enlarged(l, newsz, perm).img[w] == if w < PagesOf(l.sz) then l.img[w] else (Filled(0), 19 + perm)
  {
    EnlargedKeys(l, newsz, perm);
  }

  /** The size is that of the segment that ends last. */
  lemma {:induction false} LoadedSize(segs: seq<Segment>, i: nat)
    requires i <= |segs| && Loaded(segs, i).Some?
    ensures forall j | 0 <= j < i :: End(segs[j]) <= Loaded(segs, i).value.sz
    ensures i > 0 ==> exists j :: 0 <= j < i && End(segs[j]) == Loaded(segs, i).value.sz
  {
    hide Overlaid, ZeroImage;
    if i > 0 {
      LoadedSize(segs, i - 1);
      var l, l' := Loaded(segs, i - 1).value, Loaded(segs, i).value;
      if i > 1 {
        var j :| 0 <= j < i - 1 && End(segs[j]) == l.sz;
        assert End(segs[j]) == l'.sz || End(segs[i - 1]) == l'.sz;
      } else {
        assert End(segs[0]) == l'.sz;
      }
    }
  }

  /** Segment i - 1 is well formed, and with the earlier ones it makes a space that is not
      empty. */
  ghost predicate Accepted(segs: seq<Segment>, i: nat)
    requires 0 < i <= |segs|
  {
    var seg := segs[i - 1];
    && seg.memsz >= seg.filesz && seg.vaddr + seg.memsz < WORD64 && seg.vaddr % PGSIZE == 0
    && |seg.pages| >= PagesOf(seg.filesz)
    && exists j :: 0 <= j < i && End(segs[j]) > 0
  }

  /** A program is refused if and only if one of its segments is: by its header, because
      readi delivers too little, or because nothing is allocated. */
  lemma {:induction false} LoadedIff(segs: seq<Segment>, i: nat)
    requires i <= |segs|
    ensures Loaded(segs, i).Some? <==> forall j | 0 < j <= i :: Accepted(segs, j)
  {
    if i > 0 {
      LoadedIff(segs, i - 1);
      if Loaded(segs, i - 1).Some? { SegmentIff(segs, i); }
    }
  }

  lemma SegmentIff(segs: seq<Segment>, i: nat)
    requires 0 < i <= |segs| && Loaded(segs, i - 1).Some?
    ensures Loaded(segs, i).Some? <==> Accepted(segs, i)
  {
    hide Overlaid, ZeroImage;
    var l, seg := Loaded(segs, i - 1).value, segs[i - 1];
    LoadedSize(segs, i - 1);
    var sz := Enlarged(l, seg.vaddr + seg.memsz, seg.perm).sz;
    if sz > 0 {
      if l.sz > 0 {
        var j :| 0 <= j < i - 1 && End(segs[j]) == l.sz;
        assert End(segs[j]) > 0;
      } else {
        assert End(segs[i - 1]) > 0;
      }
    }
  }

  /** A page that a file page covers is below the end of its segment. */
  lemma CoveredBelow(segs: seq<Segment>, i: nat, k: nat, v: nat)
    requires k < i <= |segs| && Loaded(segs, i).Some? && FilePage(segs[k], v)
    ensures v < PagesOf(End(segs[k])) <= PagesOf(Loaded(segs, i).value.sz)
  {
    LoadedSize(segs, i);
    LoadedIff(segs, i);
    assert Accepted(segs, k + 1);
    hide Loaded;
    PagesMono(End(segs[k]), Loaded(segs, i).value.sz);
    FileInside(segs[k].vaddr, segs[k].filesz, segs[k].memsz);
  }

  lemma PagesMono(m: nat, n: nat)
    requires m <= n
    ensures PagesOf(m) <= PagesOf(n)
  {
  }

  lemma FileInside(vaddr: nat, filesz: nat, memsz: nat)
    requires filesz <= memsz && vaddr % PGSIZE == 0
    ensures vaddr / PGSIZE + PagesOf(filesz) <= PagesOf(vaddr + memsz)
  {
  }

  /** A page holds the page of the file that the last segment to cover it puts there. */
  lemma {:induction false} LoadedPage(segs: seq<Segment>, i: nat, v: nat, k: nat)
    requires i <= |segs| && Loaded(segs, i).Some? && LastAt(segs, i, v, k)
    ensures v in Loaded(segs, i).value.img && 0 <= v - segs[k].vaddr / PGSIZE < |segs[k].pages|
    ensures Loaded(segs, i).value.img[v].0 == segs[k].pages[v - segs[k].vaddr / PGSIZE]
  {
    CoveredBelow(segs, i, k, v);
    SegmentPage(segs, i, v);
    if k < i - 1 {
      CoveredBelow(segs, i - 1, k, v);
      hide Loaded;
      assert !FilePage(segs[i - 1], v);
      LoadedPage(segs, i - 1, v, k);
    }
  }

  /** A page that no segment's file covers holds zeros. */
  lemma {:induction false} LoadedZero(segs: seq<Segment>, i: nat, v: nat)
    requires i <= |segs| && Loaded(segs, i).Some? && v < PagesOf(Loaded(segs, i).value.sz)
    requires forall k | 0 <= k < i :: !FilePage(segs[k], v)
    ensures v in Loaded(segs, i).value.img && Loaded(segs, i).value.img[v].0 == Filled(0)
  {
    if i > 0 {
      SegmentPage(segs, i, v);
      if v < PagesOf(Loaded(segs, i - 1).value.sz) { LoadedZero(segs, i - 1, v); }
    }
  }

  /** A page may be read by the user, and written or executed as the first segment to
      reach it says. */
  lemma {:induction false} LoadedFlags(segs: seq<Segment>, i: nat, v: nat, k: nat)
    requires i <= |segs| && Loaded(segs, i).Some? && FirstTo(segs, i, v, k)
    ensures v in Loaded(segs, i).value.img && Loaded(segs, i).value.img[v].1 == 19 + segs[k].perm
  {
    LoadedSize(segs, i);
    PagesMono(End(segs[k]), Loaded(segs, i).value.sz);
    SegmentPage(segs, i, v);
    LoadedSize(segs, i - 1);
    if k < i - 1 {
      PagesMono(End(segs[k]), Loaded(segs, i - 1).value.sz);
      LoadedFlags(segs, i - 1, v, k);
    } else {
      NotReached(segs, k, v);
    }
  }

  lemma NotReached(segs: seq<Segment>, k: nat, v: nat)
    requires k <= |segs| && Loaded(segs, k).Some? && forall j | 0 <= j < k :: v >= PagesOf(End(segs[j]))
    ensures v >= PagesOf(Loaded(segs, k).value.sz)
  {
    LoadedSize(segs, k);
    if k > 0 {
      var j :| 0 <= j < k && End(segs[j]) == Loaded(segs, k).value.sz;
      hide Loaded;
      assert v >= PagesOf(End(segs[j]));
    }
  }

  lemma SegmentPage(segs: seq<Segment>, i: nat, v: nat)
    requires 0 < i <= |segs| && Loaded(segs, i).Some? && v < PagesOf(Loaded(segs, i).value.sz)
    ensures Loaded(segs, i - 1).Some? && v in Loaded(segs, i).value.img
    ensures var l, l', seg := Loaded(segs, i - 1).value, Loaded(segs, i).value, segs[i - 1];
            && (FilePage(seg, v) ==>
                  0 <= v - seg.vaddr / PGSIZE < |seg.pages| && l'.img[v].0 == seg.pages[v - seg.vaddr / PGSIZE])
            && (v < PagesOf(l.sz) ==> v in l.img && l'.img[v].1 == l.img[v].1 && (!FilePage(seg, v) ==> l'.img[v].0 == l.img[v].0))
            && (v >= PagesOf(l.sz) ==> l'.img[v].1 == 19 + seg.perm && (!FilePage(seg, v) ==> l'.img[v].0 == Filled(0)))
  {
    hide Overlaid, ZeroImage;
    var l, seg := Loaded(segs, i - 1).value, segs[i - 1];
    LoadedKeys(segs, i - 1);
    EnlargedAt(l, seg.vaddr + seg.memsz, seg.perm, v);
    OverlaidAt(Enlarged(l, seg.vaddr + seg.memsz, seg.perm).img, seg.vaddr / PGSIZE, seg.pages, PagesOf(seg.filesz), v);
  }

  // ---- guard page and stack ----

  /** The memory that the program starts with: the segments, then a page that the user may
      not touch, then the stack, which the user may read and write. */
  lemma StartPage(l: Load, stack: Stack, v: nat)
    requires KeysBelow(l)
    ensures v in StartImage(l, stack) <==> v < PagesOf(l.sz) + 1 + USERSTACK
    ensures v < PagesOf(l.sz) ==> v in l.img && StartImage(l, stack)[v] == l.img[v]
    ensures v == PagesOf(l.sz) ==> StartImage(l, stack)[v] == (Filled(0), 7)
    ensures PagesOf(l.sz) < v <= PagesOf(l.sz) + USERSTACK ==> StartImage(l, stack)[v] == (stack[v - PagesOf(l.sz) - 1], 23)
  {
    hide Overlaid, Enlarged;
    StartKeys(l, stack);
    var n := PagesOf(l.sz);
    RoundUp(n);
    RoundUp(n + 1 + USERSTACK);
    var l1, top := Load(n * PGSIZE, l.img), (n + 1 + USERSTACK) * PGSIZE;
    EnlargedTo(l1, top, PTE_W);
    EnlargedAt(l1, top, PTE_W, n);
    if v < n + 1 + USERSTACK {
      var img := Enlarged(l1, top, PTE_W).img;
      EnlargedAt(l1, top, PTE_W, v);
      OverlaidAt(img[n := (img[n].0, WithoutU(img[n].1))], n + 1, stack, USERSTACK, v);
    }
  }

  // ---- the arguments on the stack ----

  /** Argument j lies at this address, on a multiple of 16, with its terminating zero
      below the one before it, and as high as that allows. */
  predicate PlacedAt(at: int, below: int, len: nat) {
    at % 16 == 0 && at + len + 1 <= below < at + len + 1 + 16
  }

  lemma {:induction false} PushedSome(sp: int, base: int, args: seq<nat>, i: nat, j: nat)
    requires j <= i <= |args| && Pushed(sp, base, args, i).Some?
    ensures Pushed(sp, base, args, j).Some? && Pushed(sp, base, args, i).value <= Pushed(sp, base, args, j).value
    decreases i
  {
    if j < i { PushedSome(sp, base, args, i - 1, j); }
  }

  /** Where the arguments lie when they fit. */
  lemma ArgumentAt(sp: int, base: int, args: seq<nat>, i: nat)
    requires i < |args| && Pushed(sp, base, args, |args|).Some?
    ensures Pushed(sp, base, args, i).Some? && Pushed(sp, base, args, i + 1).Some?
    ensures base <= Pushed(sp, base, args, i + 1).value
    ensures PlacedAt(Pushed(sp, base, args, i + 1).value, Pushed(sp, base, args, i).value, args[i])
  {
    hide Aligned;
    PushedSome(sp, base, args, |args|, i);
    PushedSome(sp, base, args, |args|, i + 1);
    AlignedIs(Pushed(sp, base, args, i).value - (args[i] + 1));
  }

  lemma AlignedIs(sp: int)
    ensures Aligned(sp) % 16 == 0 && Aligned(sp) <= sp < Aligned(sp) + 16
  {
  }

  /** No two arguments share a byte, and all lie between base and sp. */
  lemma ArgumentsApart(sp: int, base: int, args: seq<nat>, i: nat, j: nat)
    requires i < j < |args| && Pushed(sp, base, args, |args|).Some?
    ensures Pushed(sp, base, args, i + 1).Some? && Pushed(sp, base, args, j + 1).Some?
    ensures var a, b := Pushed(sp, base, args, i + 1).value, Pushed(sp, base, args, j + 1).value;
            base <= b && b + args[j] + 1 <= a && a + args[i] + 1 <= sp
  {
    ArgumentAt(sp, base, args, i);
    ArgumentAt(sp, base, args, j);
    PushedSome(sp, base, args, j, i + 1);
    PushedSome(sp, base, args, i, 0);
  }

  /** The pointers to the arguments and the null pointer lie below them, from the new stack
      pointer on, which is a multiple of 16. */
  lemma PointersBelow(sp: int, base: int, args: seq<nat>)
    requires StackPointer(sp, base, args).Some?
    ensures |args| <= MAXARG && Pushed(sp, base, args, |args|).Some?
    ensures var x, y := Pushed(sp, base, args, |args|).value, StackPointer(sp, base, args).value;
            y % 16 == 0 && base <= y && y + (|args| + 1) * 8 <= x < y + (|args| + 1) * 8 + 16
  {
    hide Aligned;
    AlignedIs(Pushed(sp, base, args, |args|).value - (|args| + 1) * 8);
  }

  /** Bytes that the first i arguments take at most. */
  function Need(args: seq<nat>, i: nat): nat
    requires i <= |args|
  {
    if i == 0 then 0 else Need(args, i - 1) + args[i - 1] + 16
  }

  lemma {:induction false} NeedMono(args: seq<nat>, i: nat, j: nat)
    requires i <= j <= |args|
    ensures Need(args, i) <= Need(args, j)
    decreases j
  {
    if i < j { NeedMono(args, i, j - 1); }
  }

  /** Not more than MAXARG arguments for which there is room are never refused. */
  lemma {:induction false} PushedFits(sp: int, base: int, args: seq<nat>, i: nat)
    requires i <= |args| <= MAXARG && Need(args, |args|) <= sp - base
    ensures Pushed(sp, base, args, i).Some? && Pushed(sp, base, args, i).value >= sp - Need(args, i)
  {
    if i > 0 {
      PushedFits(sp, base, args, i - 1);
      NeedMono(args, i, |args|);
    }
  }

  lemma StackFits(sp: int, base: int, args: seq<nat>)
    requires |args| <= MAXARG && Need(args, |args|) + (|args| + 1) * 8 + 15 <= sp - base
    ensures StackPointer(sp, base, args).Some?
  {
    PushedFits(sp, base, args, |args|);
  }
}
