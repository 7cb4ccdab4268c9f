/** Reading user memory: uVA2PA, vmfault and copyin of riscv-os/kernel/mm/vm.c and
    copyinstr of riscv-os/kernel/proc/proc.c, against the bytes that the flat map
    denotes. Pages below the process's size that are not mapped yet read as zero. */
module VmUser {
  import opened Common
  import opened PageAlloc
  import opened PageTable
  import opened Vm
  import opened VmSpace
  import opened VmBuild

  function Pow256(k: nat): (r: nat)
    ensures r > 0
  {
    if k == 0 then 1 else 256 * Pow256(k - 1)
  }

  /** Byte `off` of a page of little-endian words. */
  function ByteOf(page: Page, off: nat): nat
    requires off < PGSIZE
  {
    (page[off / 8] / Pow256(off % 8)) % 256
  }

  /** Dividing by 256 once more. */
  lemma DivNext(w: nat, k: nat)
    ensures w / Pow256(k + 1) == w / Pow256(k) / 256
  {
    DivDiv(w, Pow256(k));
  }

  lemma DivDiv(w: nat, p: nat)
    requires p > 0
    ensures w / (256 * p) == w / p / 256
  {
    var q := w / p;
    var a := q / 256;
    assert q * p <= w < (q + 1) * p;
    assert 256 * a <= q && q + 1 <= 256 * (a + 1);
    Between(w, p, q, a);
  }

  lemma Between(w: nat, p: nat, q: nat, a: nat)
    requires p > 0 && q * p <= w < (q + 1) * p && 256 * a <= q && q + 1 <= 256 * (a + 1)
    ensures w / (256 * p) == a
  {
    Times(256 * a, q, p);
    Times(q + 1, 256 * (a + 1), p);
    Regroup(a, p);
    Regroup(a + 1, p);
    Quotient(w, 256 * p, a);
  }

  lemma Regroup(a: nat, p: nat)
    ensures a * (256 * p) == 256 * a * p
  {
  }

  lemma Times(x: nat, y: nat, m: nat)
    requires x <= y
    ensures x * m <= y * m
  {
  }

  lemma Quotient(w: nat, m: nat, a: nat)
    requires m > 0 && a * m <= w < (a + 1) * m
    ensures w / m == a
  {
    var q := w / m;
    assert q * m <= w < (q + 1) * m;
    if q < a { Times(q + 1, a, m); }
    if a < q { Times(a + 1, q, m); }
  }

  /** Eight bytes of a page, the lowest first, make up one of its words. */
  lemma WordOfBytes(page: Page, j: nat, k: nat)
    requires j < ENTRIES && k < 8
    ensures 8 * j + k < PGSIZE && page[j] / Pow256(k) == ByteOf(page, 8 * j + k) + 256 * (page[j] / Pow256(k + 1))
    ensures page[j] / Pow256(0) == page[j]
  {
    DivNext(page[j], k);
    assert (8 * j + k) / 8 == j && (8 * j + k) % 8 == k;
  }

  /** Frames that user code can reach are in use and are no tables. */
  ghost predicate UserFrames(p: Pages, f: seq<nat>, t: Tab) {
    forall v: nat | Flat(p, t, v).Some? && U(Flat(p, t, v).value) ::
      var g := Frame(Flat(p, t, v).value); g in p && g !in f && g !in Frames(t)
  }

  /** What a process of sz bytes finds on its page v. */
  function PageView(p: Pages, t: Tab, sz: nat, v: nat): Option<Page> {
    match Flat(p, t, v)
    case Some(pte) => if v < VPNS && U(pte) && Frame(pte) in p then Some(p[Frame(pte)]) else None
    case None => if v < VPNS && v * PGSIZE < sz then Some(Filled(0)) else None
  }

  ghost predicate SameView(p: Pages, t: Tab, p': Pages, t': Tab, sz: nat) {
    forall v: nat :: PageView(p', t', sz, v) == PageView(p, t, sz, v)
  }

  /** Byte va of user memory. */
  function View(p: Pages, t: Tab, sz: nat, va: nat): Option<nat> {
    match PageView(p, t, sz, va / PGSIZE)
    case Some(page) => Some(ByteOf(page, va % PGSIZE))
    case None => None
  }

  lemma ManagedNotNull(k: Kmem, g: nat)
    requires k.Valid() && g in k.pages
    ensures g != 0
  {
  }

  lemma UserFrameOf(p: Pages, f: seq<nat>, t: Tab, v: nat)
    requires UserFrames(p, f, t) && Flat(p, t, v).Some? && U(Flat(p, t, v).value)
    ensures Frame(Flat(p, t, v).value) in p
  {
  }

  /** uVA2PA of page v: its frame, or 0 unless it is mapped for the user. */
  method Va2Pa(k: Kmem, root: nat, v: nat, ghost t: Tab) returns (g: nat)
    requires TreeOk(k, t) && t.root == root && UserFrames(k.pages, k.free, t)
    modifies k
    ensures TreeOk(k, t) && k.pages == old(k.pages) && k.free == old(k.free)
    ensures g != 0 <==> v < VPNS && Flat(k.pages, t, v).Some? && U(Flat(k.pages, t, v).value)
    ensures g != 0 ==> g == Frame(Flat(k.pages, t, v).value) && g in k.pages
  {
    hide TabOk, InUse, Chain, Agree, UserFrames, Flat, U, Frame;
    if v >= VPNS { return 0; }
    ghost var t': Tab;
    var table: Option<nat>;
    table, t' := Walk(k, root, v, false, t);
    if table.None? {
      NoTable(k.pages, t, v);
      return 0;
    }
    EntryOf(k.pages, t, v, table.value);
    var pte := k.pages[table.value][I0(v)];
    if !V(pte) { return 0; }
    if !U(pte) { return 0; }
    UserFrameOf(k.pages, k.free, t, v);
    ManagedNotNull(k, Frame(pte));
    return Frame(pte);
  }

  lemma FaultPte(g: nat)
    ensures Frame(Pte(g, WithV(22))) == g && U(Pte(g, WithV(22)))
  {
    hide Pte, Frame, U;
    PteFields(g, 23);
  }

  /** Supplying a cleared page where the process may have one cannot be seen. */
  lemma FaultUnseen(p0: Pages, f0: seq<nat>, t0: Tab, p: Pages, f: seq<nat>, t: Tab, sz: nat, v: nat, g: nat)
    requires UserFrames(p0, f0, t0) && Took(p0, f0, t0, p, f, t, g) && Put(p0, t0, p, t, v, g, 22, Filled(0))
    requires v < VPNS && v * PGSIZE < sz && Flat(p0, t0, v) == None
    ensures SameView(p0, t0, p, t, sz) && UserFrames(p, f, t)
  {
    hide Flat, Pte, Frame, U, WithV, Filled;
    FaultPte(g);
    forall w: nat
      ensures PageView(p, t, sz, w) == PageView(p0, t0, sz, w)
    {
      if w != v { assert Flat(p, t, w) == Flat(p0, t0, w); }
    }
  }

  lemma NothingUnseen(p0: Pages, f0: seq<nat>, t0: Tab, p: Pages, f: seq<nat>, t: Tab, sz: nat)
    requires UserFrames(p0, f0, t0) && TookNothing(p0, f0, t0, p, f, t) && p.Keys == p0.Keys
    ensures SameView(p0, t0, p, t, sz) && UserFrames(p, f, t)
  {
    hide Flat;
    forall w: nat
      ensures PageView(p, t, sz, w) == PageView(p0, t0, sz, w)
    {
      assert Flat(p, t, w) == Flat(p0, t0, w);
    }
  }

  /** vmfault on page v: a cleared page for an unmapped page below sz, and 0 for any
      other page or without memory. The process sees no change. */
  method VmFault(k: Kmem, root: nat, v: nat, sz: nat, ghost t: Tab) returns (g: nat, ghost t': Tab)
    requires TreeOk(k, t) && t.root == root && sz <= VPNS * PGSIZE && UserFrames(k.pages, k.free, t)
    modifies k
    ensures TreeOk(k, t') && t'.root == root && UserFrames(k.pages, k.free, t')
    ensures SameView(old(k.pages), t, k.pages, t', sz)
    ensures g != 0 ==> g in k.pages && PageView(k.pages, t', sz, v) == Some(k.pages[g])
    ensures g == 0 ==> v * PGSIZE >= sz || Flat(old(k.pages), t, v).Some? || |old(k.free)| < 3
    ensures g != 0 ==> v * PGSIZE < sz && Flat(old(k.pages), t, v) == None && Took(old(k.pages), old(k.free), t, k.pages, k.free, t', g)
                       && Put(old(k.pages), t, k.pages, t', v, g, 22, Filled(0))
    ensures g == 0 ==> TookNothing(old(k.pages), old(k.free), t, k.pages, k.free, t')
    ensures |old(k.free)| <= |k.free| + 3
  {
    hide TabOk, InUse, Chain, Agree, UserFrames, Flat, SameView, PageView, Took, TookNothing, Put, Filled;
    ghost var p0, f0 := k.pages, k.free;
    SameViewRefl(p0, t, sz);
    NothingTaken(p0, f0, t);
    if v * PGSIZE >= sz { return 0, t; }
    var table: Option<nat>;
    table, t' := Walk(k, root, v, false, t);
    if table.Some? {
      EntryOf(k.pages, t, v, table.value);
      if V(k.pages[table.value][I0(v)]) { return 0, t; }
    } else {
      NoTable(k.pages, t, v);
    }
    g, t' := PutPage(k, root, v, Filled(0), 22, t);
    if g == 0 {
      NothingUnseen(p0, f0, t, k.pages, k.free, t', sz);
      TookRoot(p0, f0, t, k.pages, k.free, t');
    } else {
      FaultUnseen(p0, f0, t, k.pages, k.free, t', sz, v, g);
      Supplied(p0, f0, t, k.pages, k.free, t', sz, v, g);
    }
  }

  lemma SameViewRefl(p: Pages, t: Tab, sz: nat)
    ensures SameView(p, t, p, t, sz)
  {
  }

  lemma TookRoot(p0: Pages, f0: seq<nat>, t0: Tab, p: Pages, f: seq<nat>, t: Tab)
    requires TookNothing(p0, f0, t0, p, f, t)
    ensures t.root == t0.root
  {
  }

  lemma Supplied(p0: Pages, f0: seq<nat>, t0: Tab, p: Pages, f: seq<nat>, t: Tab, sz: nat, v: nat, g: nat)
    requires Took(p0, f0, t0, p, f, t, g) && Put(p0, t0, p, t, v, g, 22, Filled(0)) && v < VPNS
    ensures t.root == t0.root && g in p && PageView(p, t, sz, v) == Some(p[g])
  {
    hide Flat, Pte, Frame, U, WithV, Filled;
    FaultPte(g);
  }

  // ---- copyin ----

  /** The user's page v with copyin's and vmfault's help; 0 when there is none. */
  method UserPage(k: Kmem, root: nat, v: nat, sz: nat, ghost t: Tab) returns (g: nat, ghost t': Tab)
    requires TreeOk(k, t) && t.root == root && sz <= VPNS * PGSIZE && UserFrames(k.pages, k.free, t)
    modifies k
    ensures TreeOk(k, t') && t'.root == root && UserFrames(k.pages, k.free, t')
    ensures SameView(old(k.pages), t, k.pages, t', sz)
    ensures g != 0 ==> g in k.pages && PageView(old(k.pages), t, sz, v) == Some(k.pages[g])
    ensures g == 0 ==> PageView(old(k.pages), t, sz, v) == None || |old(k.free)| < 3
    ensures |old(k.free)| <= |k.free| + 3
  {
    hide TabOk, InUse, Chain, Agree, UserFrames, Flat, SameView, U, Frame, Filled;
    t' := t;
    SameViewRefl(k.pages, t, sz);
    g := Va2Pa(k, root, v, t);
    if g == 0 {
      g, t' := VmFault(k, root, v, sz, t);
      SameViewAt(old(k.pages), t, k.pages, t', sz, v);
    }
  }

  lemma SameViewAt(p: Pages, t: Tab, p': Pages, t': Tab, sz: nat, v: nat)
    requires SameView(p, t, p', t', sz)
    ensures PageView(p', t', sz, v) == PageView(p, t, sz, v)
  {
  }

  lemma SameViewTrans(p0: Pages, t0: Tab, p1: Pages, t1: Tab, p2: Pages, t2: Tab, sz: nat)
    requires SameView(p0, t0, p1, t1, sz) && SameView(p1, t1, p2, t2, sz)
    ensures SameView(p0, t0, p2, t2, sz)
  {
  }

  /** dst holds the bytes of user memory from va on. */
  ghost predicate Reads(p: Pages, t: Tab, sz: nat, va: nat, dst: seq<nat>) {
    forall j | 0 <= j < |dst| :: View(p, t, sz, va + j) == Some(dst[j])
  }

  /** memmove of n bytes from offset off of a page. */
  function BytesOf(page: Page, off: nat, n: nat): (r: seq<nat>)
    requires off + n <= PGSIZE
    ensures |r| == n
  {
    seq<nat>(n, j requires 0 <= j < n => ByteOf(page, off + j))
  }

  lemma ReadsMore(p: Pages, t: Tab, sz: nat, va: nat, dst: seq<nat>, at: nat, n: nat, page: Page)
    requires Reads(p, t, sz, va, dst) && at == va + |dst|
    requires PageView(p, t, sz, at / PGSIZE) == Some(page) && at % PGSIZE + n <= PGSIZE
    ensures Reads(p, t, sz, va, dst + BytesOf(page, at % PGSIZE, n))
  {
    hide PageView, ByteOf;
    var dst' := dst + BytesOf(page, at % PGSIZE, n);
    forall j | 0 <= j < |dst'|
      ensures View(p, t, sz, va + j) == Some(dst'[j])
    {
      if j >= |dst| {
        var x := va + j;
        SamePage(at, x, n);
      }
    }
  }

  lemma SamePage(at: nat, x: nat, n: nat)
    requires at <= x < at + n && at % PGSIZE + n <= PGSIZE
    ensures x / PGSIZE == at / PGSIZE && x % PGSIZE == at % PGSIZE + (x - at)
  {
  }

  /** Pages that the bytes va .. va+len touch. */
  function Span(va: nat, len: nat): nat
    requires len > 0
  {
    (va + len - 1) / PGSIZE - va / PGSIZE + 1
  }

  /** copyin of len bytes from srcva. It returns exactly the bytes that the process
      itself would read, faulting pages in on the way, which the process cannot
      see. It fails only where the process may not read, or without memory. */
  method Copyin(k: Kmem, root: nat, srcva: nat, len: nat, sz: nat, ghost t: Tab) returns (ok: bool, dst: seq<nat>, ghost t': Tab)
    requires TreeOk(k, t) && t.root == root && sz <= VPNS * PGSIZE && UserFrames(k.pages, k.free, t)
    modifies k
    ensures TreeOk(k, t') && UserFrames(k.pages, k.free, t')
    ensures SameView(old(k.pages), t, k.pages, t', sz)
    ensures Reads(old(k.pages), t, sz, srcva, dst) && |dst| <= len && (ok <==> |dst| == len)
    ensures !ok ==> View(old(k.pages), t, sz, srcva + |dst|) == None || |old(k.free)| < 3 * Span(srcva, len)
  {
    hide TreeOk, UserFrames, SameView, Reads, PageView, ByteOf, BytesOf;
    ghost var p0, f0 := k.pages, k.free;
    t', dst := t, [];
    SameViewRefl(p0, t, sz);
    ReadsNone(p0, t, sz, srcva);
    var at, left := srcva, len;
    ghost var turns := 0;
    while left > 0
      invariant at == srcva + |dst| && left == len - |dst| && |dst| <= len
      invariant TreeOk(k, t') && t'.root == root && UserFrames(k.pages, k.free, t')
      invariant SameView(p0, t, k.pages, t', sz)
      invariant Reads(p0, t, sz, srcva, dst)
      invariant |f0| <= |k.free| + 3 * turns
      invariant left > 0 ==> at / PGSIZE == srcva / PGSIZE + turns
    {
      ghost var p1, t1 := k.pages, t';
      var g: nat;
      SameViewAt(p0, t, p1, t1, sz, at / PGSIZE);
      g, t' := UserPage(k, root, at / PGSIZE, sz, t');
      SameViewTrans(p0, t, p1, t1, k.pages, t', sz);
      if g == 0 {
        SpanAt(srcva, len, at, turns);
        return false, dst, t';
      }
      var n := PGSIZE - at % PGSIZE;
      if n > left { n := left; }
      ReadsMore(p0, t, sz, srcva, dst, at, n, k.pages[g]);
      NextPage(at, n);
      dst := dst + BytesOf(k.pages[g], at % PGSIZE, n);
      left, at, turns := left - n, at + n, turns + 1;
    }
    ok := true;
  }

  lemma ReadsNone(p: Pages, t: Tab, sz: nat, va: nat)
    ensures Reads(p, t, sz, va, [])
  {
  }

  lemma NextPage(at: nat, n: nat)
    ensures n == PGSIZE - at % PGSIZE ==> (at + n) / PGSIZE == at / PGSIZE + 1
  {
  }

  lemma SpanAt(va: nat, len: nat, at: nat, turns: nat)
    requires va <= at < va + len && at / PGSIZE == va / PGSIZE + turns
    ensures turns + 1 <= Span(va, len)
  {
  }

  // ---- copyinstr ----

  /** The string at va, with its terminator: the mapped user bytes up to and with
      the first zero, if that is among the first max. */
  ghost function StrAt(p: Pages, t: Tab, va: nat, max: nat): Option<seq<nat>>
    decreases max
  {
    if max == 0 then None
    else match View(p, t, 0, va)
      case None => None
      case Some(c) => if c == 0 then Some([0]) else After([c], StrAt(p, t, va + 1, max - 1))
  }

  /** Byte j of the mapped user memory at va. */
  ghost function Nth(p: Pages, t: Tab, va: nat, j: nat): Option<nat> { View(p, t, 0, va + j) }

  /** n bytes other than zero stand at va, and a zero after them. */
  ghost predicate EndsAfter(p: Pages, t: Tab, va: nat, n: nat) {
    && (forall j: nat | j < n :: Nth(p, t, va, j).Some? && Nth(p, t, va, j).value != 0)
    && Nth(p, t, va, n) == Some(0)
  }

  /** What copyinstr returns are mapped user bytes up to and with the first zero. */
  lemma {:induction false} StrMeans(p: Pages, t: Tab, va: nat, max: nat)
    requires StrAt(p, t, va, max).Some?
    ensures var s := StrAt(p, t, va, max).value;
            && 0 < |s| <= max && EndsAfter(p, t, va, |s| - 1)
            && forall j: nat | j < |s| :: Nth(p, t, va, j) == Some(s[j])
    decreases max
  {
    hide View;
    assert Nth(p, t, va, 0) == View(p, t, 0, va);
    if View(p, t, 0, va).value != 0 {
      StrMeans(p, t, va + 1, max - 1);
      var s, r := StrAt(p, t, va, max).value, StrAt(p, t, va + 1, max - 1).value;
      assert EndsAfter(p, t, va + 1, |r| - 1);
      forall j: nat | j < |s|
        ensures Nth(p, t, va, j) == Some(s[j]) && (j < |s| - 1 <==> s[j] != 0)
      {
        if j > 0 { assert Nth(p, t, va + 1, j - 1) == Nth(p, t, va, j); }
      }
    }
  }

  /** It returns a string whenever such a zero stands within the limit. */
  lemma {:induction false} StrFound(p: Pages, t: Tab, va: nat, max: nat, n: nat)
    requires EndsAfter(p, t, va, n) && n < max
    ensures StrAt(p, t, va, max).Some? && |StrAt(p, t, va, max).value| == n + 1
    decreases max
  {
    hide View;
    assert Nth(p, t, va, 0) == View(p, t, 0, va);
    if n > 0 {
      var next := va + 1;
      forall j: nat | j < n
        ensures Nth(p, t, next, j).Some? && (j < n - 1 <==> Nth(p, t, next, j).value != 0)
      {
        assert Nth(p, t, next, j) == Nth(p, t, va, j + 1);
      }
      StrFound(p, t, next, max - 1, n - 1);
    }
  }

  ghost function After(head: seq<nat>, tail: Option<seq<nat>>): Option<seq<nat>> {
    match tail
    case None => None
    case Some(s) => Some(head + s)
  }

  lemma {:induction false} StrSkip(p: Pages, t: Tab, va: nat, max: nat, bytes: seq<nat>)
    requires Reads(p, t, 0, va, bytes) && 0 !in bytes && |bytes| <= max
    ensures StrAt(p, t, va, max) == After(bytes, StrAt(p, t, va + |bytes|, max - |bytes|))
    decreases |bytes|
  {
    hide View;
    if bytes != [] {
      var rest := bytes[1..];
      assert View(p, t, 0, va + 0) == Some(bytes[0]);
      assert forall j | 0 <= j < |rest| :: rest[j] == bytes[j + 1];
      assert Reads(p, t, 0, va + 1, rest) by {
        forall j | 0 <= j < |rest|
          ensures View(p, t, 0, va + 1 + j) == Some(rest[j])
        {
          assert View(p, t, 0, va + (j + 1)) == Some(bytes[j + 1]);
        }
      }
      StrSkip(p, t, va + 1, max - 1, rest);
      AfterAfter([bytes[0]], rest, StrAt(p, t, va + |bytes|, max - |bytes|));
      assert [bytes[0]] + rest == bytes;
    } else {
      AfterNothing(StrAt(p, t, va, max));
    }
  }

  lemma AfterAfter(a: seq<nat>, b: seq<nat>, o: Option<seq<nat>>)
    ensures After(a, After(b, o)) == After(a + b, o)
  {
    if o.Some? { assert a + (b + o.value) == (a + b) + o.value; }
  }

  /** copyinstr's inner loop: bytes of one page up to a zero, or n of them. */
  method ScanPage(page: Page, off: nat, n: nat) returns (bytes: seq<nat>, gotNull: bool)
    requires off + n <= PGSIZE
    ensures |bytes| <= n && bytes == BytesOf(page, off, |bytes|) && 0 !in bytes
    ensures if gotNull then |bytes| < n && ByteOf(page, off + |bytes|) == 0 else |bytes| == n
  {
    hide ByteOf;
    bytes, gotNull := [], false;
    while |bytes| < n
      invariant |bytes| <= n && bytes == BytesOf(page, off, |bytes|) && 0 !in bytes
    {
      var c := ByteOf(page, off + |bytes|);
      if c == 0 { return bytes, true; }
      bytes := bytes + [c];
    }
  }

  /** copyinstr of at most max bytes returns exactly the string that is there. */
  method Copyinstr(k: Kmem, root: nat, srcva: nat, max: nat, ghost t: Tab) returns (r: Option<seq<nat>>)
    requires TreeOk(k, t) && t.root == root && UserFrames(k.pages, k.free, t)
    modifies k
    ensures TreeOk(k, t) && k.pages == old(k.pages) && k.free == old(k.free)
    ensures r == StrAt(k.pages, t, srcva, max)
  {
    hide TabOk, InUse, Chain, Agree, UserFrames, Flat, U, Frame, ByteOf, BytesOf, After, StrAt;
    ghost var p := k.pages;
    var dst: seq<nat>, at: nat, left: nat := [], srcva, max;
    AfterNothing(StrAt(p, t, srcva, max));
    while left > 0
      invariant TreeOk(k, t) && k.pages == p && k.free == old(k.free)
      invariant StrAt(p, t, srcva, max) == After(dst, StrAt(p, t, at, left))
    {
      var g := Va2Pa(k, root, at / PGSIZE, t);
      if g == 0 {
        NoString(p, t, at, left, dst);
        return None;
      }
      var n := PGSIZE - at % PGSIZE;
      if n > left { n := left; }
      var bytes, gotNull := ScanPage(k.pages[g], at % PGSIZE, n);
      ReadsNone(p, t, 0, at);
      ReadsMore(p, t, 0, at, [], at, |bytes|, p[g]);
      assert [] + bytes == bytes;
      StrSkip(p, t, at, left, bytes);
      AfterAfter(dst, bytes, StrAt(p, t, at + |bytes|, left - |bytes|));
      dst := dst + bytes;
      if gotNull {
        EndsHere(p, t, at, at % PGSIZE, |bytes|, left - |bytes|, p[g], dst);
        return Some(dst + [0]);
      }
      at, left := at + |bytes|, left - |bytes|;
    }
    NoString(p, t, at, left, dst);
    return None;
  }

  lemma AfterNothing(o: Option<seq<nat>>)
    ensures After([], o) == o
  {
    if o.Some? { assert [] + o.value == o.value; }
  }

  lemma NoString(p: Pages, t: Tab, at: nat, left: nat, dst: seq<nat>)
    requires left == 0 || View(p, t, 0, at) == None
    ensures After(dst, StrAt(p, t, at, left)) == None
  {
  }

  lemma EndsHere(p: Pages, t: Tab, at: nat, off: nat, m: nat, left: nat, page: Page, dst: seq<nat>)
    requires off == at % PGSIZE && off + m < PGSIZE && left > 0
    requires PageView(p, t, 0, at / PGSIZE) == Some(page) && ByteOf(page, off + m) == 0
    ensures After(dst, StrAt(p, t, at + m, left)) == Some(dst + [0])
  {
    hide PageView, ByteOf;
    SamePage(at, at + m, m + 1);
  }
}
