/** The buffer cache of riscv-os/kernel/disk/bio.c as steps of any number of
    accesses. An access is one bread ... brelse; a process that holds two
    buffers is two accesses.

    Every change of refcnt is a load and a store with the steps of others between.
    bcache.lock keeps two locked changes apart, but a cache hit in the shown code
    raises refcnt a second time after the lock has been released, and that load and
    store may overlap a locked one. */
module BufferCache {
  import opened BlockDisk

  type Key = (nat, nat)   // device and block number; device 0 is never used

  /** Which code: a hit raises refcnt once more without the lock (riscv-os/kernel/disk/bio.c)
      or not (docs/chapter4.5.md). At most `crowd` hits on one buffer are ever between
      their first increment and the end of the second. */
  datatype Code = Code(twice: bool, crowd: nat)

  /** Who has a buffer's sleep lock, and where in bget or after it that access is. */
  datatype Holder =
    | Nobody
    | Hit(t: nat)                // lock taken, refcnt not read for the second increment yet
    | Raising(t: nat, seen: int) // refcnt read, seen + 1 not stored yet
    | Has(t: nat)                // bget has returned

  datatype Buf = Buf(
    key: Key,
    valid: bool,
    refcnt: int,
    data: Block,
    holder: Holder,
    waitHit: set<nat>,   // hits waiting for the sleep lock
    waitMiss: set<nat>,  // the miss that recycled the buffer, waiting for it
    leaving: set<nat>,   // lock released by brelse, refcnt not lowered yet
    pins: nat)           // bpin calls without their bunpin
  {
    /** Some access is using, awaiting or leaving the buffer, or the log pins it. */
    predicate InUse() {
      holder != Nobody || waitHit != {} || waitMiss != {} || leaving != {} || pins > 0
    }

    /** How many accesses and pins that is. */
    function Users(): nat {
      One(holder != Nobody) + |waitHit| + |waitMiss| + |leaving| + pins
    }

    /** Users that are neither waiting after a hit nor holding the lock. */
    function Others(): nat { |waitMiss| + |leaving| + pins }

    /** Hits that are not through with their second increment. */
    function Crowd(): nat { |waitHit| + One(holder.Hit? || holder.Raising?) }
  }

  function One(c: bool): nat { if c then 1 else 0 }

  /** What the holder of bcache.lock is doing. */
  datatype Section =
    | Open                                   // nobody holds it
    | Adding(i: nat, seen: int)              // a hit on buffer i has read refcnt
    | Scanning(k: Key, p: nat)               // a miss looks at position p of the list
    | Recycling(i: nat, k: Key)              // ... and has found refcnt 0
    | Pinning(i: nat, seen: int)             // bpin has read refcnt
    | Unpinning(i: nat, seen: int)           // bunpin has
    | Dropping(i: nat, t: nat, seen: int)    // brelse has
  {
    /** The process in the section is the one that has buffer j. */
    predicate Pins(j: nat) { (Pinning? || Unpinning?) && i == j }
  }

  datatype State = State(
    bufs: seq<Buf>,
    order: seq<nat>,          // the bcache list from head.next on
    disk: map<Key, Block>,
    section: Section,
    started: nat)             // accesses are numbered in the order they start

  function Blank(): Block { seq(WORDS, _ => 0) }

  function Read(m: map<Key, Block>, k: Key): Block { if k in m then m[k] else Blank() }

  datatype Event =
    | StartHit(k: Key)         // bget finds the block and reads refcnt
    | AddHit                   // ... and stores it
    | StartMiss(k: Key)        // bget does not find the block
    | Scan                     // the second loop looks at one buffer
    | Recycle                  // ... and takes it
    | Lock(t: nat)             // acquiresleep succeeds
    | Load                     // the unlocked refcnt++ reads
    | Store                    // ... and writes
    | Fill                     // bread reads the block from the disk
    | Modify(d: Block)         // the holder changes the contents
    | Flush                    // bwrite
    | StartPin                 // bpin, from log_write, reads
    | EndPin                   // ... and writes
    | StartUnpin               // bunpin, from install_trans, reads
    | EndUnpin                 // ... and writes
    | Release                  // brelse gives up the sleep lock
    | StartDrop(t: nat)        // ... and reads refcnt
    | EndDrop                  // ... and writes it

  predicate Matches(s: State, i: nat, k: Key) { i < |s.bufs| && s.bufs[i].key == k }
  predicate Unreferenced(s: State, i: nat) { i < |s.bufs| && s.bufs[i].refcnt == 0 }

  /** bget's first loop stops at buffer i. */
  predicate FirstMatch(s: State, k: Key, i: nat) {
    exists p | 0 <= p < |s.order| :: s.order[p] == i && Matches(s, i, k) && NoMatch(s, k, p)
  }

  predicate NoMatch(s: State, k: Key, p: nat)
    requires p <= |s.order|
  {
    forall q | 0 <= q < p :: !Matches(s, s.order[q], k)
  }

  /** bget's second loop stops at buffer i. */
  predicate FirstUnreferenced(s: State, i: nat) {
    exists p | 0 <= p < |s.order| ::
      s.order[p] == i && Unreferenced(s, i) && forall q | 0 <= q < p :: !Unreferenced(s, s.order[q])
  }

  datatype Found = FoundHit(i: nat) | FoundFree(i: nat) | NoBuffers

  /** bget's two loops over the list. */
  method Search(s: State, k: Key) returns (f: Found)
    ensures f.FoundHit? ==> FirstMatch(s, k, f.i)
    ensures !f.FoundHit? ==> NoMatch(s, k, |s.order|)
    ensures f.FoundFree? ==> FirstUnreferenced(s, f.i)
    ensures f.NoBuffers? ==> forall p | 0 <= p < |s.order| :: !Unreferenced(s, s.order[p])
  {
    var p := 0;
    while p < |s.order|
      invariant p <= |s.order| && NoMatch(s, k, p)
    {
      if Matches(s, s.order[p], k) { return FoundHit(s.order[p]); }
      p := p + 1;
    }
    p := 0;
    while p < |s.order|
      invariant p <= |s.order| && forall q | 0 <= q < p :: !Unreferenced(s, s.order[q])
    {
      if Unreferenced(s, s.order[p]) { return FoundFree(s.order[p]); }
      p := p + 1;
    }
    return NoBuffers;
  }

  /** The holder may let go of contents that the disk or a pin will keep. */
  predicate Kept(s: State, b: Buf) { b.data == Read(s.disk, b.key) || b.pins > 0 }

  /** The access that has buffer i goes on with its code. */
  predicate Acts(s: State, i: nat)
    requires i < |s.bufs|
  {
    s.bufs[i].holder.Has? && !s.section.Pins(i)
  }

  /** What bio.c itself lets happen. */
  predicate Ready(c: Code, s: State, i: nat, e: Event) {
    && i < |s.bufs|
    && var b := s.bufs[i];
    match e
    case StartHit(k) => s.section.Open? && k.0 != 0 && FirstMatch(s, k, i) && b.Crowd() < c.crowd
    case AddHit => s.section.Adding? && s.section.i == i
    case StartMiss(k) => s.section.Open? && k.0 != 0 && NoMatch(s, k, |s.order|)
    case Scan => s.section.Scanning? && s.section.p < |s.order| && s.order[s.section.p] == i
    case Recycle => s.section.Recycling? && s.section.i == i
    case Lock(t) => b.holder == Nobody && (t in b.waitHit || t in b.waitMiss)
    case Load => b.holder.Hit?
    case Store => b.holder.Raising?
    case Fill => Acts(s, i) && !b.valid
    case Modify(_) => Acts(s, i) && b.valid
    case Flush => Acts(s, i) && b.valid
    case StartPin => s.section.Open? && Acts(s, i) && b.valid
    case EndPin => s.section.Pinning? && s.section.i == i
    case StartUnpin => s.section.Open? && Acts(s, i) && b.valid
    case EndUnpin => s.section.Unpinning? && s.section.i == i
    case Release => Acts(s, i) && b.valid
    case StartDrop(t) => s.section.Open? && t in b.leaving
    case EndDrop => s.section.Dropping? && s.section.i == i
  }

  /** What the users of the cache owe it: contents are given up only when the disk has
      them or a pin keeps them, and only such contents are unpinned that the disk has. */
  predicate Clean(s: State, i: nat, e: Event) {
    && i < |s.bufs|
    && var b := s.bufs[i];
    match e
    case Release => Kept(s, b)
    case StartUnpin => b.pins > 0 && b.data == Read(s.disk, b.key)
    case _ => true
  }

  predicate Enabled(c: Code, s: State, i: nat, e: Event) { Ready(c, s, i, e) && Clean(s, i, e) }

  function NextBuf(c: Code, s: State, i: nat, e: Event): Buf
    requires Ready(c, s, i, e)
  {
    var b := s.bufs[i];
    match e
    case AddHit => b.(refcnt := s.section.seen + 1, waitHit := b.waitHit + {s.started})
    case Recycle => b.(key := s.section.k, valid := false, refcnt := 1, waitMiss := b.waitMiss + {s.started})
    case Lock(t) =>
      if t in b.waitHit then b.(holder := if c.twice then Hit(t) else Has(t), waitHit := b.waitHit - {t})
      else b.(holder := Has(t), waitMiss := b.waitMiss - {t})
    case Load => b.(holder := Raising(b.holder.t, b.refcnt))
    case Store => b.(holder := Has(b.holder.t), refcnt := b.holder.seen + 1)
    case Fill => b.(data := Read(s.disk, b.key), valid := true)
    case Modify(d) => b.(data := d)
    case EndPin => b.(refcnt := s.section.seen + 1, pins := b.pins + 1)
    case EndUnpin => b.(refcnt := s.section.seen - 1, pins := if b.pins > 0 then b.pins - 1 else 0)
    case Release => b.(holder := Nobody, leaving := b.leaving + {b.holder.t})
    case EndDrop => b.(refcnt := s.section.seen - 1, leaving := b.leaving - {s.section.t})
    case _ => b
  }

  function NextSection(c: Code, s: State, i: nat, e: Event): Section
    requires Ready(c, s, i, e)
  {
    var b := s.bufs[i];
    match e
    case StartHit(_) => Adding(i, b.refcnt)
    case StartMiss(k) => Scanning(k, 0)
    case Scan => if b.refcnt == 0 then Recycling(i, s.section.k) else Scanning(s.section.k, s.section.p + 1)
    case StartPin => Pinning(i, b.refcnt)
    case StartUnpin => Unpinning(i, b.refcnt)
    case StartDrop(t) => Dropping(i, t, b.refcnt)
    case AddHit => Open
    case Recycle => Open
    case EndPin => Open
    case EndUnpin => Open
    case EndDrop => Open
    case _ => s.section
  }

  function ToFront(order: seq<nat>, i: nat): seq<nat> {
    [i] + Without(order, i)
  }

  function Without(order: seq<nat>, i: nat): seq<nat> {
    if order == [] then []
    else if order[0] == i then Without(order[1..], i)
    else [order[0]] + Without(order[1..], i)
  }

  function Next(c: Code, s: State, i: nat, e: Event): State
    requires Ready(c, s, i, e)
  {
    var b := NextBuf(c, s, i, e);
    State(
      s.bufs[i := b],
      if e.EndDrop? && b.refcnt == 0 then ToFront(s.order, i) else s.order,
      if e.Flush? then s.disk[b.key := b.data] else s.disk,
      NextSection(c, s, i, e),
      if e.AddHit? || e.Recycle? then s.started + 1 else s.started)
  }

  // ---- reference counts ----

  /** r is what n users are worth: all of them, and with the racing increment perhaps more. */
  predicate Tally(c: Code, r: int, n: nat) { if c.twice then r >= n else r == n }

  /** An access that has read refcnt for its second increment will store enough for
      itself, for one hit that its store erases, and for all others. */
  predicate Counts(c: Code, b: Buf) {
    && Tally(c, b.refcnt, b.Users())
    && b.Crowd() <= c.crowd
    && (b.holder.Hit? ==> c.twice)
    && (b.holder.Raising? ==> c.twice && b.holder.seen >= b.Others() + 1)
  }

  /** Accesses are numbered apart. */
  predicate Tokens(b: Buf, started: nat) {
    && (forall t | t in b.waitHit :: t < started)
    && (forall t | t in b.waitMiss :: t < started)
    && (forall t | t in b.leaving :: t < started)
    && (b.holder != Nobody ==>
          && b.holder.t < started
          && b.holder.t !in b.waitHit && b.holder.t !in b.waitMiss && b.holder.t !in b.leaving)
    && b.waitHit !! b.waitMiss && b.waitHit !! b.leaving && b.waitMiss !! b.leaving
  }

  /** What the section has read still covers the users there are. */
  predicate SectionCounts(c: Code, s: State) {
    match s.section
    case Adding(i, seen) => i < |s.bufs| && Tally(c, seen, s.bufs[i].Users()) && s.bufs[i].Crowd() < c.crowd && s.bufs[i].key.0 != 0
    case Recycling(i, k) => i < |s.bufs| && s.bufs[i].refcnt == 0
    case Pinning(i, seen) => i < |s.bufs| && Tally(c, seen, s.bufs[i].Users()) && s.bufs[i].holder.Has? && s.bufs[i].valid
    case Unpinning(i, seen) =>
      && i < |s.bufs| && Tally(c, seen, s.bufs[i].Users()) && s.bufs[i].holder.Has? && s.bufs[i].valid
      && s.bufs[i].pins > 0 && s.bufs[i].data == Read(s.disk, s.bufs[i].key) && s.bufs[i].key.0 != 0
    case Dropping(i, t, seen) => i < |s.bufs| && Tally(c, seen, s.bufs[i].Users()) && t in s.bufs[i].leaving
    case _ => true
  }

  /** The exact condition: one increment, or never more than two hits at a time between
      the two. */
  predicate Safe(c: Code) { c.twice ==> c.crowd <= 2 }

  lemma NotInUse(b: Buf)
    ensures b.Users() == 0 <==> !b.InUse()
  {
  }

  /** The store of a locked change. */
  predicate Ends(e: Event) { e.AddHit? || e.Recycle? || e.EndPin? || e.EndUnpin? || e.EndDrop? }

  /** No step outside the section brings buffer i a user, or a hit. */
  lemma UsersBound(c: Code, s: State, i: nat, e: Event)
    requires Ready(c, s, i, e) && Tokens(s.bufs[i], s.started)
    requires !Ends(e)
    ensures NextBuf(c, s, i, e).Users() == s.bufs[i].Users() && NextBuf(c, s, i, e).Crowd() <= s.bufs[i].Crowd()
    ensures NextBuf(c, s, i, e).key == s.bufs[i].key
  {
    hide FirstMatch, NoMatch;
    var b := s.bufs[i];
    match e
    case Lock(t) =>
      if t in b.waitMiss { assert |b.waitMiss - {t}| == |b.waitMiss| - 1; }
      if t in b.waitHit { assert |b.waitHit - {t}| == |b.waitHit| - 1; }
    case Release => assert |b.leaving + {b.holder.t}| == |b.leaving| + 1;
    case _ =>
  }

  lemma EndCounts(c: Code, s: State, i: nat, e: Event)
    requires Ready(c, s, i, e) && Ends(e) && Counts(c, s.bufs[i]) && Tokens(s.bufs[i], s.started) && SectionCounts(c, s)
    ensures Counts(c, NextBuf(c, s, i, e))
  {
    var b := s.bufs[i];
    match e
    case AddHit => assert |b.waitHit + {s.started}| == |b.waitHit| + 1;
    case Recycle =>
      NotInUse(b);
      assert b.waitMiss + {s.started} == {s.started};
    case EndDrop => assert |b.leaving - {s.section.t}| == |b.leaving| - 1;
    case _ =>
  }

  lemma CountsKept(c: Code, s: State, i: nat, e: Event)
    requires Safe(c) && Ready(c, s, i, e) && Counts(c, s.bufs[i]) && Tokens(s.bufs[i], s.started) && SectionCounts(c, s)
    ensures Counts(c, NextBuf(c, s, i, e))
  {
    hide FirstMatch, NoMatch, Tokens, SectionCounts;
    if Ends(e) { EndCounts(c, s, i, e); } else { UsersBound(c, s, i, e); }
  }

  lemma TokensKept(c: Code, s: State, i: nat, e: Event)
    requires Ready(c, s, i, e) && Tokens(s.bufs[i], s.started)
    ensures Tokens(NextBuf(c, s, i, e), Next(c, s, i, e).started)
  {
    hide FirstMatch, NoMatch;
  }

  /** The section is about another buffer than the step. */
  lemma SectionElsewhere(c: Code, s: State, i: nat, e: Event)
    requires Ready(c, s, i, e) && SectionCounts(c, s) && Distinct(s) && NextSection(c, s, i, e) == s.section
    requires !s.section.Open? && !s.section.Scanning? && s.section.i != i
    ensures SectionCounts(c, Next(c, s, i, e))
  {
  }

  lemma SectionHere(c: Code, s: State, i: nat, e: Event)
    requires Ready(c, s, i, e) && SectionCounts(c, s) && NextSection(c, s, i, e) == s.section
    requires !s.section.Open? && !s.section.Scanning? && s.section.i == i
    requires Counts(c, s.bufs[i]) && Tokens(s.bufs[i], s.started)
    ensures SectionCounts(c, Next(c, s, i, e))
  {
    UsersBound(c, s, i, e);
    NotInUse(s.bufs[i]);
  }

  lemma SectionKept(c: Code, s: State, i: nat, e: Event)
    requires Enabled(c, s, i, e) && Good(c, s.bufs[i], s.started) && SectionCounts(c, s) && Distinct(s)
    ensures SectionCounts(c, Next(c, s, i, e))
  {
    hide Distinct, Tokens, FirstMatch, NoMatch;
    if NextSection(c, s, i, e) == s.section && !s.section.Open? && !s.section.Scanning? {
      if s.section.i == i { SectionHere(c, s, i, e); } else { SectionElsewhere(c, s, i, e); }
    } else if e.StartHit? {
      MatchKey(s, e.k, i);
    }
  }

  lemma MatchKey(s: State, k: Key, i: nat)
    requires FirstMatch(s, k, i)
    ensures i < |s.bufs| && s.bufs[i].key == k
  {
  }

  // ---- the list and the blocks cached ----

  /** The list names the buffers, all of them. */
  ghost predicate Ordered(s: State) {
    (forall i: nat | i < |s.bufs| :: i in s.order) && (forall i | i in s.order :: i < |s.bufs|)
  }

  lemma {:induction false} WithoutLess(order: seq<nat>, i: nat, j: nat)
    requires j in Without(order, i)
    ensures j in order
  {
    if order[0] == i || j != order[0] { WithoutLess(order[1..], i, j); }
  }

  lemma {:induction false} WithoutKeeps(order: seq<nat>, i: nat, j: nat)
    requires j in order && j != i
    ensures j in Without(order, i)
  {
    if order[0] != j { WithoutKeeps(order[1..], i, j); }
  }

  lemma OrderedKept(c: Code, s: State, i: nat, e: Event)
    requires Ready(c, s, i, e) && Ordered(s)
    ensures Ordered(Next(c, s, i, e))
  {
    forall j: nat | j < |s.bufs|
      ensures j in Next(c, s, i, e).order
    {
      if j != i { WithoutKeeps(s.order, i, j); }
    }
    forall j | j in Next(c, s, i, e).order
      ensures j < |s.bufs|
    {
      if e.EndDrop? && j in Without(s.order, i) { WithoutLess(s.order, i, j); }
    }
  }

  /** No block is cached in two buffers. */
  ghost predicate Distinct(s: State) {
    forall i, j | 0 <= i < j < |s.bufs| && s.bufs[i].key.0 != 0 :: s.bufs[i].key != s.bufs[j].key
  }

  /** The block that a miss is about is cached nowhere. */
  ghost predicate Absent(s: State) {
    && (s.section.Scanning? || s.section.Recycling? ==>
          s.section.k.0 != 0 && forall j | 0 <= j < |s.bufs| :: s.bufs[j].key != s.section.k)
  }

  lemma AbsentKept(c: Code, s: State, i: nat, e: Event)
    requires Ready(c, s, i, e) && Ordered(s) && Absent(s)
    ensures Absent(Next(c, s, i, e))
  {
    if e.StartMiss? {
      forall j: nat | j < |s.bufs|
        ensures s.bufs[j].key != e.k
      {
        assert j in s.order;
        var q :| 0 <= q < |s.order| && s.order[q] == j;
        assert !Matches(s, s.order[q], e.k);
      }
    }
  }

  lemma DistinctKept(c: Code, s: State, i: nat, e: Event)
    requires Ready(c, s, i, e) && Absent(s) && Distinct(s)
    ensures Distinct(Next(c, s, i, e))
  {
  }

  // ---- contents: the cache refines a plain array of blocks ----

  /** The array of blocks that the cache stands for: only Modify changes it. */
  function NextArray(s: State, arr: map<Key, Block>, i: nat, e: Event): map<Key, Block>
    requires i < |s.bufs|
  {
    if e.Modify? then arr[s.bufs[i].key := e.d] else arr
  }

  ghost predicate CachedAt(s: State, k: Key, i: nat) {
    i < |s.bufs| && s.bufs[i].key == k && s.bufs[i].valid
  }

  ghost predicate Uncached(s: State, k: Key) {
    forall i: nat :: !CachedAt(s, k, i)
  }

  /** Valid buffers hold the array's contents, the disk holds them for all other
      blocks, and a buffer that differs from the disk is held or pinned. */
  ghost predicate Refines(s: State, arr: map<Key, Block>) {
    && (forall k: Key, i: nat | k.0 != 0 && CachedAt(s, k, i) :: s.bufs[i].data == Read(arr, k))
    && (forall k: Key | k.0 != 0 && Uncached(s, k) :: Read(s.disk, k) == Read(arr, k))
    && (forall k: Key, i: nat | k.0 != 0 && CachedAt(s, k, i) :: s.bufs[i].holder.Has? || Kept(s, s.bufs[i]))
  }

  lemma RecycleRefines(c: Code, s: State, arr: map<Key, Block>, i: nat)
    requires Ready(c, s, i, Recycle) && Refines(s, arr) && !s.bufs[i].InUse() && Absent(s)
    ensures Refines(Next(c, s, i, Recycle), arr)
  {
    var s' := Next(c, s, i, Recycle);
    var b := s.bufs[i];
    forall k': Key | k'.0 != 0 && Uncached(s', k')
      ensures Read(s'.disk, k') == Read(arr, k')
    {
      if CachedAt(s, k', i) {
        assert Kept(s, b);
      } else {
        forall j: nat
          ensures !CachedAt(s, k', j)
        {
          assert !CachedAt(s', k', j);
        }
      }
    }
    forall k': Key, j: nat | k'.0 != 0 && CachedAt(s', k', j)
      ensures CachedAt(s, k', j) && s'.bufs[j] == s.bufs[j]
    {
    }
  }

  lemma FlushRefines(c: Code, s: State, arr: map<Key, Block>, i: nat)
    requires Ready(c, s, i, Flush) && Refines(s, arr) && Distinct(s) && s.bufs[i].key.0 != 0
    ensures Refines(Next(c, s, i, Flush), arr)
  {
    var s' := Next(c, s, i, Flush);
    forall k: Key, j: nat
      ensures CachedAt(s', k, j) <==> CachedAt(s, k, j)
    {
    }
    forall k: Key | k.0 != 0 && Uncached(s', k)
      ensures Read(s'.disk, k) == Read(arr, k)
    {
      forall j: nat
        ensures !CachedAt(s, k, j)
      {
        assert !CachedAt(s', k, j);
      }
      assert CachedAt(s, s.bufs[i].key, i);
    }
  }

  /** A step that leaves disk, key, contents and validity of every buffer alone. */
  lemma QuietRefines(s: State, s': State, arr: map<Key, Block>, i: nat)
    requires Refines(s, arr) && i < |s.bufs| == |s'.bufs|
    requires s'.disk == s.disk && s'.bufs == s.bufs[i := s'.bufs[i]]
    requires var b, b' := s.bufs[i], s'.bufs[i];
             && b'.key == b.key && b'.valid == b.valid && b'.data == b.data
             && (b.valid && b.key.0 != 0 ==> b'.holder.Has? || Kept(s', b'))
    ensures Refines(s', arr)
  {
    forall k: Key, j: nat
      ensures CachedAt(s', k, j) <==> CachedAt(s, k, j)
    {
    }
    forall k: Key | k.0 != 0 && Uncached(s', k)
      ensures Uncached(s, k)
    {
      forall j: nat
        ensures !CachedAt(s, k, j)
      {
        assert !CachedAt(s', k, j);
      }
    }
  }

  lemma FillRefines(c: Code, s: State, arr: map<Key, Block>, i: nat)
    requires Ready(c, s, i, Fill) && Refines(s, arr) && Distinct(s) && s.bufs[i].key.0 != 0
    ensures Refines(Next(c, s, i, Fill), arr)
  {
    var s' := Next(c, s, i, Fill);
    forall j: nat
      ensures !CachedAt(s, s.bufs[i].key, j)
    {
    }
    assert Uncached(s, s.bufs[i].key);
    forall k: Key, j: nat
      ensures CachedAt(s', k, j) <==> CachedAt(s, k, j) || (j == i && k == s.bufs[i].key)
    {
    }
    forall k: Key | k.0 != 0 && Uncached(s', k)
      ensures Uncached(s, k)
    {
      forall j: nat
        ensures !CachedAt(s, k, j)
      {
        assert !CachedAt(s', k, j);
      }
    }
  }

  lemma ModifyRefines(c: Code, s: State, arr: map<Key, Block>, i: nat, d: Block)
    requires Ready(c, s, i, Modify(d)) && Refines(s, arr) && Distinct(s) && s.bufs[i].key.0 != 0
    ensures Refines(Next(c, s, i, Modify(d)), NextArray(s, arr, i, Modify(d)))
  {
    var s', arr' := Next(c, s, i, Modify(d)), NextArray(s, arr, i, Modify(d));
    var key := s.bufs[i].key;
    forall k: Key, j: nat
      ensures CachedAt(s', k, j) <==> CachedAt(s, k, j)
    {
    }
    forall k: Key, j: nat | k.0 != 0 && CachedAt(s', k, j)
      ensures s'.bufs[j].data == Read(arr', k)
    {
      assert CachedAt(s, k, j);
      assert k == key ==> j == i;
    }
    forall k: Key | k.0 != 0 && Uncached(s', k)
      ensures Read(s'.disk, k) == Read(arr', k)
    {
      assert !CachedAt(s', k, i);
      forall j: nat
        ensures !CachedAt(s, k, j)
      {
        assert !CachedAt(s', k, j);
      }
      assert Uncached(s, k);
    }
  }

  lemma RefinesKept(c: Code, s: State, arr: map<Key, Block>, i: nat, e: Event)
    requires Enabled(c, s, i, e) && Inv(c, s) && Refines(s, arr)
    ensures Refines(Next(c, s, i, e), NextArray(s, arr, i, e))
  {
    hide Refines, Distinct, Absent, Ordered, FirstMatch, NoMatch, NextSection, Tokens;
    var b := s.bufs[i];
    assert Good(c, b, s.started);
    match e
    case Recycle =>
      NotInUse(b);
      RecycleRefines(c, s, arr, i);
    case Fill => FillRefines(c, s, arr, i);
    case Modify(d) => ModifyRefines(c, s, arr, i, d);
    case Flush => FlushRefines(c, s, arr, i);
    case _ =>
      if b.valid && b.key.0 != 0 { HeldOrKept(s, arr, i); }
      QuietRefines(s, Next(c, s, i, e), arr, i);
  }

  lemma HeldOrKept(s: State, arr: map<Key, Block>, i: nat)
    requires Refines(s, arr) && i < |s.bufs| && s.bufs[i].valid && s.bufs[i].key.0 != 0
    ensures s.bufs[i].holder.Has? || Kept(s, s.bufs[i])
    ensures s.bufs[i].data == Read(arr, s.bufs[i].key)
  {
    assert CachedAt(s, s.bufs[i].key, i);
  }

  // ---- every run ----

  predicate Good(c: Code, b: Buf, started: nat) {
    Counts(c, b) && Tokens(b, started) && (b.InUse() ==> b.key.0 != 0)
  }

  ghost predicate Inv(c: Code, s: State) {
    && (forall i | 0 <= i < |s.bufs| :: Good(c, s.bufs[i], s.started))
    && SectionCounts(c, s)
    && Ordered(s)
    && Absent(s)
    && Distinct(s)
  }

  lemma InvKept(c: Code, s: State, i: nat, e: Event)
    requires Safe(c) && Enabled(c, s, i, e) && Inv(c, s)
    ensures Inv(c, Next(c, s, i, e))
  {
    hide Ordered, Absent, Distinct, Counts, Tokens, SectionCounts;
    assert Good(c, s.bufs[i], s.started);
    CountsKept(c, s, i, e);
    TokensKept(c, s, i, e);
    SectionKept(c, s, i, e);
    OrderedKept(c, s, i, e);
    AbsentKept(c, s, i, e);
    DistinctKept(c, s, i, e);
    RealKept(c, s, i, e);
    var s' := Next(c, s, i, e);
    forall j | 0 <= j < |s'.bufs|
      ensures Good(c, s'.bufs[j], s'.started)
    {
      assert Good(c, s.bufs[j], s.started);
      MoreTokens(s.bufs[j], s.started, s'.started);
    }
  }

  lemma MoreTokens(b: Buf, n: nat, m: nat)
    requires Tokens(b, n) && n <= m
    ensures Tokens(b, m)
  {
  }

  lemma RealKept(c: Code, s: State, i: nat, e: Event)
    requires Enabled(c, s, i, e) && Good(c, s.bufs[i], s.started) && SectionCounts(c, s) && Absent(s)
    ensures var b := NextBuf(c, s, i, e); b.InUse() ==> b.key.0 != 0
  {
  }

  /** binit: every buffer on the list, none in use, none naming a real block. */
  ghost predicate Init(s: State, arr: map<Key, Block>) {
    && (forall i | 0 <= i < |s.bufs| :: s.bufs[i] == Buf((0, 0), false, 0, s.bufs[i].data, Nobody, {}, {}, {}, 0))
    && Ordered(s)
    && s.section == Open
    && arr == s.disk
  }

  datatype Step = Step(i: nat, e: Event)

  ghost predicate Run(c: Code, run: seq<State>, arrs: seq<map<Key, Block>>, steps: seq<Step>) {
    && |run| == |arrs| == |steps| + 1
    && Init(run[0], arrs[0])
    && forall n | 0 <= n < |steps| :: Link(c, run, arrs, steps, n)
  }

  ghost predicate Link(c: Code, run: seq<State>, arrs: seq<map<Key, Block>>, steps: seq<Step>, n: nat)
    requires n < |steps| && |run| == |arrs| == |steps| + 1
  {
    var s, st := run[n], steps[n];
    && Enabled(c, s, st.i, st.e)
    && run[n + 1] == Next(c, s, st.i, st.e)
    && arrs[n + 1] == NextArray(s, arrs[n], st.i, st.e)
  }

  lemma {:induction false} RunInv(c: Code, run: seq<State>, arrs: seq<map<Key, Block>>, steps: seq<Step>, n: nat)
    requires Safe(c) && Run(c, run, arrs, steps) && n < |run|
    ensures Inv(c, run[n]) && Refines(run[n], arrs[n])
  {
    hide Ready, Next, NextArray;
    if n > 0 {
      RunInv(c, run, arrs, steps, n - 1);
      assert Link(c, run, arrs, steps, n - 1);
      InvKept(c, run[n - 1], steps[n - 1].i, steps[n - 1].e);
      RefinesKept(c, run[n - 1], arrs[n - 1], steps[n - 1].i, steps[n - 1].e);
    }
  }

  /** In every such run, a buffer that bget recycles is neither held, awaited, being
      left, nor pinned. */
  lemma NeverRecycledInUse(c: Code, run: seq<State>, arrs: seq<map<Key, Block>>, steps: seq<Step>, n: nat)
    requires Safe(c) && Run(c, run, arrs, steps) && n < |steps| && steps[n].e.Recycle?
    ensures steps[n].i < |run[n].bufs| && !run[n].bufs[steps[n].i].InUse()
  {
    RunInv(c, run, arrs, steps, n);
    assert Link(c, run, arrs, steps, n);
    var b := run[n].bufs[steps[n].i];
    assert Good(c, b, run[n].started);
    NotInUse(b);
  }

  /** In every such run, what a holder finds in a valid buffer is what the block was
      last given, and no other buffer holds the block. */
  lemma BreadReturnsLatest(c: Code, run: seq<State>, arrs: seq<map<Key, Block>>, steps: seq<Step>, n: nat, i: nat)
    requires Safe(c) && Run(c, run, arrs, steps) && n < |run|
    requires i < |run[n].bufs| && run[n].bufs[i].holder.Has? && run[n].bufs[i].valid
    ensures run[n].bufs[i].data == Read(arrs[n], run[n].bufs[i].key)
    ensures forall j: nat | j < |run[n].bufs| && run[n].bufs[j].key == run[n].bufs[i].key :: j == i
  {
    RunInv(c, run, arrs, steps, n);
    var b := run[n].bufs[i];
    assert Good(c, b, run[n].started);
    HeldOrKept(run[n], arrs[n], i);
  }

  /** With one increment, refcnt is exactly the number of users, so that a buffer can
      be recycled exactly when nobody uses it. */
  lemma CountIsExact(c: Code, run: seq<State>, arrs: seq<map<Key, Block>>, steps: seq<Step>, n: nat, i: nat)
    requires !c.twice && Run(c, run, arrs, steps) && n < |run| && i < |run[n].bufs|
    ensures run[n].bufs[i].refcnt == run[n].bufs[i].Users()
    ensures run[n].bufs[i].refcnt == 0 <==> !run[n].bufs[i].InUse()
  {
    RunInv(c, run, arrs, steps, n);
    assert Good(c, run[n].bufs[i], run[n].started);
    NotInUse(run[n].bufs[i]);
  }
}
