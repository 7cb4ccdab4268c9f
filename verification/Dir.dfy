/** Directories of riscv-os/kernel/disk/fs.c: dirlookup and dirlink over the bytes of
    a directory file, against a finite map from names to inode numbers. */
module Dir {
  import opened FsBlocks
  import opened FsMap
  import opened FsDisk
  import opened FsFile
  import opened DirNames

  const DIRENT: nat := 16   // sizeof(struct dirent)

  datatype Entry = Entry(inum: nat, name: seq<Byte>)

  function Decode(b: seq<Byte>): Entry
    requires |b| == DIRENT
  {
    var lo: nat, hi: nat := b[0], b[1];
    Entry(lo + 256 * hi, b[2..])
  }

  function Encode(e: Entry): (b: seq<Byte>)
    requires e.inum < 0x1_0000 && |e.name| == DIRSIZ
    ensures |b| == DIRENT
  {
    [e.inum % 256, e.inum / 256] + e.name
  }

  lemma RoundTrip(e: Entry)
    requires e.inum < 0x1_0000 && |e.name| == DIRSIZ
    ensures Decode(Encode(e)) == e
  {
    assert Encode(e)[2..] == e.name;
  }

  /** Every 16 bytes are an entry, and its only encoding. */
  lemma EncodeDecode(b: seq<Byte>)
    requires |b| == DIRENT
    ensures Decode(b).inum < 0x1_0000 && |Decode(b).name| == DIRSIZ && Encode(Decode(b)) == b
  {
    var lo: nat, hi: nat := b[0], b[1];
    assert (lo + 256 * hi) % 256 == lo && (lo + 256 * hi) / 256 == hi;
    assert b == [b[0], b[1]] + b[2..];
  }

  /** The bytes of entry k. */
  ghost function Raw(blocks: Blocks, ip: Inode, k: nat): (b: seq<Byte>)
    ensures |b| == DIRENT
  {
    seq<Byte>(DIRENT, j requires 0 <= j < DIRENT => FileByte(blocks, ip, DIRENT * k + j))
  }

  ghost function EntryAt(blocks: Blocks, ip: Inode, k: nat): Entry { Decode(Raw(blocks, ip, k)) }

  /** Entry k is in use under name nm. */
  ghost predicate Matches(blocks: Blocks, ip: Inode, k: nat, nm: seq<Byte>) {
    DIRENT * k < ip.size && EntryAt(blocks, ip, k).inum != 0 && Str(EntryAt(blocks, ip, k).name) == nm
  }

  /** The directory binds name nm to inode x. */
  ghost predicate Binds(blocks: Blocks, ip: Inode, nm: seq<Byte>, x: nat) {
    exists k: nat :: Matches(blocks, ip, k, nm) && EntryAt(blocks, ip, k).inum == x
  }

  /** No name is bound twice. */
  ghost predicate Unique(blocks: Blocks, ip: Inode) {
    forall j: nat, k: nat, nm: seq<Byte> | Matches(blocks, ip, j, nm) && Matches(blocks, ip, k, nm) :: j == k
  }

  ghost predicate DirSize(ip: Inode) {
    ip.size % DIRENT == 0 && ip.size <= MAXFILE * BSIZE
  }

  lemma SameEntries(b0: Blocks, i0: Inodes, b1: Blocks, i1: Inodes, d: nat, k: nat)
    requires SameFiles(b0, i0, b1, i1) && d in i0
    ensures d in i1 && i1[d].size == i0[d].size && Raw(b1, i1[d], k) == Raw(b0, i0[d], k)
  {
    hide FileBlock;
    forall j | 0 <= j < DIRENT
      ensures Raw(b1, i1[d], k)[j] == Raw(b0, i0[d], k)[j]
    {
      var x := DIRENT * k + j;
      assert FileBlock(b1, i1[d], x / BSIZE) == FileBlock(b0, i0[d], x / BSIZE);
      assert FileByte(b1, i1[d], x) == FileByte(b0, i0[d], x);
    }
  }

  // ---- dirlookup ----

  /** readi of entry k; false stands for the panic on a short read. */
  method ReadEntry(fs: Fs, d: nat, k: nat) returns (ok: bool, e: Entry)
    requires fs.Valid() && d in fs.inodes && DirSize(fs.inodes[d]) && DIRENT * k < fs.inodes[d].size
    modifies fs
    ensures fs.Valid() && SameFiles(old(fs.blocks), old(fs.inodes), fs.blocks, fs.inodes) && OnlyInode(old(fs.inodes), fs.inodes, d)
    ensures ok ==> |e.name| == DIRSIZ && e == EntryAt(old(fs.blocks), old(fs.inodes)[d], k)
    ensures !ok ==> fs.Full()
  {
    hide MapOk, SameFiles, FileByte;
    var copied, dst := Readi(fs, d, DIRENT * k, DIRENT, DIRENT);
    ok := copied && |dst| == DIRENT;
    e := if ok then Decode(dst) else Entry(0, []);
    if ok { assert dst == Raw(old(fs.blocks), old(fs.inodes)[d], k); }
  }

  datatype Lookup = Found(inum: nat, k: nat) | Absent | ReadPanic

  /** dirlookup: the first entry with this name, if there is one. */
  method Dirlookup(fs: Fs, d: nat, name: seq<Byte>) returns (r: Lookup)
    requires fs.Valid() && d in fs.inodes && DirSize(fs.inodes[d])
    modifies fs
    ensures fs.Valid() && SameFiles(old(fs.blocks), old(fs.inodes), fs.blocks, fs.inodes) && OnlyInode(old(fs.inodes), fs.inodes, d)
    ensures r.Found? ==> Matches(old(fs.blocks), old(fs.inodes)[d], r.k, Take(Str(name), DIRSIZ))
                         && r.inum == EntryAt(old(fs.blocks), old(fs.inodes)[d], r.k).inum
                         && forall j: nat | j < r.k :: !Matches(old(fs.blocks), old(fs.inodes)[d], j, Take(Str(name), DIRSIZ))
    ensures r.Absent? ==> forall j: nat :: !Matches(old(fs.blocks), old(fs.inodes)[d], j, Take(Str(name), DIRSIZ))
    ensures r.ReadPanic? ==> fs.Full()
  {
    hide MapOk, SameFiles, EntryAt, Str;
    ghost var b0, i0 := fs.blocks, fs.inodes;
    QuietNothing(b0, i0);
    var k := 0;
    while DIRENT * k < fs.inodes[d].size
      invariant fs.Valid() && SameFiles(b0, i0, fs.blocks, fs.inodes) && d in fs.inodes && fs.inodes[d].size == i0[d].size && OnlyInode(i0, fs.inodes, d)
      invariant forall j: nat | j < k :: !Matches(b0, i0[d], j, Take(Str(name), DIRSIZ))
      decreases fs.inodes[d].size - DIRENT * k
    {
      ghost var b1, i1 := fs.blocks, fs.inodes;
      var ok, e := ReadEntry(fs, d, k);
      SameFilesTrans(b0, i0, b1, i1, fs.blocks, fs.inodes);
      SameFilesMean(b0, i0, fs.blocks, fs.inodes, d);
      SameEntry(b0, i0, b1, i1, d, k);
      if !ok { return ReadPanic; }
      if e.inum != 0 {
        var diff := Strncmp(name, e.name, DIRSIZ);
        ShortStr(e.name);
        if diff == 0 { return Found(e.inum, k); }
      }
      k := k + 1;
    }
    return Absent;
  }

  lemma SameEntry(b0: Blocks, i0: Inodes, b1: Blocks, i1: Inodes, d: nat, k: nat)
    requires SameFiles(b0, i0, b1, i1) && d in i0
    ensures d in i1 && EntryAt(b1, i1[d], k) == EntryAt(b0, i0[d], k)
  {
    SameEntries(b0, i0, b1, i1, d, k);
  }

  lemma ShortStr(b: seq<Byte>)
    requires |b| == DIRSIZ
    ensures Take(Str(b), DIRSIZ) == Str(b)
  {
  }

  // ---- dirlink ----

  /** Entry k has become e; every other entry is as before. */
  ghost predicate EntrySet(b0: Blocks, ip0: Inode, b1: Blocks, ip1: Inode, k: nat, e: Entry) {
    forall j: nat :: EntryAt(b1, ip1, j) == if j == k then e else EntryAt(b0, ip0, j)
  }

  ghost predicate EntriesSame(b0: Blocks, ip0: Inode, b1: Blocks, ip1: Inode) {
    ip1.size == ip0.size && forall j: nat :: EntryAt(b1, ip1, j) == EntryAt(b0, ip0, j)
  }

  /** writei of one entry changes that entry. */
  lemma WroteEntry(b0: Blocks, ip0: Inode, b1: Blocks, ip1: Inode, k: nat, e: Entry)
    requires e.inum < 0x1_0000 && |e.name| == DIRSIZ && Overlay(b0, ip0, b1, ip1, DIRENT * k, Encode(e))
    ensures EntrySet(b0, ip0, b1, ip1, k, e)
  {
    hide FileByte, Encode;
    RoundTrip(e);
    forall j: nat
      ensures Raw(b1, ip1, j) == if j == k then Encode(e) else Raw(b0, ip0, j)
    {
      forall x | 0 <= x < DIRENT
        ensures Raw(b1, ip1, j)[x] == if j == k then Encode(e)[x] else Raw(b0, ip0, j)[x]
      {
        var y := DIRENT * j + x;
        EntryBounds(j, k, x);
        assert FileByte(b1, ip1, y) == if DIRENT * k <= y < DIRENT * k + DIRENT then Encode(e)[y - DIRENT * k] else FileByte(b0, ip0, y);
      }
    }
  }

  lemma EntryBounds(j: nat, k: nat, x: nat)
    requires x < DIRENT
    ensures DIRENT * k <= DIRENT * j + x < DIRENT * k + DIRENT <==> j == k
  {
  }

  lemma WroteNoEntry(b0: Blocks, ip0: Inode, b1: Blocks, ip1: Inode, off: nat)
    requires Overlay(b0, ip0, b1, ip1, off, []) && ip1.size == ip0.size
    ensures EntriesSame(b0, ip0, b1, ip1)
  {
    hide FileByte;
    forall j: nat
      ensures Raw(b1, ip1, j) == Raw(b0, ip0, j)
    {
      forall x | 0 <= x < DIRENT
        ensures Raw(b1, ip1, j)[x] == Raw(b0, ip0, j)[x]
      {
        assert FileByte(b1, ip1, DIRENT * j + x) == FileByte(b0, ip0, DIRENT * j + x);
      }
    }
  }

  /** An entry does not cross a block. */
  lemma EntryInBlock(k: nat)
    ensures (DIRENT * k) % BSIZE + DIRENT <= BSIZE
  {
    assert (DIRENT * k) % BSIZE == DIRENT * (k % 64);
  }

  /** writei of one entry: all of it, or nothing. */
  method WriteEntry(fs: Fs, d: nat, k: nat, e: Entry) returns (ok: bool)
    requires fs.Valid() && d in fs.inodes && DirSize(fs.inodes[d]) && DIRENT * k <= fs.inodes[d].size
    requires e.inum < 0x1_0000 && |e.name| == DIRSIZ
    modifies fs
    ensures fs.Valid() && d in fs.inodes && OthersSame(old(fs.blocks), old(fs.inodes), fs.blocks, fs.inodes, d)
    ensures OnlyInode(old(fs.inodes), fs.inodes, d)
    ensures ok ==> EntrySet(old(fs.blocks), old(fs.inodes)[d], fs.blocks, fs.inodes[d], k, e)
                   && fs.inodes[d].size == Max(old(fs.inodes)[d].size, DIRENT * k + DIRENT) && DirSize(fs.inodes[d])
    ensures !ok ==> EntriesSame(old(fs.blocks), old(fs.inodes)[d], fs.blocks, fs.inodes[d])
    ensures !ok ==> fs.Full() || DIRENT * k + DIRENT > MAXFILE * BSIZE
  {
    hide MapOk, Overlay, LogOk, EntryAt, Encode, OthersSame, FileByte;
    ghost var b0, i0 := fs.blocks, fs.inodes;
    QuietNothing(b0, i0);
    WroteNothing(b0, i0, b0, i0, d, 0);
    WroteNoEntry(b0, i0[d], b0, i0[d], 0);
    EntryInBlock(k);
    var n, _ := Writei(fs, d, Encode(e), DIRENT * k, DIRENT);
    ok := n == DIRENT;
    if ok {
      assert Encode(e)[..n] == Encode(e);
      WroteEntry(b0, i0[d], fs.blocks, fs.inodes[d], k, e);
    } else if n == 0 {
      WroteNoEntry(b0, i0[d], fs.blocks, fs.inodes[d], DIRENT * k);
    }
  }

  datatype LinkResult = Linked(k: nat) | Exists | NoRoom | LinkPanic

  /** The entries before k are in use. */
  ghost predicate InUseBelow(blocks: Blocks, ip: Inode, k: nat) {
    forall j: nat | j < k :: EntryAt(blocks, ip, j).inum != 0
  }

  /** dirlink's search for a free entry, from the front; the end if there is none. */
  method FreeEntry(fs: Fs, d: nat) returns (ok: bool, k: nat, last: seq<Byte>)
    requires fs.Valid() && d in fs.inodes && DirSize(fs.inodes[d])
    modifies fs
    ensures fs.Valid() && SameFiles(old(fs.blocks), old(fs.inodes), fs.blocks, fs.inodes) && |last| == DIRSIZ
    ensures OnlyInode(old(fs.inodes), fs.inodes, d)
    ensures ok ==> DIRENT * k <= old(fs.inodes)[d].size
                   && (DIRENT * k < old(fs.inodes)[d].size ==> EntryAt(old(fs.blocks), old(fs.inodes)[d], k).inum == 0)
                   && InUseBelow(old(fs.blocks), old(fs.inodes)[d], k)
    ensures !ok ==> fs.Full()
  {
    hide MapOk, SameFiles, EntryAt;
    ghost var b0, i0 := fs.blocks, fs.inodes;
    QuietNothing(b0, i0);
    last := seq(DIRSIZ, _ => 0);
    k := 0;
    while DIRENT * k < fs.inodes[d].size
      invariant fs.Valid() && SameFiles(b0, i0, fs.blocks, fs.inodes) && d in fs.inodes && fs.inodes[d].size == i0[d].size && OnlyInode(i0, fs.inodes, d)
      invariant DIRENT * k <= i0[d].size && |last| == DIRSIZ && InUseBelow(b0, i0[d], k)
      decreases fs.inodes[d].size - DIRENT * k
    {
      ghost var b1, i1 := fs.blocks, fs.inodes;
      var e: Entry;
      ok, e := ReadEntry(fs, d, k);
      SameFilesTrans(b0, i0, b1, i1, fs.blocks, fs.inodes);
      SameFilesMean(b0, i0, fs.blocks, fs.inodes, d);
      SameEntry(b0, i0, b1, i1, d, k);
      if !ok { return; }
      last := e.name;
      if e.inum == 0 { return; }
      k := k + 1;
    }
    ok := true;
  }

  /** The name as dirlink stores it: cut to 13 bytes. */
  function Stored(name: seq<Byte>): seq<Byte> { Take(Str(name), DIRSIZ - 1) }

  /** A directory of the largest size, with all its entries in use. */
  ghost predicate FullDir(blocks: Blocks, ip: Inode) {
    ip.size == MAXFILE * BSIZE && InUseBelow(blocks, ip, ip.size / DIRENT)
  }

  lemma NoEntryLeft(blocks: Blocks, ip: Inode, k: nat)
    requires DirSize(ip) && DIRENT * k <= ip.size && DIRENT * k + DIRENT > MAXFILE * BSIZE && InUseBelow(blocks, ip, k)
    ensures FullDir(blocks, ip)
  {
    hide EntryAt;
    assert k == ip.size / DIRENT;
  }

  lemma SameInUse(b0: Blocks, ip0: Inode, b1: Blocks, ip1: Inode, k: nat)
    requires EntriesSame(b0, ip0, b1, ip1)
    ensures InUseBelow(b1, ip1, k) == InUseBelow(b0, ip0, k)
  {
    hide EntryAt;
    forall j: nat
      ensures EntryAt(b1, ip1, j) == EntryAt(b0, ip0, j)
    {
    }
  }

  /** dirlink: binds the name, cut to 13 bytes, in the first free entry; or changes
      nothing because the name is there, or for want of room. */
  method Dirlink(fs: Fs, d: nat, name: seq<Byte>, inum: nat) returns (r: LinkResult)
    requires fs.Valid() && d in fs.inodes && DirSize(fs.inodes[d]) && inum < 0x1_0000
    modifies fs
    ensures fs.Valid() && d in fs.inodes && OthersSame(old(fs.blocks), old(fs.inodes), fs.blocks, fs.inodes, d)
    ensures OnlyInode(old(fs.inodes), fs.inodes, d)
    ensures r.Linked? ==>
      && DirSize(fs.inodes[d]) && AddedAt(old(fs.blocks), old(fs.inodes)[d], fs.blocks, fs.inodes[d], r.k, Stored(name), inum)
      && InUseBelow(old(fs.blocks), old(fs.inodes)[d], r.k)
      && (forall j: nat :: !Matches(old(fs.blocks), old(fs.inodes)[d], j, Take(Str(name), DIRSIZ)))
    ensures !r.Linked? ==> EntriesSame(old(fs.blocks), old(fs.inodes)[d], fs.blocks, fs.inodes[d])
    ensures r.Exists? ==> exists j: nat :: Matches(old(fs.blocks), old(fs.inodes)[d], j, Take(Str(name), DIRSIZ))
    ensures r.NoRoom? ==> fs.Full() || FullDir(old(fs.blocks), old(fs.inodes)[d])
    ensures r.LinkPanic? ==> fs.Full()
  {
    hide MapOk, SameFiles, EntryAt, Str, OthersSame;
    ghost var b0, i0 := fs.blocks, fs.inodes;
    var l := Dirlookup(fs, d, name);
    UnchangedSo(b0, i0, fs.blocks, fs.inodes, d);
    if l.Found? { return Exists; }
    if l.ReadPanic? { return LinkPanic; }
    ghost var b1, i1 := fs.blocks, fs.inodes;
    var ok, k, last := FreeEntry(fs, d);
    SameInUse(b0, i0[d], b1, i1[d], k);
    SameEntry(b0, i0, b1, i1, d, k);
    SameFilesTrans(b0, i0, b1, i1, fs.blocks, fs.inodes);
    UnchangedSo(b0, i0, fs.blocks, fs.inodes, d);
    if !ok { return LinkPanic; }
    var buf := SafeStrcpy(last, name, DIRSIZ);
    ghost var b2, i2 := fs.blocks, fs.inodes;
    ok := WriteEntry(fs, d, k, Entry(inum, buf));
    OthersTrans(b0, i0, b2, i2, fs.blocks, fs.inodes, d);
    if !ok {
      EntriesSameTrans(b0, i0[d], b2, i2[d], fs.blocks, fs.inodes[d]);
      if DIRENT * k + DIRENT > MAXFILE * BSIZE { NoEntryLeft(b0, i0[d], k); }
      return NoRoom;
    }
    SetAfterSame(b0, i0[d], b2, i2[d], fs.blocks, fs.inodes[d], k, Entry(inum, buf));
    return Linked(k);
  }

  /** A free entry k, or one past the end, has come to bind nm to inum. */
  ghost predicate AddedAt(b0: Blocks, ip0: Inode, b1: Blocks, ip1: Inode, k: nat, nm: seq<Byte>, inum: nat) {
    && DIRENT * k <= ip0.size && (DIRENT * k < ip0.size ==> EntryAt(b0, ip0, k).inum == 0)
    && ip1.size == Max(ip0.size, DIRENT * k + DIRENT)
    && EntryAt(b1, ip1, k).inum == inum && Str(EntryAt(b1, ip1, k).name) == nm
    && forall j: nat | j != k :: EntryAt(b1, ip1, j) == EntryAt(b0, ip0, j)
  }

  lemma UnchangedSo(b0: Blocks, i0: Inodes, b1: Blocks, i1: Inodes, d: nat)
    requires SameFiles(b0, i0, b1, i1) && d in i0
    ensures d in i1 && i1[d].size == i0[d].size && OthersSame(b0, i0, b1, i1, d) && EntriesSame(b0, i0[d], b1, i1[d])
  {
    hide EntryAt, FileBlock;
    forall j: nat
      ensures EntryAt(b1, i1[d], j) == EntryAt(b0, i0[d], j)
    {
      SameEntry(b0, i0, b1, i1, d, j);
    }
  }

  lemma OthersTrans(b0: Blocks, i0: Inodes, b1: Blocks, i1: Inodes, b2: Blocks, i2: Inodes, d: nat)
    requires OthersSame(b0, i0, b1, i1, d) && OthersSame(b1, i1, b2, i2, d)
    ensures OthersSame(b0, i0, b2, i2, d)
  {
    hide FileBlock;
  }

  lemma EntriesSameTrans(b0: Blocks, ip0: Inode, b1: Blocks, ip1: Inode, b2: Blocks, ip2: Inode)
    requires EntriesSame(b0, ip0, b1, ip1) && EntriesSame(b1, ip1, b2, ip2)
    ensures EntriesSame(b0, ip0, b2, ip2)
  {
    hide EntryAt;
  }

  lemma SetAfterSame(b0: Blocks, ip0: Inode, b1: Blocks, ip1: Inode, b2: Blocks, ip2: Inode, k: nat, e: Entry)
    requires EntriesSame(b0, ip0, b1, ip1) && EntrySet(b1, ip1, b2, ip2, k, e)
    ensures EntrySet(b0, ip0, b2, ip2, k, e)
  {
    hide EntryAt;
  }

  // ---- the directory as a map ----

  lemma MatchesAfter(b0: Blocks, ip0: Inode, b1: Blocks, ip1: Inode, k: nat, nm: seq<Byte>, inum: nat, j: nat, x: seq<Byte>)
    requires AddedAt(b0, ip0, b1, ip1, k, nm, inum) && inum != 0 && ip0.size % DIRENT == 0
    ensures Matches(b1, ip1, j, x) <==> if j == k then x == nm else Matches(b0, ip0, j, x)
  {
    hide EntryAt;
  }

  /** dirlink adds exactly one binding. */
  lemma LinkBinds(b0: Blocks, ip0: Inode, b1: Blocks, ip1: Inode, k: nat, nm: seq<Byte>, inum: nat, x: seq<Byte>, y: nat)
    requires AddedAt(b0, ip0, b1, ip1, k, nm, inum) && inum != 0 && ip0.size % DIRENT == 0
    ensures Binds(b1, ip1, x, y) <==> Binds(b0, ip0, x, y) || (x == nm && y == inum)
  {
    hide EntryAt;
    forall j: nat
      ensures Matches(b1, ip1, j, x) <==> if j == k then x == nm else Matches(b0, ip0, j, x)
    {
      MatchesAfter(b0, ip0, b1, ip1, k, nm, inum, j, x);
    }
    if x == nm && y == inum { assert Matches(b1, ip1, k, x); }
    assert !Matches(b0, ip0, k, x);
  }

  /** After a successful dirlink the name is found again exactly when it has fewer
      than DIRSIZ bytes: a name of 14 bytes is stored cut, and its lookup fails. */
  lemma FoundIffShort(b0: Blocks, ip0: Inode, b1: Blocks, ip1: Inode, k: nat, name: seq<Byte>, inum: nat)
    requires AddedAt(b0, ip0, b1, ip1, k, Stored(name), inum) && inum != 0 && ip0.size % DIRENT == 0
    requires forall j: nat :: !Matches(b0, ip0, j, Take(Str(name), DIRSIZ))
    ensures (exists j: nat :: Matches(b1, ip1, j, Take(Str(name), DIRSIZ))) <==> |Str(name)| < DIRSIZ
  {
    hide EntryAt, Str;
    var nm := Take(Str(name), DIRSIZ);
    forall j: nat
      ensures Matches(b1, ip1, j, nm) <==> j == k && nm == Stored(name)
    {
      MatchesAfter(b0, ip0, b1, ip1, k, Stored(name), inum, j, nm);
    }
    assert nm == Stored(name) <==> |Str(name)| < DIRSIZ;
    if nm == Stored(name) { assert Matches(b1, ip1, k, nm); }
  }

  /** No name becomes bound twice exactly when the stored name was not bound. */
  lemma UniqueIff(b0: Blocks, ip0: Inode, b1: Blocks, ip1: Inode, k: nat, nm: seq<Byte>, inum: nat)
    requires AddedAt(b0, ip0, b1, ip1, k, nm, inum) && inum != 0 && ip0.size % DIRENT == 0 && Unique(b0, ip0)
    ensures Unique(b1, ip1) <==> forall j: nat :: !Matches(b0, ip0, j, nm)
  {
    hide EntryAt;
    forall j: nat, x: seq<Byte>
      ensures Matches(b1, ip1, j, x) <==> if j == k then x == nm else Matches(b0, ip0, j, x)
    {
      MatchesAfter(b0, ip0, b1, ip1, k, nm, inum, j, x);
    }
    assert !Matches(b0, ip0, k, nm);
    assert Matches(b1, ip1, k, nm);
    if j: nat :| Matches(b0, ip0, j, nm) {
      assert Matches(b1, ip1, j, nm);
    }
  }

  // ---- sys_unlink's clearing of an entry ----

  /** Entry k, which was in use, is free now. */
  ghost predicate ClearedAt(b0: Blocks, ip0: Inode, b1: Blocks, ip1: Inode, k: nat) {
    && DIRENT * k < ip0.size && EntryAt(b0, ip0, k).inum != 0 && EntryAt(b1, ip1, k).inum == 0
    && ip1.size == ip0.size && forall j: nat | j != k :: EntryAt(b1, ip1, j) == EntryAt(b0, ip0, j)
  }

  /** Unlinking removes the name found and no other binding. */
  lemma UnlinkUnbinds(b0: Blocks, ip0: Inode, b1: Blocks, ip1: Inode, k: nat, nm: seq<Byte>, x: seq<Byte>, y: nat)
    requires ClearedAt(b0, ip0, b1, ip1, k) && Matches(b0, ip0, k, nm) && Unique(b0, ip0)
    ensures Binds(b1, ip1, x, y) <==> Binds(b0, ip0, x, y) && x != nm
    ensures Unique(b1, ip1)
  {
    hide EntryAt;
    forall j: nat, z: seq<Byte>
      ensures Matches(b1, ip1, j, z) <==> Matches(b0, ip0, j, z) && j != k
    {
    }
    if Binds(b0, ip0, x, y) && x != nm {
      var j: nat :| Matches(b0, ip0, j, x) && EntryAt(b0, ip0, j).inum == y;
      assert Matches(b1, ip1, j, x) && EntryAt(b1, ip1, j).inum == y;
    }
  }
}
