/** The main function of riscv-os/mkfs/mkfs.c: the image that it leaves is a disk on which
    everything proved about the kernel's files and directories starts to hold, and its
    root directory names exactly the given files. */
module MkfsMain {
  import opened Common
  import opened FsBlocks
  import opened FsMap
  import opened FsDisk
  import opened FsFile
  import opened DirNames
  import opened Dir
  import opened FileTree
  import opened FileLinks
  import opened Mkfs

  const FSSIZE: nat := 2000
  const NINODES: nat := 200
  const NLOG: nat := 91                                  // LOGBLOCKS + 1
  const NINODEBLOCKS: nat := 13                          // NINODES / IPB + 1
  const NMETA: nat := 2 + NLOG + NINODEBLOCKS + 1

  /** A file to be put into the image. */
  datatype Input = Input(name: seq<Byte>, data: seq<Byte>)

  /** strncpy(de.name, name, DIRSIZ). */
  function Padded(name: seq<Byte>): (r: seq<Byte>)
    requires |name| <= DIRSIZ
    ensures |r| == DIRSIZ
  {
    name + seq<Byte>(DIRSIZ - |name|, _ => 0)
  }

  const DOT: seq<Byte> := [46]
  const DOTDOT: seq<Byte> := [46, 46]

  /** An entry that was never written. */
  function NoEntry(): Entry { Entry(0, Padded([])) }

  /** The file holds these entries and nothing after them. */
  ghost predicate Holds(blocks: Blocks, ip: Inode, es: seq<Entry>) {
    && ip.size == DIRENT * |es|
    && forall k: nat :: EntryAt(blocks, ip, k) == if k < |es| then es[k] else NoEntry()
  }

  lemma EmptyHolds(blocks: Blocks, ip: Inode)
    requires ip == Inode(EMPTY, 0)
    ensures Holds(blocks, ip, []) && Contents(blocks, ip) == []
  {
    forall k: nat
      ensures EntryAt(blocks, ip, k) == NoEntry()
    {
      forall j | 0 <= j < DIRENT
        ensures Raw(blocks, ip, k)[j] == 0
      {
        var x := DIRENT * k + j;
        assert Slot(blocks, ip, x / BSIZE) == 0;
        assert FileByte(blocks, ip, x) == Zero()[x % BSIZE] == 0;
      }
      ZeroEntry(Raw(blocks, ip, k));
    }
  }

  lemma ZeroEntry(b: seq<Byte>)
    requires |b| == DIRENT && forall j | 0 <= j < DIRENT :: b[j] == 0
    ensures Decode(b) == NoEntry()
  {
    forall j | 0 <= j < DIRSIZ
      ensures b[2..][j] == Padded([])[j]
    {
    }
    assert b[2..] == Padded([]);
  }

  /** One entry more. */
  lemma HoldsMore(b0: Blocks, ip0: Inode, b1: Blocks, ip1: Inode, es: seq<Entry>, e: Entry)
    requires Holds(b0, ip0, es) && e.inum < 0x1_0000 && |e.name| == DIRSIZ
    requires Overlay(b0, ip0, b1, ip1, ip0.size, Encode(e)) && ip1.size == ip0.size + DIRENT
    ensures Holds(b1, ip1, es + [e])
  {
    hide FileByte, Encode, Decode, NoEntry;
    RoundTrip(e);
    forall k: nat
      ensures EntryAt(b1, ip1, k) == if k < |es| + 1 then (es + [e])[k] else NoEntry()
    {
      EntryMoved(b0, ip0, b1, ip1, |es|, Encode(e), k);
      assert EntryAt(b0, ip0, k) == if k < |es| then es[k] else NoEntry();
    }
  }

  lemma EntryMoved(b0: Blocks, ip0: Inode, b1: Blocks, ip1: Inode, n: nat, bytes: seq<Byte>, k: nat)
    requires |bytes| == DIRENT && Overlay(b0, ip0, b1, ip1, DIRENT * n, bytes)
    ensures Raw(b1, ip1, k) == if k == n then bytes else Raw(b0, ip0, k)
  {
    hide FileByte;
    forall j | 0 <= j < DIRENT
      ensures Raw(b1, ip1, k)[j] == if k == n then bytes[j] else Raw(b0, ip0, k)[j]
    {
      var x := DIRENT * k + j;
      assert FileByte(b1, ip1, x) == if DIRENT * n <= x < DIRENT * n + |bytes| then bytes[x - DIRENT * n] else FileByte(b0, ip0, x);
    }
  }

  lemma OtherHolds(b0: Blocks, i0: Inodes, b1: Blocks, i1: Inodes, i: nat, d: nat, es: seq<Entry>)
    requires OthersSame(b0, i0, b1, i1, i) && d in i0 && d != i && Holds(b0, i0[d], es)
    ensures d in i1 && Holds(b1, i1[d], es)
  {
    hide FileBlock, EntryAt;
    assert d in i0.Keys;
    forall k: nat
      ensures EntryAt(b1, i1[d], k) == EntryAt(b0, i0[d], k)
    {
      OtherEntry(b0, i0, b1, i1, i, d, k);
    }
  }

  lemma OtherContents(b0: Blocks, i0: Inodes, b1: Blocks, i1: Inodes, i: nat, f: nat)
    requires OthersSame(b0, i0, b1, i1, i) && f in i0 && f != i
    ensures f in i1 && Contents(b1, i1[f]) == Contents(b0, i0[f])
  {
    hide FileBlock;
    assert f in i0.Keys;
    forall x | 0 <= x < i0[f].size
      ensures FileByte(b1, i1[f], x) == FileByte(b0, i0[f], x)
    {
      assert FileBlock(b1, i1[f], x / BSIZE) == FileBlock(b0, i0[f], x / BSIZE);
    }
  }

  // ---- the image after n files ----

  predicate NamesFit(inputs: seq<Input>) { forall j | 0 <= j < |inputs| :: |inputs[j].name| <= DIRSIZ }

  /** What the root directory is to hold: itself twice, then the files in order. */
  function Entries(inputs: seq<Input>, n: nat): (es: seq<Entry>)
    requires NamesFit(inputs) && n <= |inputs|
    ensures |es| == n + 2 && es[0].inum == ROOTINO && es[1].inum == ROOTINO
    ensures forall k | 2 <= k < n + 2 :: es[k] == Entry(k, Padded(inputs[k - 2].name))
  {
    [Entry(ROOTINO, Padded(DOT)), Entry(ROOTINO, Padded(DOTDOT))]
    + seq(n, j requires 0 <= j < n => Entry(j + 2, Padded(inputs[j].name)))
  }

  lemma EntriesNext(inputs: seq<Input>, n: nat)
    requires NamesFit(inputs) && n < |inputs|
    ensures Entries(inputs, n + 1) == Entries(inputs, n) + [Entry(n + 2, Padded(inputs[n].name))]
  {
  }

  /** Types and link counts after n files. */
  predicate Typed(kind: seq<Kind>, nlink: seq<nat>, n: nat) {
    && |kind| == |nlink| == NINODES && n + 2 <= NINODES
    && forall i | 0 <= i < NINODES ::
         && kind[i] == (if i == ROOTINO then Directory else if 2 <= i < n + 2 then File else Free)
         && (1 <= i < n + 2 ==> nlink[i] == 1)
  }

  /** File j of the inputs is inode j + 2. */
  ghost predicate FileHolds(blocks: Blocks, inodes: Inodes, j: nat, data: seq<Byte>) {
    j + 2 in inodes && Contents(blocks, inodes[j + 2]) == data
  }

  ghost predicate FilesHold(blocks: Blocks, inodes: Inodes, inputs: seq<Input>, n: nat) {
    n <= |inputs| && forall j | 0 <= j < n :: FileHolds(blocks, inodes, j, inputs[j].data)
  }

  ghost predicate After(im: Image, inputs: seq<Input>, n: nat)
    reads im
  {
    && im.Valid() && im.size == FSSIZE && im.start == NMETA && NamesFit(inputs) && n <= |inputs|
    && Typed(im.kind, im.nlink, n) && im.freeinode == n + 2
    && 0 in im.inodes && im.inodes[0] == Inode(EMPTY, 0)
    && ROOTINO in im.inodes && Holds(im.blocks, im.inodes[ROOTINO], Entries(inputs, n))
    && FilesHold(im.blocks, im.inodes, inputs, n)
  }

  lemma FilesKept(b0: Blocks, i0: Inodes, b1: Blocks, i1: Inodes, i: nat, inputs: seq<Input>, n: nat)
    requires FilesHold(b0, i0, inputs, n) && OthersSame(b0, i0, b1, i1, i) && (i < 2 || i >= n + 2)
    ensures FilesHold(b1, i1, inputs, n)
  {
    hide OthersSame, Contents;
    forall j | 0 <= j < n
      ensures FileHolds(b1, i1, j, inputs[j].data)
    {
      assert FileHolds(b0, i0, j, inputs[j].data);
      OtherContents(b0, i0, b1, i1, i, j + 2);
    }
  }

  /** The loop that reads a file and appends what it has read. */
  method CopyIn(im: Image, i: nat, data: seq<Byte>) returns (ok: bool)
    requires im.Valid() && i in im.inodes && i < im.freeinode && im.inodes[i] == Inode(EMPTY, 0)
    modifies im`freeblock, im`blocks, im`inodes
    ensures ok ==> im.Valid() && i in im.inodes && Contents(im.blocks, im.inodes[i]) == data
                   && OthersSame(old(im.blocks), old(im.inodes), im.blocks, im.inodes, i) && OnlyInode(old(im.inodes), im.inodes, i)
    ensures im.freeblock <= old(im.freeblock) + 2 * |data|
    ensures !ok ==> im.freeblock > im.size || |data| > MAXFILE * BSIZE
  {
    hide MapOk, Overlay, OthersSame, FileBlock, FileByte, Contents, Holds;
    ghost var b0, i0 := im.blocks, im.inodes;
    EmptyHolds(im.blocks, im.inodes[i]);
    SameSelf(b0, i0, i);
    var at := 0;
    while at < |data|
      invariant at <= |data| && im.Valid() && i in im.inodes && Contents(im.blocks, im.inodes[i]) == data[..at] && im.inodes[i].size == at
      invariant im.freeblock <= old(im.freeblock) + 2 * at
      invariant OthersSame(b0, i0, im.blocks, im.inodes, i) && OnlyInode(i0, im.inodes, i)
    {
      var cc := if |data| - at < BSIZE then |data| - at else BSIZE;
      ghost var b1, i1 := im.blocks, im.inodes;
      ok := Iappend(im, i, data[at..at + cc]);
      if !ok { return; }
      OthersTrans(b0, i0, b1, i1, im.blocks, im.inodes, i);
      assert data[..at] + data[at..at + cc] == data[..at + cc];
      at := at + cc;
    }
    assert data[..at] == data;
    ok := true;
  }

  lemma SameSelf(b: Blocks, inodes: Inodes, i: nat)
    requires i in inodes
    ensures OthersSame(b, inodes, b, inodes, i)
  {
  }

  lemma OthersTrans(b0: Blocks, i0: Inodes, b1: Blocks, i1: Inodes, b2: Blocks, i2: Inodes, i: nat)
    requires OthersSame(b0, i0, b1, i1, i) && OthersSame(b1, i1, b2, i2, i)
    ensures OthersSame(b0, i0, b2, i2, i)
  {
    hide FileBlock;
    forall j: nat, bn: nat | j in i0 && j in i2 && j != i
      ensures FileBlock(b2, i2[j], bn) == FileBlock(b0, i0[j], bn)
    {
      assert j in i0.Keys;
      assert FileBlock(b1, i1[j], bn) == FileBlock(b0, i0[j], bn);
    }
  }

  /** iappend of one directory entry. */
  method AddEntry(im: Image, e: Entry, ghost es: seq<Entry>) returns (ok: bool)
    requires im.Valid() && ROOTINO in im.inodes && ROOTINO < im.freeinode && Holds(im.blocks, im.inodes[ROOTINO], es)
    requires e.inum < 0x1_0000 && |e.name| == DIRSIZ
    modifies im`freeblock, im`blocks, im`inodes
    ensures ok ==> im.Valid() && ROOTINO in im.inodes && Holds(im.blocks, im.inodes[ROOTINO], es + [e])
                   && OthersSame(old(im.blocks), old(im.inodes), im.blocks, im.inodes, ROOTINO) && OnlyInode(old(im.inodes), im.inodes, ROOTINO)
    ensures im.freeblock <= old(im.freeblock) + 2 * DIRENT
    ensures !ok ==> im.freeblock > im.size || DIRENT * (|es| + 1) > MAXFILE * BSIZE
  {
    hide MapOk, Overlay, OthersSame, FileBlock, FileByte, Contents, Encode;
    ok := Iappend(im, ROOTINO, Encode(e));
    if ok { HoldsMore(old(im.blocks), old(im.inodes)[ROOTINO], im.blocks, im.inodes[ROOTINO], es, e); }
  }

  /** One turn of the loop over the files. */
  method AddFile(im: Image, inputs: seq<Input>, n: nat) returns (ok: bool)
    requires After(im, inputs, n) && n < |inputs|
    modifies im
    ensures ok ==> After(im, inputs, n + 1)
    ensures im.freeblock <= old(im.freeblock) + 2 * (DIRENT + |inputs[n].data|)
    ensures !ok ==> im.freeblock > im.size || |inputs[n].data| > MAXFILE * BSIZE || n + 2 >= NINODES
  {
    hide MapOk, OthersSame, FileBlock, Contents, Holds, Entries, Padded, FilesHold;
    var i: nat;
    ok, i := im.Ialloc(File);
    if !ok { return; }
    TypedNext(old(im.kind), old(im.nlink), n);
    ghost var b0, i0 := im.blocks, im.inodes;
    ok := AddEntry(im, Entry(i, Padded(inputs[n].name)), Entries(inputs, n));
    if !ok { return; }
    EntriesNext(inputs, n);
    FilesKept(b0, i0, im.blocks, im.inodes, ROOTINO, inputs, n);
    ghost var b1, i1 := im.blocks, im.inodes;
    ok := CopyIn(im, i, inputs[n].data);
    if !ok { return; }
    FilesKept(b1, i1, im.blocks, im.inodes, i, inputs, n);
    FilesNext(im.blocks, im.inodes, inputs, n);
    OtherHolds(b1, i1, im.blocks, im.inodes, i, ROOTINO, Entries(inputs, n + 1));
  }

  lemma TypedNext(kind: seq<Kind>, nlink: seq<nat>, n: nat)
    requires Typed(kind, nlink, n) && n + 2 < NINODES
    ensures Typed(kind[n + 2 := File], nlink[n + 2 := 1], n + 1)
  {
  }

  lemma FilesNext(blocks: Blocks, inodes: Inodes, inputs: seq<Input>, n: nat)
    requires FilesHold(blocks, inodes, inputs, n) && n < |inputs| && n + 2 in inodes && Contents(blocks, inodes[n + 2]) == inputs[n].data
    ensures FilesHold(blocks, inodes, inputs, n + 1)
  {
  }

  // ---- the finished image ----

  /** The size of the root directory is rounded up, to one block more if it is full. */
  function Rounded(size: nat): nat { (size / BSIZE + 1) * BSIZE }

  /** The root directory names itself and the files, each by its own inode. */
  ghost predicate RootNames(blocks: Blocks, ip: Inode, inputs: seq<Input>)
    requires NamesFit(inputs)
  {
    && ip.size == Rounded(DIRENT * (|inputs| + 2))
    && forall k: nat :: EntryAt(blocks, ip, k) == if k < |inputs| + 2 then Entries(inputs, |inputs|)[k] else NoEntry()
  }

  lemma RootRounded(blocks: Blocks, ip: Inode, inputs: seq<Input>)
    requires NamesFit(inputs) && Holds(blocks, ip, Entries(inputs, |inputs|))
    ensures RootNames(blocks, ip.(size := Rounded(ip.size)), inputs)
  {
    var ip' := ip.(size := Rounded(ip.size));
    forall k: nat
      ensures EntryAt(blocks, ip', k) == EntryAt(blocks, ip, k)
    {
      forall j | 0 <= j < DIRENT
        ensures Raw(blocks, ip', k)[j] == Raw(blocks, ip, k)[j]
      {
        assert FileByte(blocks, ip', DIRENT * k + j) == FileByte(blocks, ip, DIRENT * k + j);
      }
      assert Raw(blocks, ip', k) == Raw(blocks, ip, k);
    }
  }

  lemma RootSize(n: nat)
    requires n <= NINODES
    ensures Rounded(DIRENT * n) % DIRENT == 0 && DIRENT * n < Rounded(DIRENT * n) <= MAXFILE * BSIZE
  {
  }

  /** Inode k of the entry number, if it has one. */
  lemma EntryInode(blocks: Blocks, ip: Inode, inputs: seq<Input>, k: nat)
    requires NamesFit(inputs) && RootNames(blocks, ip, inputs)
    ensures EntryAt(blocks, ip, k).inum == if k < 2 then ROOTINO else if k < |inputs| + 2 then k else 0
  {
    hide EntryAt;
  }

  lemma TreeClosed(v: View, nlink: seq<nat>, inputs: seq<Input>)
    requires NamesFit(inputs) && Typed(v.kind, nlink, |inputs|) && (forall i: nat :: i in v.inodes <==> i < NINODES)
    requires RootNames(v.blocks, v.inodes[ROOTINO], inputs)
    ensures Closed(v) && IsDir(v, ROOTINO)
  {
    hide EntryAt, Entries;
    RootSize(|inputs| + 2);
    forall d: nat, k: nat | IsDir(v, d) && DIRENT * k < v.inodes[d].size
      ensures var x := EntryAt(v.blocks, v.inodes[d], k).inum; x != 0 ==> x < |v.kind| && v.kind[x] != Free
    {
      EntryInode(v.blocks, v.inodes[ROOTINO], inputs, k);
    }
  }

  /** Each file has one link, the entry that has its number. */
  lemma OneLink(v: View, nlink: seq<nat>, inputs: seq<Input>, f: nat)
    requires NamesFit(inputs) && Typed(v.kind, nlink, |inputs|) && (forall i: nat :: i in v.inodes <==> i < NINODES)
    requires RootNames(v.blocks, v.inodes[ROOTINO], inputs) && 2 <= f < |inputs| + 2
    ensures Links(v, f) == {(ROOTINO, f)}
  {
    hide EntryAt, Entries;
    RootSize(|inputs| + 2);
    TreeClosed(v, nlink, inputs);
    EntryInode(v.blocks, v.inodes[ROOTINO], inputs, f);
    assert IsLink(v, ROOTINO, f, f);
    LinkBound(v, ROOTINO, f, f);
    forall d: nat, k: nat | IsLink(v, d, k, f)
      ensures d == ROOTINO && k == f
    {
      EntryInode(v.blocks, v.inodes[ROOTINO], inputs, k);
    }
  }

  lemma TreeCounted(v: View, nlink: seq<nat>, inputs: seq<Input>)
    requires NamesFit(inputs) && Typed(v.kind, nlink, |inputs|) && (forall i: nat :: i in v.inodes <==> i < NINODES)
    requires RootNames(v.blocks, v.inodes[ROOTINO], inputs)
    ensures CountedBut(v, nlink, 0)
  {
    hide Links, RootNames;
    forall f: nat | f < |v.kind| && Leaf(v.kind[f]) && f != 0
      ensures nlink[f] == |Links(v, f)|
    {
      OneLink(v, nlink, inputs, f);
    }
  }

  /** Name j is bound to inode j + 2. */
  lemma NameBound(blocks: Blocks, ip: Inode, inputs: seq<Input>, j: nat)
    requires NamesFit(inputs) && RootNames(blocks, ip, inputs) && j < |inputs| && |inputs| + 2 <= NINODES
    ensures Binds(blocks, ip, Str(Padded(inputs[j].name)), j + 2)
  {
    hide EntryAt, Padded, Str;
    RootSize(|inputs| + 2);
    assert Matches(blocks, ip, j + 2, Str(Padded(inputs[j].name)));
  }

  lemma PrefixEntries(inputs: seq<Input>, n: nat)
    requires n < |inputs| && NamesFit(inputs[..n]) && |inputs[n].name| <= DIRSIZ
    ensures NamesFit(inputs[..n + 1]) && Entries(inputs[..n + 1], n) == Entries(inputs[..n], n)
  {
    var a, b := inputs[..n], inputs[..n + 1];
    assert b[..n] == a;
    forall j | 0 <= j < n
      ensures a[j] == b[j]
    {
      assert b[..n][j] == b[j];
    }
  }

  lemma PrefixFiles(blocks: Blocks, inodes: Inodes, inputs: seq<Input>, n: nat)
    requires n < |inputs| && FilesHold(blocks, inodes, inputs[..n], n)
    ensures FilesHold(blocks, inodes, inputs[..n + 1], n)
  {
    var a, b := inputs[..n], inputs[..n + 1];
    assert b[..n] == a;
    forall j | 0 <= j < n
      ensures FileHolds(blocks, inodes, j, b[j].data)
    {
      assert b[..n][j] == b[j];
      assert FileHolds(blocks, inodes, j, a[j].data);
    }
  }

  /** An image with a root directory that holds itself only. */
  method RootImage() returns (im: Image)
    ensures fresh(im) && After(im, [], 0) && im.freeblock <= NMETA + 4 * DIRENT
  {
    hide MapOk, OthersSame, FileBlock, Contents, Holds, Padded, EntryAt;
    im := new Image(FSSIZE, NMETA, NINODES);
    var ok, root := im.Ialloc(Directory);
    EmptyHolds(im.blocks, im.inodes[root]);
    ghost var e0, e1 := Entry(ROOTINO, Padded(DOT)), Entry(ROOTINO, Padded(DOTDOT));
    ok := AddEntry(im, Entry(root, Padded(DOT)), []);
    ok := AddEntry(im, Entry(root, Padded(DOTDOT)), [] + [e0]);
    assert [] + [e0] + [e1] == Entries([], 0);
  }

  /** The bytes of the files and their entries. */
  function Bytes(inputs: seq<Input>, n: nat): nat
    requires n <= |inputs|
  {
    if n == 0 then 0 else Bytes(inputs, n - 1) + DIRENT + |inputs[n - 1].data|
  }

  lemma {:induction false} BytesMono(inputs: seq<Input>, m: nat, n: nat)
    requires m <= n <= |inputs|
    ensures Bytes(inputs, m) <= Bytes(inputs, n)
    ensures m < n ==> |inputs[m].data| <= Bytes(inputs, n)
    decreases n
  {
    if m < n { BytesMono(inputs, m, n - 1); }
  }

  /** Few enough files, with names and contents short enough; a coarse bound. */
  predicate Small(inputs: seq<Input>) {
    NamesFit(inputs) && |inputs| + 2 <= NINODES && NMETA + 4 * DIRENT + 2 * Bytes(inputs, |inputs|) <= FSSIZE
  }

  /** The loop over the files. */
  method AddFiles(im: Image, inputs: seq<Input>) returns (ok: bool)
    requires After(im, [], 0) && im.freeblock <= NMETA + 4 * DIRENT
    modifies im
    ensures ok ==> After(im, inputs, |inputs|)
    ensures Small(inputs) ==> ok
  {
    hide Image.Valid, Typed, Holds, Entries, FilesHold;
    var n := 0;
    assert inputs[..0] == [];
    while n < |inputs|
      invariant n <= |inputs| && After(im, inputs[..n], n)
      invariant im.freeblock <= NMETA + 4 * DIRENT + 2 * Bytes(inputs, n)
    {
      if |inputs[n].name| > DIRSIZ { return false; }
      BytesMono(inputs, n, |inputs|);
      BytesMono(inputs, n + 1, |inputs|);
      PrefixEntries(inputs, n);
      PrefixFiles(im.blocks, im.inodes, inputs, n);
      ok := AddFile(im, inputs[..n + 1], n);
      if !ok { return; }
      n := n + 1;
    }
    assert inputs[..n] == inputs;
    ok := true;
  }

  /** What is known of the image before it is handed over. */
  lemma Finished(blocks: Blocks, inodes: Inodes, kind: seq<Kind>, nlink: seq<nat>, inputs: seq<Input>)
    requires NamesFit(inputs) && Typed(kind, nlink, |inputs|) && (forall i: nat :: i in inodes <==> i < NINODES)
    requires RootNames(blocks, inodes[ROOTINO], inputs)
    requires inodes[0] == Inode(EMPTY, 0) && forall i: nat | |inputs| + 2 <= i < NINODES :: inodes[i] == Inode(EMPTY, 0)
    ensures var v := View(blocks, inodes, kind); Closed(v) && FreeEmpty(v) && CountedBut(v, nlink, 0)
  {
    hide RootNames, Closed, CountedBut;
    TreeClosed(View(blocks, inodes, kind), nlink, inputs);
    TreeCounted(View(blocks, inodes, kind), nlink, inputs);
  }

  lemma SizeKeepsFiles(blocks: Blocks, inodes: Inodes, inputs: seq<Input>, sz: nat)
    requires ROOTINO in inodes && FilesHold(blocks, inodes, inputs, |inputs|)
    ensures FilesHold(blocks, inodes[ROOTINO := inodes[ROOTINO].(size := sz)], inputs, |inputs|)
  {
    hide Contents;
    forall j | 0 <= j < |inputs|
      ensures FileHolds(blocks, inodes[ROOTINO := inodes[ROOTINO].(size := sz)], j, inputs[j].data)
    {
      assert FileHolds(blocks, inodes, j, inputs[j].data);
    }
  }

  /** mkfs: the image it leaves is a sound tree of files for the kernel, its root directory
      binds every name to an inode of its own, and that inode holds the file. */
  method MakeImage(inputs: seq<Input>) returns (r: Option<Tree>)
    ensures r.Some? ==>
      && fresh(r.value) && fresh(r.value.fs) && r.value.Valid() && r.value.fs.size == FSSIZE && r.value.fs.start == NMETA
      && NamesFit(inputs) && ROOTINO in r.value.fs.inodes && RootNames(r.value.fs.blocks, r.value.fs.inodes[ROOTINO], inputs)
      && FilesHold(r.value.fs.blocks, r.value.fs.inodes, inputs, |inputs|) && Typed(r.value.kind, r.value.nlink, |inputs|)
    ensures Small(inputs) ==> r.Some?
  {
    hide Small, MapOk, OthersSame, FileBlock, Contents, Holds, Entries, Padded, FilesHold, Closed, CountedBut, FreeEmpty, RootNames, EntryAt, Typed;
    var im := RootImage();
    var ok := AddFiles(im, inputs);
    if !ok { return None; }
    var off := Rounded(im.inodes[ROOTINO].size);
    RootRounded(im.blocks, im.inodes[ROOTINO], inputs);
    SizeKeepsFiles(im.blocks, im.inodes, inputs, off);
    SizeOnly(im.start, UsedBits(im.size, im.freeblock), im.blocks, im.inodes, ROOTINO, off);
    TypedLength(im.kind, im.nlink, |inputs|);
    im.inodes := im.inodes[ROOTINO := im.inodes[ROOTINO].(size := off)];
    var bits := im.Balloc();
    Finished(im.blocks, im.inodes, im.kind, im.nlink, inputs);
    var fs := new Fs(NMETA, 2 + NLOG, 2 + NLOG + NINODEBLOCKS, bits, im.blocks, im.inodes);
    var tree := new Tree(fs, im.kind, im.nlink);
    return Some(tree);
  }

  lemma TypedLength(kind: seq<Kind>, nlink: seq<nat>, n: nat)
    requires Typed(kind, nlink, n)
    ensures |kind| == NINODES && n + 2 <= NINODES
  {
  }
}
