/** readi and writei of riscv-os/kernel/disk/fs.c and the chunk loop of filewrite
    (riscv-os/kernel/disk/file.c), against files as plain sequences of bytes. */
module FsFile {
  import opened Common
  import opened FsBlocks
  import opened FsMap
  import opened FsDisk

  /** Byte x of a file. */
  function FileByte(blocks: Blocks, ip: Inode, x: nat): Byte {
    FileBlock(blocks, ip, x / BSIZE)[x % BSIZE]
  }

  /** The bytes of a file. */
  ghost function Contents(blocks: Blocks, ip: Inode): seq<Byte> {
    seq(ip.size, x requires 0 <= x < ip.size => FileByte(blocks, ip, x))
  }

  /** The bytes s now stand at off; every other byte of the file is as before. */
  ghost predicate Overlay(b0: Blocks, ip0: Inode, b1: Blocks, ip1: Inode, off: nat, s: seq<Byte>) {
    forall x: nat :: FileByte(b1, ip1, x) == if off <= x < off + |s| then s[x - off] else FileByte(b0, ip0, x)
  }

  /** No other file has changed. */
  ghost predicate OthersSame(b0: Blocks, i0: Inodes, b1: Blocks, i1: Inodes, i: nat) {
    && i1.Keys == i0.Keys && i in i0
    && (forall j | j in i0 && j != i :: j in i1 && i1[j].size == i0[j].size)
    && forall j: nat, bn: nat | j in i0 && j in i1 && j != i :: FileBlock(b1, i1[j], bn) == FileBlock(b0, i0[j], bn)
  }

  /** Writing s at off in file i, and nothing else. */
  ghost predicate Wrote(b0: Blocks, i0: Inodes, b1: Blocks, i1: Inodes, i: nat, off: nat, s: seq<Byte>) {
    OthersSame(b0, i0, b1, i1, i) && i in i1 && Overlay(b0, i0[i], b1, i1[i], off, s)
  }

  /** memmove of s into a block at offset o. */
  function Patch(d: Block, o: nat, s: seq<Byte>): Block
    requires o + |s| <= BSIZE
  {
    d[..o] + s + d[o + |s|..]
  }

  lemma WroteNothing(b0: Blocks, i0: Inodes, b1: Blocks, i1: Inodes, i: nat, off: nat)
    requires SameFiles(b0, i0, b1, i1) && i in i0
    ensures Wrote(b0, i0, b1, i1, i, off, [])
  {
    hide FileBlock;
    assert i in i0.Keys;
  }

  lemma WroteMore(b0: Blocks, i0: Inodes, b1: Blocks, i1: Inodes, b2: Blocks, i2: Inodes, i: nat, off: nat, s: seq<Byte>, at: nat, r: seq<Byte>)
    requires Wrote(b0, i0, b1, i1, i, off, s) && Wrote(b1, i1, b2, i2, i, at, r) && at == off + |s|
    ensures Wrote(b0, i0, b2, i2, i, off, s + r)
  {
    hide FileBlock, FileByte;
  }

  lemma SameByte(at: nat, m: nat, x: nat)
    requires at % BSIZE + m <= BSIZE && x / BSIZE == at / BSIZE
    ensures at <= x < at + m <==> at % BSIZE <= x % BSIZE < at % BSIZE + m
    ensures at <= x < at + m ==> x - at == x % BSIZE - at % BSIZE
  {
  }

  lemma InBlock(at: nat, m: nat, x: nat)
    requires at % BSIZE + m <= BSIZE
    ensures at <= x < at + m ==> x / BSIZE == at / BSIZE
  {
  }

  /** A patched block is written bytes. */
  lemma PatchWrote(b0: Blocks, inodes: Inodes, b1: Blocks, i: nat, at: nat, s: seq<Byte>)
    requires i in inodes && at % BSIZE + |s| <= BSIZE
    requires FileWritten(b0, inodes, b1, i, at / BSIZE, Patch(FileBlock(b0, inodes[i], at / BSIZE), at % BSIZE, s))
    ensures Wrote(b0, inodes, b1, inodes, i, at, s)
  {
    hide FileBlock;
    forall x: nat
      ensures FileByte(b1, inodes[i], x) == if at <= x < at + |s| then s[x - at] else FileByte(b0, inodes[i], x)
    {
      InBlock(at, |s|, x);
      if x / BSIZE == at / BSIZE { SameByte(at, |s|, x); }
    }
  }

  /** ip->size = sz changes no block. */
  lemma SizeOnly(start: nat, bits: seq<bool>, blocks: Blocks, inodes: Inodes, i: nat, sz: nat)
    requires MapOk(start, bits, blocks, inodes) && i in inodes
    ensures MapOk(start, bits, blocks, inodes[i := inodes[i].(size := sz)])
    ensures forall j: nat, s: nat | j in inodes :: Slot(blocks, inodes[i := inodes[i].(size := sz)][j], s) == Slot(blocks, inodes[j], s)
    ensures forall j: nat, bn: nat | j in inodes :: FileBlock(blocks, inodes[i := inodes[i].(size := sz)][j], bn) == FileBlock(blocks, inodes[j], bn)
  {
    var inodes' := inodes[i := inodes[i].(size := sz)];
    forall j: nat, s: nat | j in inodes
      ensures Slot(blocks, inodes'[j], s) == Slot(blocks, inodes[j], s)
    {
    }
    forall j: nat, s: nat, a: nat
      ensures Names(blocks, inodes', j, s, a) == Names(blocks, inodes, j, s, a)
    {
    }
  }

  lemma SizeWrote(b0: Blocks, i0: Inodes, b1: Blocks, i1: Inodes, i: nat, off: nat, s: seq<Byte>, sz: nat)
    requires Wrote(b0, i0, b1, i1, i, off, s)
    requires forall j: nat, bn: nat | j in i1 :: FileBlock(b1, i1[i := i1[i].(size := sz)][j], bn) == FileBlock(b1, i1[j], bn)
    ensures Wrote(b0, i0, b1, i1[i := i1[i].(size := sz)], i, off, s)
  {
    hide FileBlock;
    var i2 := i1[i := i1[i].(size := sz)];
    forall x: nat
      ensures FileByte(b1, i2[i], x) == FileByte(b1, i1[i], x)
    {
      assert FileBlock(b1, i2[i], x / BSIZE) == FileBlock(b1, i1[i], x / BSIZE);
    }
    assert i2.Keys == i1.Keys;
  }

  // ---- which blocks are logged ----

  /** Addresses of file blocks first .. last. */
  ghost function DataSet(blocks: Blocks, ip: Inode, first: nat, last: nat): set<nat> {
    set bn: nat | first <= bn < last && Slot(blocks, ip, bn) != 0 :: Slot(blocks, ip, bn)
  }

  /** All that has been logged since `before` is bitmap blocks, the indirect block,
      and data blocks first .. last of file i. */
  ghost predicate LogOk(before: set<nat>, logged: set<nat>, bitmap: set<nat>, blocks: Blocks, ip: Inode, first: nat, last: nat) {
    logged <= before + bitmap + One(Slot(blocks, ip, INDIRECT)) + DataSet(blocks, ip, first, last)
  }

  lemma InDataSet(blocks: Blocks, ip: Inode, first: nat, last: nat, bn: nat)
    requires first <= bn < last
    ensures One(Slot(blocks, ip, bn)) <= DataSet(blocks, ip, first, last)
  {
  }

  /** Slots that name a block keep it, so what was in bounds stays in bounds. */
  lemma LogGrows(before: set<nat>, logged: set<nat>, bitmap: set<nat>, b0: Blocks, i0: Inodes, b1: Blocks, i1: Inodes, i: nat, first: nat, mid: nat, last: nat)
    requires i in i0 && i in i1 && NamesGrow(b0, i0, b1, i1) && first <= mid <= last <= MAXFILE
    requires LogOk(before, logged, bitmap, b0, i0[i], first, mid)
    ensures LogOk(before, logged, bitmap, b1, i1[i], first, last)
  {
    hide Slot;
    forall b | b in logged
      ensures b in before + bitmap + One(Slot(b1, i1[i], INDIRECT)) + DataSet(b1, i1[i], first, last)
    {
      if b in One(Slot(b0, i0[i], INDIRECT)) {
        assert Names(b0, i0, i, INDIRECT, b);
        assert Names(b1, i1, i, INDIRECT, b);
      } else if b in DataSet(b0, i0[i], first, mid) {
        var bn: nat :| first <= bn < mid && b == Slot(b0, i0[i], bn) && b != 0;
        assert Names(b0, i0, i, bn, b);
        assert Names(b1, i1, i, bn, b);
        InDataSet(b1, i1[i], first, last, bn);
      }
    }
  }

  lemma {:induction false} DataSetSize(blocks: Blocks, ip: Inode, first: nat, last: nat)
    requires first <= last
    ensures |DataSet(blocks, ip, first, last)| <= last - first
    decreases last - first
  {
    hide Slot;
    if first == last {
      assert DataSet(blocks, ip, first, last) == {};
    } else {
      DataSetSize(blocks, ip, first, last - 1);
      assert DataSet(blocks, ip, first, last) == DataSet(blocks, ip, first, last - 1) + One(Slot(blocks, ip, last - 1));
    }
  }

  // ---- writei ----

  /** One turn of writei's loop: the bytes `piece` at position `at`. They are logged if
      they are the whole of what was to be copied; otherwise the turn ends the loop. */
  method WritePiece(fs: Fs, i: nat, at: nat, piece: seq<Byte>, whole: bool) returns (ok: bool)
    requires fs.Valid() && i in fs.inodes && at / BSIZE < MAXFILE && at % BSIZE + |piece| <= BSIZE
    modifies fs
    ensures fs.Valid() && i in fs.inodes && fs.inodes[i].size == old(fs.inodes)[i].size && OnlyInode(old(fs.inodes), fs.inodes, i)
    ensures Wrote(old(fs.blocks), old(fs.inodes), fs.blocks, fs.inodes, i, at, if ok then piece else [])
    ensures NamesGrow(old(fs.blocks), old(fs.inodes), fs.blocks, fs.inodes)
    ensures !ok ==> fs.Full()
    ensures fs.logged <= old(fs.logged) + fs.BitmapSet() + One(Slot(fs.blocks, fs.inodes[i], INDIRECT)) + One(Slot(fs.blocks, fs.inodes[i], at / BSIZE))
    ensures AllLogged(fs.bmapstart, old(fs.bits), old(fs.blocks), old(fs.logged), fs.bits, fs.blocks, fs.logged, Unlogged(fs.blocks, fs.inodes[i], at, if whole || !ok then 0 else |piece|))
  {
    hide MapOk, SameFiles, SameSlots, NamesGrow, FileWritten, FileBlock, Overlay, OthersSame, Slot, Patch, AllLogged;
    ghost var b0, i0, l0 := fs.blocks, fs.inodes, fs.logged;
    var addr := fs.Bmap(i, at / BSIZE);
    SameFilesMean(b0, i0, fs.blocks, fs.inodes, i);
    WroteNothing(b0, i0, fs.blocks, fs.inodes, i, at);
    if addr == 0 { return false; }
    ghost var b1, i1, l1 := fs.blocks, fs.inodes, fs.logged;
    NamedIn(fs.start, fs.bits, b1, i1, i, at / BSIZE);
    BlockAt(b1, i1[i], at / BSIZE);
    var d := Patch(fs.blocks[addr], at % BSIZE, piece);
    WriteData(fs.start, fs.bits, b1, i1, i, at / BSIZE, d);
    fs.blocks := fs.blocks[addr := d];
    if whole { fs.logged := fs.logged + {addr}; }
    PatchWrote(b1, i1, fs.blocks, i, at, piece);
    WroteMore(b0, i0, b1, i1, fs.blocks, fs.inodes, i, at, [], at, piece);
    assert [] + piece == piece;
    GrowThenSame(b0, i0, b1, i1, fs.blocks);
    IndirectStays(b1, fs.blocks, i1, i);
    SameKeys(b0, b1, fs.size);
    PatchLogged(fs.bmapstart, fs.bits, b1, l1, fs.logged, addr, at % BSIZE, piece, whole);
    AllLoggedTrans(fs.bmapstart, old(fs.bits), b0, l0, fs.bits, b1, l1, fs.bits, fs.blocks, fs.logged, if whole || piece == [] then {} else {addr});
    ok := true;
  }

  /** The block that bytes copied at `at` before a failure stand in: it is not logged. */
  ghost function Unlogged(blocks: Blocks, ip: Inode, at: nat, spill: nat): set<nat> {
    if spill == 0 then {} else One(Slot(blocks, ip, at / BSIZE))
  }

  lemma PatchLogged(bmapstart: nat, bits: seq<bool>, b1: Blocks, l1: set<nat>, l2: set<nat>, addr: nat, o: nat, piece: seq<Byte>, whole: bool)
    requires addr in b1 && o + |piece| <= BSIZE && l2 == if whole then l1 + {addr} else l1
    ensures AllLogged(bmapstart, bits, b1, l1, bits, b1[addr := Patch(b1[addr], o, piece)], l2, if whole || piece == [] then {} else {addr})
  {
    if piece == [] { assert Patch(b1[addr], o, piece) == b1[addr]; }
  }

  lemma SameFilesMean(b0: Blocks, i0: Inodes, b1: Blocks, i1: Inodes, i: nat)
    requires SameFiles(b0, i0, b1, i1) && i in i0
    ensures i in i1 && i1[i].size == i0[i].size
  {
  }

  lemma BlockAt(blocks: Blocks, ip: Inode, bn: nat)
    requires bn < MAXFILE && Slot(blocks, ip, bn) != 0 && Slot(blocks, ip, bn) in blocks
    ensures FileBlock(blocks, ip, bn) == blocks[Slot(blocks, ip, bn)]
  {
  }

  lemma GrowThenSame(b0: Blocks, i0: Inodes, b1: Blocks, i1: Inodes, b2: Blocks)
    requires NamesGrow(b0, i0, b1, i1) && SameSlots(b1, i1, b2, i1)
    ensures NamesGrow(b0, i0, b2, i1)
  {
  }

  lemma IndirectStays(b1: Blocks, b2: Blocks, inodes: Inodes, i: nat)
    requires SameSlots(b1, inodes, b2, inodes) && i in inodes
    ensures Slot(b2, inodes[i], INDIRECT) == Slot(b1, inodes[i], INDIRECT)
  {
  }

  /** After one more piece the bound reaches one block further. */
  lemma LogPiece(before: set<nat>, logged0: set<nat>, logged: set<nat>, bitmap: set<nat>, b0: Blocks, i0: Inodes, b1: Blocks, i1: Inodes, i: nat, first: nat, bn: nat, mid: nat)
    requires i in i0 && i in i1 && NamesGrow(b0, i0, b1, i1) && first <= mid <= bn + 1 && first <= bn < MAXFILE
    requires LogOk(before, logged0, bitmap, b0, i0[i], first, mid)
    requires logged <= logged0 + bitmap + One(Slot(b1, i1[i], INDIRECT)) + One(Slot(b1, i1[i], bn))
    ensures LogOk(before, logged, bitmap, b1, i1[i], first, bn + 1)
  {
    hide Slot, NamesGrow;
    LogGrows(before, logged0, bitmap, b0, i0, b1, i1, i, first, mid, bn + 1);
    InDataSet(b1, i1[i], first, bn + 1, bn);
  }

  /** A turn keeps what the loop has established since the state b0, i0, bits0, l0. */
  method WriteTurn(fs: Fs, i: nat, at: nat, piece: seq<Byte>, whole: bool, ghost b0: Blocks, ghost i0: Inodes, ghost bits0: seq<bool>, ghost l0: set<nat>, ghost off: nat, ghost done: seq<Byte>, ghost mid: nat) returns (ok: bool)
    requires fs.Valid() && i in fs.inodes && i in i0 && at / BSIZE < MAXFILE && at % BSIZE + |piece| <= BSIZE && at == off + |done|
    requires forall b: nat :: b in b0 <==> b < fs.size
    requires fs.inodes[i].size == i0[i].size && OnlyInode(i0, fs.inodes, i)
    requires Wrote(b0, i0, fs.blocks, fs.inodes, i, off, done)
    requires off / BSIZE <= mid <= at / BSIZE + 1 && off / BSIZE <= at / BSIZE
    requires LogOk(l0, fs.logged, fs.BitmapSet(), fs.blocks, fs.inodes[i], off / BSIZE, mid)
    requires AllLogged(fs.bmapstart, bits0, b0, l0, fs.bits, fs.blocks, fs.logged, {})
    modifies fs
    ensures fs.Valid() && i in fs.inodes && fs.inodes[i].size == i0[i].size && OnlyInode(i0, fs.inodes, i)
    ensures Wrote(b0, i0, fs.blocks, fs.inodes, i, off, if ok then done + piece else done)
    ensures !ok ==> fs.Full()
    ensures LogOk(l0, fs.logged, fs.BitmapSet(), fs.blocks, fs.inodes[i], off / BSIZE, at / BSIZE + 1)
    ensures AllLogged(fs.bmapstart, bits0, b0, l0, fs.bits, fs.blocks, fs.logged, Unlogged(fs.blocks, fs.inodes[i], at, if whole || !ok then 0 else |piece|))
  {
    hide MapOk, NamesGrow, LogOk, Wrote, Slot, OnlyInode, AllLogged, Unlogged;
    ghost var b1, i1, l1, bits1 := fs.blocks, fs.inodes, fs.logged, fs.bits;
    ok := WritePiece(fs, i, at, piece, whole);
    LogPiece(l0, l1, fs.logged, fs.BitmapSet(), b1, i1, fs.blocks, fs.inodes, i, off / BSIZE, at / BSIZE, mid);
    OnlyTrans(i0, i1, fs.inodes, i);
    SameKeys(b0, b1, fs.size);
    AllLoggedTrans(fs.bmapstart, bits0, b0, l0, bits1, b1, l1, fs.bits, fs.blocks, fs.logged, Unlogged(fs.blocks, fs.inodes[i], at, if whole || !ok then 0 else |piece|));
    WroteMore(b0, i0, b1, i1, fs.blocks, fs.inodes, i, off, done, at, if ok then piece else []);
    assert done + [] == done;
  }

  /** One past the last block that len bytes from off touch. */
  function LastBlock(off: nat, len: nat): nat {
    if len == 0 then off / BSIZE else (off + len - 1) / BSIZE + 1
  }

  /** writei from memory of which the first avail bytes can be read. It refuses (-1)
      a hole before off and a file that would be too long, and then changes nothing.
      Otherwise it writes tot bytes at off, all of them unless the disk is full or
      they cannot be read, and nothing else in any file; but bytes that either_copyin
      has copied before it fails, up to the next block boundary, stay in the block.
      Every block changed has been given to log_write except the one these stand in. */
  method Writei(fs: Fs, i: nat, src: seq<Byte>, off: nat, avail: nat) returns (tot: int, ghost spill: nat)
    requires fs.Valid() && i in fs.inodes && off < UINT && |src| < UINT
    modifies fs
    ensures fs.Valid() && i in fs.inodes && OnlyInode(old(fs.inodes), fs.inodes, i)
    ensures tot < 0 <==> off > old(fs.inodes)[i].size || off + |src| > MAXFILE * BSIZE
    ensures tot < 0 ==> tot == -1 && fs.blocks == old(fs.blocks) && fs.inodes == old(fs.inodes) && fs.bits == old(fs.bits) && fs.logged == old(fs.logged)
    ensures tot >= 0 ==>
      && tot + spill <= |src| && tot <= avail && (tot < |src| ==> fs.Full() || avail < |src|)
      && (tot == 0 || tot == |src| || (off + tot) % BSIZE == 0)
      && (off % BSIZE + |src| <= BSIZE ==> tot == 0 || tot == |src|)
      && spill < BSIZE && (spill > 0 ==> tot + spill == avail < |src|) && (avail < |src| && !fs.Full() ==> tot + spill == avail)
      && Wrote(old(fs.blocks), old(fs.inodes), fs.blocks, fs.inodes, i, off, src[..tot + spill])
      && fs.inodes[i].size == Max(old(fs.inodes)[i].size, off + tot)
      && fs.InodeBlock(i) in fs.logged
      && AllLogged(fs.bmapstart, old(fs.bits), old(fs.blocks), old(fs.logged), fs.bits, fs.blocks, fs.logged, Unlogged(fs.blocks, fs.inodes[i], off + tot, spill))
      && LogOk(old(fs.logged), fs.logged - {fs.InodeBlock(i)}, fs.BitmapSet(), fs.blocks, fs.inodes[i], off / BSIZE, LastBlock(off, |src|))
  {
    hide MapOk, SameFiles, NamesGrow, LogOk, Wrote, Slot, LastBlock, OnlyInode, AllLogged, Unlogged;
    OnlyNothing(fs.inodes, i);
    if off > fs.inodes[i].size || (off + |src|) % UINT < off { return -1, 0; }
    if (off + |src|) % UINT > MAXFILE * BSIZE { return -1, 0; }
    ghost var b0, i0, l0, bits0 := fs.blocks, fs.inodes, fs.logged, fs.bits;
    StartLogged(fs.bmapstart, bits0, b0, l0);
    StartWrite(b0, i0, l0, fs.BitmapSet(), i, off);
    LastBlockBounds(off, |src|);
    var at := off;
    ghost var mid := off / BSIZE;
    tot, spill := 0, 0;
    while tot < |src|
      invariant 0 <= tot <= |src| && at == off + tot && tot <= avail && spill == 0
      invariant tot == 0 || tot == |src| || at % BSIZE == 0
      invariant off % BSIZE + |src| <= BSIZE ==> tot == 0 || tot == |src|
      invariant fs.Valid() && i in fs.inodes && fs.inodes[i].size == i0[i].size && OnlyInode(i0, fs.inodes, i)
      invariant Wrote(b0, i0, fs.blocks, fs.inodes, i, off, src[..tot])
      invariant off / BSIZE <= mid <= LastBlock(off, |src|) && (tot < |src| ==> mid <= at / BSIZE + 1)
      invariant LogOk(l0, fs.logged, fs.BitmapSet(), fs.blocks, fs.inodes[i], off / BSIZE, mid)
      invariant AllLogged(fs.bmapstart, bits0, b0, l0, fs.bits, fs.blocks, fs.logged, {})
    {
      var m := if |src| - tot < BSIZE - at % BSIZE then |src| - tot else BSIZE - at % BSIZE;
      PieceFits(off, |src|, at, m);
      var whole := tot + m <= avail;
      var n := if whole then m else avail - tot;
      var ok := WriteTurn(fs, i, at, src[tot..tot + n], whole, b0, i0, bits0, l0, off, src[..tot], mid);
      mid := at / BSIZE + 1;
      if !ok { break; }
      assert src[..tot] + src[tot..tot + n] == src[..tot + n];
      if !whole {
        spill := n;
        break;
      }
      tot, at := tot + m, at + m;
    }
    ghost var i9, l9 := fs.inodes, fs.logged;
    Iupdate(fs, i, at, b0, i0, off, src[..tot + spill], l0, mid, LastBlock(off, |src|));
    OnlyTrans(i0, i9, fs.inodes, i);
    InodeLogged(fs.bmapstart, bits0, b0, l0, fs.bits, fs.blocks, l9, fs.logged, i9[i], fs.inodes[i], at, spill);
  }

  lemma OnlyNothing(inodes: Inodes, i: nat)
    ensures OnlyInode(inodes, inodes, i)
  {
  }

  lemma OnlyTrans(i0: Inodes, i1: Inodes, i2: Inodes, i: nat)
    requires OnlyInode(i0, i1, i) && OnlyInode(i1, i2, i)
    ensures OnlyInode(i0, i2, i)
  {
  }

  lemma LastBlockBounds(off: nat, n: nat)
    requires off + n <= MAXFILE * BSIZE
    ensures off / BSIZE <= LastBlock(off, n) <= MAXFILE
  {
  }

  function Max(a: nat, b: nat): nat { if a < b then b else a }

  lemma PieceFits(off: nat, n: nat, at: nat, m: nat)
    requires off <= at && at + m <= off + n <= MAXFILE * BSIZE && 0 < m <= BSIZE - at % BSIZE
    ensures at / BSIZE < MAXFILE && at / BSIZE + 1 <= LastBlock(off, n) && off / BSIZE <= at / BSIZE
    ensures (at + m) / BSIZE <= at / BSIZE + 1
    ensures at / BSIZE <= (at + m) / BSIZE
    ensures m == BSIZE - at % BSIZE ==> (at + m) % BSIZE == 0
  {
  }

  lemma StartWrite(b0: Blocks, i0: Inodes, logged: set<nat>, bitmap: set<nat>, i: nat, off: nat)
    requires i in i0
    ensures Wrote(b0, i0, b0, i0, i, off, [])
    ensures LogOk(logged, logged, bitmap, b0, i0[i], off / BSIZE, off / BSIZE)
  {
    QuietNothing(b0, i0);
    WroteNothing(b0, i0, b0, i0, i, off);
  }

  lemma StartLogged(bmapstart: nat, bits: seq<bool>, b0: Blocks, l0: set<nat>)
    ensures AllLogged(bmapstart, bits, b0, l0, bits, b0, l0, {})
    ensures forall b: Blocks, ip: Inode, at: nat :: Unlogged(b, ip, at, 0) == {}
  {
  }

  /** Logging the inode's block, which holds its new size, loses nothing. */
  lemma InodeLogged(bmapstart: nat, bits0: seq<bool>, b0: Blocks, l0: set<nat>, bits: seq<bool>, b1: Blocks, l1: set<nat>, l2: set<nat>, ip1: Inode, ip2: Inode, at: nat, spill: nat)
    requires AllLogged(bmapstart, bits0, b0, l0, bits, b1, l1, Unlogged(b1, ip1, at, spill)) && l1 <= l2
    requires forall s: nat :: Slot(b1, ip2, s) == Slot(b1, ip1, s)
    ensures AllLogged(bmapstart, bits0, b0, l0, bits, b1, l2, Unlogged(b1, ip2, at, spill))
  {
    hide Slot;
  }

  /** The end of writei: a longer file gets its new size, and the inode is logged. */
  method Iupdate(fs: Fs, i: nat, at: nat, ghost b0: Blocks, ghost i0: Inodes, ghost off: nat, ghost s: seq<Byte>, ghost l0: set<nat>, ghost mid: nat, ghost last: nat)
    requires fs.Valid() && i in fs.inodes && i in i0 && fs.inodes[i].size == i0[i].size
    requires Wrote(b0, i0, fs.blocks, fs.inodes, i, off, s)
    requires off / BSIZE <= mid <= last <= MAXFILE && LogOk(l0, fs.logged, fs.BitmapSet(), fs.blocks, fs.inodes[i], off / BSIZE, mid)
    modifies fs`inodes, fs`logged
    ensures fs.Valid() && i in fs.inodes && fs.inodes[i].size == Max(i0[i].size, at) && OnlyInode(old(fs.inodes), fs.inodes, i)
    ensures Wrote(b0, i0, fs.blocks, fs.inodes, i, off, s)
    ensures LogOk(l0, fs.logged - {fs.InodeBlock(i)}, fs.BitmapSet(), fs.blocks, fs.inodes[i], off / BSIZE, last)
    ensures fs.logged == old(fs.logged) + {fs.InodeBlock(i)}
    ensures forall s: nat :: Slot(fs.blocks, fs.inodes[i], s) == Slot(fs.blocks, old(fs.inodes)[i], s)
  {
    hide MapOk, NamesGrow, Wrote, Slot, FileBlock, LogOk;
    ghost var i1 := fs.inodes;
    var sz := if at > fs.inodes[i].size then at else fs.inodes[i].size;
    SizeOnly(fs.start, fs.bits, fs.blocks, fs.inodes, i, sz);
    SizeWrote(b0, i0, fs.blocks, fs.inodes, i, off, s, sz);
    fs.inodes := fs.inodes[i := fs.inodes[i].(size := sz)];
    SizeGrows(fs.blocks, i1, fs.inodes);
    LogGrows(l0, fs.logged, fs.BitmapSet(), fs.blocks, i1, fs.blocks, fs.inodes, i, off / BSIZE, mid, last);
    fs.logged := fs.logged + {fs.InodeBlock(i)};
    LogLess(l0, fs.logged, fs.InodeBlock(i), old(fs.logged), fs.BitmapSet(), fs.blocks, fs.inodes[i], off / BSIZE, last);
  }

  lemma SizeGrows(blocks: Blocks, i0: Inodes, i1: Inodes)
    requires i1.Keys == i0.Keys && forall j: nat, s: nat | j in i0 :: j in i1 && Slot(blocks, i1[j], s) == Slot(blocks, i0[j], s)
    ensures NamesGrow(blocks, i0, blocks, i1)
  {
  }

  lemma LogLess(before: set<nat>, logged: set<nat>, b: nat, logged0: set<nat>, bitmap: set<nat>, blocks: Blocks, ip: Inode, first: nat, last: nat)
    requires LogOk(before, logged0, bitmap, blocks, ip, first, last) && logged == logged0 + {b}
    ensures LogOk(before, logged - {b}, bitmap, blocks, ip, first, last)
  {
  }

  // ---- readi ----

  ghost predicate ReadBytes(blocks: Blocks, ip: Inode, off: nat, dst: seq<Byte>) {
    forall j | 0 <= j < |dst| :: dst[j] == FileByte(blocks, ip, off + j)
  }

  lemma ReadPiece(blocks: Blocks, ip: Inode, off: nat, dst: seq<Byte>, at: nat, m: nat, d: Block)
    requires ReadBytes(blocks, ip, off, dst) && at == off + |dst| && at % BSIZE + m <= BSIZE
    requires FileBlock(blocks, ip, at / BSIZE) == d
    ensures ReadBytes(blocks, ip, off, dst + d[at % BSIZE..at % BSIZE + m])
  {
    hide FileBlock;
    var r := d[at % BSIZE..at % BSIZE + m];
    forall j | 0 <= j < |dst + r|
      ensures (dst + r)[j] == FileByte(blocks, ip, off + j)
    {
      if j >= |dst| {
        InBlock(at, m, off + j);
        SameByte(at, m, off + j);
      }
    }
  }

  /** How many bytes readi is to return. */
  function Want(size: nat, off: nat, n: nat): nat {
    if off > size || off + n >= UINT then 0 else if off + n > size then size - off else n
  }

  /** readi into memory of which the first room bytes can be written. It returns the
      bytes of the file from off on, up to its end; fewer only on a full disk, when a
      hole cannot be filled, or (-1, here ok == false) when there is no room, and then
      what fits has been copied. No file changes. */
  method Readi(fs: Fs, i: nat, off: nat, n: nat, room: nat) returns (ok: bool, dst: seq<Byte>)
    requires fs.Valid() && i in fs.inodes && fs.inodes[i].size <= MAXFILE * BSIZE && off < UINT && n < UINT
    modifies fs
    ensures fs.Valid() && SameFiles(old(fs.blocks), old(fs.inodes), fs.blocks, fs.inodes) && OnlyInode(old(fs.inodes), fs.inodes, i)
    ensures ReadBytes(old(fs.blocks), old(fs.inodes)[i], off, dst)
    ensures |dst| <= Want(old(fs.inodes)[i].size, off, n) && |dst| <= room
    ensures ok && |dst| < Want(old(fs.inodes)[i].size, off, n) ==> fs.Full()
    ensures !ok ==> |dst| == room < Want(old(fs.inodes)[i].size, off, n)
    ensures off > old(fs.inodes)[i].size || off + n >= UINT ==> ok && dst == []
    ensures |dst| <= n && (dst != [] ==> off + |dst| <= old(fs.inodes)[i].size)
    ensures off <= old(fs.inodes)[i].size && off + n < UINT && room >= n && !fs.Full() ==>
              ok && (|dst| == n || off + |dst| == old(fs.inodes)[i].size)
  {
    hide MapOk, SameFiles, NamesGrow, Slot, FileBlock, ReadBytes;
    ghost var b0, i0 := fs.blocks, fs.inodes;
    QuietNothing(b0, i0);
    ReadNone(b0, i0[i], off);
    ok, dst := true, [];
    if off > fs.inodes[i].size || (off + n) % UINT < off { return; }
    var left := n;
    if off + n > fs.inodes[i].size { left := fs.inodes[i].size - off; }
    var at := off;
    while left > 0
      invariant 0 <= left && at == off + |dst| && |dst| + left == Want(i0[i].size, off, n) && |dst| <= room && ok
      invariant fs.Valid() && SameFiles(b0, i0, fs.blocks, fs.inodes) && OnlyInode(i0, fs.inodes, i) && ReadBytes(b0, i0[i], off, dst)
    {
      ghost var b1, i1 := fs.blocks, fs.inodes;
      SameFilesMean(b0, i0, b1, i1, i);
      var addr := fs.Bmap(i, at / BSIZE);
      SameFilesTrans(b0, i0, b1, i1, fs.blocks, fs.inodes);
      if addr == 0 { return; }
      var m := if left < BSIZE - at % BSIZE then left else BSIZE - at % BSIZE;
      NamedIn(fs.start, fs.bits, fs.blocks, fs.inodes, i, at / BSIZE);
      BlockAt(fs.blocks, fs.inodes[i], at / BSIZE);
      SameBlock(b0, i0, fs.blocks, fs.inodes, i, at / BSIZE);
      ok := |dst| + m <= room;
      var c := if ok then m else room - |dst|;
      ReadPiece(b0, i0[i], off, dst, at, c, fs.blocks[addr]);
      dst := dst + fs.blocks[addr][at % BSIZE..at % BSIZE + c];
      if !ok { return; }
      left, at := left - m, at + m;
    }
  }

  lemma ReadNone(blocks: Blocks, ip: Inode, off: nat)
    ensures ReadBytes(blocks, ip, off, [])
  {
  }

  lemma SameBlock(b0: Blocks, i0: Inodes, b1: Blocks, i1: Inodes, i: nat, bn: nat)
    requires SameFiles(b0, i0, b1, i1) && i in i0
    ensures i in i1 && FileBlock(b1, i1[i], bn) == FileBlock(b0, i0[i], bn)
  {
  }

  /** What is read is that piece of the file, and all of it if it is as long. */
  lemma ReadIsSlice(blocks: Blocks, ip: Inode, off: nat, dst: seq<Byte>)
    requires ReadBytes(blocks, ip, off, dst) && off + |dst| <= ip.size
    ensures dst == Contents(blocks, ip)[off..off + |dst|]
    ensures off == 0 && |dst| == ip.size ==> dst == Contents(blocks, ip)
  {
    hide FileByte;
    assert dst == Contents(blocks, ip)[off..off + |dst|];
    if off == 0 && |dst| == ip.size { assert Contents(blocks, ip)[0..ip.size] == Contents(blocks, ip); }
  }

  /** What was written is read back. */
  lemma ReadWhatWasWritten(b0: Blocks, i0: Inodes, b1: Blocks, i1: Inodes, i: nat, off: nat, s: seq<Byte>, dst: seq<Byte>)
    requires Wrote(b0, i0, b1, i1, i, off, s) && ReadBytes(b1, i1[i], off, dst) && |dst| == |s|
    ensures dst == s
  {
    hide FileByte;
    forall j | 0 <= j < |s|
      ensures dst[j] == s[j]
    {
      assert FileByte(b1, i1[i], off + j) == s[j];
    }
  }

  // ---- filewrite ----

  const CHUNK: nat := ((MAXOPBLOCKS - 1 - 1 - 2) / 2) * BSIZE

  lemma ChunkSpan(off: nat, n: nat)
    requires n <= CHUNK
    ensures LastBlock(off, n) - off / BSIZE <= 14
    ensures off / BSIZE <= LastBlock(off, n)
  {
  }

  /** A chunk logs at most 14 data blocks, the indirect block, the inode's block and
      bitmap blocks. */
  lemma ChunkLogs(logged: set<nat>, inodeBlock: nat, bitmap: set<nat>, blocks: Blocks, ip: Inode, off: nat, n: nat)
    requires n <= CHUNK && LogOk({}, logged - {inodeBlock}, bitmap, blocks, ip, off / BSIZE, LastBlock(off, n))
    ensures |logged| <= 16 + |bitmap|
  {
    hide Slot, LastBlock;
    var first, last := off / BSIZE, LastBlock(off, n);
    ChunkSpan(off, n);
    DataSetSize(blocks, ip, first, last);
    var all := {inodeBlock} + bitmap + One(Slot(blocks, ip, INDIRECT)) + DataSet(blocks, ip, first, last);
    assert forall b | b in logged && b != inodeBlock :: b in logged - {inodeBlock};
    SubsetSize(logged, all);
  }

  lemma OneBitmapBlock(fs: Fs)
    requires fs.size <= BPB
    ensures |fs.BitmapSet()| <= 1
  {
    SubsetSize(fs.BitmapSet(), {fs.bmapstart});
  }

  /** One transaction of filewrite. On a disk of one bitmap block it logs fewer than
      MAXOPBLOCKS different blocks, however often it calls log_write. */
  method WriteChunk(fs: Fs, i: nat, piece: seq<Byte>, off: nat, avail: nat) returns (r: int, ghost spill: nat)
    requires fs.Valid() && i in fs.inodes && off < UINT && |piece| <= CHUNK
    modifies fs
    ensures fs.Valid() && i in fs.inodes
    ensures r < 0 <==> off > old(fs.inodes)[i].size || off + |piece| > MAXFILE * BSIZE
    ensures r < 0 ==> r == -1 && fs.blocks == old(fs.blocks) && fs.inodes == old(fs.inodes)
    ensures r >= 0 ==>
      && r + spill <= |piece| && r <= avail && (r < |piece| ==> fs.Full() || avail < |piece|)
      && (spill > 0 ==> r + spill == avail < |piece|)
      && Wrote(old(fs.blocks), old(fs.inodes), fs.blocks, fs.inodes, i, off, piece[..r + spill])
      && fs.inodes[i].size == Max(old(fs.inodes)[i].size, off + r)
      && fs.InodeBlock(i) in fs.logged
      && AllLogged(fs.bmapstart, old(fs.bits), old(fs.blocks), {}, fs.bits, fs.blocks, fs.logged, Unlogged(fs.blocks, fs.inodes[i], off + r, spill))
    ensures |fs.logged| <= 16 + |fs.BitmapSet()|
    ensures fs.size <= BPB ==> |fs.logged| <= 17 < MAXOPBLOCKS
  {
    hide LogOk, Wrote, MapOk, AllLogged, Unlogged;
    fs.logged := {};
    r, spill := Writei(fs, i, piece, off, avail);
    if r >= 0 { ChunkLogs(fs.logged, fs.InodeBlock(i), fs.BitmapSet(), fs.blocks, fs.inodes[i], off, |piece|); }
    if fs.size <= BPB { OneBitmapBlock(fs); }
  }

  /** filewrite on an inode, from memory of which the first avail bytes can be read:
      when it returns n, the file is as after one write of all n bytes at the old
      offset; when it returns -1, as after a write of those bytes by which the offset
      has moved, and of the bytes copied before a read of that memory failed. */
  method Filewrite(fs: Fs, i: nat, src: seq<Byte>, off: nat, avail: nat) returns (ret: int, off': nat, ghost spill: nat)
    requires fs.Valid() && i in fs.inodes && off < UINT && |src| < 0x8000_0000
    modifies fs
    ensures fs.Valid() && i in fs.inodes
    ensures off <= off' && off' + spill <= off + |src| && off' <= off + avail
    ensures spill > 0 ==> off' + spill == off + avail < off + |src|
    ensures Wrote(old(fs.blocks), old(fs.inodes), fs.blocks, fs.inodes, i, off, src[..off' - off + spill])
    ensures off' > off ==> fs.inodes[i].size == Max(old(fs.inodes)[i].size, off')
    ensures ret == if off' == off + |src| then |src| else -1
    ensures ret == -1 ==> off > old(fs.inodes)[i].size || off + |src| > MAXFILE * BSIZE || fs.Full() || avail < |src|
  {
    hide LogOk, Wrote, MapOk, SameFiles, NamesGrow, AllLogged, Unlogged;
    ghost var b0, i0 := fs.blocks, fs.inodes;
    QuietNothing(b0, i0);
    WroteNothing(b0, i0, b0, i0, i, off);
    off', spill := off, 0;
    var cnt := 0;
    while cnt < |src|
      invariant cnt <= |src| && cnt <= avail && spill == 0 && off' == off + cnt && off' < UINT
      invariant fs.Valid() && i in fs.inodes
      invariant Wrote(b0, i0, fs.blocks, fs.inodes, i, off, src[..cnt])
      invariant fs.inodes[i].size == (if cnt == 0 then i0[i].size else Max(i0[i].size, off'))
    {
      var n1 := if |src| - cnt > CHUNK then CHUNK else |src| - cnt;
      ghost var b1, i1 := fs.blocks, fs.inodes;
      var piece := src[cnt..cnt + n1];
      var r, more := WriteChunk(fs, i, piece, off', avail - cnt);
      if r > 0 { off' := off' + r; }
      if r >= 0 {
        spill := more;
        WroteMore(b0, i0, b1, i1, fs.blocks, fs.inodes, i, off, src[..cnt], off + cnt, piece[..r + spill]);
        assert src[..cnt] + piece[..r + spill] == src[..cnt + r + spill];
      }
      if r != n1 { break; }
      cnt := cnt + r;
    }
    ret := if cnt == |src| then |src| else -1;
  }
}
