/** The image builder riscv-os/mkfs/mkfs.c: ialloc, iappend and balloc over a disk
    that starts zeroed and is handed out block by block. */
module Mkfs {
  import opened FsBlocks
  import opened FsMap
  import opened FsDisk
  import opened FsFile
  import opened FileTree

  /** The bitmap that balloc(used) writes. */
  function UsedBits(size: nat, used: nat): seq<bool> {
    seq(size, b => b < used)
  }

  /** What a zeroed inode area holds. */
  function AllEmpty(n: nat): (inodes: Inodes)
    ensures forall i: nat :: i in inodes <==> i < n
    ensures forall i: nat | i < n :: inodes[i] == Inode(EMPTY, 0)
  {
    if n == 0 then map[] else AllEmpty(n - 1)[n - 1 := Inode(EMPTY, 0)]
  }

  lemma NothingNamed(start: nat, bits: seq<bool>, blocks: Blocks, inodes: Inodes)
    requires forall i | i in inodes :: inodes[i] == Inode(EMPTY, 0)
    ensures MapOk(start, bits, blocks, inodes)
  {
    forall i: nat, s: nat, a: nat
      ensures !Names(blocks, inodes, i, s, a)
    {
    }
  }

  class Image {
    const size: nat      // FSSIZE
    const start: nat     // nmeta
    var freeblock: nat
    var freeinode: nat
    var blocks: Blocks
    var inodes: Inodes
    var kind: seq<Kind>   // types, one for each inode that the inode blocks have room for
    var nlink: seq<nat>

    ghost predicate Valid()
      reads this
    {
      && 0 < start <= freeblock <= size < UINT && 0 < freeinode
      && (forall b: nat :: b in blocks <==> b < size)
      && (forall b: nat | freeblock <= b < size :: blocks[b] == Zero())
      && MapOk(start, UsedBits(size, freeblock), blocks, inodes)
      && |kind| == |nlink| && (forall i: nat :: i in inodes <==> i < |kind|)
      && (forall i: nat | freeinode <= i < |kind| :: inodes[i] == Inode(EMPTY, 0) && kind[i] == Free)
    }

    /** A zeroed image: no block is handed out beyond the metadata, every inode is free. */
    constructor (size: nat, start: nat, ninodes: nat)
      requires 0 < start <= size < UINT
      ensures Valid() && this.size == size && this.start == start && freeblock == start && freeinode == 1
      ensures kind == seq(ninodes, _ => Free) && nlink == seq(ninodes, _ => 0)
      ensures forall i: nat | i < ninodes :: inodes[i] == Inode(EMPTY, 0)
    {
      this.size, this.start := size, start;
      freeblock, freeinode := start, 1;
      blocks, inodes := map[], AllEmpty(ninodes);
      kind, nlink := seq(ninodes, _ => Free), seq(ninodes, _ => 0);
      new;
      var i := 0;
      while i < size
        invariant i <= size && (forall b: nat :: b in blocks <==> b < i) && forall b: nat | b < i :: blocks[b] == Zero()
        invariant freeblock == start && freeinode == 1 && inodes == AllEmpty(ninodes)
        invariant kind == seq(ninodes, _ => Free) && nlink == seq(ninodes, _ => 0)
      {
        blocks := blocks[i := Zero()];
        i := i + 1;
      }
      NothingNamed(start, UsedBits(size, start), blocks, inodes);
    }

    /** ialloc: a new number, with its type and one link. It does not test whether the
        inode blocks have room for it; false stands for a write behind them. */
    method Ialloc(want: Kind) returns (ok: bool, i: nat)
      requires Valid()
      modifies this`freeinode, this`inodes, this`kind, this`nlink
      ensures i == old(freeinode) && freeinode == i + 1 && (ok <==> i < |old(kind)|)
      ensures ok ==> Valid() && inodes == old(inodes) && inodes[i] == Inode(EMPTY, 0) && kind == old(kind)[i := want] && nlink == old(nlink)[i := 1]
    {
      i := freeinode;
      freeinode := freeinode + 1;
      ok := i < |kind|;
      if ok {
        assert inodes[i := Inode(EMPTY, 0)] == inodes;
        inodes, kind, nlink := inodes[i := Inode(EMPTY, 0)], kind[i := want], nlink[i := 1];
      }
    }

    /** balloc(freeblock): the bitmap marks exactly the blocks handed out, and with
        them every block that a file names. */
    method Balloc() returns (bits: seq<bool>)
      requires Valid() && freeblock < BPB
      ensures |bits| == size && forall b | 0 <= b < size :: bits[b] <==> b < freeblock
      ensures MapOk(start, bits, blocks, inodes)
    {
      bits := seq(size, _ => false);
      var i := 0;
      while i < freeblock
        invariant i <= freeblock && |bits| == size
        invariant forall b | 0 <= b < size :: bits[b] <==> b < i
      {
        bits := bits[i := true];
        i := i + 1;
      }
      assert bits == UsedBits(size, freeblock);
    }

    /** freeblock++; the image has no block from size on, and reading one there is
        fatal. */
    method TakeBlock() returns (ok: bool, a: nat)
      requires Valid()
      modifies this`freeblock
      ensures (ok <==> old(freeblock) < size) && freeblock == old(freeblock) + 1
      ensures ok ==> Valid() && a == old(freeblock)
                     && Fresh(start, UsedBits(size, freeblock), blocks, inodes, a)
    {
      a := freeblock;
      freeblock := freeblock + 1;
      ok := a < size;
      if ok {
        AllocKeeps(start, UsedBits(size, a), blocks, inodes, a);
        assert UsedBits(size, a)[a := true] == UsedBits(size, a + 1);
        assert blocks[a := Zero()] == blocks;
      }
    }

    /** The block of iappend's turn: file block fbn, taken if it is not there. */
    method BlockFor(i: nat, fbn: nat) returns (ok: bool, x: nat)
      requires Valid() && i in inodes && i < freeinode && fbn < MAXFILE
      modifies this`freeblock, this`blocks, this`inodes
      ensures ok ==> Valid() && SameFiles(old(blocks), old(inodes), blocks, inodes) && OnlyInode(old(inodes), inodes, i)
                     && i in inodes && x != 0 && Slot(blocks, inodes[i], fbn) == x
      ensures old(freeblock) <= freeblock <= old(freeblock) + 2
      ensures !ok ==> freeblock > size
    {
      hide MapOk, Fresh, SameFiles, FsMap.Linked, Slot, NamesGrow, SameSlots;
      ghost var b0, i0 := blocks, inodes;
      QuietNothing(b0, i0);
      MapLens(start, UsedBits(size, freeblock), blocks, inodes, i);
      ok := true;
      if fbn < NDIRECT {
        DirectSlot(blocks, inodes[i], fbn);
        x := inodes[i].addrs[fbn];
        if x == 0 {
          ok, x := TakeBlock();
          if !ok { return; }
          LinkDirect(start, UsedBits(size, freeblock), blocks, inodes, i, fbn, x);
          inodes := SetAddr(inodes, i, fbn, x);
        }
        return;
      }
      IndirectSlot(blocks, inodes[i]);
      if inodes[i].addrs[NDIRECT] == 0 {
        ok, x := TakeBlock();
        if !ok { return; }
        LinkIndirect(start, UsedBits(size, freeblock), blocks, inodes, i, x);
        inodes := SetAddr(inodes, i, NDIRECT, x);
      }
      ghost var b1, i1 := blocks, inodes;
      ok, x := EntryFor(i, fbn);
      if ok { SameFilesTrans(b0, i0, b1, i1, blocks, inodes); }
    }

    /** ... for an entry of the indirect block. */
    method EntryFor(i: nat, fbn: nat) returns (ok: bool, x: nat)
      requires Valid() && i in inodes && NDIRECT <= fbn < MAXFILE && Slot(blocks, inodes[i], INDIRECT) != 0
      modifies this`freeblock, this`blocks
      ensures ok ==> Valid() && SameFiles(old(blocks), inodes, blocks, inodes) && x != 0 && Slot(blocks, inodes[i], fbn) == x
      ensures old(freeblock) <= freeblock <= old(freeblock) + 1
      ensures !ok ==> freeblock > size
    {
      hide MapOk, Fresh, SameFiles, FsMap.Linked, Slot;
      ghost var b0 := blocks;
      QuietNothing(b0, inodes);
      NamedIn(start, UsedBits(size, freeblock), blocks, inodes, i, INDIRECT);
      IndirectSlot(blocks, inodes[i]);
      EntrySlot(blocks, inodes[i], fbn);
      var ind := inodes[i].addrs[NDIRECT];
      ok, x := true, Get(blocks[ind], fbn - NDIRECT);
      if x == 0 {
        ok, x := TakeBlock();
        if !ok { return; }
        LinkEntry(start, UsedBits(size, freeblock), blocks, inodes, i, fbn, x);
        BelowFree(start, size, freeblock, blocks, inodes, i);
        blocks := SetEntry(blocks, ind, fbn, x);
      }
    }
  }

  /** What one turn of iappend's loop puts into the image, or that it fails. */
  method AppendPiece(im: Image, i: nat, off: nat, piece: seq<Byte>) returns (ok: bool)
    requires im.Valid() && i in im.inodes && i < im.freeinode && off / BSIZE < MAXFILE && off % BSIZE + |piece| <= BSIZE
    modifies im`freeblock, im`blocks, im`inodes
    ensures ok ==> im.Valid() && i in im.inodes && im.inodes[i].size == old(im.inodes)[i].size && OnlyInode(old(im.inodes), im.inodes, i)
                   && Wrote(old(im.blocks), old(im.inodes), im.blocks, im.inodes, i, off, piece)
    ensures old(im.freeblock) <= im.freeblock <= old(im.freeblock) + 2
    ensures !ok ==> im.freeblock > im.size
  {
    hide MapOk, SameFiles, SameSlots, FileWritten, FileBlock, Overlay, OthersSame, Slot, Patch;
    ghost var b0, i0 := im.blocks, im.inodes;
    var x: nat;
    ok, x := im.BlockFor(i, off / BSIZE);
    if !ok { return; }
    SameFilesMean(b0, i0, im.blocks, im.inodes, i);
    WroteNothing(b0, i0, im.blocks, im.inodes, i, off);
    ghost var b1, i1 := im.blocks, im.inodes;
    ghost var bits := UsedBits(im.size, im.freeblock);
    NamedIn(im.start, bits, b1, i1, i, off / BSIZE);
    DataBelowFree(im.start, im.size, im.freeblock, b1, i1, i, off / BSIZE);
    BlockAt(b1, i1[i], off / BSIZE);
    var d := Patch(im.blocks[x], off % BSIZE, piece);
    WriteData(im.start, bits, b1, i1, i, off / BSIZE, d);
    im.blocks := im.blocks[x := d];
    PatchWrote(b1, i1, im.blocks, i, off, piece);
    WroteMore(b0, i0, b1, i1, im.blocks, im.inodes, i, off, [], off, piece);
    assert [] + piece == piece;
  }

  lemma DataBelowFree(start: nat, size: nat, used: nat, blocks: Blocks, inodes: Inodes, i: nat, s: nat)
    requires MapOk(start, UsedBits(size, used), blocks, inodes) && i in inodes && s < MAXFILE && Slot(blocks, inodes[i], s) != 0
    ensures Slot(blocks, inodes[i], s) < used
  {
    assert Names(blocks, inodes, i, s, Slot(blocks, inodes[i], s));
  }

  /** Bytes written at the end of a file, with the size to match, are appended. */
  lemma Appended(b0: Blocks, ip0: Inode, b1: Blocks, ip1: Inode, s: seq<Byte>)
    requires Overlay(b0, ip0, b1, ip1, ip0.size, s) && ip1.size == ip0.size + |s|
    ensures Contents(b1, ip1) == Contents(b0, ip0) + s
  {
    hide FileByte;
    forall x | 0 <= x < ip1.size
      ensures Contents(b1, ip1)[x] == (Contents(b0, ip0) + s)[x]
    {
      assert FileByte(b1, ip1, x) == if ip0.size <= x < ip0.size + |s| then s[x - ip0.size] else FileByte(b0, ip0, x);
    }
  }

  /** iappend: the file's contents are the old contents followed by s, and no other
      file has changed. It fails only for a file that gets too long or on an image
      without blocks left. */
  method Iappend(im: Image, i: nat, s: seq<Byte>) returns (ok: bool)
    requires im.Valid() && i in im.inodes && i < im.freeinode
    modifies im`freeblock, im`blocks, im`inodes
    ensures ok ==> im.Valid() && i in im.inodes && im.inodes[i].size == old(im.inodes)[i].size + |s|
                   && Contents(im.blocks, im.inodes[i]) == Contents(old(im.blocks), old(im.inodes)[i]) + s
                   && Wrote(old(im.blocks), old(im.inodes), im.blocks, im.inodes, i, old(im.inodes)[i].size, s)
                   && OnlyInode(old(im.inodes), im.inodes, i)
    ensures old(im.freeblock) <= im.freeblock <= old(im.freeblock) + 2 * |s|
    ensures !ok ==> im.freeblock > im.size || old(im.inodes)[i].size + |s| > MAXFILE * BSIZE
  {
    hide MapOk, Overlay, OthersSame, FileBlock, FileByte, Contents, Slot, SameFiles;
    ghost var b0, i0 := im.blocks, im.inodes;
    QuietNothing(b0, i0);
    var off := im.inodes[i].size;
    WroteNothing(b0, i0, b0, i0, i, off);
    var n := 0;
    while n < |s|
      invariant n <= |s| && im.Valid() && i in im.inodes && im.inodes[i].size == i0[i].size && off == i0[i].size + n
      invariant Wrote(b0, i0, im.blocks, im.inodes, i, i0[i].size, s[..n]) && OnlyInode(i0, im.inodes, i)
      invariant old(im.freeblock) <= im.freeblock <= old(im.freeblock) + 2 * n
    {
      var fbn := off / BSIZE;
      if fbn >= MAXFILE { return false; }
      var n1 := if |s| - n < (fbn + 1) * BSIZE - off then |s| - n else (fbn + 1) * BSIZE - off;
      ghost var b1, i1 := im.blocks, im.inodes;
      ok := AppendPiece(im, i, off, s[n..n + n1]);
      if !ok { return; }
      WroteMore(b0, i0, b1, i1, im.blocks, im.inodes, i, i0[i].size, s[..n], off, s[n..n + n1]);
      assert s[..n] + s[n..n + n1] == s[..n + n1];
      n, off := n + n1, off + n1;
    }
    assert s[..n] == s;
    SizeOnly(im.start, UsedBits(im.size, im.freeblock), im.blocks, im.inodes, i, off);
    SizeWrote(b0, i0, im.blocks, im.inodes, i, i0[i].size, s, off);
    im.inodes := im.inodes[i := im.inodes[i].(size := off)];
    Appended(b0, i0[i], im.blocks, im.inodes[i], s);
    ok := true;
  }

  /** A named block has been handed out. */
  lemma BelowFree(start: nat, size: nat, used: nat, blocks: Blocks, inodes: Inodes, i: nat)
    requires MapOk(start, UsedBits(size, used), blocks, inodes) && i in inodes && Slot(blocks, inodes[i], INDIRECT) != 0
    ensures |inodes[i].addrs| == NDIRECT + 1 && inodes[i].addrs[NDIRECT] < used
  {
    assert Names(blocks, inodes, i, INDIRECT, Slot(blocks, inodes[i], INDIRECT));
  }
}
