/** Which disk block holds which block of which file: inodes and indirect blocks of
    riscv-os/kernel/disk/fs.c, with the bitmap. */
module FsMap {
  import opened FsBlocks

  /** The part of struct inode that names blocks. */
  datatype Inode = Inode(addrs: seq<nat>, size: nat)

  const EMPTY: seq<nat> := [0, 0, 0, 0, 0, 0, 0, 0, 0, 0, 0, 0, 0]   // addrs of a new inode

  type Blocks = map<nat, Block>
  type Inodes = map<nat, Inode>

  const INDIRECT: nat := MAXFILE   // the slot of the indirect block itself

  /** The address in a slot: file block 0 .. MAXFILE-1, or the indirect block. 0 is none. */
  function Slot(blocks: Blocks, ip: Inode, s: nat): nat {
    if |ip.addrs| != NDIRECT + 1 then 0
    else if s < NDIRECT then ip.addrs[s]
    else if s == INDIRECT then ip.addrs[NDIRECT]
    else if s < MAXFILE && ip.addrs[NDIRECT] != 0 && ip.addrs[NDIRECT] in blocks
    then Get(blocks[ip.addrs[NDIRECT]], s - NDIRECT)
    else 0
  }

  /** Contents of block bn of a file; a block that is not there reads as zeros. */
  function FileBlock(blocks: Blocks, ip: Inode, bn: nat): Block {
    var a := Slot(blocks, ip, bn);
    if bn < MAXFILE && a != 0 && a in blocks then blocks[a] else Zero()
  }

  /** Block a is named by this slot of this inode. */
  predicate Names(blocks: Blocks, inodes: Inodes, i: nat, s: nat, a: nat) {
    i in inodes && s <= INDIRECT && Slot(blocks, inodes[i], s) == a && a != 0
  }

  /** Every named block is a data block that the bitmap marks, and is named once. */
  ghost predicate MapOk(start: nat, bits: seq<bool>, blocks: Blocks, inodes: Inodes) {
    && (forall i | i in inodes :: |inodes[i].addrs| == NDIRECT + 1)
    && (forall i: nat, s: nat, a: nat | Names(blocks, inodes, i, s, a) :: start <= a < |bits| && bits[a] && a in blocks)
    && (forall i: nat, s: nat, j: nat, t: nat, a: nat | Names(blocks, inodes, i, s, a) && Names(blocks, inodes, j, t, a) :: i == j && s == t)
  }

  /** Block a is marked, cleared and not named yet. */
  ghost predicate Fresh(start: nat, bits: seq<bool>, blocks: Blocks, inodes: Inodes, a: nat) {
    && a != 0 && start <= a < |bits| && a < UINT && bits[a] && a in blocks && blocks[a] == Zero()
    && forall i: nat, s: nat :: !Names(blocks, inodes, i, s, a)
  }

  ghost predicate SameSlots(blocks: Blocks, inodes: Inodes, blocks': Blocks, inodes': Inodes) {
    forall i: nat, s: nat, a: nat :: Names(blocks', inodes', i, s, a) == Names(blocks, inodes, i, s, a)
  }

  /** No file has changed. */
  ghost predicate SameFiles(blocks: Blocks, inodes: Inodes, blocks': Blocks, inodes': Inodes) {
    && inodes'.Keys == inodes.Keys
    && (forall i | i in inodes :: i in inodes' && inodes'[i].size == inodes[i].size)
    && forall i: nat, bn: nat | i in inodes && i in inodes' :: FileBlock(blocks', inodes'[i], bn) == FileBlock(blocks, inodes[i], bn)
  }

  /** Slots that name a block go on naming it. */
  ghost predicate NamesGrow(blocks: Blocks, inodes: Inodes, blocks': Blocks, inodes': Inodes) {
    forall i: nat, s: nat, a: nat | Names(blocks, inodes, i, s, a) :: Names(blocks', inodes', i, s, a)
  }

  /** Every inode but i is untouched. */
  ghost predicate OnlyInode(inodes: Inodes, inodes': Inodes, i: nat) {
    inodes'.Keys == inodes.Keys && forall j | j in inodes && j != i :: j in inodes' && inodes'[j] == inodes[j]
  }

  lemma SameFilesTrans(b0: Blocks, i0: Inodes, b1: Blocks, i1: Inodes, b2: Blocks, i2: Inodes)
    requires SameFiles(b0, i0, b1, i1) && SameFiles(b1, i1, b2, i2)
    ensures SameFiles(b0, i0, b2, i2)
  {
  }

  /** Changing a block that is no indirect block changes no slot. */
  lemma SlotFrame(blocks: Blocks, blocks': Blocks, ip: Inode, a: nat, s: nat)
    requires blocks'.Keys == blocks.Keys && forall b | b in blocks && b != a :: blocks'[b] == blocks[b]
    requires Slot(blocks, ip, INDIRECT) != a || a == 0
    ensures Slot(blocks', ip, s) == Slot(blocks, ip, s)
  {
  }

  lemma NamesFrame(blocks: Blocks, blocks': Blocks, inodes: Inodes, a: nat)
    requires blocks'.Keys == blocks.Keys && forall b | b in blocks && b != a :: blocks'[b] == blocks[b]
    requires forall i: nat :: !Names(blocks, inodes, i, INDIRECT, a)
    ensures SameSlots(blocks, inodes, blocks', inodes)
    ensures forall i, s: nat | i in inodes :: Slot(blocks', inodes[i], s) == Slot(blocks, inodes[i], s)
  {
    forall i, s: nat | i in inodes
      ensures Slot(blocks', inodes[i], s) == Slot(blocks, inodes[i], s)
    {
      assert !Names(blocks, inodes, i, INDIRECT, a);
      SlotFrame(blocks, blocks', inodes[i], a, s);
    }
  }

  /** balloc: marking and clearing a free block touches no file. */
  lemma AllocKeeps(start: nat, bits: seq<bool>, blocks: Blocks, inodes: Inodes, a: nat)
    requires MapOk(start, bits, blocks, inodes) && a != 0 && start <= a < |bits| && a < UINT && !bits[a] && a in blocks
    ensures MapOk(start, bits[a := true], blocks[a := Zero()], inodes)
    ensures Fresh(start, bits[a := true], blocks[a := Zero()], inodes, a)
    ensures SameFiles(blocks, inodes, blocks[a := Zero()], inodes)
    ensures SameSlots(blocks, inodes, blocks[a := Zero()], inodes)
  {
    var blocks' := blocks[a := Zero()];
    forall i: nat, s: nat
      ensures !Names(blocks, inodes, i, s, a)
    {
    }
    NamesFrame(blocks, blocks', inodes, a);
    forall i: nat, bn: nat | i in inodes
      ensures FileBlock(blocks', inodes[i], bn) == FileBlock(blocks, inodes[i], bn)
    {
      if bn < MAXFILE { assert !Names(blocks, inodes, i, bn, a); }
    }
  }

  /** Slot s of inode i has come to name block a, which was fresh; no other slot has
      changed. */
  ghost predicate Linked(blocks: Blocks, inodes: Inodes, blocks': Blocks, inodes': Inodes, i: nat, s: nat, a: nat) {
    forall j: nat, t: nat, b: nat ::
      Names(blocks', inodes', j, t, b) <==> Names(blocks, inodes, j, t, b) || (j == i && t == s && b == a)
  }

  lemma LinkedOk(start: nat, bits: seq<bool>, blocks: Blocks, inodes: Inodes, blocks': Blocks, inodes': Inodes, i: nat, s: nat, a: nat)
    requires MapOk(start, bits, blocks, inodes) && Fresh(start, bits, blocks, inodes, a)
    requires Linked(blocks, inodes, blocks', inodes', i, s, a) && blocks'.Keys == blocks.Keys
    requires forall j | j in inodes' :: |inodes'[j].addrs| == NDIRECT + 1
    ensures MapOk(start, bits, blocks', inodes')
  {
  }

  /** ip->addrs[k] = a, for a direct block or the indirect block. */
  function SetAddr(inodes: Inodes, i: nat, k: nat, a: nat): Inodes
    requires i in inodes && |inodes[i].addrs| == NDIRECT + 1 && k <= NDIRECT
  {
    inodes[i := inodes[i].(addrs := inodes[i].addrs[k := a])]
  }

  lemma LinkDirect(start: nat, bits: seq<bool>, blocks: Blocks, inodes: Inodes, i: nat, s: nat, a: nat)
    requires MapOk(start, bits, blocks, inodes) && Fresh(start, bits, blocks, inodes, a)
    requires i in inodes && s < NDIRECT && Slot(blocks, inodes[i], s) == 0
    ensures var inodes' := SetAddr(inodes, i, s, a);
            && MapOk(start, bits, blocks, inodes') && SameFiles(blocks, inodes, blocks, inodes')
            && Linked(blocks, inodes, blocks, inodes', i, s, a) && Slot(blocks, inodes'[i], s) == a
  {
    var inodes' := SetAddr(inodes, i, s, a);
    forall j: nat, t: nat | j in inodes
      ensures Slot(blocks, inodes'[j], t) == if j == i && t == s then a else Slot(blocks, inodes[j], t)
    {
    }
    assert Linked(blocks, inodes, blocks, inodes', i, s, a);
    LinkedOk(start, bits, blocks, inodes, blocks, inodes', i, s, a);
  }

  lemma LinkIndirect(start: nat, bits: seq<bool>, blocks: Blocks, inodes: Inodes, i: nat, a: nat)
    requires MapOk(start, bits, blocks, inodes) && Fresh(start, bits, blocks, inodes, a)
    requires i in inodes && Slot(blocks, inodes[i], INDIRECT) == 0
    ensures var inodes' := SetAddr(inodes, i, NDIRECT, a);
            && MapOk(start, bits, blocks, inodes') && SameFiles(blocks, inodes, blocks, inodes')
            && Linked(blocks, inodes, blocks, inodes', i, INDIRECT, a) && Slot(blocks, inodes'[i], INDIRECT) == a
  {
    var inodes' := SetAddr(inodes, i, NDIRECT, a);
    forall j: nat, t: nat | j in inodes
      ensures Slot(blocks, inodes'[j], t) == if j == i && t == INDIRECT then a else Slot(blocks, inodes[j], t)
    {
      if j == i && NDIRECT <= t < MAXFILE { GetZero(t - NDIRECT); }
    }
    assert Linked(blocks, inodes, blocks, inodes', i, INDIRECT, a);
    LinkedOk(start, bits, blocks, inodes, blocks, inodes', i, INDIRECT, a);
  }

  /** a[bn - NDIRECT] = addr in the indirect block. */
  function SetEntry(blocks: Blocks, ind: nat, s: nat, a: nat): Blocks
    requires ind in blocks && NDIRECT <= s < MAXFILE && a < UINT
  {
    blocks[ind := Put(blocks[ind], s - NDIRECT, a)]
  }

  lemma EntrySlots(blocks: Blocks, inodes: Inodes, i: nat, s: nat, a: nat, j: nat, t: nat)
    requires i in inodes && |inodes[i].addrs| == NDIRECT + 1 && inodes[i].addrs[NDIRECT] != 0 && inodes[i].addrs[NDIRECT] in blocks
    requires NDIRECT <= s < MAXFILE && a < UINT && j in inodes
    requires j != i ==> Slot(blocks, inodes[j], INDIRECT) != inodes[i].addrs[NDIRECT]
    ensures var blocks' := SetEntry(blocks, inodes[i].addrs[NDIRECT], s, a);
            Slot(blocks', inodes[j], t) == if j == i && t == s then a else Slot(blocks, inodes[j], t)
  {
    var ind := inodes[i].addrs[NDIRECT];
    if j == i && NDIRECT <= t < MAXFILE { GetPut(blocks[ind], s - NDIRECT, a, t - NDIRECT); }
  }

  lemma LinkEntry(start: nat, bits: seq<bool>, blocks: Blocks, inodes: Inodes, i: nat, s: nat, a: nat)
    requires MapOk(start, bits, blocks, inodes) && Fresh(start, bits, blocks, inodes, a)
    requires i in inodes && NDIRECT <= s < MAXFILE && Slot(blocks, inodes[i], s) == 0 && Slot(blocks, inodes[i], INDIRECT) != 0
    ensures inodes[i].addrs[NDIRECT] in blocks
    ensures var blocks' := SetEntry(blocks, inodes[i].addrs[NDIRECT], s, a);
            && MapOk(start, bits, blocks', inodes) && SameFiles(blocks, inodes, blocks', inodes)
            && Linked(blocks, inodes, blocks', inodes, i, s, a) && Slot(blocks', inodes[i], s) == a
  {
    hide Get, Put;
    var ind := inodes[i].addrs[NDIRECT];
    assert Names(blocks, inodes, i, INDIRECT, ind);
    var blocks' := SetEntry(blocks, ind, s, a);
    forall j: nat, t: nat | j in inodes
      ensures Slot(blocks', inodes[j], t) == if j == i && t == s then a else Slot(blocks, inodes[j], t)
    {
      if j != i { assert !Names(blocks, inodes, j, INDIRECT, ind); }
      EntrySlots(blocks, inodes, i, s, a, j, t);
    }
    LinkedOk(start, bits, blocks, inodes, blocks', inodes, i, s, a);
    forall j: nat, t: nat | j in inodes
      ensures FileBlock(blocks', inodes[j], t) == FileBlock(blocks, inodes[j], t)
    {
      if t < MAXFILE {
        assert !Names(blocks, inodes, j, t, ind);
        assert !Names(blocks, inodes, i, INDIRECT, a);
      }
    }
  }

  /** File block bn of inode i now holds d; no other block of any file has changed. */
  ghost predicate FileWritten(blocks: Blocks, inodes: Inodes, blocks': Blocks, i: nat, bn: nat, d: Block) {
    forall j: nat, t: nat | j in inodes ::
      FileBlock(blocks', inodes[j], t) == if j == i && t == bn then d else FileBlock(blocks, inodes[j], t)
  }

  lemma WriteData(start: nat, bits: seq<bool>, blocks: Blocks, inodes: Inodes, i: nat, bn: nat, d: Block)
    requires MapOk(start, bits, blocks, inodes) && i in inodes && bn < MAXFILE && Slot(blocks, inodes[i], bn) != 0
    ensures Slot(blocks, inodes[i], bn) in blocks
    ensures var blocks' := blocks[Slot(blocks, inodes[i], bn) := d];
            && MapOk(start, bits, blocks', inodes) && SameSlots(blocks, inodes, blocks', inodes)
            && FileWritten(blocks, inodes, blocks', i, bn, d) && Slot(blocks', inodes[i], bn) == Slot(blocks, inodes[i], bn)
  {
    var a := Slot(blocks, inodes[i], bn);
    assert Names(blocks, inodes, i, bn, a);
    var blocks' := blocks[a := d];
    NamesFrame(blocks, blocks', inodes, a);
    forall j: nat, t: nat | j in inodes
      ensures FileBlock(blocks', inodes[j], t) == if j == i && t == bn then d else FileBlock(blocks, inodes[j], t)
    {
      if t < MAXFILE && !(j == i && t == bn) { assert !Names(blocks, inodes, j, t, a); }
    }
  }
}
