/** balloc, bfree, bmap and itrunc of riscv-os/kernel/disk/fs.c in their own form,
    on the disk as the running operation sees it through cache and log. bmap is
    taken with bp->data, as itrunc has it. */
module FsDisk {
  import opened FsBlocks
  import opened FsMap

  /** Some slot below n of inode i names block b. */
  ghost predicate NamedFirst(blocks: Blocks, inodes: Inodes, i: nat, n: nat, b: nat) {
    exists s: nat :: s < n && Names(blocks, inodes, i, s, b)
  }

  /** Of what has changed since the first state, every block has been given to log_write,
      and the bitmap block of every bit, but for the blocks of `but`. */
  ghost predicate AllLogged(bmapstart: nat, bits0: seq<bool>, blocks0: Blocks, logged0: set<nat>, bits: seq<bool>, blocks: Blocks, logged: set<nat>, but: set<nat>) {
    && logged0 <= logged && |bits| == |bits0|
    && (forall b | b in blocks && b in blocks0 && blocks[b] != blocks0[b] :: b in logged || b in but)
    && (forall b: nat | b < |bits| && bits[b] != bits0[b] :: b / BPB + bmapstart in logged)
  }

  lemma AllLoggedTrans(bmapstart: nat, bits0: seq<bool>, blocks0: Blocks, logged0: set<nat>, bits1: seq<bool>, blocks1: Blocks, logged1: set<nat>, bits2: seq<bool>, blocks2: Blocks, logged2: set<nat>, but: set<nat>)
    requires blocks0.Keys == blocks1.Keys
    requires AllLogged(bmapstart, bits0, blocks0, logged0, bits1, blocks1, logged1, {})
    requires AllLogged(bmapstart, bits1, blocks1, logged1, bits2, blocks2, logged2, but)
    ensures AllLogged(bmapstart, bits0, blocks0, logged0, bits2, blocks2, logged2, but)
  {
    forall b | b in blocks2 && b in blocks0 && blocks2[b] != blocks0[b]
      ensures b in logged2 || b in but
    {
      assert b in blocks0.Keys;
    }
  }

  /** A block address as a set; 0 is none. */
  function One(a: nat): set<nat> { if a == 0 then {} else {a} }

  class Fs {
    const size: nat         // sb.size
    const start: nat        // first data block
    const inodestart: nat   // sb.inodestart
    const bmapstart: nat    // sb.bmapstart
    var bits: seq<bool>     // the bitmap, one bit per block
    var blocks: Blocks
    var inodes: Inodes
    ghost var logged: set<nat>   // blocks given to log_write

    /** A disk as the kernel finds it. */
    constructor (start: nat, inodestart: nat, bmapstart: nat, bits: seq<bool>, blocks: Blocks, inodes: Inodes)
      requires |bits| <= UINT && 0 < start <= |bits| && (forall b: nat :: b in blocks <==> b < |bits|)
      requires (forall b: nat | b < start :: bits[b]) && MapOk(start, bits, blocks, inodes)
      ensures Valid() && size == |bits| && this.start == start && this.inodestart == inodestart && this.bmapstart == bmapstart
      ensures this.bits == bits && this.blocks == blocks && this.inodes == inodes && logged == {}
    {
      this.size, this.start, this.inodestart, this.bmapstart := |bits|, start, inodestart, bmapstart;
      this.bits, this.blocks, this.inodes, this.logged := bits, blocks, inodes, {};
    }

    ghost predicate Valid()
      reads this
    {
      && |bits| == size <= UINT && 0 < start <= size
      && (forall b: nat :: b in blocks <==> b < size)
      && (forall b: nat | b < start :: bits[b])
      && MapOk(start, bits, blocks, inodes)
    }

    /** BBLOCK and IBLOCK */
    function BitmapBlock(b: nat): nat { b / BPB + bmapstart }
    function InodeBlock(i: nat): nat { i / 16 + inodestart }

    ghost predicate Full()
      reads this
    {
      forall b: nat | b < |bits| :: bits[b]
    }

    /** balloc: the first free block, marked and cleared; 0 when all are in use. */
    method Balloc() returns (a: nat)
      requires Valid()
      modifies this
      ensures Valid() && inodes == old(inodes)
      ensures a == 0 ==> Full() && bits == old(bits) && blocks == old(blocks) && logged == old(logged)
      ensures a != 0 ==>
        && a < size && !old(bits)[a] && (forall b: nat | b < a :: old(bits)[b])
        && bits == old(bits)[a := true] && blocks == old(blocks)[a := Zero()]
        && Fresh(start, bits, blocks, inodes, a)
        && SameFiles(old(blocks), inodes, blocks, inodes) && SameSlots(old(blocks), inodes, blocks, inodes)
        && logged == old(logged) + {BitmapBlock(a), a}
      ensures AllLogged(bmapstart, old(bits), old(blocks), old(logged), bits, blocks, logged, {})
    {
      hide MapOk, Fresh, SameFiles, SameSlots;
      var b := 0;
      while b < size
        invariant Valid() && bits == old(bits) && blocks == old(blocks) && inodes == old(inodes) && logged == old(logged)
        invariant forall c: nat | c < b && c < size :: bits[c]
      {
        var bi := 0;
        while bi < BPB && b + bi < size
          invariant bi <= BPB
          invariant Valid() && bits == old(bits) && blocks == old(blocks) && inodes == old(inodes) && logged == old(logged)
          invariant forall c: nat | c < b + bi && c < size :: bits[c]
        {
          if !bits[b + bi] {
            a := b + bi;
            AllocKeeps(start, bits, blocks, inodes, a);
            bits := bits[a := true];
            logged := logged + {BitmapBlock(a)};
            Bzero(a);
            return;
          }
          bi := bi + 1;
        }
        b := b + BPB;
      }
      a := 0;
    }

    /** bzero. */
    method Bzero(a: nat)
      modifies this`blocks, this`logged
      ensures blocks == old(blocks)[a := Zero()] && logged == old(logged) + {a}
    {
      blocks := blocks[a := Zero()];
      logged := logged + {a};
    }

    /** bfree; false stands for its panic. */
    method Bfree(b: nat) returns (ok: bool)
      requires b < |bits|
      modifies this`bits, this`logged
      ensures ok <==> old(bits)[b]
      ensures ok ==> bits == old(bits)[b := false] && logged == old(logged) + {BitmapBlock(b)}
      ensures !ok ==> bits == old(bits) && logged == old(logged)
    {
      if !bits[b] { return false; }
      bits := bits[b := false];
      logged := logged + {BitmapBlock(b)};
      ok := true;
    }

    /** All bitmap blocks of the disk. */
    ghost function BitmapSet(): set<nat> {
      set b: nat | b < size :: BitmapBlock(b)
    }

    /** Files are as before, and named blocks stay where they are. */
    ghost predicate Quiet(bits0: seq<bool>, blocks0: Blocks, inodes0: Inodes)
      reads this
    {
      && SameFiles(blocks0, inodes0, blocks, inodes) && NamesGrow(blocks0, inodes0, blocks, inodes)
      && |bits0| == |bits| && forall b | 0 <= b < |bits0| && bits0[b] :: bits[b]
    }

    /** if((addr = ip->addrs[k]) == 0) ip->addrs[k] = addr = balloc(): for a direct
        block, or with k = NDIRECT for the indirect block. */
    method EnsureAddr(i: nat, k: nat) returns (addr: nat)
      requires Valid() && i in inodes && |inodes[i].addrs| == NDIRECT + 1 && k <= NDIRECT
      modifies this
      ensures Valid() && Quiet(old(bits), old(blocks), old(inodes)) && OnlyInode(old(inodes), inodes, i)
      ensures if addr == 0 then Full() && blocks == old(blocks) && inodes == old(inodes)
              else i in inodes && Slot(blocks, inodes[i], if k == NDIRECT then INDIRECT else k) == addr
      ensures old(inodes)[i].addrs[k] != 0 ==> addr != 0 && blocks == old(blocks) && inodes == old(inodes) && bits == old(bits)
      ensures logged <= old(logged) + BitmapSet() + One(addr)
      ensures AllLogged(bmapstart, old(bits), old(blocks), old(logged), bits, blocks, logged, {})
    {
      hide MapOk, Fresh, SameFiles, SameSlots, NamesGrow, FsMap.Linked, Names, Get;
      ghost var b0, i0 := blocks, inodes;
      QuietNothing(b0, i0);
      addr := inodes[i].addrs[k];
      if addr == 0 {
        addr := Balloc();
        if addr == 0 { return; }
        ghost var b1 := blocks;
        AllocSlots(b0, b1, inodes, i, k);
        if k == NDIRECT {
          LinkIndirect(start, bits, blocks, inodes, i, addr);
        } else {
          LinkDirect(start, bits, blocks, inodes, i, k, addr);
        }
        inodes := SetAddr(inodes, i, k, addr);
        LinkQuiet(b0, i0, b1, blocks, inodes, i, if k == NDIRECT then INDIRECT else k, addr);
        InBitmapSet(addr);
      }
    }

    lemma InBitmapSet(b: nat)
      requires b < size
      ensures BitmapBlock(b) in BitmapSet()
    {
    }

    /** The same for an entry of the indirect block ind. */
    method EnsureEntry(i: nat, ind: nat, bn: nat) returns (addr: nat)
      requires Valid() && i in inodes && NDIRECT <= bn < MAXFILE && ind == Slot(blocks, inodes[i], INDIRECT) != 0
      modifies this
      ensures Valid() && Quiet(old(bits), old(blocks), old(inodes)) && inodes == old(inodes)
      ensures Slot(blocks, inodes[i], bn) == addr && Slot(blocks, inodes[i], INDIRECT) == ind && (addr == 0 ==> Full())
      ensures Slot(old(blocks), inodes[i], bn) != 0 ==> addr != 0 && blocks == old(blocks) && bits == old(bits)
      ensures logged <= old(logged) + BitmapSet() + One(addr) + One(ind)
      ensures AllLogged(bmapstart, old(bits), old(blocks), old(logged), bits, blocks, logged, {})
    {
      hide MapOk, Fresh, SameFiles, SameSlots, NamesGrow, FsMap.Linked, Names, Get;
      ghost var b1, i1 := blocks, inodes;
      NamedIn(start, bits, blocks, inodes, i, INDIRECT);
      QuietNothing(b1, i1);
      addr := Get(blocks[ind], bn - NDIRECT);
      if addr == 0 {
        addr := Balloc();
        if addr != 0 {
          ghost var b2 := blocks;
          AllocSlots(b1, b2, inodes, i, NDIRECT);
          LinkEntry(start, bits, blocks, inodes, i, bn, addr);
          blocks := SetEntry(blocks, ind, bn, addr);
          logged := logged + {ind};
          InBitmapSet(addr);
          LinkQuiet(b1, i1, b2, blocks, inodes, i, bn, addr);
        }
      }
    }

    /** bmap: the address of file block bn, allocated if need be; 0 when the disk is
        full. No file changes: a new block reads as zeros, as a missing one does. */
    method Bmap(i: nat, bn: nat) returns (addr: nat)
      requires Valid() && i in inodes && bn < MAXFILE
      modifies this
      ensures Valid() && Quiet(old(bits), old(blocks), old(inodes)) && OnlyInode(old(inodes), inodes, i)
      ensures i in inodes && Slot(blocks, inodes[i], bn) == addr && (addr == 0 ==> Full())
      ensures Slot(old(blocks), old(inodes)[i], bn) != 0 ==> addr != 0 && blocks == old(blocks) && inodes == old(inodes) && bits == old(bits)
      ensures logged <= old(logged) + BitmapSet() + One(addr) + One(Slot(blocks, inodes[i], INDIRECT))
      ensures AllLogged(bmapstart, old(bits), old(blocks), old(logged), bits, blocks, logged, {})
    {
      hide MapOk, Fresh, SameFiles, SameSlots, NamesGrow, FsMap.Linked, Names, Get, AllLogged;
      MapLens(start, bits, blocks, inodes, i);
      if bn < NDIRECT {
        addr := EnsureAddr(i, bn);
        return;
      }
      addr := EnsureAddr(i, NDIRECT);
      if addr == 0 { return; }
      ghost var b1, i1, bits1, l1 := blocks, inodes, bits, logged;
      addr := EnsureEntry(i, addr, bn);
      QuietTrans(old(blocks), old(inodes), b1, i1, blocks, inodes);
      SameKeys(old(blocks), b1, size);
      AllLoggedTrans(bmapstart, old(bits), old(blocks), old(logged), bits1, b1, l1, bits, blocks, logged, {});
    }

    /** itrunc: exactly the blocks of inode i become free, and bfree never panics. */
    method Itrunc(i: nat) returns (ok: bool)
      requires Valid() && i in inodes
      modifies this
      ensures ok && Valid() && blocks == old(blocks)
      ensures inodes == old(inodes)[i := Inode(seq(NDIRECT + 1, _ => 0), 0)]
      ensures FreedBits(old(bits), bits, old(blocks), old(inodes), i, INDIRECT + 1)
    {
      hide MapOk, FreedBits, Slot;
      ghost var bits0, b0, i0 := bits, blocks, inodes;
      MapLens(start, bits, blocks, inodes, i);
      FreedNone(bits0, b0, i0, i);
      var k := 0;
      while k < NDIRECT
        invariant k <= NDIRECT && blocks == b0 && Emptied(i0, inodes, i, k)
        invariant FreedBits(bits0, bits, b0, i0, i, k) && |bits| == size
      {
        FreedNext(start, bits0, bits, b0, i0, i, k);
        DirectSlot(b0, i0[i], k);
        if inodes[i].addrs[k] != 0 {
          ok := Bfree(inodes[i].addrs[k]);
          inodes := SetAddr(inodes, i, k, 0);
        }
        k := k + 1;
      }
      IndirectSlot(b0, i0[i]);
      if inodes[i].addrs[NDIRECT] != 0 {
        var ind := inodes[i].addrs[NDIRECT];
        NamedIn(start, bits0, b0, i0, i, INDIRECT);
        var j := 0;
        while j < NINDIRECT
          invariant j <= NINDIRECT && blocks == b0 && Emptied(i0, inodes, i, NDIRECT)
          invariant FreedBits(bits0, bits, b0, i0, i, NDIRECT + j) && |bits| == size
        {
          FreedNext(start, bits0, bits, b0, i0, i, NDIRECT + j);
          EntrySlot(b0, i0[i], NDIRECT + j);
          if Get(blocks[ind], j) != 0 {
            ok := Bfree(Get(blocks[ind], j));
          }
          j := j + 1;
        }
        FreedNext(start, bits0, bits, b0, i0, i, INDIRECT);
        ok := Bfree(ind);
        inodes := SetAddr(inodes, i, NDIRECT, 0);
      } else {
        NoEntries(bits0, bits, b0, i0, i);
      }
      EmptiedAll(i0, inodes, i);
      inodes := inodes[i := inodes[i].(size := 0)];
      logged := logged + {InodeBlock(i)};
      TruncOk(start, bits0, bits, b0, i0, i);
      ok := true;
    }
  }

  lemma SameKeys(b0: Blocks, b1: Blocks, n: nat)
    requires (forall b: nat :: b in b0 <==> b < n) && (forall b: nat :: b in b1 <==> b < n)
    ensures b0.Keys == b1.Keys
  {
  }

  // ---- itrunc ----

  /** The blocks that the first n slots of inode i name have been freed. */
  ghost predicate FreedBits(bits0: seq<bool>, bits: seq<bool>, blocks: Blocks, inodes: Inodes, i: nat, n: nat) {
    && |bits| == |bits0|
    && forall b: nat | b < |bits0| :: bits[b] == (bits0[b] && !NamedFirst(blocks, inodes, i, n, b))
  }

  lemma FreedNone(bits: seq<bool>, blocks: Blocks, inodes: Inodes, i: nat)
    ensures FreedBits(bits, bits, blocks, inodes, i, 0)
  {
  }

  /** The block in slot n is still marked, and freeing it is the next step. */
  lemma FreedNext(start: nat, bits0: seq<bool>, bits: seq<bool>, blocks: Blocks, inodes: Inodes, i: nat, n: nat)
    requires MapOk(start, bits0, blocks, inodes) && i in inodes && n <= INDIRECT && FreedBits(bits0, bits, blocks, inodes, i, n)
    ensures var a := Slot(blocks, inodes[i], n);
            if a == 0 then FreedBits(bits0, bits, blocks, inodes, i, n + 1)
            else a < |bits| && bits[a] && FreedBits(bits0, bits[a := false], blocks, inodes, i, n + 1)
  {
    hide Slot;
    var a := Slot(blocks, inodes[i], n);
    forall b: nat
      ensures NamedFirst(blocks, inodes, i, n + 1, b) <==> NamedFirst(blocks, inodes, i, n, b) || (b == a && a != 0)
    {
      if b == a && a != 0 { assert Names(blocks, inodes, i, n, b); }
    }
    if a != 0 {
      assert Names(blocks, inodes, i, n, a);
      assert !NamedFirst(blocks, inodes, i, n, a);
    }
  }

  lemma DirectSlot(blocks: Blocks, ip: Inode, k: nat)
    requires |ip.addrs| == NDIRECT + 1 && k < NDIRECT
    ensures Slot(blocks, ip, k) == ip.addrs[k]
  {
  }

  lemma IndirectSlot(blocks: Blocks, ip: Inode)
    requires |ip.addrs| == NDIRECT + 1
    ensures Slot(blocks, ip, INDIRECT) == ip.addrs[NDIRECT]
  {
  }

  lemma EntrySlot(blocks: Blocks, ip: Inode, s: nat)
    requires |ip.addrs| == NDIRECT + 1 && NDIRECT <= s < MAXFILE && ip.addrs[NDIRECT] != 0 && ip.addrs[NDIRECT] in blocks
    ensures Slot(blocks, ip, s) == Get(blocks[ip.addrs[NDIRECT]], s - NDIRECT)
  {
  }

  /** The first k addresses of inode i have been cleared. */
  ghost predicate Emptied(inodes: Inodes, inodes': Inodes, i: nat, k: nat) {
    && i in inodes && i in inodes' && inodes'[i].size == inodes[i].size
    && inodes' == inodes[i := inodes'[i]]
    && |inodes[i].addrs| == NDIRECT + 1 && |inodes'[i].addrs| == NDIRECT + 1
    && forall t | 0 <= t <= NDIRECT :: inodes'[i].addrs[t] == if t < k then 0 else inodes[i].addrs[t]
  }

  lemma EmptiedAll(inodes: Inodes, inodes': Inodes, i: nat)
    requires Emptied(inodes, inodes', i, NDIRECT + 1)
    ensures i in inodes' && inodes'[i].addrs == seq(NDIRECT + 1, _ => 0)
    ensures inodes'[i := inodes'[i].(size := 0)] == inodes[i := Inode(seq(NDIRECT + 1, _ => 0), 0)]
  {
  }

  lemma NoEntries(bits0: seq<bool>, bits: seq<bool>, blocks: Blocks, inodes: Inodes, i: nat)
    requires i in inodes && |inodes[i].addrs| == NDIRECT + 1 && inodes[i].addrs[NDIRECT] == 0
    requires FreedBits(bits0, bits, blocks, inodes, i, NDIRECT)
    ensures FreedBits(bits0, bits, blocks, inodes, i, INDIRECT + 1)
  {
    forall b: nat
      ensures NamedFirst(blocks, inodes, i, INDIRECT + 1, b) <==> NamedFirst(blocks, inodes, i, NDIRECT, b)
    {
      forall s: nat | NDIRECT <= s <= INDIRECT
        ensures !Names(blocks, inodes, i, s, b)
      {
      }
    }
  }

  lemma TruncOk(start: nat, bits0: seq<bool>, bits: seq<bool>, blocks: Blocks, inodes: Inodes, i: nat)
    requires MapOk(start, bits0, blocks, inodes) && i in inodes && FreedBits(bits0, bits, blocks, inodes, i, INDIRECT + 1)
    ensures MapOk(start, bits, blocks, inodes[i := Inode(seq(NDIRECT + 1, _ => 0), 0)])
    ensures forall b: nat | b < start && b < |bits| :: bits[b] == bits0[b]
  {
    var inodes' := inodes[i := Inode(seq(NDIRECT + 1, _ => 0), 0)];
    forall j: nat, s: nat, a: nat
      ensures Names(blocks, inodes', j, s, a) <==> Names(blocks, inodes, j, s, a) && j != i
    {
    }
    forall j: nat, s: nat, a: nat | Names(blocks, inodes, j, s, a) && j != i
      ensures !NamedFirst(blocks, inodes, i, INDIRECT + 1, a)
    {
    }
  }

  lemma QuietNothing(blocks: Blocks, inodes: Inodes)
    ensures SameFiles(blocks, inodes, blocks, inodes) && NamesGrow(blocks, inodes, blocks, inodes)
  {
  }

  lemma QuietTrans(b0: Blocks, i0: Inodes, b1: Blocks, i1: Inodes, b2: Blocks, i2: Inodes)
    requires SameFiles(b0, i0, b1, i1) && NamesGrow(b0, i0, b1, i1)
    requires SameFiles(b1, i1, b2, i2) && NamesGrow(b1, i1, b2, i2)
    ensures SameFiles(b0, i0, b2, i2) && NamesGrow(b0, i0, b2, i2)
  {
    SameFilesTrans(b0, i0, b1, i1, b2, i2);
  }

  lemma NamedIn(start: nat, bits: seq<bool>, blocks: Blocks, inodes: Inodes, i: nat, s: nat)
    requires MapOk(start, bits, blocks, inodes) && i in inodes && s <= INDIRECT && Slot(blocks, inodes[i], s) != 0
    ensures Slot(blocks, inodes[i], s) in blocks && |inodes[i].addrs| == NDIRECT + 1
  {
    assert Names(blocks, inodes, i, s, Slot(blocks, inodes[i], s));
  }

  lemma MapLens(start: nat, bits: seq<bool>, blocks: Blocks, inodes: Inodes, i: nat)
    requires MapOk(start, bits, blocks, inodes) && i in inodes
    ensures |inodes[i].addrs| == NDIRECT + 1
  {
  }

  /** Slots of inode i are as before balloc. */
  lemma AllocSlots(b0: Blocks, b1: Blocks, inodes: Inodes, i: nat, k: nat)
    requires SameSlots(b0, inodes, b1, inodes) && i in inodes && |inodes[i].addrs| == NDIRECT + 1 && k <= NDIRECT
    ensures forall s: nat | s <= INDIRECT :: Slot(b1, inodes[i], s) == Slot(b0, inodes[i], s)
  {
    forall s: nat | s <= INDIRECT
      ensures Slot(b1, inodes[i], s) == Slot(b0, inodes[i], s)
    {
      var x, y := Slot(b0, inodes[i], s), Slot(b1, inodes[i], s);
      assert Names(b1, inodes, i, s, y) == Names(b0, inodes, i, s, y);
      assert Names(b1, inodes, i, s, x) == Names(b0, inodes, i, s, x);
    }
  }

  /** balloc followed by linking is quiet. */
  lemma LinkQuiet(b0: Blocks, i0: Inodes, b1: Blocks, b2: Blocks, i2: Inodes, i: nat, s: nat, a: nat)
    requires SameFiles(b0, i0, b1, i0) && SameSlots(b0, i0, b1, i0)
    requires SameFiles(b1, i0, b2, i2) && FsMap.Linked(b1, i0, b2, i2, i, s, a)
    ensures SameFiles(b0, i0, b2, i2) && NamesGrow(b0, i0, b2, i2)
  {
    SameFilesTrans(b0, i0, b1, i0, b2, i2);
  }
}
