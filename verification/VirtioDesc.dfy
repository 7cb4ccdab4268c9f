/** The descriptor table of riscv-os/kernel/driver/virtio_disk.c: alloc_desc,
    free_desc, free_chain and alloc3_desc, in their own form. */
module VirtioDesc {
  import opened Common

  const NUM: nat := 8

  /** Where a descriptor points: nowhere, a request header, a buffer's data, or the
      status byte of a request. */
  datatype Addr = Zero | Op(i: nat) | Data(b: nat) | Status(i: nat)

  datatype Desc = Desc(addr: Addr, len: nat, next: nat, hasNext: bool, devWrites: bool)

  const CLEARED: Desc := Desc(Zero, 0, 0, false, false)

  /** list is a chain of descriptors: each but the last names the one after it. */
  predicate Linked(desc: seq<Desc>, list: seq<nat>) {
    && list != []
    && (forall j | 0 <= j < |list| :: list[j] < |desc|)
    && (forall j | 0 <= j < |list| :: desc[list[j]].hasNext <==> j < |list| - 1)
    && (forall j | 0 <= j < |list| - 1 :: desc[list[j]].next == list[j + 1])
    && NoDup(list)
  }

  predicate InUse(free: seq<bool>, list: seq<nat>) {
    forall j | 0 <= j < |list| :: list[j] < |free| && !free[list[j]]
  }

  /** The descriptors of the list are free; the others are as before. */
  predicate Released(free: seq<bool>, list: seq<nat>, free': seq<bool>) {
    && |free'| == |free|
    && forall i | 0 <= i < |free| :: free'[i] == (free[i] || i in list)
  }

  predicate Cleared(desc: seq<Desc>, list: seq<nat>, desc': seq<Desc>) {
    && |desc'| == |desc|
    && forall i | 0 <= i < |desc| :: desc'[i] == if i in list then CLEARED else desc[i]
  }

  /** i is the first free descriptor. */
  predicate First(free: seq<bool>, i: nat) {
    i < |free| && free[i] && forall j | 0 <= j < i :: !free[j]
  }

  /** idx lists the lowest free descriptors, in order. */
  predicate Lowest(free: seq<bool>, idx: seq<nat>) {
    && (forall j | 0 <= j < |idx| :: idx[j] < |free| && free[idx[j]])
    && (forall i, j | 0 <= i < j < |idx| :: idx[i] < idx[j])
    && (forall i, j | 0 <= i < |free| && free[i] && i !in idx && 0 <= j < |idx| :: idx[j] < i)
  }

  predicate Taken(free: seq<bool>, idx: seq<nat>, free': seq<bool>) {
    && |free'| == |free|
    && forall i | 0 <= i < |free| :: free'[i] == (free[i] && i !in idx)
  }

  lemma TakeNext(free: seq<bool>, idx: seq<nat>, free1: seq<bool>, i: nat)
    requires Lowest(free, idx) && Taken(free, idx, free1) && First(free1, i)
    ensures Lowest(free, idx + [i]) && Taken(free, idx + [i], free1[i := false])
  {
  }

  lemma GivenBack(free: seq<bool>, idx: seq<nat>, free1: seq<bool>, free2: seq<bool>)
    requires Lowest(free, idx) && Taken(free, idx, free1) && Released(free1, idx, free2)
    ensures free2 == free
  {
    assert forall i | 0 <= i < |free| :: free2[i] == free[i];
  }

  class Table {
    var free: seq<bool>
    var desc: seq<Desc>

    ghost predicate Valid()
      reads this
    {
      |free| == NUM && |desc| == NUM
    }

    /** alloc_desc; -1 when none is free. */
    method Alloc() returns (i: int)
      requires Valid()
      modifies this`free
      ensures Valid()
      ensures i >= 0 ==> First(old(free), i) && free == old(free)[i := false]
      ensures i < 0 ==> free == old(free) && forall j | 0 <= j < NUM :: !free[j]
    {
      i := 0;
      while i < NUM
        invariant 0 <= i <= NUM && free == old(free) && Valid()
        invariant forall j | 0 <= j < i :: !free[j]
      {
        if free[i] {
          free := free[i := false];
          return i;
        }
        i := i + 1;
      }
      i := -1;
    }

    /** free_desc; false stands for its panics. */
    method Free(i: nat) returns (ok: bool)
      requires Valid()
      modifies this
      ensures Valid()
      ensures ok <==> i < NUM && !old(free)[i]
      ensures ok ==> free == old(free)[i := true] && desc == old(desc)[i := CLEARED]
      ensures !ok ==> free == old(free) && desc == old(desc)
    {
      if i >= NUM { return false; }
      if free[i] { return false; }
      desc := desc[i := CLEARED];
      free := free[i := true];
      ok := true;
    }

    /** free_chain from the head of a chain in use gives back exactly the chain's
        descriptors, and never panics. */
    method FreeChain(head: nat, ghost list: seq<nat>) returns (ok: bool)
      requires Valid() && Linked(desc, list) && head == list[0] && InUse(free, list)
      modifies this
      ensures Valid() && ok
      ensures Released(old(free), list, free) && Cleared(old(desc), list, desc)
    {
      var i := head;
      ghost var n := 0;
      while true
        invariant Valid() && n < |list| && i == list[n]
        invariant Released(old(free), list[..n], free) && Cleared(old(desc), list[..n], desc)
        decreases |list| - n
      {
        var hasNext, next := desc[i].hasNext, desc[i].next;
        assert list[..n + 1] == list[..n] + [i];
        ok := Free(i);
        n := n + 1;
        if !hasNext { break; }
        i := next;
      }
      assert list[..n] == list;
    }

    /** free_desc of each descriptor in the list. */
    method FreeAll(idx: seq<nat>)
      requires Valid() && InUse(free, idx) && NoDup(idx)
      modifies this
      ensures Valid() && Released(old(free), idx, free) && Cleared(old(desc), idx, desc)
    {
      var j := 0;
      while j < |idx|
        invariant Valid() && j <= |idx|
        invariant Released(old(free), idx[..j], free) && Cleared(old(desc), idx[..j], desc)
      {
        assert idx[..j + 1] == idx[..j] + [idx[j]];
        var freed := Free(idx[j]);
        j := j + 1;
      }
      assert idx[..j] == idx;
    }

    /** alloc3_desc: the three lowest free descriptors; or, when fewer than three
        are free, none, with those taken on the way given back. */
    method Alloc3() returns (ok: bool, idx: seq<nat>)
      requires Valid()
      modifies this
      ensures Valid()
      ensures ok ==> |idx| == 3 && Lowest(old(free), idx) && Taken(old(free), idx, free) && desc == old(desc)
      ensures !ok ==> free == old(free) && forall i | 0 <= i < NUM && !free[i] :: desc[i] == old(desc)[i]
      ensures !ok ==> forall x: nat, y: nat, z: nat | x < y < z < NUM :: !(free[x] && free[y] && free[z])
    {
      idx := [];
      while |idx| < 3
        invariant Valid() && |idx| <= 3 && desc == old(desc)
        invariant Lowest(old(free), idx) && Taken(old(free), idx, free)
      {
        ghost var free1 := free;
        var i := Alloc();
        if i < 0 {
          FreeAll(idx);
          GivenBack(old(free), idx, free1, free);
          return false, idx;
        }
        TakeNext(old(free), idx, free1, i);
        idx := idx + [i];
      }
      ok := true;
    }
  }
}
