/** The list of buffers in riscv-os/kernel/disk/bio.c: binit builds it and brelse
    relinks a buffer to its front, by the pointer updates of ListMemory. */
module BufferList {
  import opened Common
  import opened ListMemory
  import opened BufferCache

  /** The order binit leaves: the buffer linked last comes first. */
  function InitialOrder(n: nat): (s: seq<nat>)
    ensures |s| == n && forall i | 0 <= i < n :: s[i] == n - 1 - i
  {
    seq(n, i requires 0 <= i < n => n - 1 - i)
  }

  /** binit's loop over NBUF buffers; `head` is the cell of bcache.head. */
  method Build(mem: Memory, head: Cell, n: nat)
    requires head >= n
    modifies mem
    ensures mem.IsList(head, InitialOrder(n))
  {
    mem.Init(head);
    var i := 0;
    assert InitialOrder(0) == [];
    while i < n
      invariant i <= n
      invariant mem.IsList(head, InitialOrder(i))
    {
      mem.Push(head, i, InitialOrder(i));
      assert [i] + InitialOrder(i) == InitialOrder(i + 1);
      i := i + 1;
    }
  }

  lemma {:induction false} WithoutAt(s: seq<nat>, k: nat)
    requires k < |s| && NoDup(s)
    ensures Without(s, s[k]) == s[..k] + s[k + 1..]
  {
    if k == 0 {
      WithoutNone(s[1..], s[0]);
    } else {
      WithoutAt(s[1..], k - 1);
      assert s[1..][..k - 1] == s[1..k] && s[1..][k..] == s[k + 1..];
      assert s[..k] == [s[0]] + s[1..k];
    }
  }

  lemma {:induction false} WithoutNone(s: seq<nat>, e: nat)
    requires e !in s
    ensures Without(s, e) == s
  {
    if s != [] { WithoutNone(s[1..], e); }
  }

  /** brelse's relinking of a buffer whose count has dropped to zero. */
  method Relink(mem: Memory, head: Cell, b: Cell, ghost s: seq<Cell>, ghost k: nat)
    requires mem.IsList(head, s) && k < |s| && s[k] == b
    modifies mem
    ensures mem.IsList(head, ToFront(s, b))
  {
    WithoutAt(s, k);
    mem.Remove(b, head, s, k);
    ghost var t := s[..k] + s[k + 1..];
    mem.Push(head, b, t);
  }
}
