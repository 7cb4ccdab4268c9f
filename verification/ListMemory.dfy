/** The circular doubly linked lists of riscv-os/kernel/lib/list.c. A list is a
    head cell and the cells linked after it; the cells lie in memory that many
    lists share, as the free lists of the buddy allocator do. */
module ListMemory {
  import opened Common

  type Cell = nat

  /** `next` and `prev` are the two pointer fields of every cell. */
  class Memory {
    var next: map<Cell, Cell>
    var prev: map<Cell, Cell>

    constructor ()
      ensures next == map[] && prev == map[]
    {
      next, prev := map[], map[];
    }

    /** From the head around: the i-th cell of the ring, its head again at the end. */
    static ghost function Ring(h: Cell, s: seq<Cell>, i: nat): Cell
      requires i <= |s| + 1
    {
      if 1 <= i <= |s| then s[i - 1] else h
    }

    static ghost predicate Distinct(h: Cell, s: seq<Cell>) {
      h !in s && NoDup(s)
    }

    /** The list with head h holds the cells s, linked both ways in that order. */
    ghost predicate IsList(h: Cell, s: seq<Cell>)
      reads this
    {
      && Distinct(h, s)
      && forall i | 0 <= i <= |s| :: Link(h, s, i)
    }

    /** The i-th cell of the ring points to the next one and back. */
    ghost predicate Link(h: Cell, s: seq<Cell>, i: nat)
      reads this
      requires i <= |s|
    {
      var c, d := Ring(h, s, i), Ring(h, s, i + 1);
      c in next && next[c] == d && d in prev && prev[d] == c
    }

    /** What an operation on the list (h, s) and the cell e leaves alone. */
    twostate predicate Elsewhere(h: Cell, s: seq<Cell>, e: Cell)
      reads this
    {
      forall c | c != h && c != e && c !in s ::
        && (c in next <==> c in old(next)) && (c in next ==> next[c] == old(next[c]))
        && (c in prev <==> c in old(prev)) && (c in prev ==> prev[c] == old(prev[c]))
    }

    method Init(h: Cell)
      modifies this
      ensures IsList(h, [])
      ensures Elsewhere(h, [], h)
    {
      next := next[h := h];
      prev := prev[h := h];
    }

    method IsEmpty(h: Cell, ghost s: seq<Cell>) returns (empty: bool)
      requires IsList(h, s)
      ensures empty <==> s == []
    {
      assert Link(h, s, 0);
      empty := next[h] == h;
    }

    method Push(h: Cell, e: Cell, ghost s: seq<Cell>)
      requires IsList(h, s) && e != h && e !in s
      modifies this
      ensures IsList(h, [e] + s)
      ensures Elsewhere(h, s, e)
    {
      ghost var t := [e] + s;
      assert Link(h, s, 0);
      var first := next[h];
      next := next[e := first];
      prev := prev[e := h];
      prev := prev[first := e];
      next := next[h := e];
      forall i | 0 <= i <= |t|
        ensures Link(h, t, i)
      {
        if i > 1 {
          assert old(Link(h, s, i - 1));
        }
      }
    }

    /** lst_remove of the k-th cell. */
    method Remove(e: Cell, ghost h: Cell, ghost s: seq<Cell>, ghost k: nat)
      requires IsList(h, s) && k < |s| && s[k] == e
      modifies this
      ensures IsList(h, s[..k] + s[k + 1..])
      ensures Elsewhere(h, s, e)
    {
      ghost var t := s[..k] + s[k + 1..];
      assert Link(h, s, k) && Link(h, s, k + 1);
      var before, after := prev[e], next[e];
      assert before == Ring(h, s, k) && after == Ring(h, s, k + 2);
      next := next[before := after];
      prev := prev[after := before];
      forall i | 0 <= i <= |t|
        ensures Link(h, t, i)
      {
        if i < k {
          assert old(Link(h, s, i));
        } else if i > k {
          assert old(Link(h, s, i + 1));
        }
      }
    }

    /** lst_pop: the first cell; false stands for its panic on an empty list. */
    method Pop(h: Cell, ghost s: seq<Cell>) returns (ok: bool, e: Cell)
      requires IsList(h, s)
      modifies this
      ensures ok <==> s != []
      ensures ok ==> e == s[0] && IsList(h, s[1..])
      ensures Elsewhere(h, s, h)
    {
      var empty := IsEmpty(h, s);
      ok, e := !empty, h;
      if ok {
        assert Link(h, s, 0);
        e := next[h];
        ghost var rest := s[1..];
        assert s[..0] + s[0 + 1..] == rest;
        Remove(e, h, s, 0);
        assert IsList(h, rest);
      }
    }
  }
}
