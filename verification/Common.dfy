/** Definitions that several parts share. */
module Common {
  const PGSIZE: nat := 4096       // riscv-os/include/riscv.h
  const MAXOPBLOCKS: nat := 30    // riscv-os/include/param.h

  datatype Option<T> = None | Some(value: T)

  predicate NoDup(s: seq<nat>) {
    forall i, j | 0 <= i < j < |s| :: s[i] != s[j]
  }

  lemma SubsetSize<T>(a: set<T>, b: set<T>)
    requires a <= b
    ensures |a| <= |b|
  {
    assert b == a + (b - a);
  }
}
