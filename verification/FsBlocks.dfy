/** Disk blocks as bytes, and block addresses stored in them: the arrays of uint in
    indirect blocks (riscv-os/include/fs.h). */
module FsBlocks {
  const BSIZE: nat := 1024
  const NDIRECT: nat := 12
  const NINDIRECT: nat := 256
  const MAXFILE: nat := 268
  const BPB: nat := 8192
  const UINT: nat := 0x1_0000_0000

  type Byte = x: nat | x < 256
  type Block = b: seq<Byte> | |b| == BSIZE witness seq(BSIZE, _ => 0)

  function Zero(): Block { seq(BSIZE, _ => 0) }

  /** Entry k of a block read as uint. */
  function Get(b: Block, k: nat): (x: nat)
    requires k < NINDIRECT
    ensures x < UINT
  {
    var x0: nat, x1: nat, x2: nat, x3: nat := b[4 * k], b[4 * k + 1], b[4 * k + 2], b[4 * k + 3];
    x0 + 256 * (x1 + 256 * (x2 + 256 * x3))
  }

  function Put(b: Block, k: nat, x: nat): Block
    requires k < NINDIRECT && x < UINT
  {
    b[4 * k := x % 256][4 * k + 1 := (x / 256) % 256][4 * k + 2 := (x / 0x1_0000) % 256][4 * k + 3 := (x / 0x100_0000) % 256]
  }

  lemma Digits(x: nat)
    requires x < UINT
    ensures x == x % 256 + 256 * ((x / 256) % 256 + 256 * ((x / 0x1_0000) % 256 + 256 * ((x / 0x100_0000) % 256)))
  {
    var a := x / 256;
    var c := a / 256;
    assert c == x / 0x1_0000;
    assert c / 256 == x / 0x100_0000;
    assert x == 256 * a + x % 256 && a == 256 * c + a % 256 && c == 256 * (c / 256) + c % 256;
  }

  /** What was put is what is read back, and nothing else changes. */
  lemma GetPut(b: Block, k: nat, x: nat, j: nat)
    requires k < NINDIRECT && x < UINT && j < NINDIRECT
    ensures Get(Put(b, k, x), j) == if j == k then x else Get(b, j)
  {
    if j == k { Digits(x); }
  }

  lemma GetZero(k: nat)
    requires k < NINDIRECT
    ensures Get(Zero(), k) == 0
  {
  }
}
