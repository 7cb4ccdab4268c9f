/** The disk as the log sees it: an array of blocks that changes by whole-block
    writes, so that a crash can fall only between two of them. */
module BlockDisk {
  /** A block is BSIZE bytes, seen as 256 words of 32 bits. */
  const WORDS: nat := 256

  type Block = b: seq<int> | |b| == WORDS witness seq(WORDS, _ => 0)
  type Disk = seq<Block>

  datatype Write = Write(at: nat, data: Block)

  predicate Fits(ws: seq<Write>, n: nat) {
    forall i | 0 <= i < |ws| :: ws[i].at < n
  }

  /** The disk after the writes of `ws` reached it in order. */
  function Apply(d: Disk, ws: seq<Write>): (r: Disk)
    requires Fits(ws, |d|)
    ensures |r| == |d|
  {
    if ws == [] then d
    else
      var last := ws[|ws| - 1];
      Apply(d, ws[..|ws| - 1])[last.at := last.data]
  }

  lemma ApplyNext(d: Disk, ws: seq<Write>, k: nat)
    requires Fits(ws, |d|) && k < |ws|
    ensures Apply(d, ws[..k + 1]) == Apply(d, ws[..k])[ws[k].at := ws[k].data]
  {
    assert ws[..k + 1][..k] == ws[..k];
  }
}

/** The redo log of riscv-os/kernel/disk/log.c as functions on the disk: the
    header codec, the block writes of a commit and of a recovery, and what a
    crash between any two of them leaves behind. */
module LogFormat {
  import opened Common
  import opened BlockDisk

  const LOGBLOCKS: nat := MAXOPBLOCKS * 3

  /** A block of the disk outside the log, which occupies the header at `start`
      and the LOGBLOCKS data blocks after it. */
  predicate Home(start: nat, n: nat, b: int) {
    0 <= b < n && !(start <= b <= start + LOGBLOCKS)
  }

  predicate AllHome(start: nat, n: nat, blocks: seq<nat>) {
    forall i | 0 <= i < |blocks| :: Home(start, n, blocks[i])
  }

  /** write_head as it stands: block numbers are copied into the header block,
      the count in word 0 keeps whatever value the block had. */
  function EncodeShown(b: Block, blocks: seq<nat>): Block
    requires |blocks| <= LOGBLOCKS
  {
    seq(WORDS, i requires 0 <= i < WORDS => if 1 <= i <= |blocks| then blocks[i - 1] else b[i])
  }

  /** write_head as documented: the count is stored too. */
  function EncodeCounted(b: Block, blocks: seq<nat>): Block
    requires |blocks| <= LOGBLOCKS
  {
    EncodeShown(b, blocks)[0 := |blocks|]
  }

  function EncodeHead(counted: bool, b: Block, blocks: seq<nat>): Block
    requires |blocks| <= LOGBLOCKS
  {
    if counted then EncodeCounted(b, blocks) else EncodeShown(b, blocks)
  }

  /** A header that read_head can take: its count fits the log, its entries
      name blocks outside the log. */
  predicate HeadOk(start: nat, n: nat, hb: Block) {
    && 0 <= hb[0] <= LOGBLOCKS
    && forall i | 1 <= i <= hb[0] :: Home(start, n, hb[i])
  }

  function DecodeHead(start: nat, n: nat, hb: Block): (blocks: seq<nat>)
    requires HeadOk(start, n, hb)
    ensures |blocks| == hb[0] && AllHome(start, n, blocks)
  {
    seq(hb[0], i requires 0 <= i < hb[0] => hb[i + 1])
  }

  lemma HeaderRoundTrip(start: nat, n: nat, hb: Block, blocks: seq<nat>)
    requires |blocks| <= LOGBLOCKS && AllHome(start, n, blocks)
    ensures var hb' := EncodeCounted(hb, blocks);
            HeadOk(start, n, hb') && DecodeHead(start, n, hb') == blocks
  {
    var hb' := EncodeCounted(hb, blocks);
    forall i | 1 <= i <= |blocks|
      ensures hb'[i] == blocks[i - 1] && Home(start, n, hb'[i])
    {
    }
  }

  /** What one commit may rely on: the disk has room for the log, the logged
      blocks lie outside it, and only logged blocks differ between the cached
      contents `view` and the disk. */
  ghost predicate TxnOk(start: nat, d: Disk, blocks: seq<nat>, view: Disk) {
    && start + LOGBLOCKS < |d|
    && |view| == |d|
    && |blocks| <= LOGBLOCKS
    && AllHome(start, |d|, blocks)
    && SameElsewhere(start, blocks, d, view)
  }

  ghost predicate SameElsewhere(start: nat, blocks: seq<nat>, a: Disk, b: Disk)
    requires |a| == |b|
  {
    forall i | Home(start, |a|, i) && i !in blocks :: a[i] == b[i]
  }

  ghost predicate SameHome(start: nat, a: Disk, b: Disk) {
    |a| == |b| && forall i | Home(start, |a|, i) :: a[i] == b[i]
  }

  /** The i-th block write of commit(): log data, header, home blocks, cleared
      header. `hb` is the header block before the commit. */
  function CommitWrite(counted: bool, start: nat, blocks: seq<nat>, view: Disk, hb: Block, i: nat): (w: Write)
    requires |blocks| <= LOGBLOCKS && AllHome(start, |view|, blocks) && start + LOGBLOCKS < |view|
    requires blocks != [] && i < 2 * |blocks| + 2
    ensures w.at < |view|
  {
    var n := |blocks|;
    if i < n then Write(start + 1 + i, view[blocks[i]])
    else if i == n then Write(start, EncodeHead(counted, hb, blocks))
    else if i <= 2 * n then Write(blocks[i - n - 1], view[blocks[i - n - 1]])
    else Write(start, EncodeHead(counted, EncodeHead(counted, hb, blocks), []))
  }

  /** Every block write of commit(), in order; none when nothing was logged. */
  function CommitWrites(counted: bool, start: nat, blocks: seq<nat>, view: Disk, hb: Block): (ws: seq<Write>)
    requires |blocks| <= LOGBLOCKS && AllHome(start, |view|, blocks) && start + LOGBLOCKS < |view|
    ensures Fits(ws, |view|)
  {
    if blocks == [] then []
    else seq(2 * |blocks| + 2, i requires 0 <= i < 2 * |blocks| + 2 =>
               CommitWrite(counted, start, blocks, view, hb, i))
  }

  /** Every block write of recover_from_log(), in order. */
  function RecoverWrites(counted: bool, start: nat, d: Disk): (ws: seq<Write>)
    requires start + LOGBLOCKS < |d| && HeadOk(start, |d|, d[start])
    ensures Fits(ws, |d|)
    ensures |ws| == d[start][0] + 1
    ensures var blocks := DecodeHead(start, |d|, d[start]);
            forall i | 0 <= i < |blocks| :: ws[i] == Write(blocks[i], d[start + 1 + i])
    ensures ws[d[start][0]] == Write(start, EncodeHead(counted, d[start], []))
  {
    var blocks := DecodeHead(start, |d|, d[start]);
    seq(|blocks|, i requires 0 <= i < |blocks| => Write(blocks[i], d[start + 1 + i]))
    + [Write(start, EncodeHead(counted, d[start], []))]
  }

  /** The log data blocks hold the contents `a` gives to the listed blocks. */
  ghost predicate LogHolds(start: nat, d: Disk, blocks: seq<nat>, a: Disk, k: nat)
    requires start + LOGBLOCKS < |d| == |a| && k <= |blocks| <= LOGBLOCKS && AllHome(start, |d|, blocks)
  {
    forall i | 0 <= i < k :: d[start + 1 + i] == a[blocks[i]]
  }

  /** The contents a recovery of `d` would leave in the home blocks are those of `a`. */
  ghost predicate Means(start: nat, d: Disk, a: Disk) {
    && start + LOGBLOCKS < |d| == |a|
    && HeadOk(start, |d|, d[start])
    && var blocks := DecodeHead(start, |d|, d[start]);
    && LogHolds(start, d, blocks, a, |blocks|)
    && SameElsewhere(start, blocks, d, a)
  }

  /** The log is empty: the disk means what its home blocks hold. */
  predicate Empty(start: nat, d: Disk) {
    start + LOGBLOCKS < |d| && d[start][0] == 0
  }

  lemma EmptyMeans(start: nat, d: Disk, a: Disk)
    requires Empty(start, d)
    ensures Means(start, d, a) <==> SameHome(start, d, a)
  {
    assert DecodeHead(start, |d|, d[start]) == [];
  }

  // ---- one commit, cut off between any two writes ----

  /** After `k` log data blocks: header and home blocks untouched. */
  ghost predicate Logged(start: nat, d0: Disk, d: Disk, blocks: seq<nat>, view: Disk, k: nat)
    requires TxnOk(start, d0, blocks, view) && k <= |blocks|
  {
    && |d| == |d0|
    && d[start] == d0[start]
    && SameHome(start, d0, d)
    && LogHolds(start, d, blocks, view, k)
  }

  /** After the header and `k` home blocks: the whole transaction is in the log. */
  ghost predicate Installed(start: nat, d0: Disk, d: Disk, blocks: seq<nat>, view: Disk, k: nat)
    requires TxnOk(start, d0, blocks, view) && k <= |blocks|
  {
    && |d| == |d0|
    && d[start] == EncodeCounted(d0[start], blocks)
    && LogHolds(start, d, blocks, view, |blocks|)
    && (forall i | 0 <= i < k :: d[blocks[i]] == view[blocks[i]])
    && SameElsewhere(start, blocks, d, d0)
  }

  lemma LogStep(start: nat, d0: Disk, d: Disk, blocks: seq<nat>, view: Disk, k: nat)
    requires TxnOk(start, d0, blocks, view) && k < |blocks| && Logged(start, d0, d, blocks, view, k)
    ensures Logged(start, d0, d[start + 1 + k := view[blocks[k]]], blocks, view, k + 1)
  {
  }

  lemma HeadStep(start: nat, d0: Disk, d: Disk, blocks: seq<nat>, view: Disk)
    requires TxnOk(start, d0, blocks, view) && Logged(start, d0, d, blocks, view, |blocks|)
    ensures Installed(start, d0, d[start := EncodeCounted(d0[start], blocks)], blocks, view, 0)
  {
  }

  lemma InstallStep(start: nat, d0: Disk, d: Disk, blocks: seq<nat>, view: Disk, k: nat)
    requires TxnOk(start, d0, blocks, view) && k < |blocks| && Installed(start, d0, d, blocks, view, k)
    ensures Installed(start, d0, d[blocks[k] := view[blocks[k]]], blocks, view, k + 1)
  {
  }

  lemma ClearStep(start: nat, d0: Disk, d: Disk, blocks: seq<nat>, view: Disk)
    requires TxnOk(start, d0, blocks, view) && Installed(start, d0, d, blocks, view, |blocks|)
    ensures var d' := d[start := EncodeCounted(d[start], [])];
            Empty(start, d') && SameHome(start, d', view)
  {
  }

  lemma {:induction false} LogPhase(start: nat, d: Disk, blocks: seq<nat>, view: Disk, ws: seq<Write>, k: nat)
    requires TxnOk(start, d, blocks, view) && k <= |blocks|
    requires ws == CommitWrites(true, start, blocks, view, d[start])
    ensures Logged(start, d, Apply(d, ws[..k]), blocks, view, k)
  {
    if k > 0 {
      LogPhase(start, d, blocks, view, ws, k - 1);
      ApplyNext(d, ws, k - 1);
      LogStep(start, d, Apply(d, ws[..k - 1]), blocks, view, k - 1);
    }
  }

  lemma HeadPhase(start: nat, d: Disk, blocks: seq<nat>, view: Disk, ws: seq<Write>)
    requires TxnOk(start, d, blocks, view) && blocks != []
    requires ws == CommitWrites(true, start, blocks, view, d[start])
    ensures Installed(start, d, Apply(d, ws[..|blocks| + 1]), blocks, view, 0)
  {
    LogPhase(start, d, blocks, view, ws, |blocks|);
    ApplyNext(d, ws, |blocks|);
    HeadStep(start, d, Apply(d, ws[..|blocks|]), blocks, view);
  }

  lemma InstallNext(start: nat, d: Disk, blocks: seq<nat>, view: Disk, ws: seq<Write>, j: nat)
    requires TxnOk(start, d, blocks, view) && |blocks| + 1 < j <= 2 * |blocks| + 1
    requires ws == CommitWrites(true, start, blocks, view, d[start])
    requires Installed(start, d, Apply(d, ws[..j - 1]), blocks, view, j - |blocks| - 2)
    ensures Installed(start, d, Apply(d, ws[..j]), blocks, view, j - |blocks| - 1)
  {
    hide Installed, Apply;
    ApplyNext(d, ws, j - 1);
    InstallStep(start, d, Apply(d, ws[..j - 1]), blocks, view, j - |blocks| - 2);
  }

  lemma {:induction false} InstallPhase(start: nat, d: Disk, blocks: seq<nat>, view: Disk, ws: seq<Write>, j: nat)
    requires TxnOk(start, d, blocks, view) && blocks != [] && |blocks| < j <= 2 * |blocks| + 1
    requires ws == CommitWrites(true, start, blocks, view, d[start])
    ensures Installed(start, d, Apply(d, ws[..j]), blocks, view, j - |blocks| - 1)
  {
    if j == |blocks| + 1 {
      HeadPhase(start, d, blocks, view, ws);
    } else {
      InstallPhase(start, d, blocks, view, ws, j - 1);
      InstallNext(start, d, blocks, view, ws, j);
    }
  }

  lemma InstalledMeans(start: nat, d0: Disk, d: Disk, blocks: seq<nat>, view: Disk, k: nat)
    requires TxnOk(start, d0, blocks, view) && k <= |blocks| && Installed(start, d0, d, blocks, view, k)
    ensures Means(start, d, view)
  {
    HeaderRoundTrip(start, |d|, d0[start], blocks);
  }

  lemma CommitClears(start: nat, d: Disk, blocks: seq<nat>, view: Disk)
    requires TxnOk(start, d, blocks, view) && Empty(start, d)
    ensures var d' := Apply(d, CommitWrites(true, start, blocks, view, d[start]));
            Empty(start, d') && SameHome(start, d', view)
  {
    if blocks != [] {
      var ws := CommitWrites(true, start, blocks, view, d[start]);
      var j := 2 * |blocks| + 1;
      InstallPhase(start, d, blocks, view, ws, j);
      ApplyNext(d, ws, j);
      assert ws[..j + 1] == ws;
      ClearStep(start, d, Apply(d, ws[..j]), blocks, view);
    }
  }

  /** The point at which the transaction takes effect is its header write: a
      disk that stopped after `k` writes of a commit still means the old
      contents while k <= n, and the new contents from then on. */
  lemma CommitPoint(start: nat, d: Disk, blocks: seq<nat>, view: Disk, k: nat)
    requires TxnOk(start, d, blocks, view) && Empty(start, d)
    requires k <= |CommitWrites(true, start, blocks, view, d[start])|
    ensures var d' := Apply(d, CommitWrites(true, start, blocks, view, d[start])[..k]);
            Means(start, d', if k <= |blocks| then d else view)
  {
    var ws := CommitWrites(true, start, blocks, view, d[start]);
    var n := |blocks|;
    var d' := Apply(d, ws[..k]);
    if blocks == [] {
      EmptyMeans(start, d, d);
    } else if k <= n {
      LogPhase(start, d, blocks, view, ws, k);
      EmptyMeans(start, d', d);
    } else if k <= 2 * n + 1 {
      InstallPhase(start, d, blocks, view, ws, k);
      InstalledMeans(start, d, d', blocks, view, k - n - 1);
    } else {
      CommitClears(start, d, blocks, view);
      assert ws[..k] == ws;
      EmptyMeans(start, d', view);
    }
  }

  // ---- recovery, cut off between any two writes, any number of times ----

  /** Recovery has copied the first `k` logged blocks home. */
  ghost predicate Copied(start: nat, d0: Disk, d: Disk, a: Disk, k: nat)
    requires Means(start, d0, a) && k <= d0[start][0]
  {
    && Means(start, d, a)
    && |d| == |d0|
    && d[start] == d0[start]
    && var blocks := DecodeHead(start, |d0|, d0[start]);
    && forall i | 0 <= i < k :: d[blocks[i]] == a[blocks[i]]
  }

  lemma CopyStep(start: nat, d0: Disk, d: Disk, a: Disk, k: nat)
    requires Means(start, d0, a) && k < d0[start][0] && Copied(start, d0, d, a, k)
    ensures var b := DecodeHead(start, |d0|, d0[start])[k];
            Copied(start, d0, d[b := d0[start + 1 + k]], a, k + 1)
  {
  }

  lemma {:induction false} RecoverInstalls(start: nat, d: Disk, a: Disk, k: nat)
    requires Means(start, d, a) && k <= d[start][0]
    ensures Copied(start, d, Apply(d, RecoverWrites(true, start, d)[..k]), a, k)
  {
    if k > 0 {
      var ws := RecoverWrites(true, start, d);
      RecoverInstalls(start, d, a, k - 1);
      ApplyNext(d, ws, k - 1);
      CopyStep(start, d, Apply(d, ws[..k - 1]), a, k - 1);
    }
  }

  lemma RecoverPrefix(start: nat, d: Disk, a: Disk, k: nat)
    requires Means(start, d, a) && k <= |RecoverWrites(true, start, d)|
    ensures Means(start, Apply(d, RecoverWrites(true, start, d)[..k]), a)
    ensures k == |RecoverWrites(true, start, d)| ==>
              Empty(start, Apply(d, RecoverWrites(true, start, d)[..k]))
  {
    var n := d[start][0];
    var ws := RecoverWrites(true, start, d);
    if k <= n {
      RecoverInstalls(start, d, a, k);
    } else {
      RecoverInstalls(start, d, a, n);
      ApplyNext(d, ws, n);
      EmptyMeans(start, Apply(d, ws[..k]), a);
    }
  }

  /** A recovery that runs to its end. */
  function Recover(start: nat, d: Disk): Disk
    requires start + LOGBLOCKS < |d| && HeadOk(start, |d|, d[start])
  {
    Apply(d, RecoverWrites(true, start, d))
  }

  lemma RecoverMeans(start: nat, d: Disk, a: Disk)
    requires Means(start, d, a)
    ensures Empty(start, Recover(start, d)) && SameHome(start, Recover(start, d), a)
  {
    var ws := RecoverWrites(true, start, d);
    RecoverPrefix(start, d, a, |ws|);
    assert ws[..|ws|] == ws;
    EmptyMeans(start, Recover(start, d), a);
  }

  /** Recoveries that each stop after crashes[i] writes (or complete, if that is
      more than they have), one after the other. */
  function Reboots(start: nat, d: Disk, crashes: seq<nat>): Disk
    decreases |crashes|
  {
    if crashes == [] || !(start + LOGBLOCKS < |d| && HeadOk(start, |d|, d[start])) then d
    else
      var ws := RecoverWrites(true, start, d);
      var k := if crashes[0] <= |ws| then crashes[0] else |ws|;
      Reboots(start, Apply(d, ws[..k]), crashes[1..])
  }

  lemma {:induction false} RebootsKeepMeaning(start: nat, d: Disk, crashes: seq<nat>, a: Disk)
    requires Means(start, d, a)
    ensures Means(start, Reboots(start, d, crashes), a)
    decreases |crashes|
  {
    if crashes != [] {
      var ws := RecoverWrites(true, start, d);
      var k := if crashes[0] <= |ws| then crashes[0] else |ws|;
      RecoverPrefix(start, d, a, k);
      RebootsKeepMeaning(start, Apply(d, ws[..k]), crashes[1..], a);
    }
  }

  /** Crash atomicity. A commit is cut off after any `k` of its block writes;
      the machine then reboots any number of times, each recovery cut off
      anywhere; the first recovery that completes leaves every home block as it
      was before the transaction, or every home block as after it, and it
      leaves the log empty for the next transaction. */
  lemma CrashAtomicity(start: nat, d: Disk, blocks: seq<nat>, view: Disk, k: nat, crashes: seq<nat>)
    requires TxnOk(start, d, blocks, view) && Empty(start, d)
    requires k <= |CommitWrites(true, start, blocks, view, d[start])|
    ensures var d' := Reboots(start, Apply(d, CommitWrites(true, start, blocks, view, d[start])[..k]), crashes);
            && start + LOGBLOCKS < |d'| && HeadOk(start, |d'|, d'[start])
            && Empty(start, Recover(start, d'))
            && SameHome(start, Recover(start, d'), if k <= |blocks| then d else view)
  {
    CommitPoint(start, d, blocks, view, k);
    var a := if k <= |blocks| then d else view;
    var d' := Apply(d, CommitWrites(true, start, blocks, view, d[start])[..k]);
    RebootsKeepMeaning(start, d', crashes, a);
    RecoverMeans(start, Reboots(start, d', crashes), a);
  }
}
