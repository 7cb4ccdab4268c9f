/** write_head as it stands in riscv-os/kernel/disk/log.c never stores the count
    of logged blocks, so a recovery finds the count that mkfs left: zero. What
    the log then guarantees, exactly. */
module LogShown {
  import opened Common
  import opened BlockDisk
  import opened LogFormat

  /** Recovery reads the count zero, installs nothing and rewrites the header
      block with what it holds already: however often the machine reboots, the
      disk stays as the crash left it. */
  lemma RecoveryDoesNothing(start: nat, d: Disk)
    requires Empty(start, d)
    ensures Apply(d, RecoverWrites(false, start, d)) == d
  {
    assert EncodeShown(d[start], []) == d[start];
    var ws := RecoverWrites(false, start, d);
    assert ws == [Write(start, d[start])];
    ApplyNext(d, ws, 0);
    assert ws[..1] == ws;
  }

  /** The first `m` logged blocks have reached home, nothing else has changed
      there, and the header count is still zero. */
  ghost predicate Partial(start: nat, d0: Disk, d: Disk, blocks: seq<nat>, view: Disk, m: nat)
    requires TxnOk(start, d0, blocks, view) && m <= |blocks|
  {
    && |d| == |d0|
    && Empty(start, d)
    && (forall i | 0 <= i < m :: d[blocks[i]] == view[blocks[i]])
    && (forall b | Home(start, |d|, b) && b !in blocks[..m] :: d[b] == d0[b])
  }

  /** How many blocks of a commit with `n` logged blocks have been installed
      after `k` writes. */
  function InstalledAfter(n: nat, k: nat): nat {
    if k <= n + 1 then 0 else if k <= 2 * n + 1 then k - n - 1 else n
  }

  lemma PartialStep(start: nat, d0: Disk, d: Disk, blocks: seq<nat>, view: Disk, m: nat)
    requires TxnOk(start, d0, blocks, view) && m < |blocks| && Partial(start, d0, d, blocks, view, m)
    ensures Partial(start, d0, d[blocks[m] := view[blocks[m]]], blocks, view, m + 1)
  {
    assert blocks[..m + 1] == blocks[..m] + [blocks[m]];
  }

  /** A write inside the log that leaves the header count alone. */
  lemma PartialLogWrite(start: nat, d0: Disk, d: Disk, blocks: seq<nat>, view: Disk, m: nat, w: Write)
    requires TxnOk(start, d0, blocks, view) && m <= |blocks| && Partial(start, d0, d, blocks, view, m)
    requires start <= w.at <= start + LOGBLOCKS && (w.at == start ==> w.data[0] == 0)
    ensures Partial(start, d0, d[w.at := w.data], blocks, view, m)
  {
  }

  lemma ShownWrite(start: nat, d: Disk, blocks: seq<nat>, view: Disk, k: nat)
    requires TxnOk(start, d, blocks, view) && Empty(start, d) && blocks != [] && k < 2 * |blocks| + 2
    ensures var w := CommitWrite(false, start, blocks, view, d[start], k);
            if |blocks| < k <= 2 * |blocks| then
              w == Write(blocks[k - |blocks| - 1], view[blocks[k - |blocks| - 1]])
            else
              start <= w.at <= start + LOGBLOCKS && (w.at == start ==> w.data[0] == 0)
  {
  }

  lemma CrashNext(start: nat, d0: Disk, d: Disk, blocks: seq<nat>, view: Disk, k: nat)
    requires TxnOk(start, d0, blocks, view) && Empty(start, d0) && blocks != [] && 0 < k <= 2 * |blocks| + 2
    requires Partial(start, d0, d, blocks, view, InstalledAfter(|blocks|, k - 1))
    ensures var w := CommitWrite(false, start, blocks, view, d0[start], k - 1);
            Partial(start, d0, d[w.at := w.data], blocks, view, InstalledAfter(|blocks|, k))
  {
    ShownWrite(start, d0, blocks, view, k - 1);
    if |blocks| < k - 1 <= 2 * |blocks| {
      PartialStep(start, d0, d, blocks, view, k - |blocks| - 2);
    } else {
      var w := CommitWrite(false, start, blocks, view, d0[start], k - 1);
      PartialLogWrite(start, d0, d, blocks, view, InstalledAfter(|blocks|, k - 1), w);
    }
  }

  lemma {:induction false} CrashState(start: nat, d: Disk, blocks: seq<nat>, view: Disk, ws: seq<Write>, k: nat)
    requires TxnOk(start, d, blocks, view) && Empty(start, d)
    requires ws == CommitWrites(false, start, blocks, view, d[start]) && k <= |ws|
    ensures Partial(start, d, Apply(d, ws[..k]), blocks, view, InstalledAfter(|blocks|, k))
  {
    if k > 0 {
      CrashState(start, d, blocks, view, ws, k - 1);
      ApplyNext(d, ws, k - 1);
      CrashNext(start, d, Apply(d, ws[..k - 1]), blocks, view, k);
    }
  }

  ghost predicate Changed(d: Disk, view: Disk, b: nat)
    requires b < |d| == |view|
  {
    view[b] != d[b]
  }

  /** At most one of the logged blocks differs from what its home block holds. */
  ghost predicate AtMostOneChange(d: Disk, blocks: seq<nat>, view: Disk)
    requires |view| == |d| && forall i | 0 <= i < |blocks| :: blocks[i] < |d|
  {
    forall i, j | 0 <= i < j < |blocks| :: !Changed(d, view, blocks[i]) || !Changed(d, view, blocks[j])
  }

  /** The disk that a crash after `k` writes leaves, all old or all new. */
  ghost predicate AllOrNothing(start: nat, d: Disk, blocks: seq<nat>, view: Disk, k: nat)
    requires TxnOk(start, d, blocks, view) && Empty(start, d)
  {
    var ws := CommitWrites(false, start, blocks, view, d[start]);
    k <= |ws| ==>
      var d' := Apply(d, ws[..k]);
      && Empty(start, d')
      && var r := Apply(d', RecoverWrites(false, start, d'));
      SameHome(start, r, d) || SameHome(start, r, view)
  }

  lemma OneChangeSuffices(start: nat, d: Disk, blocks: seq<nat>, view: Disk, k: nat)
    requires TxnOk(start, d, blocks, view) && Empty(start, d) && NoDup(blocks)
    requires AtMostOneChange(d, blocks, view)
    ensures AllOrNothing(start, d, blocks, view, k)
  {
    var ws := CommitWrites(false, start, blocks, view, d[start]);
    if k <= |ws| {
      var m := InstalledAfter(|blocks|, k);
      CrashState(start, d, blocks, view, ws, k);
      var d' := Apply(d, ws[..k]);
      RecoveryDoesNothing(start, d');
      if exists i | 0 <= i < m :: Changed(d, view, blocks[i]) {
        PrefixHasTheChange(start, d, d', blocks, view, m);
      } else {
        PrefixHasNoChange(start, d, d', blocks, view, m);
      }
    }
  }

  lemma PrefixHasNoChange(start: nat, d: Disk, d': Disk, blocks: seq<nat>, view: Disk, m: nat)
    requires TxnOk(start, d, blocks, view) && m <= |blocks| && Partial(start, d, d', blocks, view, m)
    requires forall i | 0 <= i < m :: !Changed(d, view, blocks[i])
    ensures SameHome(start, d', d)
  {
    forall b | Home(start, |d|, b)
      ensures d'[b] == d[b]
    {
      if b in blocks[..m] {
        var i :| 0 <= i < m && blocks[i] == b;
        assert !Changed(d, view, blocks[i]);
      }
    }
  }

  lemma PrefixHasTheChange(start: nat, d: Disk, d': Disk, blocks: seq<nat>, view: Disk, m: nat)
    requires TxnOk(start, d, blocks, view) && m <= |blocks| && Partial(start, d, d', blocks, view, m)
    requires AtMostOneChange(d, blocks, view)
    requires exists i | 0 <= i < m :: Changed(d, view, blocks[i])
    ensures SameHome(start, d', view)
  {
    var c :| 0 <= c < m && Changed(d, view, blocks[c]);
    forall b | Home(start, |d|, b)
      ensures d'[b] == view[b]
    {
      if b in blocks[..m] {
        var i :| 0 <= i < m && blocks[i] == b;
      } else if b in blocks {
        var i :| 0 <= i < |blocks| && blocks[i] == b;
        assert !Changed(d, view, blocks[i]);
      }
    }
  }

  lemma TwoChangesTear(start: nat, d: Disk, blocks: seq<nat>, view: Disk, i: nat, j: nat)
    requires TxnOk(start, d, blocks, view) && Empty(start, d) && NoDup(blocks)
    requires i < j < |blocks| && Changed(d, view, blocks[i]) && Changed(d, view, blocks[j])
    ensures !AllOrNothing(start, d, blocks, view, |blocks| + 2 + i)
  {
    var k := |blocks| + 2 + i;
    var ws := CommitWrites(false, start, blocks, view, d[start]);
    CrashState(start, d, blocks, view, ws, k);
    var d' := Apply(d, ws[..k]);
    RecoveryDoesNothing(start, d');
    Torn(start, d, d', blocks, view, i, j);
  }

  lemma Torn(start: nat, d: Disk, d': Disk, blocks: seq<nat>, view: Disk, i: nat, j: nat)
    requires TxnOk(start, d, blocks, view) && NoDup(blocks) && i < j < |blocks|
    requires Partial(start, d, d', blocks, view, i + 1)
    requires Changed(d, view, blocks[i]) && Changed(d, view, blocks[j])
    ensures !SameHome(start, d', d) && !SameHome(start, d', view)
  {
    assert d'[blocks[i]] == view[blocks[i]];
    assert blocks[j] !in blocks[..i + 1];
    assert d'[blocks[j]] == d[blocks[j]];
  }

  /** With write_head as it stands, a transaction survives a crash at every
      point all or nothing exactly when it changes at most one block. */
  lemma ShownAtomicIff(start: nat, d: Disk, blocks: seq<nat>, view: Disk)
    requires TxnOk(start, d, blocks, view) && Empty(start, d) && NoDup(blocks)
    ensures (forall k: nat :: AllOrNothing(start, d, blocks, view, k)) <==> AtMostOneChange(d, blocks, view)
  {
    if AtMostOneChange(d, blocks, view) {
      forall k: nat
        ensures AllOrNothing(start, d, blocks, view, k)
      {
        OneChangeSuffices(start, d, blocks, view, k);
      }
    } else {
      var i, j :| 0 <= i < j < |blocks| && Changed(d, view, blocks[i]) && Changed(d, view, blocks[j]);
      TwoChangesTear(start, d, blocks, view, i, j);
    }
  }
}
