/** riscv-os/kernel/disk/log.c in its own form: the in-memory header is updated
    in place and the commit and recovery loops write one block at a time. Each
    method is tied to the block writes of LogFormat, on which crash atomicity
    is proved. */
module LogDevice {
  import opened Common
  import opened BlockDisk
  import opened LogFormat
  import opened LogRuns

  /** All reads of log.c go through the buffer cache, whose contents are `view`;
      the device sees the block writes of `trace`. */
  class WriteAheadLog {
    const start: nat
    const counted: bool          // whether write_head stores the count
    var lh: seq<nat>             // log.lh.block[..log.lh.n]
    var outstanding: int
    var committing: bool
    var view: Disk               // what bread returns
    ghost var trace: seq<Write>  // what bwrite has sent to the device

    ghost predicate Valid()
      reads this
    {
      start + LOGBLOCKS < |view| && |lh| <= LOGBLOCKS && AllHome(start, |view|, lh)
    }

    /** The log of a machine that has just booted from `disk`. */
    constructor (start: nat, counted: bool, disk: Disk)
      requires start + LOGBLOCKS < |disk|
      ensures Valid()
      ensures this.start == start && this.counted == counted && view == disk
      ensures lh == [] && outstanding == 0 && !committing && trace == []
    {
      this.start, this.counted := start, counted;
      this.lh, this.outstanding, this.committing := [], 0, false;
      this.view, this.trace := disk, [];
    }

    /** memmove of `data` into the cached block `b`, then bwrite. */
    method Put(b: nat, data: Block)
      requires b < |view|
      modifies this`view, this`trace
      ensures view == old(view)[b := data]
      ensures trace == old(trace) + [Write(b, data)]
    {
      view := view[b := data];
      trace := trace + [Write(b, view[b])];
    }

    /** log_write: absorb the block or append it; false stands for its panics. */
    method LogWrite(b: nat) returns (ok: bool)
      requires Valid() && Home(start, |view|, b)
      modifies this`lh
      ensures Valid()
      ensures ok <==> |old(lh)| < LOGBLOCKS && outstanding >= 1
      ensures lh == if ok then Absorb(old(lh), b) else old(lh)
    {
      if |lh| >= LOGBLOCKS || outstanding < 1 { return false; }
      var i := 0;
      while i < |lh| && lh[i] != b
        invariant i <= |lh|
        invariant b !in lh[..i]
      {
        i := i + 1;
      }
      if i == |lh| {
        lh := lh + [b];
      } else {
        lh := lh[i := b];
      }
      return true;
    }

    method WriteHead()
      requires Valid()
      modifies this`view, this`trace
      ensures Valid()
      ensures var hb := EncodeHead(counted, old(view)[start], lh);
              && trace == old(trace) + [Write(start, hb)]
              && view == old(view)[start := hb]
    {
      ghost var b0: Block := view[start];
      var hb: Block := view[start];
      if counted { hb := hb[0 := |lh|]; }
      var i := 0;
      while i < |lh|
        invariant i <= |lh|
        invariant hb[0] == if counted then |lh| else b0[0]
        invariant forall j | 1 <= j < WORDS :: hb[j] == if j <= i then lh[j - 1] else b0[j]
      {
        hb := hb[i + 1 := lh[i]];
        i := i + 1;
      }
      assert hb == EncodeHead(counted, b0, lh);
      Put(start, hb);
    }

    /** read_head follows the header whatever it says; false stands for a count that does
        not fit log.lh or an entry that names no home block. */
    method ReadHead() returns (ok: bool)
      requires Valid()
      modifies this`lh
      ensures ok <==> Readable(start, |view|, view[start])
      ensures ok ==> Valid() && lh == if view[start][0] < 0 then [] else DecodeHead(start, |view|, view[start])
    {
      var hb := view[start];
      lh := [];
      if hb[0] > LOGBLOCKS { return false; }
      var i := 0;
      while i < hb[0]
        invariant |lh| == i && (i <= hb[0] || (hb[0] < 0 && i == 0))
        invariant forall j | 0 <= j < i :: lh[j] == hb[j + 1]
        invariant forall j | 1 <= j <= i :: Home(start, |view|, hb[j])
      {
        if hb[i + 1] < 0 || hb[i + 1] >= |view| || start <= hb[i + 1] <= start + LOGBLOCKS { return false; }
        lh := lh + [hb[i + 1]];
        i := i + 1;
      }
      ok := true;
    }

    /** Copy logged blocks home, during a commit or a recovery. */
    method InstallTrans()
      requires Valid()
      modifies this`view, this`trace
      ensures Valid()
      ensures trace == old(trace) + Installs(start, lh, old(view))
      ensures view == Apply(old(view), Installs(start, lh, old(view)))
      ensures view[start] == old(view)[start]
    {
      var tail := 0;
      ghost var v0, ins := view, Installs(start, lh, view);
      while tail < |lh|
        invariant tail <= |lh|
        invariant trace == old(trace) + ins[..tail]
        invariant view == Apply(v0, ins[..tail])
        invariant forall b | start <= b <= start + LOGBLOCKS :: view[b] == v0[b]
      {
        Put(lh[tail], view[start + 1 + tail]);
        TraceNext(old(trace), ins, tail);
        ApplyNext(v0, ins, tail);
        tail := tail + 1;
      }
      assert ins[..|lh|] == ins;
    }

    /** Copy logged blocks from the cache into the log. */
    method WriteLog()
      requires Valid()
      modifies this`view, this`trace
      ensures Valid()
      ensures trace == old(trace) + Logs(start, lh, old(view))
      ensures view[start] == old(view)[start]
      ensures SameHome(start, view, old(view))
      ensures LogHolds(start, view, lh, old(view), |lh|)
    {
      var tail := 0;
      ghost var v0, logs := view, Logs(start, lh, view);
      while tail < |lh|
        invariant tail <= |lh|
        invariant trace == old(trace) + logs[..tail]
        invariant SameHome(start, view, v0)
        invariant view[start] == v0[start]
        invariant LogHolds(start, view, lh, v0, tail)
      {
        Put(start + 1 + tail, view[lh[tail]]);
        TraceNext(old(trace), logs, tail);
        tail := tail + 1;
      }
      assert logs[..|lh|] == logs;
    }

    /** commit: its block writes are those of CommitWrites, and readers outside
        the log notice nothing. */
    method Commit()
      requires Valid()
      modifies this`lh, this`view, this`trace
      ensures Valid() && lh == []
      ensures trace == old(trace) + CommitWrites(counted, start, old(lh), old(view), old(view)[start])
      ensures SameHome(start, view, old(view))
    {
      if |lh| > 0 {
        ghost var v0, bs := view, lh;
        WriteLog();
        WriteHead();
        ghost var v1 := view;
        InstallTrans();
        InstallsOfLogged(start, bs, v0, v1);
        lh := [];
        WriteHead();
        CommitInFour(counted, start, bs, v0, v0[start], old(trace));
      }
    }

    /** recover_from_log on a cold cache. A negative count is taken for none. */
    method RecoverFromLog() returns (ok: bool)
      requires Valid()
      modifies this`lh, this`view, this`trace
      ensures ok <==> Readable(start, |old(view)|, old(view)[start])
      ensures ok ==> Valid() && lh == []
      ensures ok && old(view)[start][0] >= 0 ==>
                && trace == old(trace) + RecoverWrites(counted, start, old(view))
                && view == Apply(old(view), RecoverWrites(counted, start, old(view)))
      ensures ok && old(view)[start][0] < 0 ==>
                trace == old(trace) + [Write(start, EncodeHead(counted, old(view)[start], []))]
    {
      ghost var d0 := view;
      ok := ReadHead();
      if !ok { return; }
      InstallTrans();
      lh := [];
      WriteHead();
      if d0[start][0] >= 0 { RecoverInTwo(counted, start, d0); }
    }

    /** One turn of begin_op's loop: the operation starts, or has to sleep. */
    method TryBeginOp() returns (started: bool)
      modifies this`outstanding
      ensures started <==> !committing && |lh| + (old(outstanding) + 1) * MAXOPBLOCKS <= LOGBLOCKS
      ensures outstanding == old(outstanding) + if started then 1 else 0
    {
      if committing || |lh| + (outstanding + 1) * MAXOPBLOCKS > LOGBLOCKS { return false; }
      outstanding := outstanding + 1;
      return true;
    }

    /** end_op: the last operation out commits; false stands for its panic. */
    method EndOp() returns (ok: bool)
      requires Valid()
      modifies this
      ensures ok <==> !old(committing)
      ensures outstanding == old(outstanding) - 1
      ensures ok ==> Valid() && !committing && SameHome(start, view, old(view))
      ensures ok && outstanding == 0 ==>
                && lh == []
                && trace == old(trace) + CommitWrites(counted, start, old(lh), old(view), old(view)[start])
      ensures ok && outstanding != 0 ==> lh == old(lh) && trace == old(trace)
    {
      outstanding := outstanding - 1;
      if committing { return false; }
      if outstanding == 0 {
        committing := true;
        Commit();
        committing := false;
      }
      return true;
    }
  }

  /** A header that read_head can follow. */
  predicate Readable(start: nat, n: nat, hb: Block) {
    hb[0] <= LOGBLOCKS && forall i | 1 <= i <= hb[0] :: Home(start, n, hb[i])
  }

  /** The writes of install_trans when the cache holds `view`. */
  function Installs(start: nat, blocks: seq<nat>, view: Disk): (ws: seq<Write>)
    requires start + LOGBLOCKS < |view| && |blocks| <= LOGBLOCKS && AllHome(start, |view|, blocks)
    ensures Fits(ws, |view|)
  {
    seq(|blocks|, i requires 0 <= i < |blocks| => Write(blocks[i], view[start + 1 + i]))
  }

  /** The writes of write_log when the cache holds `view`. */
  function Logs(start: nat, blocks: seq<nat>, view: Disk): (ws: seq<Write>)
    requires start + LOGBLOCKS < |view| && |blocks| <= LOGBLOCKS && AllHome(start, |view|, blocks)
    ensures Fits(ws, |view|)
  {
    seq(|blocks|, i requires 0 <= i < |blocks| => Write(start + 1 + i, view[blocks[i]]))
  }

  /** Installing what write_log has just copied changes no home block. */
  lemma InstallsOfLogged(start: nat, blocks: seq<nat>, v0: Disk, v: Disk)
    requires start + LOGBLOCKS < |v0| == |v| && |blocks| <= LOGBLOCKS && AllHome(start, |v|, blocks)
    requires SameHome(start, v, v0) && LogHolds(start, v, blocks, v0, |blocks|)
    ensures Installs(start, blocks, v) == seq(|blocks|, i requires 0 <= i < |blocks| => Write(blocks[i], v0[blocks[i]]))
    ensures SameHome(start, Apply(v, Installs(start, blocks, v)), v0)
  {
    var ws := Installs(start, blocks, v);
    assert ws[..|ws|] == ws;
    InstallsPrefix(start, blocks, v0, v, ws, |ws|);
  }

  lemma {:induction false} InstallsPrefix(start: nat, blocks: seq<nat>, v0: Disk, v: Disk, ws: seq<Write>, k: nat)
    requires start + LOGBLOCKS < |v0| == |v| && |blocks| <= LOGBLOCKS && AllHome(start, |v|, blocks)
    requires SameHome(start, v, v0) && LogHolds(start, v, blocks, v0, |blocks|)
    requires ws == Installs(start, blocks, v) && k <= |ws|
    ensures SameHome(start, Apply(v, ws[..k]), v0)
  {
    if k > 0 {
      InstallsPrefix(start, blocks, v0, v, ws, k - 1);
      ApplyNext(v, ws, k - 1);
    }
  }

  lemma TraceNext(t: seq<Write>, ws: seq<Write>, k: nat)
    requires k < |ws|
    ensures t + ws[..k + 1] == t + ws[..k] + [ws[k]]
  {
  }

  lemma RecoverInTwo(counted: bool, start: nat, d: Disk)
    requires start + LOGBLOCKS < |d| && HeadOk(start, |d|, d[start])
    ensures var ins := Installs(start, DecodeHead(start, |d|, d[start]), d);
            var hb := EncodeHead(counted, d[start], []);
            && RecoverWrites(counted, start, d) == ins + [Write(start, hb)]
            && Apply(d, RecoverWrites(counted, start, d)) == Apply(d, ins)[start := hb]
  {
    var ins := Installs(start, DecodeHead(start, |d|, d[start]), d);
    assert RecoverWrites(counted, start, d)[..|ins|] == ins;
  }

  lemma CommitInFour(counted: bool, start: nat, blocks: seq<nat>, view: Disk, hb: Block, t: seq<Write>)
    requires start + LOGBLOCKS < |view| && 0 < |blocks| <= LOGBLOCKS && AllHome(start, |view|, blocks)
    ensures var head := EncodeHead(counted, hb, blocks);
            t + CommitWrites(counted, start, blocks, view, hb)
            == t + Logs(start, blocks, view)
               + [Write(start, head)]
               + seq(|blocks|, i requires 0 <= i < |blocks| => Write(blocks[i], view[blocks[i]]))
               + [Write(start, EncodeHead(counted, head, []))]
  {
  }
}
