/** Every run of the logging layer of riscv-os/kernel/disk/log.c: any number of
    operations between begin_op and end_op, their log_writes interleaved, the
    commit and the recovery one block write at a time, and a crash allowed
    between any two steps. */
module LogRuns {
  import opened Common
  import opened BlockDisk
  import opened LogFormat

  /** One log_write: operation `op` gave block `at` the contents `data`. */
  datatype Update = Update(op: nat, at: nat, data: Block)

  /** Committing and Recovering carry the disk they started from, the block
      writes they will make and how many of them are done. */
  datatype Phase =
    | Active
    | Committing(from: Disk, ws: seq<Write>, k: nat)
    | Recovering(from: Disk, ws: seq<Write>, k: nat)
    | Panicked

  /** `view` is what bread returns, `lh` is log.lh.block[..log.lh.n], `ops` maps
      each operation between begin_op and end_op to the blocks it has logged.
      `hist` and `durable` do not influence a run: they record all updates that
      no crash has erased, and how many of them the disk would recover. */
  datatype State = State(
    disk: Disk,
    view: Disk,
    lh: seq<nat>,
    outstanding: int,
    ops: map<nat, set<nat>>,
    nextOp: nat,
    phase: Phase,
    hist: seq<Update>,
    durable: nat)

  datatype Event =
    | Begin
    | Log(o: nat, b: nat, data: Block)
    | End(o: nat)
    | DiskWrite
    | Finish
    | Crash

  function CommitPlan(start: nat, s: State): seq<Write> {
    if start + LOGBLOCKS < |s.disk| == |s.view| && |s.lh| <= LOGBLOCKS && AllHome(start, |s.view|, s.lh)
    then CommitWrites(true, start, s.lh, s.view, s.disk[start])
    else []
  }

  function RecoverPlan(start: nat, d: Disk): seq<Write> {
    if start + LOGBLOCKS < |d| && HeadOk(start, |d|, d[start]) then RecoverWrites(true, start, d) else []
  }

  /** log_write's scan: an absorbed block keeps its slot. */
  function Absorb(lh: seq<nat>, b: nat): seq<nat> {
    if b in lh then lh else lh + [b]
  }

  /** begin_op goes ahead only when no commit is running and the log has room
      for a full operation more. An operation calls log_write on home blocks
      and logs fewer than MAXOPBLOCKS distinct ones. */
  predicate Enabled(start: nat, s: State, e: Event) {
    match e
    case Begin =>
      s.phase.Active? && |s.lh| + (s.outstanding + 1) * MAXOPBLOCKS <= LOGBLOCKS
    case Log(o, b, _) =>
      && (s.phase.Active? || s.phase.Committing?)
      && o in s.ops
      && Home(start, |s.view|, b)
      && |s.ops[o] + {b}| < MAXOPBLOCKS
    case End(o) =>
      (s.phase.Active? || s.phase.Committing?) && o in s.ops
    case DiskWrite =>
      && (s.phase.Committing? || s.phase.Recovering?)
      && s.phase.k < |s.phase.ws|
      && s.phase.ws[s.phase.k].at < |s.disk|
    case Finish =>
      (s.phase.Committing? || s.phase.Recovering?) && s.phase.k == |s.phase.ws|
    case Crash => true
  }

  function NextBegin(s: State): State {
    s.(outstanding := s.outstanding + 1, ops := s.ops[s.nextOp := {}], nextOp := s.nextOp + 1)
  }

  function NextLog(s: State, o: nat, b: nat, data: Block): State
    requires o in s.ops && b < |s.view|
  {
    if |s.lh| >= LOGBLOCKS || s.outstanding < 1 then s.(phase := Panicked)
    else s.(view := s.view[b := data],
            lh := Absorb(s.lh, b),
            ops := s.ops[o := s.ops[o] + {b}],
            hist := s.hist + [Update(o, b, data)])
  }

  function NextEnd(start: nat, s: State, o: nat): State {
    var s' := s.(outstanding := s.outstanding - 1, ops := s.ops - {o});
    if s.phase.Committing? then s'.(phase := Panicked)
    else if s'.outstanding == 0 then s'.(phase := Committing(s.disk, CommitPlan(start, s), 0))
    else s'
  }

  function NextDiskWrite(s: State): State
    requires s.phase.Committing? || s.phase.Recovering?
    requires s.phase.k < |s.phase.ws| && s.phase.ws[s.phase.k].at < |s.disk|
  {
    var w := s.phase.ws[s.phase.k];
    s.(disk := s.disk[w.at := w.data],
       phase := s.phase.(k := s.phase.k + 1),
       durable := if s.phase.Committing? && s.phase.k == |s.lh| then |s.hist| else s.durable)
  }

  function NextFinish(s: State): State {
    if s.phase.Committing? then s.(lh := [], phase := Active)
    else s.(view := s.disk, phase := Active)
  }

  /** Memory is lost; the next boot runs recover_from_log. */
  function NextCrash(start: nat, s: State): State {
    s.(view := s.disk,
       lh := [],
       outstanding := 0,
       ops := map[],
       phase := Recovering(s.disk, RecoverPlan(start, s.disk), 0),
       hist := if s.durable <= |s.hist| then s.hist[..s.durable] else s.hist)
  }

  function Next(start: nat, s: State, e: Event): State
    requires Enabled(start, s, e)
  {
    match e
    case Begin => NextBegin(s)
    case Log(o, b, data) => NextLog(s, o, b, data)
    case End(o) => NextEnd(start, s, o)
    case DiskWrite => NextDiskWrite(s)
    case Finish => NextFinish(s)
    case Crash => NextCrash(start, s)
  }

  predicate Init(start: nat, init: Disk, s: State) {
    && Empty(start, init)
    && s == State(init, init, [], 0, map[], 0, Active, [], 0)
  }

  /** A run from a freshly made disk. */
  predicate Run(start: nat, init: Disk, run: seq<State>, events: seq<Event>) {
    && |run| == |events| + 1
    && Init(start, init, run[0])
    && forall i | 0 <= i < |events| :: Enabled(start, run[i], events[i]) && run[i + 1] == Next(start, run[i], events[i])
  }

  // ---- the contents part of the invariant ----

  /** The contents that a history of updates gives to an initial disk. */
  function Replay(init: Disk, hist: seq<Update>): (r: Disk)
    ensures |r| == |init|
  {
    if hist == [] then init
    else
      var u := hist[|hist| - 1];
      var r := Replay(init, hist[..|hist| - 1]);
      if u.at < |init| then r[u.at := u.data] else r
  }

  /** What the disk recovers to. */
  function Kept(init: Disk, s: State): Disk
    requires s.durable <= |s.hist|
  {
    Replay(init, s.hist[..s.durable])
  }

  ghost predicate Pending(s: State) {
    s.durable <= |s.hist| && forall i | s.durable <= i < |s.hist| :: s.hist[i].at in s.lh
  }

  ghost predicate CommittingOk(start: nat, init: Disk, s: State)
    requires s.phase.Committing? && s.durable <= |s.hist|
  {
    var Committing(from, ws, k) := s.phase;
    && s.ops == map[]
    && TxnOk(start, from, s.lh, s.view)
    && Empty(start, from)
    && ws == CommitWrites(true, start, s.lh, s.view, from[start])
    && k <= |ws|
    && s.disk == Apply(from, ws[..k])
    && (if k <= |s.lh| then Pending(s) && SameHome(start, from, Kept(init, s)) else s.durable == |s.hist|)
  }

  ghost predicate RecoveringOk(start: nat, init: Disk, s: State)
    requires s.phase.Recovering? && s.durable <= |s.hist|
  {
    var Recovering(from, ws, k) := s.phase;
    && s.ops == map[]
    && s.lh == []
    && s.durable == |s.hist|
    && Means(start, from, Kept(init, s))
    && ws == RecoverWrites(true, start, from)
    && k <= |ws|
    && s.disk == Apply(from, ws[..k])
  }

  ghost predicate ContentsInv(start: nat, init: Disk, s: State) {
    && start + LOGBLOCKS < |init| == |s.disk| == |s.view|
    && s.durable <= |s.hist|
    && Means(start, s.disk, Kept(init, s))
    && (!s.phase.Recovering? ==> SameHome(start, s.view, Replay(init, s.hist)))
    && match s.phase {
      case Active => Empty(start, s.disk) && Pending(s) && TxnOk(start, s.disk, s.lh, s.view)
      case Committing(_, _, _) => CommittingOk(start, init, s)
      case Recovering(_, _, _) => RecoveringOk(start, init, s)
      case Panicked => false
    }
  }

  // ---- the space part of the invariant ----

  /** Log space reserved by the running operations and not used yet. */
  ghost function Unused(ops: map<nat, set<nat>>): int
    decreases |ops|
  {
    if ops == map[] then 0
    else
      var o :| o in ops;
      MAXOPBLOCKS - |ops[o]| + Unused(ops - {o})
  }

  ghost predicate SpaceInv(s: State) {
    && s.outstanding == |s.ops|
    && NoDup(s.lh)
    && (forall o, b | o in s.ops && b in s.ops[o] :: b in s.lh)
    && (forall o | o in s.ops :: |s.ops[o]| < MAXOPBLOCKS)
    && |s.lh| + Unused(s.ops) <= LOGBLOCKS
    && (s.phase.Committing? ==> s.ops == map[])
    && !s.phase.Panicked?
  }

  // ---- the operations part of the invariant ----

  /** No operation has updates on both sides of the durable point, and those before it
      have ended. */
  ghost predicate WholeOps(s: State) {
    && s.durable <= |s.hist|
    && (forall i, j | 0 <= i < s.durable <= j < |s.hist| :: s.hist[i].op != s.hist[j].op)
    && (forall i | 0 <= i < s.durable :: s.hist[i].op !in s.ops)
  }

  ghost predicate OpsInv(s: State) {
    && WholeOps(s)
    && (forall i | 0 <= i < |s.hist| :: s.hist[i].op < s.nextOp)
    && (forall o | o in s.ops :: o < s.nextOp)
  }

  ghost predicate Inv(start: nat, init: Disk, s: State) {
    ContentsInv(start, init, s) && SpaceInv(s) && OpsInv(s)
  }

  // ---- space: no panic, the reservation holds ----

  lemma {:induction false} UnusedRemove(ops: map<nat, set<nat>>, o: nat)
    requires o in ops
    ensures Unused(ops) == MAXOPBLOCKS - |ops[o]| + Unused(ops - {o})
    decreases |ops|
  {
    var p :| p in ops && Unused(ops) == MAXOPBLOCKS - |ops[p]| + Unused(ops - {p});
    if p != o {
      UnusedRemove(ops - {p}, o);
      UnusedRemove(ops - {o}, p);
      assert ops - {p} - {o} == ops - {o} - {p};
    }
  }

  lemma UnusedUpdate(ops: map<nat, set<nat>>, o: nat, w: set<nat>)
    ensures Unused(ops[o := w]) == MAXOPBLOCKS - |w| + Unused(ops - {o})
  {
    UnusedRemove(ops[o := w], o);
    assert ops[o := w] - {o} == ops - {o};
  }

  lemma {:induction false} UnusedBounds(ops: map<nat, set<nat>>)
    requires forall o | o in ops :: |ops[o]| < MAXOPBLOCKS
    ensures |ops| <= Unused(ops) <= |ops| * MAXOPBLOCKS
    decreases |ops|
  {
    if ops != map[] {
      var p :| p in ops;
      UnusedRemove(ops, p);
      UnusedBounds(ops - {p});
      assert |ops| == |ops - {p}| + 1;
    }
  }

  lemma SpaceBegin(start: nat, s: State)
    requires SpaceInv(s) && OpsInv(s) && Enabled(start, s, Begin)
    ensures SpaceInv(NextBegin(s))
  {
    UnusedUpdate(s.ops, s.nextOp, {});
    assert s.ops - {s.nextOp} == s.ops;
    UnusedBounds(s.ops);
  }

  /** An operation that stays under MAXOPBLOCKS never meets a full log. */
  lemma RoomToLog(s: State, o: nat, b: nat)
    requires SpaceInv(s) && o in s.ops && |s.ops[o] + {b}| < MAXOPBLOCKS
    ensures |s.lh| < LOGBLOCKS && s.outstanding >= 1
    ensures |s.ops[o] + {b}| == |s.ops[o]| + if b in s.ops[o] then 0 else 1
    ensures b !in s.lh ==> b !in s.ops[o]
  {
    UnusedRemove(s.ops, o);
    UnusedBounds(s.ops - {o});
    if b in s.ops[o] {
      assert s.ops[o] + {b} == s.ops[o];
    }
  }

  lemma SpaceLog(start: nat, s: State, o: nat, b: nat, data: Block)
    requires SpaceInv(s) && Enabled(start, s, Log(o, b, data))
    ensures SpaceInv(NextLog(s, o, b, data))
  {
    var s' := NextLog(s, o, b, data);
    RoomToLog(s, o, b);
    UnusedRemove(s.ops, o);
    UnusedUpdate(s.ops, o, s.ops[o] + {b});
    assert s'.ops.Keys == s.ops.Keys;
  }

  lemma SpaceEnd(start: nat, s: State, o: nat)
    requires SpaceInv(s) && Enabled(start, s, End(o))
    ensures SpaceInv(NextEnd(start, s, o))
  {
    UnusedRemove(s.ops, o);
    var s' := NextEnd(start, s, o);
    assert s'.ops.Keys == s.ops.Keys - {o};
    if |s'.ops| == 0 {
      assert s'.ops == map[];
    }
  }

  lemma SpaceKept(start: nat, s: State, e: Event)
    requires SpaceInv(s) && OpsInv(s) && Enabled(start, s, e)
    ensures SpaceInv(Next(start, s, e))
  {
    match e
    case Begin => SpaceBegin(start, s);
    case Log(o, b, data) => SpaceLog(start, s, o, b, data);
    case End(o) => SpaceEnd(start, s, o);
    case DiskWrite =>
    case Finish =>
      UnusedBounds(s.ops);
      if s.phase.Committing? { assert s.ops == map[]; }
    case Crash =>
  }

  // ---- operations: none is split by the durable point ----

  lemma OpsKept(start: nat, s: State, e: Event)
    requires SpaceInv(s) && OpsInv(s) && Enabled(start, s, e)
    ensures OpsInv(Next(start, s, e))
  {
    hide Home, AllHome, CommitPlan;
    match e
    case Begin =>
    case Log(o, b, data) => RoomToLog(s, o, b);
    case End(o) =>
    case DiskWrite =>
    case Finish =>
    case Crash =>
  }

  // ---- contents ----

  lemma ReplaySnoc(init: Disk, hist: seq<Update>, u: Update)
    requires u.at < |init|
    ensures Replay(init, hist + [u]) == Replay(init, hist)[u.at := u.data]
  {
    assert (hist + [u])[..|hist|] == hist;
  }

  lemma MeansSame(start: nat, d: Disk, a: Disk, b: Disk)
    requires Means(start, d, a) && SameHome(start, a, b)
    ensures Means(start, d, b)
  {
  }

  lemma ContentsLog(start: nat, init: Disk, s: State, o: nat, b: nat, data: Block)
    requires ContentsInv(start, init, s) && SpaceInv(s) && Enabled(start, s, Log(o, b, data))
    ensures ContentsInv(start, init, NextLog(s, o, b, data))
  {
    var s' := NextLog(s, o, b, data);
    RoomToLog(s, o, b);
    assert s.phase.Active?;
    assert s'.hist[..s.durable] == s.hist[..s.durable];
    ReplaySnoc(init, s.hist, Update(o, b, data));
    LogKeepsTxn(start, s, b, data);
  }

  lemma LogKeepsTxn(start: nat, s: State, b: nat, data: Block)
    requires TxnOk(start, s.disk, s.lh, s.view) && Home(start, |s.view|, b) && |s.lh| < LOGBLOCKS
    ensures TxnOk(start, s.disk, Absorb(s.lh, b), s.view[b := data])
  {
  }

  lemma ContentsEnd(start: nat, init: Disk, s: State, o: nat)
    requires ContentsInv(start, init, s) && SpaceInv(s) && Enabled(start, s, End(o))
    ensures ContentsInv(start, init, NextEnd(start, s, o))
  {
    var s' := NextEnd(start, s, o);
    SpaceEnd(start, s, o);
    if s'.phase.Committing? {
      EmptyMeans(start, s.disk, Kept(init, s));
      assert s'.phase.ws[..0] == [];
      assert Apply(s.disk, []) == s.disk;
    }
  }

  lemma ContentsCommitWrite(start: nat, init: Disk, s: State)
    requires ContentsInv(start, init, s) && Enabled(start, s, DiskWrite) && s.phase.Committing?
    ensures ContentsInv(start, init, NextDiskWrite(s))
  {
    hide TxnOk, Means, Replay, Apply, CommitWrites;
    var s' := NextDiskWrite(s);
    var Committing(from, ws, k) := s.phase;
    ApplyNext(from, ws, k);
    CommitPoint(start, from, s.lh, s.view, k + 1);
    if k < |s.lh| {
      MeansSame(start, s'.disk, from, Kept(init, s));
    } else {
      assert s'.hist[..s'.durable] == s.hist;
      MeansSame(start, s'.disk, s.view, Replay(init, s.hist));
    }
  }

  lemma ContentsRecoverWrite(start: nat, init: Disk, s: State)
    requires ContentsInv(start, init, s) && Enabled(start, s, DiskWrite) && s.phase.Recovering?
    ensures ContentsInv(start, init, NextDiskWrite(s))
  {
    var Recovering(from, ws, k) := s.phase;
    ApplyNext(from, ws, k);
    RecoverPrefix(start, from, Kept(init, s), k + 1);
  }

  lemma ContentsFinish(start: nat, init: Disk, s: State)
    requires ContentsInv(start, init, s) && Enabled(start, s, Finish)
    ensures ContentsInv(start, init, NextFinish(s))
  {
    var ws := s.phase.ws;
    assert ws[..|ws|] == ws;
    if s.phase.Committing? {
      CommitClears(start, s.phase.from, s.lh, s.view);
    } else {
      RecoverMeans(start, s.phase.from, Kept(init, s));
      assert s.hist[..s.durable] == s.hist;
    }
  }

  lemma ContentsCrash(start: nat, init: Disk, s: State)
    requires ContentsInv(start, init, s)
    ensures ContentsInv(start, init, NextCrash(start, s))
  {
    var s' := NextCrash(start, s);
    assert s'.hist[..s'.durable] == s.hist[..s.durable];
    assert s'.phase.ws[..0] == [];
    assert Apply(s.disk, []) == s.disk;
  }

  lemma ContentsKept(start: nat, init: Disk, s: State, e: Event)
    requires ContentsInv(start, init, s) && SpaceInv(s) && Enabled(start, s, e)
    ensures ContentsInv(start, init, Next(start, s, e))
  {
    match e
    case Begin =>
    case Log(o, b, data) => ContentsLog(start, init, s, o, b, data);
    case End(o) => ContentsEnd(start, init, s, o);
    case DiskWrite =>
      if s.phase.Committing? { ContentsCommitWrite(start, init, s); }
      else { ContentsRecoverWrite(start, init, s); }
    case Finish => ContentsFinish(start, init, s);
    case Crash => ContentsCrash(start, init, s);
  }

  // ---- theorems over every run ----

  lemma {:induction false} RunInv(start: nat, init: Disk, run: seq<State>, events: seq<Event>, i: nat)
    requires Run(start, init, run, events) && i < |run|
    ensures Inv(start, init, run[i])
  {
    if i == 0 {
      EmptyMeans(start, init, init);
      assert Unused(map[]) == 0;
    } else {
      RunInv(start, init, run, events, i - 1);
      var s, e := run[i - 1], events[i - 1];
      assert run[i] == Next(start, s, e);
      SpaceKept(start, s, e);
      OpsKept(start, s, e);
      ContentsKept(start, init, s, e);
    }
  }

  /** In every interleaving the log never overflows: no log_write or end_op
      panic is reached, the unused reservations of the running operations still
      fit, and a commit runs only while no operation is outstanding. */
  lemma NoPanic(start: nat, init: Disk, run: seq<State>, events: seq<Event>, i: nat)
    requires Run(start, init, run, events) && i < |run|
    ensures !run[i].phase.Panicked?
    ensures run[i].outstanding == |run[i].ops|
    ensures |run[i].lh| + Unused(run[i].ops) <= LOGBLOCKS
    ensures run[i].phase.Committing? ==> run[i].outstanding == 0
  {
    RunInv(start, init, run, events, i);
  }

  /** Crash atomicity over every run. Stop the machine after any step; reboot any
      number of times with recoveries that are themselves cut off; the first
      recovery to complete leaves in the home blocks exactly the updates
      hist[..durable], which contain operations that have ended, each wholly, and no
      update of any other. */
  lemma WholeOperationsSurvive(start: nat, init: Disk, run: seq<State>, events: seq<Event>, i: nat, crashes: seq<nat>)
    requires Run(start, init, run, events) && i < |run|
    ensures WholeOps(run[i])
    ensures var d := Reboots(start, run[i].disk, crashes);
            && start + LOGBLOCKS < |d| && HeadOk(start, |d|, d[start])
            && SameHome(start, Recover(start, d), Kept(init, run[i]))
  {
    RunInv(start, init, run, events, i);
    RebootsKeepMeaning(start, run[i].disk, crashes, Kept(init, run[i]));
    RecoverMeans(start, Reboots(start, run[i].disk, crashes), Kept(init, run[i]));
  }

  /** A commit that has finished kept everything: with the log empty and no
      commit or recovery running, no update can be lost to a crash any more. */
  lemma CommitIsDurable(start: nat, init: Disk, run: seq<State>, events: seq<Event>, i: nat)
    requires Run(start, init, run, events) && i < |run|
    requires run[i].phase.Active? && run[i].lh == []
    ensures run[i].durable == |run[i].hist|
  {
    RunInv(start, init, run, events, i);
    assert Pending(run[i]);
  }

  /** While no crash intervenes, every bread outside the log sees all updates so far. */
  lemma ReadersSeeAllUpdates(start: nat, init: Disk, run: seq<State>, events: seq<Event>, i: nat, b: nat)
    requires Run(start, init, run, events) && i < |run|
    requires Home(start, |init|, b) && !run[i].phase.Recovering?
    ensures b < |run[i].view| && run[i].view[b] == Replay(init, run[i].hist)[b]
  {
    RunInv(start, init, run, events, i);
  }
}
