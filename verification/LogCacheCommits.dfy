/** The same of the log on top of the cache: the last end_op starts the loops of
    commit(), and when they are through everything is on the disk under the cache. */
module LogCacheCommits {
  import opened Common
  import opened BlockDisk
  import opened LogFormat
  import Cache = BufferCache
  import Log = LogRuns
  import Commits = LogCommits
  import opened LogCache
  import opened LogCacheSteps
  import opened LogCacheRuns

  /** end_op of the last operation starts a commit of everything in the log. */
  lemma LastOpCommits(c: Cache.Code, start: nat, init: Disk, run: seq<World>, events: seq<Event>, i: nat)
    requires Cache.Safe(c) && Run(c, start, init, run, events) && i < |events| && events[i].End?
    ensures run[i + 1].l.outstanding == run[i].l.outstanding - 1 && run[i + 1].l.hist == run[i].l.hist && run[i + 1].l.lh == run[i].l.lh
    ensures run[i].l.outstanding == 1 ==>
      Commits.CommitsAll(start, run[i + 1].l, 0) && run[i + 1].pc == Writing(false, run[i].l.lh, 0, Copying)
    ensures run[i].l.outstanding != 1 ==> run[i + 1].pc.Serving?
  {
    hide Inv, Ready, Init, Log.Inv, Log.CommitPlan, Commits.CommitsAll;
    RunInv(c, start, init, run, events, i);
    RunInv(c, start, init, run, events, i + 1);
    EndStep(c, start, init, run[i], events[i]);
    InvLog(c, start, init, run[i + 1]);
    if run[i].l.outstanding == 1 { Commits.CommittingMeans(start, init, run[i + 1].l); }
  }

  lemma InvLog(c: Cache.Code, start: nat, init: Disk, w: World)
    requires Inv(c, start, init, w)
    ensures Log.Inv(start, init, w.l) && PcOk(start, w.l, w.pc)
  {
  }

  lemma EndStep(c: Cache.Code, start: nat, init: Disk, w: World, e: Event)
    requires Inv(c, start, init, w) && Ready(c, start, w, e) && e.End?
    ensures Log.Enabled(start, w.l, Log.End(e.o)) && w.l.phase.Active? && w.pc.Serving?
    ensures Next(c, start, w, e).l == Log.Next(start, w.l, Log.End(e.o))
  {
    hide Cache.Inv, Cache.Ready, Cache.Next, Log.Inv, BufsOk, SectionOk, PinsCached, DiskSame;
    LogEnabled(c, start, init, w, e);
    ActiveOps(start, init, w.l, e.o);
  }

  /** While a commit runs, no step but its end and a crash stops it or changes what has
      been logged. */
  lemma CommitStep(c: Cache.Code, start: nat, init: Disk, w: World, e: Event)
    requires Inv(c, start, init, w) && Ready(c, start, w, e) && w.l.phase.Committing? && !e.Crash? && !e.Done?
    ensures Next(c, start, w, e).l.phase.Committing? && Next(c, start, w, e).l.hist == w.l.hist
  {
    hide Cache.Inv, Cache.Ready, Cache.Next, Log.ContentsInv, Log.OpsInv, BufsOk, PinsCached, DiskSame;
  }

  /** The end of the loops is the end of the commit. */
  lemma DoneStep(c: Cache.Code, start: nat, init: Disk, w: World)
    requires Inv(c, start, init, w) && Ready(c, start, w, Done) && w.l.phase.Committing?
    ensures var w' := Next(c, start, w, Done); w'.l.phase.Active? && w'.l.lh == [] && w'.l.hist == w.l.hist
  {
    hide Cache.Inv, Log.Inv, BufsOk, SectionOk, PinsCached, DiskSame;
    LogEnabled(c, start, init, w, Done);
  }

  lemma {:induction false} CommitUnderway(c: Cache.Code, start: nat, init: Disk, run: seq<World>, events: seq<Event>, i: nat, m: nat)
    requires Cache.Safe(c) && Run(c, start, init, run, events) && i < m <= |events| && events[i].End? && run[i].l.outstanding == 1
    requires forall x | i < x < m :: !events[x].Crash? && !events[x].Done?
    ensures run[m].l.phase.Committing? && run[m].l.hist == run[i].l.hist
  {
    hide Inv, Ready, Init, Next, Commits.CommitsAll;
    if m == i + 1 {
      LastOpCommits(c, start, init, run, events, i);
      CommitsCommit(start, run[m].l);
    } else {
      CommitUnderway(c, start, init, run, events, i, m - 1);
      RunInv(c, start, init, run, events, m - 1);
      CommitStep(c, start, init, run[m - 1], events[m - 1]);
    }
  }

  lemma CommitsCommit(start: nat, l: Log.State)
    requires Commits.CommitsAll(start, l, 0)
    ensures l.phase.Committing?
  {
  }

  /** Whatever else uses the cache meanwhile: when the commit that the last end_op starts
      at i is through at j, with no crash between, the disk under the cache holds every
      update logged before i in its home block, and none of them can be lost. */
  lemma CommitTakesEffect(c: Cache.Code, start: nat, init: Disk, run: seq<World>, events: seq<Event>, i: nat, j: nat)
    requires Cache.Safe(c) && Run(c, start, init, run, events) && i < j < |events| && events[i].End? && run[i].l.outstanding == 1
    requires events[j].Done? && forall x | i < x < j :: !events[x].Crash? && !events[x].Done?
    ensures Commits.AllHomeOnDisk(start, init, run[j + 1].l) && run[j + 1].l.hist == run[i].l.hist
    ensures IsDisk(run[j + 1].c, run[j + 1].l.disk) && run[j + 1].pc.Serving?
    ensures forall b: nat | Home(start, |init|, b) :: Cache.Read(run[j + 1].c.disk, (DEV, b)) == Log.Replay(init, run[i].l.hist)[b]
  {
    hide Inv, Ready, Init, Next, Log.Inv;
    CommitUnderway(c, start, init, run, events, i, j);
    RunInv(c, start, init, run, events, j);
    RunInv(c, start, init, run, events, j + 1);
    assert Ready(c, start, run[j], events[j]) && run[j + 1] == Next(c, start, run[j], events[j]);
    DoneStep(c, start, init, run[j]);
    InvLog(c, start, init, run[j + 1]);
    Commits.FinishedMeans(start, init, run[j + 1].l);
    SameSize(start, init, run[j + 1].l);
    UnderCache(c, start, init, run[j + 1]);
    ServingIs(start, run[j + 1].l, run[j + 1].pc);
  }

  // ---- recovery ----

  lemma CrashStep(c: Cache.Code, start: nat, init: Disk, w: World, e: Event)
    requires Inv(c, start, init, w) && Ready(c, start, w, e) && e.Crash?
    ensures w.l.durable <= |w.l.hist|
    ensures Next(c, start, w, e).l.phase.Recovering? && Next(c, start, w, e).l.hist == w.l.hist[..w.l.durable]
  {
    hide Cache.Inv, Cache.Ready, Cache.Next, Cache.Init, Log.SpaceInv, BufsOk, SectionOk, PinsCached, DiskSame;
  }

  lemma RecoveryStep(c: Cache.Code, start: nat, init: Disk, w: World, e: Event)
    requires Inv(c, start, init, w) && Ready(c, start, w, e) && w.l.phase.Recovering? && !e.Crash? && !e.Done?
    ensures Next(c, start, w, e).l.phase.Recovering? && Next(c, start, w, e).l.hist == w.l.hist
  {
    hide Cache.Inv, Cache.Ready, Cache.Next, Log.SpaceInv, Log.OpsInv, BufsOk, PinsCached, DiskSame;
  }

  lemma RecoveryDone(c: Cache.Code, start: nat, init: Disk, w: World)
    requires Inv(c, start, init, w) && Ready(c, start, w, Done) && w.l.phase.Recovering?
    ensures var w' := Next(c, start, w, Done); w'.l.phase.Active? && w'.l.lh == [] && w'.l.hist == w.l.hist && w'.l.outstanding == 0
  {
    hide Cache.Inv, Log.ContentsInv, Log.OpsInv, BufsOk, SectionOk, PinsCached, DiskSame;
    LogEnabled(c, start, init, w, Done);
    Commits.NoneLeft(start, init, w.l);
  }

  lemma {:induction false} RecoveryUnderway(c: Cache.Code, start: nat, init: Disk, run: seq<World>, events: seq<Event>, i: nat, m: nat)
    requires Cache.Safe(c) && Run(c, start, init, run, events) && i < m <= |events| && events[i].Crash?
    requires forall x | i < x < m :: !events[x].Crash? && !events[x].Done?
    ensures run[m].l.phase.Recovering?
    ensures run[i].l.durable <= |run[i].l.hist| && run[m].l.hist == run[i].l.hist[..run[i].l.durable]
  {
    hide Inv, Ready, Init, Next;
    RunInv(c, start, init, run, events, m - 1);
    assert Ready(c, start, run[m - 1], events[m - 1]) && run[m] == Next(c, start, run[m - 1], events[m - 1]);
    if m == i + 1 {
      CrashStep(c, start, init, run[i], events[i]);
    } else {
      RecoveryUnderway(c, start, init, run, events, i, m - 1);
      RecoveryStep(c, start, init, run[m - 1], events[m - 1]);
    }
  }

  /** When the recovery after a crash at i is through at j, with no other crash between, the
      disk under the cache holds in the home blocks exactly the updates that were durable
      at the crash, and the log is empty. */
  lemma RecoveryTakesEffect(c: Cache.Code, start: nat, init: Disk, run: seq<World>, events: seq<Event>, i: nat, j: nat)
    requires Cache.Safe(c) && Run(c, start, init, run, events) && i < j < |events| && events[i].Crash?
    requires events[j].Done? && forall x | i < x < j :: !events[x].Crash? && !events[x].Done?
    ensures run[i].l.durable <= |run[i].l.hist|
    ensures Commits.AllHomeOnDisk(start, init, run[j + 1].l) && run[j + 1].l.hist == run[i].l.hist[..run[i].l.durable]
    ensures IsDisk(run[j + 1].c, run[j + 1].l.disk) && run[j + 1].pc.Serving? && run[j + 1].l.outstanding == 0
  {
    hide Inv, Ready, Init, Next, Log.Inv;
    RecoveryUnderway(c, start, init, run, events, i, j);
    RunInv(c, start, init, run, events, j);
    RunInv(c, start, init, run, events, j + 1);
    assert Ready(c, start, run[j], events[j]) && run[j + 1] == Next(c, start, run[j], events[j]);
    RecoveryDone(c, start, init, run[j]);
    InvLog(c, start, init, run[j + 1]);
    Commits.FinishedMeans(start, init, run[j + 1].l);
    UnderCache(c, start, init, run[j + 1]);
    ServingIs(start, run[j + 1].l, run[j + 1].pc);
  }

  lemma UnderCache(c: Cache.Code, start: nat, init: Disk, w: World)
    requires Inv(c, start, init, w)
    ensures IsDisk(w.c, w.l.disk)
  {
  }

  lemma ServingIs(start: nat, l: Log.State, pc: Pc)
    requires PcOk(start, l, pc) && l.phase.Active?
    ensures pc.Serving?
  {
  }
}
