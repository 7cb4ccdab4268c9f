/** Theorems over every run of the log over the cache. */
module LogCacheRuns {
  import opened Common
  import opened BlockDisk
  import opened LogFormat
  import Cache = BufferCache
  import Log = LogRuns
  import opened LogCache
  import opened LogCacheSteps

  /** A machine that has booted from a disk whose log is empty. */
  ghost predicate Init(start: nat, init: Disk, w: World) {
    && Log.Init(start, init, w.l) && Cache.Init(w.c, w.c.disk)
    && w.notes == seq(|w.c.bufs|, _ => Fresh) && w.pc.Serving? && w.logging.None? && DiskSame(w)
  }

  ghost predicate Run(c: Cache.Code, start: nat, init: Disk, run: seq<World>, events: seq<Event>) {
    && |run| == |events| + 1
    && Init(start, init, run[0])
    && forall i | 0 <= i < |events| :: Ready(c, start, run[i], events[i]) && run[i + 1] == Next(c, start, run[i], events[i])
  }

  lemma InitInv(c: Cache.Code, start: nat, init: Disk, w: World)
    requires Init(start, init, w)
    ensures Inv(c, start, init, w)
  {
    assert Log.Run(start, init, [w.l], []);
    Log.RunInv(start, init, [w.l], [], 0);
    hide Log.Inv;
  }

  lemma {:induction false} RunInv(c: Cache.Code, start: nat, init: Disk, run: seq<World>, events: seq<Event>, i: nat)
    requires Cache.Safe(c) && Run(c, start, init, run, events) && i < |run|
    ensures Inv(c, start, init, run[i])
  {
    hide Inv, Init, Ready, Next;
    if i == 0 {
      InitInv(c, start, init, run[0]);
    } else {
      RunInv(c, start, init, run, events, i - 1);
      InvKept(c, start, init, run[i - 1], events[i - 1]);
    }
  }

  /** In every run the log meets the two demands of the cache: whatever is let go is on
      the disk or pinned, and whatever is unpinned is on the disk. */
  lemma LogMeetsDemands(c: Cache.Code, start: nat, init: Disk, run: seq<World>, events: seq<Event>, i: nat)
    requires Cache.Safe(c) && Run(c, start, init, run, events) && i < |events| && CacheStep(start, run[i], events[i]).Some?
    ensures var st := CacheStep(start, run[i], events[i]).value; Cache.Clean(run[i].c, st.i, st.e)
  {
    hide Inv, Ready, CacheStep, Next, Init;
    RunInv(c, start, init, run, events, i);
    CacheEnabled(c, start, init, run[i], events[i]);
  }

  /** In every run a buffer is pinned once while its block is in the log and not yet
      installed, and otherwise not at all; the block is then in the cache. */
  lemma PinnedWhileLogged(c: Cache.Code, start: nat, init: Disk, run: seq<World>, events: seq<Event>, i: nat, j: nat)
    requires Cache.Safe(c) && Run(c, start, init, run, events) && i < |run| && j < |run[i].c.bufs|
    ensures run[i].c.bufs[j].pins == Cache.One(run[i].c.bufs[j].key.0 == DEV && Pinned(run[i].pc, run[i].l.lh, run[i].c.bufs[j].key.1))
    ensures forall b: nat | Pinned(run[i].pc, run[i].l.lh, b) :: exists m: nat :: InBuf(run[i], b, m)
  {
    RunInv(c, start, init, run, events, i);
    assert BufOk(start, run[i].l, run[i].pc, run[i].c.bufs[j], run[i].notes[j]);
  }

  /** In every run a process that has a block outside the log, and no change of its own
      in progress, finds all updates that were logged so far. */
  lemma ReadersFindUpdates(c: Cache.Code, start: nat, init: Disk, run: seq<World>, events: seq<Event>, i: nat, j: nat, b: nat)
    requires Cache.Safe(c) && Run(c, start, init, run, events) && i < |run| && Holds(run[i], j, b) && run[i].notes[j] == Fresh
    requires Home(start, |init|, b) && !run[i].l.phase.Recovering?
    ensures run[i].c.bufs[j].data == Log.Replay(init, run[i].l.hist)[b]
  {
    hide Cache.Inv, PcOk, SectionOk, PinsCached, DiskSame, Log.SpaceInv, Log.OpsInv, Log.Replay, Next, Ready, Init;
    RunInv(c, start, init, run, events, i);
    assert BufOk(start, run[i].l, run[i].pc, run[i].c.bufs[j], run[i].notes[j]);
  }

  /** The disk under the cache. */
  ghost predicate IsDisk(s: Cache.State, d: Disk) {
    forall b: nat | b < |d| :: Cache.Read(s.disk, (DEV, b)) == d[b]
  }

  /** Crash safety of the two together: stop any run at any point, with accesses, log_writes
      and block writes half done; what the disk holds then recovers, whatever becomes of
      the first recoveries, to a prefix of the updates made of whole operations that
      had ended. */
  lemma CrashSafe(c: Cache.Code, start: nat, init: Disk, run: seq<World>, events: seq<Event>, i: nat, crashes: seq<nat>)
    requires Cache.Safe(c) && Run(c, start, init, run, events) && i < |run|
    ensures IsDisk(run[i].c, run[i].l.disk) && Log.WholeOps(run[i].l)
    ensures var d := Reboots(start, run[i].l.disk, crashes);
            && start + LOGBLOCKS < |d| && HeadOk(start, |d|, d[start])
            && SameHome(start, Recover(start, d), Log.Kept(init, run[i].l))
  {
    hide Cache.Inv, PcOk, SectionOk, PinsCached, BufsOk, Log.SpaceInv, Log.Replay, Next, Ready, Init;
    RunInv(c, start, init, run, events, i);
    var l := run[i].l;
    RebootsKeepMeaning(start, l.disk, crashes, Log.Kept(init, l));
    RecoverMeans(start, Reboots(start, l.disk, crashes), Log.Kept(init, l));
  }
}
