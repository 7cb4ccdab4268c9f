/** What end_op is for: the last operation out starts a commit, and a commit that no
    crash cuts off puts every update into the home blocks on the disk. Over every run
    of the log alone, and over every run of the log on top of the cache. */
module LogCommits {
  import opened Common
  import opened BlockDisk
  import opened LogFormat
  import opened LogRuns

  /** A commit of all that is logged: its writes, of which k are done, turn a disk with an
      empty log into one whose home blocks hold the view. */
  ghost predicate CommitsAll(start: nat, s: State, k: nat) {
    && s.phase.Committing? && s.phase.k == k && s.outstanding == 0 && s.ops == map[]
    && start + LOGBLOCKS < |s.phase.from| == |s.view| && Empty(start, s.phase.from)
    && |s.phase.ws| == (if s.lh == [] then 0 else 2 * |s.lh| + 2)
    && Fits(s.phase.ws, |s.phase.from|)
    && SameHome(start, Apply(s.phase.from, s.phase.ws), s.view)
    && Empty(start, Apply(s.phase.from, s.phase.ws))
  }

  lemma CommittingMeans(start: nat, init: Disk, s: State)
    requires Inv(start, init, s) && s.phase.Committing?
    ensures CommitsAll(start, s, s.phase.k) && s.phase.k <= |s.phase.ws|
  {
    hide Means, Replay, Apply;
    CommitClears(start, s.phase.from, s.lh, s.view);
  }

  /** end_op of the last operation starts a commit of everything in the log, with all its
      writes still to do; end_op of any other starts nothing. */
  lemma LastOpCommits(start: nat, init: Disk, run: seq<State>, events: seq<Event>, i: nat)
    requires Run(start, init, run, events) && i < |events| && events[i].End?
    ensures run[i + 1].outstanding == run[i].outstanding - 1 && run[i + 1].lh == run[i].lh
    ensures run[i + 1].view == run[i].view && run[i + 1].disk == run[i].disk && run[i + 1].hist == run[i].hist
    ensures run[i].outstanding == 1 ==> CommitsAll(start, run[i + 1], 0) && run[i + 1].phase.from == run[i].disk
    ensures run[i].outstanding != 1 ==> run[i + 1].phase.Active?
  {
    hide ContentsInv, SpaceInv, OpsInv, CommitPlan;
    RunInv(start, init, run, events, i);
    RunInv(start, init, run, events, i + 1);
    NoOpsInCommit(start, init, run[i], events[i].o);
    if run[i].outstanding == 1 { CommittingMeans(start, init, run[i + 1]); }
  }

  lemma NoOpsInCommit(start: nat, init: Disk, s: State, o: nat)
    requires Inv(start, init, s) && o in s.ops
    ensures s.phase.Active?
  {
  }

  /** Nothing but such an end_op starts a commit. */
  lemma OnlyLastOpCommits(start: nat, init: Disk, run: seq<State>, events: seq<Event>, i: nat)
    requires Run(start, init, run, events) && i < |events|
    requires !run[i].phase.Committing? && run[i + 1].phase.Committing?
    ensures events[i].End? && run[i].outstanding == 1
  {
  }

  /** A commit never gets stuck: a block write or its end is possible. */
  lemma CommitGoesOn(start: nat, init: Disk, run: seq<State>, events: seq<Event>, i: nat)
    requires Run(start, init, run, events) && i < |run| && run[i].phase.Committing?
    ensures if run[i].phase.k < |run[i].phase.ws| then Enabled(start, run[i], DiskWrite) else Enabled(start, run[i], Finish)
  {
    hide Replay, Means, SpaceInv, OpsInv;
    RunInv(start, init, run, events, i);
    CommitFits(start, init, run[i]);
  }

  lemma CommitFits(start: nat, init: Disk, s: State)
    requires ContentsInv(start, init, s) && s.phase.Committing?
    ensures s.phase.k <= |s.phase.ws| && Fits(s.phase.ws, |s.disk|)
  {
  }

  /** While a commit runs, nothing but its writes, its end and a crash can happen. */
  lemma CommitAlone(start: nat, init: Disk, run: seq<State>, events: seq<Event>, i: nat)
    requires Run(start, init, run, events) && i < |events| && run[i].phase.Committing?
    ensures events[i].DiskWrite? || events[i].Finish? || events[i].Crash?
    ensures events[i].DiskWrite? ==> run[i + 1].phase == Committing(run[i].phase.from, run[i].phase.ws, run[i].phase.k + 1) && run[i + 1].hist == run[i].hist
  {
    hide ContentsInv, OpsInv;
    RunInv(start, init, run, events, i);
  }

  /** A commit from its start at i + 1 up to m, neither ended nor cut off. */
  lemma {:induction false} CommitUnderway(start: nat, init: Disk, run: seq<State>, events: seq<Event>, i: nat, m: nat)
    requires Run(start, init, run, events) && i < m <= |events| && events[i].End? && run[i].outstanding == 1
    requires forall x | i < x < m :: !events[x].Crash? && !events[x].Finish?
    ensures run[m].phase.Committing? && run[m].phase.k == m - i - 1 && run[m].hist == run[i].hist
  {
    if m == i + 1 {
      LastOpCommits(start, init, run, events, i);
    } else {
      CommitUnderway(start, init, run, events, i, m - 1);
      CommitAlone(start, init, run, events, m - 1);
    }
  }

  /** Everything is durable, in its place and readable, and the log is free again. */
  ghost predicate AllHomeOnDisk(start: nat, init: Disk, s: State) {
    && s.phase.Active? && s.lh == [] && s.durable == |s.hist|
    && Empty(start, s.disk) && SameHome(start, s.disk, Replay(init, s.hist))
  }

  lemma FinishedMeans(start: nat, init: Disk, s: State)
    requires Inv(start, init, s) && s.phase.Active? && s.lh == []
    ensures AllHomeOnDisk(start, init, s)
  {
    assert Pending(s);
    assert s.hist[..s.durable] == s.hist;
    EmptyMeans(start, s.disk, Kept(init, s));
  }

  /** The commit that the last end_op starts at i, and that ends at j without a crash
      between: all updates made before it, those of the ended operations, are in the
      home blocks on the disk and safe from every later crash. */
  lemma CommitTakesEffect(start: nat, init: Disk, run: seq<State>, events: seq<Event>, i: nat, j: nat)
    requires Run(start, init, run, events) && i < j < |events| && events[i].End? && run[i].outstanding == 1
    requires events[j].Finish? && forall x | i < x < j :: !events[x].Crash? && !events[x].Finish?
    ensures AllHomeOnDisk(start, init, run[j + 1]) && run[j + 1].hist == run[i].hist
    ensures j - i - 1 == if run[i].lh == [] then 0 else 2 * |run[i].lh| + 2
    ensures forall x | i < x < j :: events[x].DiskWrite?
  {
    hide Inv, CommitPlan;
    LastOpCommits(start, init, run, events, i);
    CommitUnderway(start, init, run, events, i, j);
    forall x | i < x < j
      ensures events[x].DiskWrite?
    {
      CommitUnderway(start, init, run, events, i, x);
      CommitAlone(start, init, run, events, x);
    }
    WritesStay(start, init, run, events, i, j);
    RunInv(start, init, run, events, j + 1);
    FinishedMeans(start, init, run[j + 1]);
  }

  lemma {:induction false} WritesStay(start: nat, init: Disk, run: seq<State>, events: seq<Event>, i: nat, m: nat)
    requires Run(start, init, run, events) && i < m <= |events| && events[i].End? && run[i].outstanding == 1
    requires forall x | i < x < m :: !events[x].Crash? && !events[x].Finish?
    ensures run[m].phase.Committing? && run[m].phase.ws == run[i + 1].phase.ws
  {
    CommitUnderway(start, init, run, events, i, m);
    if m > i + 1 {
      WritesStay(start, init, run, events, i, m - 1);
      CommitAlone(start, init, run, events, m - 1);
    }
  }

  /** Such a commit can always be had: every run in which one operation is left can go on
      with its end_op, block writes and the end of the commit, and nothing else. */
  lemma CommitPossible(start: nat, init: Disk, run: seq<State>, events: seq<Event>, o: nat)
    returns (run': seq<State>, events': seq<Event>)
    requires Run(start, init, run, events) && run[|events|].outstanding == 1 && o in run[|events|].ops
    ensures Run(start, init, run + run', events + events') && events' != []
    ensures AllHomeOnDisk(start, init, (run + run')[|events + events'|])
    ensures (run + run')[|events + events'|].hist == run[|events|].hist
  {
    hide Inv, CommitPlan;
    var n := |events|;
    RunInv(start, init, run, events, n);
    NoOpsInCommit(start, init, run[n], o);
    events' := [End(o)];
    run' := [Next(start, run[n], End(o))];
    Extend(start, init, run, events, End(o));
    LastOpCommits(start, init, run + run', events + events', n);
    while (run + run')[|events + events'|].phase.k < |(run + run')[|events + events'|].phase.ws|
      invariant Run(start, init, run + run', events + events') && events' != []
      invariant (run + run')[n] == run[n] && (events + events')[n] == End(o)
      invariant (run + run')[|events + events'|].phase.Committing?
      invariant forall x | n < x < |events + events'| :: (events + events')[x].DiskWrite?
      decreases |(run + run')[|events + events'|].phase.ws| - (run + run')[|events + events'|].phase.k
    {
      var r, es := run + run', events + events';
      CommitGoesOn(start, init, r, es, |es|);
      Extend(start, init, r, es, DiskWrite);
      run', events' := run' + [Next(start, r[|es|], DiskWrite)], events' + [DiskWrite];
      assert run + run' == r + [Next(start, r[|es|], DiskWrite)] && events + events' == es + [DiskWrite];
      CommitAlone(start, init, run + run', events + events', |es|);
    }
    var r, es := run + run', events + events';
    CommitGoesOn(start, init, r, es, |es|);
    Extend(start, init, r, es, Finish);
    run', events' := run' + [Next(start, r[|es|], Finish)], events' + [Finish];
    assert run + run' == r + [Next(start, r[|es|], Finish)] && events + events' == es + [Finish];
    CommitTakesEffect(start, init, run + run', events + events', n, |es|);
  }

  // ---- recovery ----

  /** A recovery never gets stuck either, and nothing but its writes, its end and another
      crash can happen meanwhile. */
  lemma RecoveryGoesOn(start: nat, init: Disk, run: seq<State>, events: seq<Event>, i: nat)
    requires Run(start, init, run, events) && i < |run| && run[i].phase.Recovering?
    ensures if run[i].phase.k < |run[i].phase.ws| then Enabled(start, run[i], DiskWrite) else Enabled(start, run[i], Finish)
    ensures i < |events| ==> events[i].DiskWrite? || events[i].Finish? || events[i].Crash?
  {
    hide Replay, Means, SpaceInv, OpsInv;
    RunInv(start, init, run, events, i);
    RecoverFits(start, init, run[i]);
  }

  lemma RecoverFits(start: nat, init: Disk, s: State)
    requires ContentsInv(start, init, s) && s.phase.Recovering?
    ensures s.phase.k <= |s.phase.ws| && Fits(s.phase.ws, |s.disk|) && s.ops == map[]
  {
  }

  lemma {:induction false} RecoveryUnderway(start: nat, init: Disk, run: seq<State>, events: seq<Event>, i: nat, m: nat)
    requires Run(start, init, run, events) && i < m <= |events| && events[i].Crash?
    requires forall x | i < x < m :: !events[x].Crash? && !events[x].Finish?
    ensures run[m].phase.Recovering? && run[i].durable <= |run[i].hist| && run[m].hist == run[i].hist[..run[i].durable]
  {
    hide ContentsInv, SpaceInv;
    RunInv(start, init, run, events, i);
    if m > i + 1 {
      RecoveryUnderway(start, init, run, events, i, m - 1);
      RecoveryGoesOn(start, init, run, events, m - 1);
    }
  }

  /** The recovery after a crash at i that ends at j without another crash: the home blocks
      on the disk hold exactly the updates that were durable at the crash, readers see
      them, and operations can begin again. */
  lemma RecoveryTakesEffect(start: nat, init: Disk, run: seq<State>, events: seq<Event>, i: nat, j: nat)
    requires Run(start, init, run, events) && i < j < |events| && events[i].Crash?
    requires events[j].Finish? && forall x | i < x < j :: !events[x].Crash? && !events[x].Finish?
    ensures AllHomeOnDisk(start, init, run[j + 1]) && run[j + 1].view == run[j + 1].disk
    ensures run[i].durable <= |run[i].hist| && run[j + 1].hist == run[i].hist[..run[i].durable]
    ensures Enabled(start, run[j + 1], Begin)
  {
    hide ContentsInv, SpaceInv, OpsInv, AllHomeOnDisk;
    RecoveryUnderway(start, init, run, events, i, j);
    RunInv(start, init, run, events, j);
    RunInv(start, init, run, events, j + 1);
    NoneLeft(start, init, run[j]);
    FinishedMeans(start, init, run[j + 1]);
  }

  lemma NoneLeft(start: nat, init: Disk, s: State)
    requires Inv(start, init, s) && s.phase.Recovering?
    ensures s.lh == [] && s.outstanding == 0
  {
  }

  // ---- a first operation ----

  /** From a fresh disk: an operation changes one block, and after the commit that its
      end_op starts the block is on the disk. */
  lemma FirstOperation(start: nat, init: Disk, b: nat, data: Block) returns (run: seq<State>, events: seq<Event>)
    requires Empty(start, init) && Home(start, |init|, b)
    ensures Run(start, init, run, events) && AllHomeOnDisk(start, init, run[|events|])
    ensures run[|events|].hist == [Update(0, b, data)] && b < |run[|events|].disk| && run[|events|].disk[b] == data
  {
    var s0 := State(init, init, [], 0, map[], 0, Active, [], 0);
    assert Run(start, init, [s0], []);
    Extend(start, init, [s0], [], Begin);
    var s1 := Next(start, s0, Begin);
    assert {b} + {} == {b};
    Extend(start, init, [s0] + [s1], [] + [Begin], Log(0, b, data));
    var s2 := Next(start, s1, Log(0, b, data));
    run, events := [s0] + [s1] + [s2], [] + [Begin] + [Log(0, b, data)];
    var run', events' := CommitPossible(start, init, run, events, 0);
    run, events := run + run', events + events';
    ReplaySnoc(init, [], Update(0, b, data));
    assert [] + [Update(0, b, data)] == [Update(0, b, data)];
  }

  lemma Extend(start: nat, init: Disk, run: seq<State>, events: seq<Event>, e: Event)
    requires Run(start, init, run, events) && Enabled(start, run[|events|], e)
    ensures Run(start, init, run + [Next(start, run[|events|], e)], events + [e])
  {
    hide Enabled, Init;
    var run', events' := run + [Next(start, run[|events|], e)], events + [e];
    forall i | 0 <= i < |events'|
      ensures Enabled(start, run'[i], events'[i]) && run'[i + 1] == Next(start, run'[i], events'[i])
    {
      if i < |events| { assert Enabled(start, run[i], events[i]); }
    }
  }
}
