/** Nothing in the protocol gets stuck: whatever a request has come to, its next step can
    be taken, so that a call of virtio_disk_rw can always be brought to its return. */
module VirtioCalls {
  import opened Common
  import opened VirtioDesc
  import opened VirtioModel
  import opened VirtioInv
  import opened VirtioSteps
  import opened VirtioRuns

  /** The next step of request h: the driver publishes it, the device takes it, moves its
      data and returns it, and when the lock is free the interrupt handler reads the used
      ring, unless the device has reported a failure, and the thread frees its chain. */
  ghost predicate GoesOn(s: State, h: nat)
    requires h in s.req && h in s.phase
  {
    match s.phase[h]
    case Written => CanPublish(s, s.req[h].tid)
    case Pending => CanFetch(s) && h in s.pend
    case Fetched => CanMove(s, h, h, s.req[h].b, h)
    case Moved => CanPost(s, h)
    case Posted =>
      && h in s.done && s.usedIdx != s.usedDev && |s.usedRing| == NUM && NextUsed(s) in s.req
      && (s.lock == None && !s.req[NextUsed(s)].failed ==> CanIntr(s))
    case Handled => s.lock == None ==> CanFinish(s, s.req[h].tid, s.req[h].idx)
  }

  lemma RequestGoesOn(s: State, h: nat)
    requires Reachable(s) && h in s.req
    ensures h in s.phase && GoesOn(s, h)
  {
    hide Reachable, Format, Contents, Apart, Finds, Linked, InUse;
    ReachableInv(s);
    assert ReqOk(s, h);
    match s.phase[h]
    case Written =>
    case Pending => PendingSeen(s, h);
    case Fetched => DeviceFindsRequest(s, h);
    case Moved =>
    case Posted =>
      PostedSeen(s, h);
      IntrPanicsIff(s);
    case Handled => if s.lock == None { FinishNeverPanics(s, s.req[h].tid); }
  }

  lemma PendingSeen(s: State, h: nat)
    requires Inv(s) && h in s.phase && s.phase[h] == Pending
    ensures h in s.pend && CanFetch(s)
  {
    hide Requests, Owners;
    FewPending(s);
    IndexApart(s.subs, |s.pend|);
  }

  lemma PostedSeen(s: State, h: nat)
    requires Inv(s) && h in s.phase && s.phase[h] == Posted
    ensures h in s.done && s.usedIdx != s.usedDev && |s.usedRing| == NUM
  {
    hide Requests, Owners;
    FewPending(s);
    IndexApart(s.posts, |s.done|);
  }

  lemma IndexApart(n: nat, k: nat)
    requires 0 < k <= n && k < WRAP
    ensures (n - k) % WRAP != n % WRAP
  {
  }

  // ---- a whole call ----

  lemma Extend(states: seq<State>, steps: seq<Step>, step: Step, s: State)
    requires Run(states, steps) && Next(states[|steps|], step, s)
    ensures Run(states + [s], steps + [step]) && Reachable(s)
  {
    hide Next, Init;
    var states', steps' := states + [s], steps + [step];
    forall i | 0 <= i < |steps'|
      ensures Next(states'[i], steps'[i], states'[i + 1])
    {
      if i < |steps| { assert Next(states[i], steps[i], states[i + 1]); }
    }
    assert Ends(states', steps', s);
  }

  /** No request is under way. */
  ghost predicate Quiet(s: State) { s.req == map[] && s.lock == None }

  lemma AllFree(s: State)
    requires Inv(s) && Quiet(s)
    ensures |s.free| == NUM && Lowest(s.free, [0, 1, 2]) && |s.ring| == NUM
  {
    hide Requests;
  }

  /** One request r, in the phase ph, with the queues empty but for it. */
  ghost predicate Single(s: State, r: Request, ph: Phase) {
    && s.lock == None && s.req.Keys == {0} && s.req[0] == r.(moves := s.req[0].moves) && !r.failed && 0 in s.phase && s.phase[0] == ph
    && s.pend == (if ph.Pending? then [0] else []) && s.done == (if ph.Posted? then [0] else [])
  }

  /** The driver's half: the request is made and published. */
  lemma Submits(states: seq<State>, steps: seq<Step>, tid: nat, b: nat, block: nat, write: bool)
    returns (states': seq<State>, steps': seq<Step>)
    requires Run(states, steps) && Quiet(states[|steps|])
    requires tid in states[|steps|].pc && states[|steps|].pc[tid] == Idle && b in states[|steps|].data && block in states[|steps|].disk
    ensures Run(states + states', steps + steps') && steps' == [Submit(tid, b, block, write, [0, 1, 2]), Publish(tid)]
    ensures var s := states[|steps|];
            Single((states + states')[|steps + steps'|], Request(tid, b, block, write, [0, 1, 2], s.data[b], s.disk[block], 0, false), Pending)
  {
    hide Reachable, Inv, Finds, Linked, InUse;
    var n, s0 := |steps|, states[|steps|];
    RunInv(states, steps, n);
    AllFree(s0);
    NothingQueued(s0);
    SizesOf(s0);
    var s1 := DoSubmit(s0, tid, b, block, write, [0, 1, 2]);
    Extend(states, steps, Submit(tid, b, block, write, [0, 1, 2]), s1);
    var s2 := DoPublish(s1, tid);
    Extend(states + [s1], steps + [Submit(tid, b, block, write, [0, 1, 2])], Publish(tid), s2);
    states', steps' := [s1, s2], [Submit(tid, b, block, write, [0, 1, 2]), Publish(tid)];
    assert states + [s1] + [s2] == states + states' && steps + [Submit(tid, b, block, write, [0, 1, 2])] + [Publish(tid)] == steps + steps';
  }

  lemma SizesOf(s: State)
    requires Inv(s)
    ensures |s.desc| == NUM && |s.op| == NUM && |s.status| == NUM && |s.infoB| == NUM
  {
  }

  lemma QueuedInPhase(q: seq<nat>, ring: seq<nat>, base: nat, phase: map<nat, Phase>, ph: Phase)
    requires Queue(q, ring, base, phase, ph) && q != []
    ensures q[0] in phase
  {
  }

  lemma NothingQueued(s: State)
    requires Inv(s) && Quiet(s)
    ensures s.pend == [] && s.done == []
  {
    hide Owners, Queue;
    if s.pend != [] { QueuedInPhase(s.pend, s.ring, s.subs - |s.pend|, s.phase, Pending); }
    if s.done != [] { QueuedInPhase(s.done, s.usedRing, s.posts - |s.done|, s.phase, Posted); }
  }

  /** The device's half: it takes the request, moves its data and returns it. */
  lemma Serves(states: seq<State>, steps: seq<Step>, r: Request) returns (states': seq<State>, steps': seq<Step>)
    requires Run(states, steps) && Single(states[|steps|], r, Pending)
    ensures Run(states + states', steps + steps') && |steps'| == 3 && steps'[0].Fetch? && Moves(steps'[1], 0) && steps'[2] == Post(0)
    ensures Single((states + states')[|steps + steps'|], r, Posted)
  {
    hide Reachable, Finds, Linked, InUse, Inv;
    var s0 := states[|steps|];
    Ended(states, steps);
    RequestGoesOn(s0, 0);
    FetchHead(s0);
    var s1 := DoFetch(s0);
    Extend(states, steps, Fetch, s1);
    RequestGoesOn(s1, 0);
    var move := Move(0, 0, s1.req[0].b, 0, 0, 0);
    var s2 := DoMove(s1, 0, 0, s1.req[0].b, 0, 0, 0);
    Extend(states + [s1], steps + [Fetch], move, s2);
    RequestGoesOn(s2, 0);
    var s3 := DoPost(s2, 0);
    Extend(states + [s1] + [s2], steps + [Fetch] + [move], Post(0), s3);
    states', steps' := [s1, s2, s3], [Fetch, move, Post(0)];
    assert states + [s1] + [s2] + [s3] == states + states' && steps + [Fetch] + [move] + [Post(0)] == steps + steps';
  }

  lemma Ended(states: seq<State>, steps: seq<Step>)
    requires Run(states, steps)
    ensures Reachable(states[|steps|])
  {
    assert Ends(states, steps, states[|steps|]);
  }

  lemma FetchHead(s: State)
    requires Reachable(s) && CanFetch(s) && s.pend == [0]
    ensures s.ring[s.seen % NUM] == 0
  {
    hide Reachable, Requests, Owners;
    ReachableInv(s);
    SlotOf(s.subs - |s.pend|);
    assert s.ring[(s.subs - |s.pend| + 0) % NUM] == s.pend[0];
  }

  /** The interrupt and the return. */
  lemma Returns(states: seq<State>, steps: seq<Step>, r: Request) returns (states': seq<State>, steps': seq<Step>)
    requires Run(states, steps) && Single(states[|steps|], r, Posted)
    ensures Run(states + states', steps + steps') && |steps'| == 2 && steps'[0].Intr? && steps'[1].Finish? && steps'[1].tid == r.tid
    ensures Quiet((states + states')[|steps + steps'|]) && Agreed((states + states')[|steps + steps'|], r)
  {
    hide Reachable, Finds, Linked, InUse, Inv;
    var s0 := states[|steps|];
    Ended(states, steps);
    RequestGoesOn(s0, 0);
    ReachableInv(s0);
    UsedHead(s0);
    var s1 := DoIntr(s0);
    Extend(states, steps, Intr, s1);
    RequestGoesOn(s1, 0);
    Transferred(s1);
    var list := s1.req[0].idx;
    var s2 := DoFinish(s1, r.tid, list);
    Extend(states + [s1], steps + [Intr], Finish(r.tid, list), s2);
    states', steps' := [s1, s2], [Intr, Finish(r.tid, list)];
    assert states + [s1] + [s2] == states + states' && steps + [Intr] + [Finish(r.tid, list)] == steps + steps';
    PcHead(s1, r.tid);
  }

  /** Buffer and block agree, on what the call was to write or to read. */
  ghost predicate Agreed(s: State, r: Request) {
    r.b in s.data && r.block in s.disk && s.data[r.b] == s.disk[r.block] == if r.write then r.data0 else r.disk0
  }

  lemma Transferred(s: State)
    requires Reachable(s) && 0 in s.req && 0 in s.phase && s.phase[0] == Handled
    ensures Agreed(s, s.req[0])
  {
    hide Reachable, Owners, Rings;
    ReachableInv(s);
    ContentsDone(s, 0);
  }

  lemma PcHead(s: State, tid: nat)
    requires Reachable(s) && tid in s.pc && s.pc[tid].Waiting? && s.req.Keys == {0}
    ensures s.pc[tid].head == 0
  {
    hide Reachable, Requests, Rings;
    ReachableInv(s);
    assert PcOk(s, tid);
  }

  /** A whole call of virtio_disk_rw can be had at any time when no other is under way, and
      it reads or writes the block. */
  lemma OneCall(states: seq<State>, steps: seq<Step>, tid: nat, b: nat, block: nat, write: bool)
    returns (states': seq<State>, steps': seq<Step>)
    requires Run(states, steps) && Quiet(states[|steps|])
    requires tid in states[|steps|].pc && states[|steps|].pc[tid] == Idle && b in states[|steps|].data && block in states[|steps|].disk
    ensures Run(states + states', steps + steps') && Quiet((states + states')[|steps + steps'|])
    ensures |steps'| == 7 && steps'[0] == Submit(tid, b, block, write, [0, 1, 2]) && steps'[6].Finish? && steps'[6].tid == tid
    ensures var s, s' := states[|steps|], (states + states')[|steps + steps'|];
            b in s'.data && block in s'.disk && s'.data[b] == s'.disk[block] == if write then s.data[b] else s.disk[block]
  {
    hide Reachable, Inv;
    var r := Request(tid, b, block, write, [0, 1, 2], states[|steps|].data[b], states[|steps|].disk[block], 0, false);
    var a, sa := Submits(states, steps, tid, b, block, write);
    var c, sc := Serves(states + a, steps + sa, r);
    var d, sd := Returns(states + a + c, steps + sa + sc, r);
    states', steps' := a + c + d, sa + sc + sd;
    assert states + a + c + d == states + states' && steps + sa + sc + sd == steps + steps';
  }

  /** In every run the descriptors that are free are cleared, as free_desc leaves them: a
      chain that is given back is taken apart. */
  lemma {:induction false} FreeIsCleared(states: seq<State>, steps: seq<Step>, k: nat, i: nat)
    requires Run(states, steps) && k < |states| && i < NUM
    ensures |states[k].free| == NUM && |states[k].desc| == NUM && (states[k].free[i] ==> states[k].desc[i] == CLEARED)
  {
    if k > 0 {
      FreeIsCleared(states, steps, k - 1, i);
      assert Next(states[k - 1], steps[k - 1], states[k]);
    }
  }
}
