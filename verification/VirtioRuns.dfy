/** What holds of the virtio driver in every run, whatever the device does. */
module VirtioRuns {
  import opened Common
  import opened VirtioDesc
  import opened VirtioModel
  import opened VirtioInv
  import opened VirtioSteps

  lemma {:induction false} RunInv(states: seq<State>, steps: seq<Step>, k: nat)
    requires Run(states, steps) && k <= |steps|
    ensures Inv(states[k])
  {
    hide Inv, Init, Next;
    if k == 0 {
      InitInv(states[0]);
    } else {
      RunInv(states, steps, k - 1);
      StepKeeps(states[k - 1], steps[k - 1], states[k]);
    }
  }

  ghost predicate Ends(states: seq<State>, steps: seq<Step>, s: State) {
    Run(states, steps) && states[|steps|] == s
  }

  ghost predicate Reachable(s: State) {
    exists states, steps :: Ends(states, steps, s)
  }

  lemma ReachableInv(s: State)
    requires Reachable(s)
    ensures Inv(s)
  {
    hide Inv, Init, Next;
    var states, steps :| Ends(states, steps, s);
    RunInv(states, steps, |steps|);
  }

  /** The descriptors of a live request: three, in use, and no other request's. */
  lemma InUseOf(s: State, h: nat, i: nat)
    requires Requests(s) && h in s.req && i < NUM
    ensures Triple(s.req[h].idx) && |s.free| == NUM && (i in s.req[h].idx ==> !s.free[i])
  {
    hide Place, Contents, Apart, Triple;
    Known(s, h);
    FormatTriple(s, h, s.req[h], i);
  }

  lemma FormatTriple(s: State, h: nat, r: Request, i: nat)
    requires Format(s, h, r) && i < NUM
    ensures Triple(r.idx) && |s.free| == NUM && (i in r.idx ==> !s.free[i])
  {
  }

  /** A descriptor is free exactly when no live request has it; no two requests
      have one in common. */
  lemma EachDescriptorOnce(s: State, i: nat)
    requires Reachable(s) && i < NUM
    ensures |s.free| == NUM && (s.free[i] <==> forall h | h in s.req :: i !in s.req[h].idx)
    ensures forall h | h in s.req :: Triple(s.req[h].idx)
    ensures forall h, g | h in s.req && g in s.req && i in s.req[h].idx && i in s.req[g].idx :: h == g
  {
    hide Triple, ReqOk, Apart, Rings, Reachable;
    ReachableInv(s);
    forall h | h in s.req
      ensures Triple(s.req[h].idx) && (i in s.req[h].idx ==> !s.free[i])
    {
      InUseOf(s, h, i);
    }
    forall h, g | h in s.req && g in s.req && h != g
      ensures !(i in s.req[h].idx && i in s.req[g].idx)
    {
      NotBoth(s, h, g, i);
    }
    if !s.free[i] { assert Covered(s, i); }
  }

  lemma NotBoth(s: State, h: nat, g: nat, i: nat)
    requires Requests(s) && h in s.req && g in s.req && h != g
    ensures !(i in s.req[h].idx && i in s.req[g].idx)
  {
    hide ReqOk, Apart;
    TriplesApart(s, h, g);
    InTriple(s.req[h].idx, i);
    InTriple(s.req[g].idx, i);
  }

  lemma InTriple(idx: seq<nat>, i: nat)
    requires Triple(idx)
    ensures i in idx <==> i in SetOf(idx)
  {
    assert idx == [idx[0], idx[1], idx[2]];
  }

  /** There are never more than two requests at once: NUM / 3. */
  lemma AtMostTwo(s: State, q: seq<nat>)
    requires Reachable(s) && (forall i | 0 <= i < |q| :: q[i] in s.req) && NoDup(q)
    ensures |q| <= 2
  {
    hide ReqOk, Apart, Rings, Owners, Reachable;
    ReachableInv(s);
    Few(s, q);
  }

  /** The slot that the next store to a ring hits is none of those still unread,
      although the 16-bit indices have wrapped any number of times. */
  lemma NoEarlyOverwrite(s: State, n: nat)
    requires Reachable(s)
    ensures n < |s.pend| ==> (s.seen + n) % NUM != s.availIdx % NUM
    ensures n < |s.done| ==> (s.usedIdx + n) % NUM != s.usedDev % NUM
  {
    hide Requests, Rings, Owners, Reachable;
    ReachableInv(s);
    FewPending(s);
    SlotOf(s.subs);
    SlotOf(s.posts);
    SlotOf(s.subs - |s.pend|);
    SlotOf(s.posts - |s.done|);
    if n < |s.pend| {
      SlotsApart(s.subs - |s.pend|, n, |s.pend|);
      SlotAdd(s.seen, s.subs - |s.pend|, n);
    }
    if n < |s.done| {
      SlotsApart(s.posts - |s.done|, n, |s.done|);
      SlotAdd(s.usedIdx, s.posts - |s.done|, n);
    }
  }

  lemma SlotAdd(a: nat, b: nat, n: nat)
    requires a % NUM == b % NUM
    ensures (a + n) % NUM == (b + n) % NUM
  {
  }

  /** Each used entry names a live request whose transfer is done, once, unless the device
      has reported its failure; and the interrupt handler panics exactly then. */
  lemma IntrPanicsIff(s: State)
    requires Reachable(s)
    ensures s.usedIdx != s.usedDev ==> |s.usedRing| == NUM && NextUsed(s) in s.req
    ensures s.usedIdx != s.usedDev ==> s.req[NextUsed(s)].moves == if s.req[NextUsed(s)].failed then 0 else 1
    ensures IntrPanics(s) <==> s.lock == None && s.usedIdx != s.usedDev && s.req[NextUsed(s)].failed
  {
    hide Format, Apart, Reachable, Place, Owners, Rings;
    ReachableInv(s);
    if s.usedIdx != s.usedDev {
      UsedHead(s);
      PlaceMeans(s, s.done[0]);
    }
  }

  /** A request has failed only if the device said so when it moved its data. */
  lemma FailsByDevice(s: State, step: Step, s': State, h: nat)
    requires Next(s, step, s') && h in s'.req && s'.req[h].failed
    ensures (h in s.req && s.req[h].failed) || (step.Move? && step.head == h && step.code != 0)
  {
  }

  lemma PlaceMeans(s: State, h: nat)
    requires ReqOk(s, h)
    ensures h < NUM && |s.infoB| == NUM && |s.status| == NUM
  {
  }

  /** The device always finds a well-formed request: the header, buffer and status
      byte of the thread that made it, in the right direction. */
  lemma DeviceFindsRequest(s: State, h: nat)
    requires Reachable(s) && h in s.dev
    ensures h in s.req && Finds(s, h, h, s.req[h].b, h) && s.op[h] == Header(s.req[h].write, 2 * s.req[h].block)
    ensures var r := s.req[h];
            && Triple(r.idx) && r.idx[0] == h
            && s.desc[h] == Desc(Op(h), 16, r.idx[1], true, false)
            && s.desc[r.idx[1]] == Desc(Data(r.b), 1024, r.idx[2], true, !r.write)
            && s.desc[r.idx[2]] == Desc(Status(h), 1, 0, false, true)
  {
    hide ReqOk, Apart, Reachable, Rings;
    ReachableInv(s);
    Known(s, h);
    FormatFinds(s, h);
    FormatChain(s, h);
  }

  lemma FormatChain(s: State, h: nat)
    requires ReqOk(s, h)
    ensures Format(s, h, s.req[h])
  {
  }

  lemma FormatFinds(s: State, h: nat)
    requires ReqOk(s, h)
    ensures Finds(s, h, h, s.req[h].b, h) && s.op[h] == Header(s.req[h].write, 2 * s.req[h].block)
  {
    hide Place;
  }

  /** A thread whose buffer is no longer busy can free its chain: free_chain and
      free_desc do not panic. */
  lemma FinishNeverPanics(s: State, tid: nat)
    requires Reachable(s) && s.lock == None && tid in s.pc && s.pc[tid].Waiting?
    ensures s.pc[tid].head in s.req && s.req[s.pc[tid].head].tid == tid
    ensures s.req[s.pc[tid].head].b !in s.busy ==> CanFinish(s, tid, s.req[s.pc[tid].head].idx)
  {
    hide Apart, Reachable, Rings, Contents, Place, Linked, InUse;
    ReachableInv(s);
    assert PcOk(s, tid);
    Known(s, s.pc[tid].head);
    ChainLinked(s, s.pc[tid].head, s.req[s.pc[tid].head]);
  }

  // ---- a call of virtio_disk_rw, from its start to its return ----

  /** The device transfers the data of the chain at h. */
  predicate Moves(step: Step, h: nat) { step.Move? && step.head == h && step.code == 0 }

  /** Transfers of the chain at h in steps m .. k. */
  function Transfers(steps: seq<Step>, m: nat, k: nat, h: nat): nat
    requires k <= |steps|
    decreases k
  {
    if k <= m then 0 else Transfers(steps, m, k - 1, h) + if Moves(steps[k - 1], h) then 1 else 0
  }

  /** How one step relates to request h of the state after it. */
  lemma StepRequest(s: State, step: Step, s': State, h: nat)
    requires Next(s, step, s') && h in s'.req
    ensures if step.Submit? && |step.idx| == 3 && step.idx[0] == h then
              step.b in s.data && step.block in s.disk
              && s'.req[h] == Request(step.tid, step.b, step.block, step.write, step.idx, s.data[step.b], s.disk[step.block], 0, false)
            else
              h in s.req && s'.req[h] == s.req[h].(moves := s.req[h].moves + if Moves(step, h) then 1 else 0, failed := s'.req[h].failed)
  {
  }

  /** Request r of state k was made by step m, and r.moves counts its transfers. */
  ghost predicate MadeBy(states: seq<State>, steps: seq<Step>, k: nat, r: Request, h: nat, m: nat) {
    && m < k <= |steps| && |states| == |steps| + 1
    && steps[m] == Submit(r.tid, r.b, r.block, r.write, r.idx) && |r.idx| == 3 && r.idx[0] == h
    && r.b in states[m].data && r.data0 == states[m].data[r.b]
    && r.block in states[m].disk && r.disk0 == states[m].disk[r.block]
    && r.moves == Transfers(steps, m, k, h)
  }

  lemma {:induction false} Origin(states: seq<State>, steps: seq<Step>, k: nat, h: nat) returns (m: nat)
    requires Run(states, steps) && k <= |steps| && h in states[k].req
    ensures MadeBy(states, steps, k, states[k].req[h], h, m)
  {
    hide Next;
    assert k > 0;
    StepRequest(states[k - 1], steps[k - 1], states[k], h);
    if steps[k - 1].Submit? && |steps[k - 1].idx| == 3 && steps[k - 1].idx[0] == h {
      m := k - 1;
      assert Transfers(steps, k - 1, k - 1, h) == 0;
    } else {
      m := Origin(states, steps, k - 1, h);
      assert MadeBy(states, steps, k - 1, states[k - 1].req[h], h, m);
      assert Transfers(steps, m, k, h) == Transfers(steps, m, k - 1, h) + if Moves(steps[k - 1], h) then 1 else 0;
    }
  }

  /** The call that step m began and step k ends: its chain was transferred once in
      between; the buffer and its disk block now agree, on what the buffer held at
      the start if the call wrote, and on what the block held if it read. */
  ghost predicate CallMeans(states: seq<State>, steps: seq<Step>, m: nat, k: nat) {
    && m < k < |steps| && |states| == |steps| + 1 && steps[m].Submit? && steps[k].Finish? && steps[m].tid == steps[k].tid
    && |steps[m].idx| == 3 && Transfers(steps, m, k, steps[m].idx[0]) == 1
    && var b, block := steps[m].b, steps[m].block;
    && b in states[m].data && block in states[m].disk && b in states[k + 1].data && block in states[k + 1].disk
    && states[k + 1].data[b] == states[k + 1].disk[block]
    && states[k + 1].data[b] == if steps[m].write then states[m].data[b] else states[m].disk[block]
  }

  lemma ReturnsAfterOwnTransfer(states: seq<State>, steps: seq<Step>, k: nat) returns (m: nat)
    requires Run(states, steps) && k < |steps| && steps[k].Finish?
    ensures CallMeans(states, steps, m, k)
  {
    var s, tid := states[k], steps[k].tid;
    assert Next(s, steps[k], states[k + 1]);
    hide Run, Inv, Linked, InUse;
    RunInv(states, steps, k);
    FinishHead(s, tid, steps[k].list);
    var h := s.pc[tid].head;
    m := Origin(states, steps, k, h);
    ContentsDone(s, h);
  }

  lemma ContentsDone(s: State, h: nat)
    requires ReqOk(s, h) && s.phase[h] == Handled
    ensures var r := s.req[h];
            && r.moves == 1 && r.b in s.data && r.block in s.disk
            && s.data[r.b] == s.disk[r.block] == if r.write then r.data0 else r.disk0
  {
  }
}
