/** Processes of riscv-os/kernel/proc/proc.c on any number of CPUs and process
    slots, as a step relation. A step is one lock operation or one section that
    a lock already held makes atomic. swtch transfers control between a CPU's
    scheduler and the thread of a slot. */
module ProcModel {
  import opened Common
  datatype ProcState = UNUSED | USED | SLEEPING | RUNNABLE | RUNNING | ZOMBIE

  /** p->lock of each slot, wait_lock, and any other spin lock that code sleeps on. */
  datatype Lock = PL(slot: nat) | WaitLock | Other(n: nat)

  /** Where the thread of a slot stands. The numbers are loop indices over the slots. */
  datatype Pc =
    | Free                                  // no locks: user mode, or kernel code between calls
    | Yielding(back: Pc)                    // yield: own lock taken
    | Yielded(back: Pc)                     // yield: in sched, or back from it
    | Locked(n: nat)                        // some code that holds Other(n)
    | SleepStart(chan: nat, lk: Lock)       // sleep(chan, lk): lk held
    | SleepDrop(chan: nat, lk: Lock)        // own lock taken, lk not released yet
    | SleepMark(chan: nat, lk: Lock)        // lk released, still RUNNING
    | Asleep(lk: Lock)                      // in sched, or back from it
    | Woken(lk: Lock)                       // own lock released, lk to be taken again
    | Wait(j: nat, kids: bool)              // kwait: scanning for children
    | WaitAt(j: nat)                        // kwait: child j locked
    | WaitOut                               // kwait: about to release wait_lock and return
    | Exit(j: nat)                          // kexit: reparent loop
    | ExitWake(j: nat, q: nat)              // kexit: wakeup(initproc) inside reparent
    | ExitParent(dad: Option<nat>, q: nat)  // kexit: wakeup(p->parent)
    | ExitMark                              // kexit: own lock taken
    | ExitDrop                              // kexit: ZOMBIE, wait_lock still held
    | ExitSched                             // kexit: about to call sched
    | Dead                                  // in sched for good
    | Fork(j: nat)                          // allocproc: looking for a free slot
    | ForkHold(j: nat)                      // slot j allocated and locked
    | ForkLink(j: nat)                      // slot j unlocked, parent not set yet
    | ForkReady(j: nat)                     // parent set, not RUNNABLE yet
    | ForkRet                               // a new thread before its first release

  datatype Proc = Proc(state: ProcState, chan: Option<nat>, parent: Option<nat>, pid: nat, pc: Pc)

  /** What a CPU is doing; the last three hold the slot's lock or run its thread. */
  datatype Mode = Idle | Pick(p: nat) | Run(p: nat) | Back(p: nat)

  datatype Cpu = Cpu(proc: Option<nat>, noff: int, mode: Mode)

  datatype State = State(
    procs: seq<Proc>,
    cpus: seq<Cpu>,
    held: map<Lock, nat>,  // locks held and the CPU that holds each
    nextpid: nat,
    reaped: seq<nat>,      // pids that kwait has returned, oldest first
    panicked: bool)

  /** The locks that a thread of slot p holds at each point. */
  function Locks(pc: Pc, p: nat): set<Lock> {
    match pc
    case Free => {}
    case Yielding(_) => {PL(p)}
    case Yielded(_) => {PL(p)}
    case Locked(n) => {Other(n)}
    case SleepStart(_, lk) => {lk}
    case SleepDrop(_, lk) => {lk, PL(p)}
    case SleepMark(_, _) => {PL(p)}
    case Asleep(_) => {PL(p)}
    case Woken(_) => {}
    case Wait(_, _) => {WaitLock}
    case WaitAt(j) => {WaitLock, PL(j)}
    case WaitOut => {WaitLock}
    case Exit(_) => {WaitLock}
    case ExitWake(_, _) => {WaitLock}
    case ExitParent(_, _) => {WaitLock}
    case ExitMark => {WaitLock, PL(p)}
    case ExitDrop => {WaitLock, PL(p)}
    case ExitSched => {PL(p)}
    case Dead => {PL(p)}
    case Fork(_) => {}
    case ForkHold(j) => {PL(j)}
    case ForkLink(_) => {}
    case ForkReady(_) => {}
    case ForkRet => {PL(p)}
  }

  // ---- building blocks of steps ----

  function SetPc(s: State, p: nat, pc: Pc): State
    requires p < |s.procs|
  {
    s.(procs := s.procs[p := s.procs[p].(pc := pc)])
  }

  function SetState(s: State, p: nat, st: ProcState): State
    requires p < |s.procs|
  {
    s.(procs := s.procs[p := s.procs[p].(state := st)])
  }

  function SetMode(s: State, c: nat, proc: Option<nat>, mode: Mode): State
    requires c < |s.cpus|
  {
    s.(cpus := s.cpus[c := s.cpus[c].(proc := proc, mode := mode)])
  }

  /** acquire spins until the lock is free, and panics if this CPU has it. */
  predicate CanAcquire(s: State, c: nat, l: Lock) { l !in s.held || s.held[l] == c }

  function Acquire(s: State, c: nat, l: Lock): State
    requires c < |s.cpus|
  {
    if l in s.held then s.(panicked := true)
    else s.(held := s.held[l := c], cpus := s.cpus[c := s.cpus[c].(noff := s.cpus[c].noff + 1)])
  }

  /** release panics unless this CPU has the lock; pop_off unless noff >= 1. */
  function Release(s: State, c: nat, l: Lock): State
    requires c < |s.cpus|
  {
    if !(l in s.held && s.held[l] == c) || s.cpus[c].noff < 1 then s.(panicked := true)
    else s.(held := s.held - {l}, cpus := s.cpus[c := s.cpus[c].(noff := s.cpus[c].noff - 1)])
  }

  /** sched of the thread of slot p on CPU c, with its panics, up to the swtch. */
  function Sched(s: State, c: nat, p: nat): State
    requires c < |s.cpus| && p < |s.procs|
  {
    if !(PL(p) in s.held && s.held[PL(p)] == c) || s.cpus[c].noff != 1 || s.procs[p].state == RUNNING
    then s.(panicked := true)
    else SetMode(s, c, s.cpus[c].proc, Back(p))
  }

  /** One turn of the loop in wakeup(chan) called by slot p: lock slot q, wake it
      if it sleeps on chan, unlock it. */
  function WakeTurn(s: State, p: nat, q: nat, chan: Option<nat>): State
    requires q < |s.procs|
  {
    if q == p then s
    else if PL(q) in s.held then s.(panicked := true)
    else if s.procs[q].state == SLEEPING && s.procs[q].chan == chan then SetState(s, q, RUNNABLE)
    else s
  }

  /** uFreeProc's effect on the process table. */
  function FreeProc(s: State, j: nat): State
    requires j < |s.procs|
  {
    s.(procs := s.procs[j := s.procs[j].(state := UNUSED, chan := None, parent := None, pid := 0)])
  }

  /** allocproc's claim of slot j, with allocpid. */
  function Claim(s: State, j: nat): State
    requires j < |s.procs|
  {
    s.(procs := s.procs[j := s.procs[j].(state := USED, pid := s.nextpid, pc := ForkRet)], nextpid := s.nextpid + 1)
  }

  // ---- steps ----

  datatype Step =
    | SchedAcquire(c: nat, p: nat)
    | SchedTurn(c: nat)               // run the slot if it is RUNNABLE, else let go
    | SchedBack(c: nat)               // back from swtch
    | Thread(c: nat, choice: Choice)  // the thread running on c
    | Wakeup(q: nat)                  // any wakeup or kkill elsewhere that hits slot q

  /** What a thread does next where its code or its input leaves a choice. */
  datatype Choice =
    | Go
    | Yield
    | TakeOther(n: nat)
    | SleepOn(chan: nat)
    | CallWait
    | CallExit
    | CallFork
    | Fails          // copyout, kalloc or uvmcopy fails; the process was killed

  predicate EnabledSched(s: State, st: Step)
    requires !st.Thread?
  {
    match st
    case SchedAcquire(c, p) => c < |s.cpus| && p < |s.procs| && s.cpus[c].mode == Idle && CanAcquire(s, c, PL(p))
    case SchedTurn(c) => c < |s.cpus| && s.cpus[c].mode.Pick? && s.cpus[c].mode.p < |s.procs|
    case SchedBack(c) => c < |s.cpus| && s.cpus[c].mode.Back?
    case Wakeup(q) => q < |s.procs| && PL(q) !in s.held && s.procs[q].state == SLEEPING
  }

  function NextSched(s: State, st: Step): State
    requires !st.Thread? && EnabledSched(s, st)
  {
    match st
    case SchedAcquire(c, p) =>
      SetMode(Acquire(s, c, PL(p)), c, s.cpus[c].proc, Pick(p))
    case SchedTurn(c) =>
      var p := s.cpus[c].mode.p;
      if s.procs[p].state == RUNNABLE then SetMode(SetState(s, p, RUNNING), c, Some(p), Run(p))
      else SetMode(Release(s, c, PL(p)), c, s.cpus[c].proc, Idle)
    case SchedBack(c) =>
      SetMode(Release(s, c, PL(s.cpus[c].mode.p)), c, None, Idle)
    case Wakeup(q) =>
      SetState(s, q, RUNNABLE)
  }

  /** Whether the thread of slot p on CPU c can take a step with this choice. */
  predicate EnabledThread(s: State, init: nat, c: nat, p: nat, ch: Choice)
    requires c < |s.cpus| && p < |s.procs|
  {
    var pc := s.procs[p].pc;
    var n := |s.procs|;
    if ch == Yield then Locks(pc, p) == {} && CanAcquire(s, c, PL(p))
    else
      match pc
      case Free =>
        (match ch
         case TakeOther(k) => CanAcquire(s, c, Other(k))
         case CallWait => CanAcquire(s, c, WaitLock)
         case CallExit => CanAcquire(s, c, WaitLock)
         case CallFork => true
         case _ => false)
      case Yielding(_) => ch == Go
      case Yielded(_) => ch == Go
      case Locked(_) => ch == Go || ch.SleepOn?
      case SleepStart(_, _) => ch == Go && CanAcquire(s, c, PL(p))
      case SleepDrop(_, _) => ch == Go
      case SleepMark(_, _) => ch == Go
      case Asleep(_) => ch == Go
      case Woken(lk) => ch == Go && CanAcquire(s, c, lk)
      case Wait(j, kids) =>
        if j < n then ch == Go && (s.procs[j].parent == Some(p) ==> CanAcquire(s, c, PL(j)))
        else (ch == Go || ch == Fails) && (kids ==> CanAcquire(s, c, PL(p)))
      case WaitAt(j) => ch == Go || ch == Fails
      case WaitOut => ch == Go
      case Exit(j) => ch == Go && init < n
      case ExitWake(j, q) => ch == Go && (q < n && q != p ==> CanAcquire(s, c, PL(q)))
      case ExitParent(_, q) => ch == Go && (if q < n then q != p ==> CanAcquire(s, c, PL(q)) else CanAcquire(s, c, PL(p)))
      case ExitMark => ch == Go
      case ExitDrop => ch == Go
      case ExitSched => ch == Go
      case Dead => ch == Go
      case Fork(j) => ch == Go && (j < n ==> CanAcquire(s, c, PL(j)))
      case ForkHold(_) => ch == Go || ch == Fails
      case ForkLink(_) => ch == Go && CanAcquire(s, c, WaitLock)
      case ForkReady(j) => ch == Go && CanAcquire(s, c, PL(j))
      case ForkRet => ch == Go
  }

  /** After taking the condition lock back: kwait scans again, other code holds its lock. */
  function AfterSleep(lk: Lock): Pc {
    match lk
    case Other(n) => Locked(n)
    case _ => Wait(0, false)
  }

  function NextFree(s: State, c: nat, p: nat, ch: Choice): State
    requires c < |s.cpus| && p < |s.procs|
  {
    match ch
    case TakeOther(k) => SetPc(Acquire(s, c, Other(k)), p, Locked(k))
    case CallWait => SetPc(Acquire(s, c, WaitLock), p, Wait(0, false))
    case CallExit => SetPc(Acquire(s, c, WaitLock), p, Exit(0))
    case CallFork => SetPc(s, p, Fork(0))
    case _ => s
  }

  function NextSleep(s: State, c: nat, p: nat): State
    requires c < |s.cpus| && p < |s.procs|
  {
    match s.procs[p].pc
    case SleepStart(chan, lk) => SetPc(Acquire(s, c, PL(p)), p, SleepDrop(chan, lk))
    case SleepDrop(chan, lk) => SetPc(Release(s, c, lk), p, SleepMark(chan, lk))
    case SleepMark(chan, lk) =>
      Sched(s.(procs := s.procs[p := s.procs[p].(chan := Some(chan), state := SLEEPING, pc := Asleep(lk))]), c, p)
    case Asleep(lk) =>
      Release(s.(procs := s.procs[p := s.procs[p].(chan := None, pc := Woken(lk))]), c, PL(p))
    case Woken(lk) => SetPc(Acquire(s, c, lk), p, AfterSleep(lk))
    case _ => s
  }

  function NextWait(s: State, c: nat, p: nat, ch: Choice): State
    requires c < |s.cpus| && p < |s.procs|
  {
    match s.procs[p].pc
    case Wait(j, kids) =>
      if j < |s.procs| then
        if s.procs[j].parent == Some(p) then SetPc(Acquire(s, c, PL(j)), p, WaitAt(j))
        else SetPc(s, p, Wait(j + 1, kids))
      else if kids && PL(p) in s.held then s.(panicked := true)
      else if !kids || ch == Fails then SetPc(s, p, WaitOut)
      else SetPc(s, p, SleepStart(p, WaitLock))
    case WaitAt(j) =>
      if j >= |s.procs| then s.(panicked := true)
      else if s.procs[j].state != ZOMBIE then SetPc(Release(s, c, PL(j)), p, Wait(j + 1, true))
      else if ch == Fails then SetPc(Release(s, c, PL(j)), p, WaitOut)
      else SetPc(Release(FreeProc(s, j).(reaped := s.reaped + [s.procs[j].pid]), c, PL(j)), p, WaitOut)
    case WaitOut => SetPc(Release(s, c, WaitLock), p, Free)
    case _ => s
  }

  function NextExit(s: State, init: nat, c: nat, p: nat): State
    requires c < |s.cpus| && p < |s.procs|
  {
    var n := |s.procs|;
    match s.procs[p].pc
    case Exit(j) =>
      if j >= n then SetPc(s, p, ExitParent(s.procs[p].parent, 0))
      else if s.procs[j].parent == Some(p) then
        SetPc(s.(procs := s.procs[j := s.procs[j].(parent := Some(init))]), p, ExitWake(j, 0))
      else SetPc(s, p, Exit(j + 1))
    case ExitWake(j, q) =>
      if q >= n then SetPc(s, p, Exit(j + 1))
      else SetPc(WakeTurn(s, p, q, Some(init)), p, ExitWake(j, q + 1))
    case ExitParent(dad, q) =>
      if q >= n then SetPc(Acquire(s, c, PL(p)), p, ExitMark)
      else SetPc(WakeTurn(s, p, q, dad), p, ExitParent(dad, q + 1))
    case ExitMark => SetPc(SetState(s, p, ZOMBIE), p, ExitDrop)
    case ExitDrop => SetPc(Release(s, c, WaitLock), p, ExitSched)
    case ExitSched => Sched(SetPc(s, p, Dead), c, p)
    case Dead => s.(panicked := true)
    case _ => s
  }

  function NextFork(s: State, c: nat, p: nat, ch: Choice): State
    requires c < |s.cpus| && p < |s.procs|
  {
    var n := |s.procs|;
    match s.procs[p].pc
    case Fork(j) =>
      if j >= n then SetPc(s, p, Free)
      else if s.procs[j].state == UNUSED then
        SetPc(Acquire(Claim(s, j), c, PL(j)), p, ForkHold(j))
      else if PL(j) in s.held then s.(panicked := true)
      else SetPc(s, p, Fork(j + 1))
    case ForkHold(j) =>
      if j >= n then s.(panicked := true)
      else if ch == Fails then SetPc(Release(FreeProc(s, j), c, PL(j)), p, Free)
      else SetPc(Release(s, c, PL(j)), p, ForkLink(j))
    case ForkLink(j) =>
      if j >= n || WaitLock in s.held then s.(panicked := true)
      else SetPc(s.(procs := s.procs[j := s.procs[j].(parent := Some(p))]), p, ForkReady(j))
    case ForkReady(j) =>
      if j >= n || PL(j) in s.held then s.(panicked := true) else SetPc(SetState(s, j, RUNNABLE), p, Free)
    case ForkRet => SetPc(Release(s, c, PL(p)), p, Free)
    case _ => s
  }

  function NextYield(s: State, c: nat, p: nat): State
    requires c < |s.cpus| && p < |s.procs|
  {
    match s.procs[p].pc
    case Yielding(back) =>
      Sched(s.(procs := s.procs[p := s.procs[p].(state := RUNNABLE, pc := Yielded(back))]), c, p)
    case Yielded(back) => SetPc(Release(s, c, PL(p)), p, back)
    case _ => s
  }

  function NextThread(s: State, init: nat, c: nat, p: nat, ch: Choice): State
    requires c < |s.cpus| && p < |s.procs|
  {
    var pc := s.procs[p].pc;
    if ch == Yield then SetPc(Acquire(s, c, PL(p)), p, Yielding(pc))
    else if pc.Free? then NextFree(s, c, p, ch)
    else if pc.Yielding? || pc.Yielded? then NextYield(s, c, p)
    else if pc.Locked? then
      if ch.SleepOn? then SetPc(s, p, SleepStart(ch.chan, Other(pc.n)))
      else SetPc(Release(s, c, Other(pc.n)), p, Free)
    else if pc.SleepStart? || pc.SleepDrop? || pc.SleepMark? || pc.Asleep? || pc.Woken? then NextSleep(s, c, p)
    else if pc.Wait? || pc.WaitAt? || pc.WaitOut? then NextWait(s, c, p, ch)
    else if pc.Fork? || pc.ForkHold? || pc.ForkLink? || pc.ForkReady? || pc.ForkRet? then NextFork(s, c, p, ch)
    else NextExit(s, init, c, p)
  }

  predicate Enabled(s: State, init: nat, st: Step) {
    && !s.panicked
    && if st.Thread? then
         && st.c < |s.cpus|
         && s.cpus[st.c].mode.Run?
         && s.cpus[st.c].mode.p < |s.procs|
         && EnabledThread(s, init, st.c, s.cpus[st.c].mode.p, st.choice)
       else EnabledSched(s, st)
  }

  function Next(s: State, init: nat, st: Step): State
    requires Enabled(s, init, st)
  {
    if st.Thread? then NextThread(s, init, st.c, s.cpus[st.c].mode.p, st.choice) else NextSched(s, st)
  }

  /** After userinit: one RUNNABLE process in slot init, all CPUs in their schedulers. */
  ghost predicate Init(s: State, init: nat) {
    && init < |s.procs|
    && (forall p | 0 <= p < |s.procs| ::
          s.procs[p] == if p == init then Proc(RUNNABLE, None, None, 1, ForkRet) else Proc(UNUSED, None, None, 0, Dead))
    && (forall c | 0 <= c < |s.cpus| :: s.cpus[c] == Cpu(None, 0, Idle))
    && s.held == map[] && s.nextpid == 2 && s.reaped == [] && !s.panicked
  }

  ghost predicate Runs(run: seq<State>, init: nat, steps: seq<Step>) {
    && |run| == |steps| + 1
    && Init(run[0], init)
    && forall i | 0 <= i < |steps| :: Enabled(run[i], init, steps[i]) && run[i + 1] == Next(run[i], init, steps[i])
  }
}
