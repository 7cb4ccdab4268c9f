/** kalloc and kfree of riscv-os/kernel/mm/kalloc.c on any number of CPUs. The free list
    is changed under kmem.lock; the bitmap is tested and changed outside it, a byte at
    a time, by a load and a store. Pages are counted from addr_base. */
module KmemRuns {
  import opened Common

  type Byte = b: seq<bool> | |b| == 8 witness seq(8, _ => false)

  /** Where a CPU is in kalloc or kfree, and with which page. */
  datatype Cpu =
    | Idle
    | Popped(f: nat)              // kalloc: off the list, lock released
    | Setting(f: nat, seen: Byte) // ... byte of the bitmap loaded
    | Testing(f: nat)             // kfree
    | Tested(f: nat)              // ... its bit was set
    | Clearing(f: nat, seen: Byte) // ... byte loaded
    | Cleared(f: nat)             // ... and stored; not on the list yet
    | Panicked(f: nat)            // "freed twice"

  datatype State = State(
    bytes: seq<Byte>,   // kmem.bitmap
    free: seq<nat>,     // kmem.freelist
    held: set<nat>,     // pages that kalloc has returned and nobody has passed to kfree
    cpus: seq<Cpu>)

  /** Which CPU takes which step; FreeStart is a call of kfree with a page that is held. */
  datatype Event =
    | Pop | LoadSet | StoreSet
    | FreeStart(f: nat) | Test | LoadClear | StoreClear | Push

  predicate Bit(bytes: seq<Byte>, f: nat) { f / 8 < |bytes| && bytes[f / 8][f % 8] }

  function WithBit(b: Byte, i: nat, v: bool): Byte
    requires i < 8
  {
    b[i := v]
  }

  /** The CPU is between load and store of byte k. */
  predicate Updates(c: Cpu, k: nat) { (c.Setting? || c.Clearing?) && c.f / 8 == k }

  function Updating(cpus: seq<Cpu>, k: nat): set<nat> {
    set c: nat | c < |cpus| && Updates(cpus[c], k)
  }

  /** At most `limit` updates of one byte are ever under way at once. */
  predicate Enabled(limit: nat, s: State, c: nat, e: Event) {
    && c < |s.cpus|
    && var cpu := s.cpus[c];
    match e
    case Pop => cpu.Idle? && s.free != []
    case LoadSet => cpu.Popped? && cpu.f / 8 < |s.bytes| && |Updating(s.cpus, cpu.f / 8)| < limit
    case StoreSet => cpu.Setting? && cpu.f / 8 < |s.bytes|
    case FreeStart(f) => cpu.Idle? && f in s.held
    case Test => cpu.Testing?
    case LoadClear => cpu.Tested? && cpu.f / 8 < |s.bytes| && |Updating(s.cpus, cpu.f / 8)| < limit
    case StoreClear => cpu.Clearing? && cpu.f / 8 < |s.bytes|
    case Push => cpu.Cleared?
  }

  function Next(limit: nat, s: State, c: nat, e: Event): State
    requires Enabled(limit, s, c, e)
  {
    var cpu := s.cpus[c];
    match e
    case Pop => s.(free := s.free[1..], cpus := s.cpus[c := Popped(s.free[0])])
    case LoadSet => s.(cpus := s.cpus[c := Setting(cpu.f, s.bytes[cpu.f / 8])])
    case StoreSet => s.(bytes := s.bytes[cpu.f / 8 := WithBit(cpu.seen, cpu.f % 8, true)], held := s.held + {cpu.f}, cpus := s.cpus[c := Idle])
    case FreeStart(f) => s.(held := s.held - {f}, cpus := s.cpus[c := Testing(f)])
    case Test => s.(cpus := s.cpus[c := if Bit(s.bytes, cpu.f) then Tested(cpu.f) else Panicked(cpu.f)])
    case LoadClear => s.(cpus := s.cpus[c := Clearing(cpu.f, s.bytes[cpu.f / 8])])
    case StoreClear => s.(bytes := s.bytes[cpu.f / 8 := WithBit(cpu.seen, cpu.f % 8, false)], cpus := s.cpus[c := Cleared(cpu.f)])
    case Push => s.(free := [cpu.f] + s.free, cpus := s.cpus[c := Idle])
  }

  // ---- pages: unconditional ----

  /** Where page f may be; every page is in one place at a time. */
  predicate At(s: State, f: nat, c: nat) { c < |s.cpus| && !s.cpus[c].Idle? && s.cpus[c].f == f }

  ghost predicate Placed(s: State) {
    && NoDup(s.free)
    && (forall f | f in s.free :: f / 8 < |s.bytes| && f !in s.held)
    && (forall f | f in s.held :: f / 8 < |s.bytes|)
    && (forall f: nat, c: nat | At(s, f, c) :: f / 8 < |s.bytes| && f !in s.free && f !in s.held)
    && (forall f: nat, c: nat, d: nat | At(s, f, c) && At(s, f, d) :: c == d)
  }

  lemma PlacedKept(limit: nat, s: State, c: nat, e: Event)
    requires Placed(s) && Enabled(limit, s, c, e)
    ensures Placed(Next(limit, s, c, e))
  {
    hide Bit, WithBit, Updating;
    var s', cpu := Next(limit, s, c, e), s.cpus[c];
    assert !cpu.Idle? ==> At(s, cpu.f, c);
    if e.Pop? { assert s.free[0] in s.free && forall f | f in s.free[1..] :: f in s.free && f != s.free[0]; }
    forall f: nat, d: nat | d != c
      ensures At(s', f, d) <==> At(s, f, d)
    {
    }
  }

  // ---- the bitmap: when updates of one byte do not overlap ----

  /** A kfree has not cleared the bit of its page yet. */
  predicate Claimed(cpu: Cpu) { cpu.Testing? || cpu.Tested? || cpu.Clearing? || cpu.Panicked? }

  /** The page is on the list, or a kalloc has not set its bit yet, or a kfree has cleared it. */
  ghost predicate Unused(s: State, f: nat) {
    f in s.free || exists c: nat :: At(s, f, c) && !Claimed(s.cpus[c])
  }

  /** The bit of a page is clear exactly while the page is unused. */
  ghost predicate Agree(s: State) {
    forall f: nat | f / 8 < |s.bytes| :: Bit(s.bytes, f) <==> !Unused(s, f)
  }

  /** CPU c is updating byte k. */
  predicate OnByte(s: State, c: nat, k: nat) { c < |s.cpus| && Updates(s.cpus[c], k) }

  /** What was loaded is what is there, and nobody else is updating that byte. */
  ghost predicate Alone(s: State) {
    && (forall c: nat, k: nat | OnByte(s, c, k) :: k < |s.bytes| && s.cpus[c].seen == s.bytes[k])
    && (forall c: nat, d: nat, k: nat | OnByte(s, c, k) && OnByte(s, d, k) :: c == d)
  }

  ghost predicate NoPanic(s: State) {
    forall c: nat | c < |s.cpus| :: !s.cpus[c].Panicked?
  }

  lemma StoreBit(bytes: seq<Byte>, f: nat, v: bool, g: nat)
    requires f / 8 < |bytes|
    ensures Bit(bytes[f / 8 := WithBit(bytes[f / 8], f % 8, v)], g) == if g == f then v else Bit(bytes, g)
  {
    if g / 8 == f / 8 && g % 8 == f % 8 { assert g == f; }
  }

  lemma NoneUpdating(cpus: seq<Cpu>, k: nat, limit: nat)
    requires |Updating(cpus, k)| < limit <= 1
    ensures forall c: nat | c < |cpus| :: !Updates(cpus[c], k)
  {
    forall c: nat | c < |cpus|
      ensures !Updates(cpus[c], k)
    {
      assert Updating(cpus, k) == {};
      assert c !in Updating(cpus, k);
    }
  }

  lemma AloneKept(limit: nat, s: State, c: nat, e: Event)
    requires limit <= 1 && Alone(s) && Enabled(limit, s, c, e)
    ensures Alone(Next(limit, s, c, e))
  {
    hide Bit, WithBit, Updating;
    var s', own := Next(limit, s, c, e), if s.cpus[c].Idle? then 0 else s.cpus[c].f / 8;
    if e.LoadSet? || e.LoadClear? { NoneUpdating(s.cpus, own, limit); }
    forall d: nat, k: nat
      ensures OnByte(s', d, k) <==> if d == c then (e.LoadSet? || e.LoadClear?) && k == own else OnByte(s, d, k)
    {
    }
    if e.StoreSet? || e.StoreClear? { assert OnByte(s, c, own); }
  }

  /** The bits after a step: one of them has changed if the step stores. */
  lemma BitsAfter(limit: nat, s: State, c: nat, e: Event, g: nat)
    requires Alone(s) && Enabled(limit, s, c, e)
    ensures var s' := Next(limit, s, c, e);
            Bit(s'.bytes, g) == if (e.StoreSet? || e.StoreClear?) && g == s.cpus[c].f then e.StoreSet? else Bit(s.bytes, g)
  {
    hide Bit, WithBit, Updating;
    if e.StoreSet? || e.StoreClear? {
      assert OnByte(s, c, s.cpus[c].f / 8);
      StoreBit(s.bytes, s.cpus[c].f, e.StoreSet?, g);
    }
  }

  /** Which pages are unused after a step. */
  lemma UnusedAfter(limit: nat, s: State, c: nat, e: Event, g: nat)
    requires Placed(s) && Enabled(limit, s, c, e)
    ensures Unused(Next(limit, s, c, e), g) <==>
            if e.StoreSet? && g == s.cpus[c].f then false
            else if e.StoreClear? && g == s.cpus[c].f then true
            else Unused(s, g)
  {
    hide Bit, WithBit, Updating;
    var s' := Next(limit, s, c, e);
    assert !s.cpus[c].Idle? ==> At(s, s.cpus[c].f, c);
    assert !s'.cpus[c].Idle? ==> At(s', s'.cpus[c].f, c);
    if e.Pop? { assert s.free == [s.free[0]] + s.free[1..]; }
    forall d: nat | d != c
      ensures At(s', g, d) <==> At(s, g, d)
      ensures At(s, g, d) ==> s'.cpus[d] == s.cpus[d]
    {
    }
  }

  lemma AgreeKept(limit: nat, s: State, c: nat, e: Event)
    requires limit <= 1 && Placed(s) && Alone(s) && Agree(s) && NoPanic(s) && Enabled(limit, s, c, e)
    ensures Agree(Next(limit, s, c, e)) && NoPanic(Next(limit, s, c, e))
  {
    hide Bit, WithBit, Updating, Alone;
    var s' := Next(limit, s, c, e);
    if e.Test? {
      assert At(s, s.cpus[c].f, c);
      assert !Unused(s, s.cpus[c].f);
    }
    hide Unused, Placed;
    forall g: nat | g / 8 < |s'.bytes|
      ensures Bit(s'.bytes, g) <==> !Unused(s', g)
    {
      UnusedAfter(limit, s, c, e, g);
      BitsAfter(limit, s, c, e, g);
    }
  }

  // ---- every run ----

  /** After freerange: on the list are the pages whose bit is clear. */
  ghost predicate Init(s: State) {
    && NoDup(s.free) && s.held == {}
    && (forall f | f in s.free :: f / 8 < |s.bytes| && !Bit(s.bytes, f))
    && (forall f: nat | f / 8 < |s.bytes| && !Bit(s.bytes, f) :: f in s.free)
    && (forall c | 0 <= c < |s.cpus| :: s.cpus[c] == Idle)
  }

  datatype Step = Step(c: nat, e: Event)

  ghost predicate Run(limit: nat, run: seq<State>, steps: seq<Step>) {
    && |run| == |steps| + 1
    && Init(run[0])
    && forall i | 0 <= i < |steps| :: Link(limit, run[i], steps[i], run[i + 1])
  }

  predicate Link(limit: nat, s: State, st: Step, s': State) {
    Enabled(limit, s, st.c, st.e) && s' == Next(limit, s, st.c, st.e)
  }

  lemma {:induction false} RunPlaced(limit: nat, run: seq<State>, steps: seq<Step>, i: nat)
    requires Run(limit, run, steps) && i < |run|
    ensures Placed(run[i])
  {
    if i > 0 {
      RunPlaced(limit, run, steps, i - 1);
      assert Link(limit, run[i - 1], steps[i - 1], run[i]);
      PlacedKept(limit, run[i - 1], steps[i - 1].c, steps[i - 1].e);
    }
  }

  /** Whatever the bitmap does, in every run on any number of CPUs kalloc hands out only
      pages that nobody has and no other call is about. */
  lemma HandedOutOnce(limit: nat, run: seq<State>, steps: seq<Step>, i: nat)
    requires Run(limit, run, steps) && i < |steps| && steps[i].e.Pop?
    ensures run[i].free != [] && run[i].free[0] !in run[i].held && forall c: nat :: !At(run[i], run[i].free[0], c)
    ensures run[i].free[0] !in run[i + 1].free
  {
    RunPlaced(limit, run, steps, i);
    assert Link(limit, run[i], steps[i], run[i + 1]);
    assert run[i].free[0] in run[i].free;
  }

  /** Page f is on the list, handed out, or in the hands of a kalloc or kfree. */
  ghost predicate Somewhere(s: State, f: nat) {
    f in s.free || f in s.held || exists c: nat :: At(s, f, c)
  }

  /** A step loses no page and brings none up. */
  lemma SomewhereKept(limit: nat, s: State, c: nat, e: Event, f: nat)
    requires Enabled(limit, s, c, e)
    ensures Somewhere(Next(limit, s, c, e), f) <==> Somewhere(s, f)
  {
    hide Bit, WithBit, Updating;
    var s' := Next(limit, s, c, e);
    assert !s.cpus[c].Idle? ==> At(s, s.cpus[c].f, c);
    assert !s'.cpus[c].Idle? ==> At(s', s'.cpus[c].f, c);
    if e.Pop? { assert s.free == [s.free[0]] + s.free[1..]; }
    forall d: nat | d != c
      ensures At(s', f, d) <==> At(s, f, d)
    {
    }
  }

  /** In every run no page is lost: at any time the pages that were free at first are
      exactly those on the list, handed out, or in the hands of a call. */
  lemma {:induction false} NoneLost(limit: nat, run: seq<State>, steps: seq<Step>, i: nat, f: nat)
    requires Run(limit, run, steps) && i < |run|
    ensures f in run[0].free <==> Somewhere(run[i], f)
  {
    if i > 0 {
      NoneLost(limit, run, steps, i - 1, f);
      assert Link(limit, run[i - 1], steps[i - 1], run[i]);
      SomewhereKept(limit, run[i - 1], steps[i - 1].c, steps[i - 1].e, f);
    }
  }

  /** A call can go on unless it has panicked or others are updating its byte; an idle CPU
      can allocate while there is a free page, and free any page that is handed out. */
  lemma NeverStuck(limit: nat, run: seq<State>, steps: seq<Step>, i: nat, c: nat)
    requires Run(limit, run, steps) && i < |run| && c < |run[i].cpus|
    ensures var s, cpu := run[i], run[i].cpus[c];
            match cpu {
              case Idle => (s.free != [] ==> Enabled(limit, s, c, Pop)) && forall f | f in s.held :: Enabled(limit, s, c, FreeStart(f))
              case Popped(f) => |Updating(s.cpus, f / 8)| < limit ==> Enabled(limit, s, c, LoadSet)
              case Setting(_, _) => Enabled(limit, s, c, StoreSet)
              case Testing(_) => Enabled(limit, s, c, Test)
              case Tested(f) => |Updating(s.cpus, f / 8)| < limit ==> Enabled(limit, s, c, LoadClear)
              case Clearing(_, _) => Enabled(limit, s, c, StoreClear)
              case Cleared(_) => Enabled(limit, s, c, Push)
              case Panicked(_) => true
            }
  {
    hide Updating;
    RunPlaced(limit, run, steps, i);
    assert !run[i].cpus[c].Idle? ==> At(run[i], run[i].cpus[c].f, c);
  }

  lemma {:induction false} RunAgrees(limit: nat, run: seq<State>, steps: seq<Step>, i: nat)
    requires limit <= 1 && Run(limit, run, steps) && i < |run|
    ensures Alone(run[i]) && Agree(run[i]) && NoPanic(run[i])
  {
    RunPlaced(limit, run, steps, i);
    if i > 0 {
      RunAgrees(limit, run, steps, i - 1);
      RunPlaced(limit, run, steps, i - 1);
      assert Link(limit, run[i - 1], steps[i - 1], run[i]);
      AloneKept(limit, run[i - 1], steps[i - 1].c, steps[i - 1].e);
      AgreeKept(limit, run[i - 1], steps[i - 1].c, steps[i - 1].e);
    }
  }

  ghost predicate Reaches(limit: nat, s: State) {
    exists run: seq<State>, steps: seq<Step> :: Run(limit, run, steps) && run[|run| - 1] == s
  }

  /** No kfree of a page in use panics, and a page that no call is about is on the list
      exactly when its bit is clear. */
  ghost predicate Sound(s: State) {
    && NoPanic(s)
    && forall f: nat | f / 8 < |s.bytes| && (forall c: nat :: !At(s, f, c)) :: f in s.free <==> !Bit(s.bytes, f)
  }

  lemma SoundRuns(limit: nat, s: State)
    requires limit <= 1 && Reaches(limit, s)
    ensures Sound(s)
  {
    hide Bit, Link, Init;
    var run: seq<State>, steps: seq<Step> :| Run(limit, run, steps) && run[|run| - 1] == s;
    RunAgrees(limit, run, steps, |run| - 1);
  }

  lemma StepReaches(limit: nat, s: State, c: nat, e: Event)
    requires Reaches(limit, s) && Enabled(limit, s, c, e)
    ensures Reaches(limit, Next(limit, s, c, e))
  {
    hide Enabled, Next, Init;
    var run: seq<State>, steps: seq<Step> :| Run(limit, run, steps) && run[|run| - 1] == s;
    Enables(limit, s, c, e);
    var run', steps' := run + [Next(limit, s, c, e)], steps + [Step(c, e)];
    forall i | 0 <= i < |steps'|
      ensures Link(limit, run'[i], steps'[i], run'[i + 1])
    {
      if i < |steps| { assert Link(limit, run[i], steps[i], run[i + 1]); }
    }
    assert Run(limit, run', steps');
  }

  lemma Enables(limit: nat, s: State, c: nat, e: Event)
    requires Enabled(limit, s, c, e)
    ensures c < |s.cpus|
  {
  }

  /** Two CPUs, one byte: pages 0 and 1 can be handed out, the other six hold the bitmap. */
  function Two(b0: bool, b1: bool, free: seq<nat>, held: set<nat>, c0: Cpu, c1: Cpu): State {
    State([Eight(b0, b1)], free, held, [c0, c1])
  }

  function Eight(b0: bool, b1: bool): Byte { [b0, b1, true, true, true, true, true, true] }

  lemma EightBit(b0: bool, b1: bool, v: bool)
    ensures WithBit(Eight(b0, b1), 0, v) == Eight(v, b1) && WithBit(Eight(b0, b1), 1, v) == Eight(b0, v)
  {
  }

  lemma TwoStep(limit: nat, s: State, c: nat, e: Event, s': State)
    requires Reaches(limit, s) && Enabled(limit, s, c, e) && Next(limit, s, c, e) == s'
    ensures Reaches(limit, s')
  {
    StepReaches(limit, s, c, e);
  }

  lemma OneUpdate(c0: Cpu, c1: Cpu, k: nat)
    ensures |Updating([c0, c1], k)| == (if Updates(c0, k) then 1 else 0) + (if Updates(c1, k) then 1 else 0)
  {
    var z, o := if Updates(c0, k) then {0} else {}, if Updates(c1, k) then {1} else {};
    assert Updating([c0, c1], k) == z + o;
  }

  /** CPU 0 allocates page 1; CPU 1 is freeing it and has loaded the byte. */
  lemma ByteLoaded(limit: nat)
    requires limit >= 2
    ensures Reaches(limit, Two(false, true, [0], {}, Idle, Clearing(1, Eight(false, true))))
  {
    hide Reaches, Updating;
    var s0 := Two(false, false, [1, 0], {}, Idle, Idle);
    TwoInit(limit);
    TwoStep(limit, s0, 0, Pop, Two(false, false, [0], {}, Popped(1), Idle));
    OneUpdate(Popped(1), Idle, 0);
    TwoStep(limit, Two(false, false, [0], {}, Popped(1), Idle), 0, LoadSet, Two(false, false, [0], {}, Setting(1, Eight(false, false)), Idle));
    assert {} + {1} == {1};
    EightBit(false, false, true);
    TwoStep(limit, Two(false, false, [0], {}, Setting(1, Eight(false, false)), Idle), 0, StoreSet, Two(false, true, [0], {1}, Idle, Idle));
    assert {1} - {1} == {};
    TwoStep(limit, Two(false, true, [0], {1}, Idle, Idle), 1, FreeStart(1), Two(false, true, [0], {}, Idle, Testing(1)));
    TwoStep(limit, Two(false, true, [0], {}, Idle, Testing(1)), 1, Test, Two(false, true, [0], {}, Idle, Tested(1)));
    OneUpdate(Idle, Tested(1), 0);
    TwoStep(limit, Two(false, true, [0], {}, Idle, Tested(1)), 1, LoadClear, Two(false, true, [0], {}, Idle, Clearing(1, Eight(false, true))));
  }

  lemma TwoInit(limit: nat)
    ensures Reaches(limit, Two(false, false, [1, 0], {}, Idle, Idle))
  {
    var s := Two(false, false, [1, 0], {}, Idle, Idle);
    forall f: nat | f / 8 < 1 && !Bit(s.bytes, f)
      ensures f in s.free
    {
      assert f == 0 || f == 1 || f == 2 || f == 3 || f == 4 || f == 5 || f == 6 || f == 7;
    }
    assert s.free[1] == 0 && s.free[0] == 1;
    assert Init(s);
    assert Run(limit, [s], []);
  }

  /** CPU 0 allocates page 0 and sets its bit; the store of CPU 1 clears it again. */
  lemma BitErased(limit: nat)
    requires limit >= 2
    ensures Reaches(limit, Two(false, false, [1], {0}, Idle, Idle))
  {
    hide Reaches, Updating;
    ByteLoaded(limit);
    var c1 := Clearing(1, Eight(false, true));
    TwoStep(limit, Two(false, true, [0], {}, Idle, c1), 0, Pop, Two(false, true, [], {}, Popped(0), c1));
    OneUpdate(Popped(0), c1, 0);
    TwoStep(limit, Two(false, true, [], {}, Popped(0), c1), 0, LoadSet, Two(false, true, [], {}, Setting(0, Eight(false, true)), c1));
    assert {} + {0} == {0};
    EightBit(false, true, true);
    EightBit(false, true, false);
    TwoStep(limit, Two(false, true, [], {}, Setting(0, Eight(false, true)), c1), 0, StoreSet, Two(true, true, [], {0}, Idle, c1));
    TwoStep(limit, Two(true, true, [], {0}, Idle, c1), 1, StoreClear, Two(false, false, [], {0}, Idle, Cleared(1)));
    TwoStep(limit, Two(false, false, [], {0}, Idle, Cleared(1)), 1, Push, Two(false, false, [1], {0}, Idle, Idle));
  }

  /** The rightful kfree of page 0 then panics. */
  lemma RightfulFreePanics(limit: nat)
    requires limit >= 2
    ensures Reaches(limit, Two(false, false, [1], {}, Panicked(0), Idle))
  {
    hide Reaches;
    BitErased(limit);
    assert {0} - {0} == {};
    TwoStep(limit, Two(false, false, [1], {0}, Idle, Idle), 0, FreeStart(0), Two(false, false, [1], {}, Testing(0), Idle));
    TwoStep(limit, Two(false, false, [1], {}, Testing(0), Idle), 0, Test, Two(false, false, [1], {}, Panicked(0), Idle));
  }

  /** List and bitmap agree in all runs if and only if no two updates of one byte of the
      bitmap ever overlap, as they do not when they are made under kmem.lock. */
  lemma SoundIff(limit: nat)
    ensures (forall s: State | Reaches(limit, s) :: Sound(s)) <==> limit <= 1
  {
    if limit <= 1 {
      forall s: State | Reaches(limit, s)
        ensures Sound(s)
      {
        SoundRuns(limit, s);
      }
    } else {
      RightfulFreePanics(limit);
      var s := Two(false, false, [1], {}, Panicked(0), Idle);
      assert s.cpus[0].Panicked?;
      assert Reaches(limit, s) && !Sound(s);
    }
  }
}
