/** Deferred callbacks and quiescent states: core/rcu.cc as a state machine over interleaved steps.

    Every CPU has two callback buffers, a published generation, a requested generation and one RCU thread. A read-side
    section disables preemption, so the RCU thread of a CPU takes no step while a section runs there; rcu_defer() runs
    with preemption disabled and is one step. Loads and stores are sequentially consistent.
  */
module Rcu {

  import opened Common

  /** Room in one callback buffer. */
  const CAPACITY: nat := 2000

  /** A read-side section: the CPU it runs on and its number among all sections. */
  datatype Section = Section(cpu: nat, serial: nat)

  /** A deferred callback with the sections that were running when it was deferred. */
  datatype Callback = Callback(id: nat, active: set<Section>)

  /** Where an RCU thread is in do_work().
      Top: about to look at its buffer. Draw: about to take a generation. Ask(g, j): about to request g from CPU j.
      Publish(g): about to publish g as its own. Test(g), Scan(g, k): evaluating the wait condition. Load(g, all): about
      to load its request; `all` says which half of the condition held. Serve(g, r): about to publish a requested r.
      Clean: about to take over the other buffer. Run(i, n): about to run callback i of n.
      Idle, IdleLoad, IdleServe(r): the same without callbacks of its own. */
  datatype Pc =
    | Top | Draw | Ask(g: nat, j: nat) | Publish(g: nat) | Test(g: nat) | Scan(g: nat, k: nat)
    | Load(g: nat, all: bool) | Serve(g: nat, r: nat) | Clean(g: nat) | Run(g: nat, i: nat, n: nat)
    | Idle | IdleLoad | IdleServe(r: nat)

  /** `deferred` and `ran` record every callback deferred and run on this CPU, in order. */
  datatype Cpu = Cpu(
    buf: nat, slots: seq<seq<Callback>>, count: seq<nat>, gen: nat, request: nat,
    reading: Option<nat>, pc: Pc, deferred: seq<Callback>, ran: seq<Callback>)

  datatype State = State(cpus: seq<Cpu>, nextGen: nat, serial: nat)

  datatype Move = ReadLock(c: nat) | ReadUnlock(c: nat) | Defer(c: nat, id: nat) | Step(c: nat)

  // ----------------------------------------------------------------------------------------
  // Steps
  // ----------------------------------------------------------------------------------------

  ghost predicate Init(s: State)
  {
    s.nextGen == 0 && s.serial == 0 && forall c: nat :: c < |s.cpus| ==>
      s.cpus[c] == Cpu(0, [[], []], [0, 0], 0, 0, None, Top, [], [])
  }

  function Set(s: State, c: nat, x: Cpu): (s': State)
    requires c < |s.cpus|
  {
    s.(cpus := s.cpus[c := x])
  }

  /** The sections that run now. */
  function Running(s: State): (r: set<Section>)
  {
    set c: nat | c < |s.cpus| && s.cpus[c].reading.Some? :: Section(c, s.cpus[c].reading.value)
  }

  /** Writes a callback into slot k of a buffer. */
  function Put(b: seq<Callback>, k: nat, f: Callback): (r: seq<Callback>)
    requires k <= |b|
  {
    if k < |b| then b[k := f] else b + [f]
  }

  predicate BuffersOk(x: Cpu)
  {
    x.buf < 2 && |x.slots| == 2 && |x.count| == 2 && x.count[0] <= |x.slots[0]| && x.count[1] <= |x.slots[1]|
  }

  /** rcu_defer() when there is room. */
  function DeferAt(x: Cpu, f: Callback): (x': Cpu)
    requires BuffersOk(x)
  {
    var b := x.buf;
    x.(slots := x.slots[b := Put(x.slots[b], x.count[b], f)], count := x.count[b := x.count[b] + 1],
       deferred := x.deferred + [f])
  }

  /** One step of the RCU thread of CPU c: what it does to its own CPU. */
  function NextCpu(s: State, c: nat): (x': Cpu)
    requires c < |s.cpus| && BuffersOk(s.cpus[c])
  {
    var x := s.cpus[c];
    match x.pc
    case Top => if x.count[x.buf] > 0 then x.(buf := 1 - x.buf, pc := Draw) else x.(pc := Idle)
    case Draw => x.(pc := Ask(s.nextGen + 1, 0))
    case Ask(g, j) => x.(pc := if j >= |s.cpus| then Publish(g) else Ask(g, j + 1))
    case Publish(g) => x.(gen := g, pc := Test(g))
    case Test(g) => x.(pc := if x.gen < x.request then Load(g, false) else Scan(g, 0))
    case Scan(g, k) =>
      x.(pc := if k >= |s.cpus| then Load(g, true) else if s.cpus[k].gen >= g then Scan(g, k + 1) else Test(g))
    case Load(g, _) => x.(pc := if x.gen < x.request then Serve(g, x.request) else Clean(g))
    case Serve(g, r) => x.(gen := r, pc := Test(g))
    case Clean(g) => x.(count := x.count[1 - x.buf := 0], pc := Run(g, 0, x.count[1 - x.buf]))
    case Run(g, i, m) =>
      if i < m && i < |x.slots[1 - x.buf]|
      then x.(ran := x.ran + [x.slots[1 - x.buf][i]], pc := Run(g, i + 1, m))
      else x.(pc := Top)
    case Idle => if x.gen < x.request || x.count[x.buf] > 0 then x.(pc := IdleLoad) else x
    case IdleLoad => x.(pc := if x.gen < x.request then IdleServe(x.request) else Top)
    case IdleServe(r) => x.(gen := r, pc := Top)
  }

  /** request(): raises the request of CPU j to g. */
  function Raise(s: State, j: nat, g: nat): (s': State)
    requires j < |s.cpus|
  {
    if s.cpus[j].request < g then Set(s, j, s.cpus[j].(request := g)) else s
  }

  /** The whole step. */
  function StepOf(s: State, c: nat): (s': State)
    requires c < |s.cpus| && BuffersOk(s.cpus[c])
  {
    var pc, x' := s.cpus[c].pc, NextCpu(s, c);
    if pc.Draw? then Set(s, c, x').(nextGen := s.nextGen + 1)
    else if pc.Ask? && pc.j < |s.cpus| && pc.j != c then Set(Raise(s, pc.j, pc.g), c, x')
    else Set(s, c, x')
  }

  /** A thread runs only where no section keeps preemption off. */
  predicate Enabled(s: State, m: Move)
  {
    && m.c < |s.cpus| && BuffersOk(s.cpus[m.c])
    && match m
       case ReadLock(c) => s.cpus[c].reading.None?
       case ReadUnlock(c) => s.cpus[c].reading.Some?
       case Defer(c, _) => s.cpus[c].count[s.cpus[c].buf] < CAPACITY
       case Step(c) => s.cpus[c].reading.None?
  }

  function Next(s: State, m: Move): (s': State)
    requires Enabled(s, m)
  {
    var x := s.cpus[m.c];
    match m
    case ReadLock(c) => Set(s, c, x.(reading := Some(s.serial))).(serial := s.serial + 1)
    case ReadUnlock(c) => Set(s, c, x.(reading := None))
    case Defer(c, id) => Set(s, c, DeferAt(x, Callback(id, Running(s))))
    case Step(c) => StepOf(s, c)
  }

  ghost predicate IsRun(run: seq<State>, moves: seq<Move>)
  {
    && |run| == |moves| + 1 && Init(run[0])
    && forall i: nat :: i < |moves| ==> Enabled(run[i], moves[i]) && run[i + 1] == Next(run[i], moves[i])
  }

  // ----------------------------------------------------------------------------------------
  // What every step keeps
  // ----------------------------------------------------------------------------------------

  /** The RCU thread has taken the callbacks of the other buffer and not yet run them all. */
  predicate HasBatch(pc: Pc)
  {
    !(pc.Top? || pc.Idle? || pc.IdleLoad? || pc.IdleServe?)
  }

  /** The callbacks of the other buffer that are still to run. */
  ghost function Batch(x: Cpu): (b: seq<Callback>)
    requires BuffersOk(x)
  {
    match x.pc
    case Run(_, i, n) => if i <= n <= |x.slots[1 - x.buf]| then x.slots[1 - x.buf][i..n] else []
    case _ => x.slots[1 - x.buf][..x.count[1 - x.buf]]
  }

  /** Callbacks deferred and not yet run, oldest first. */
  ghost function Pending(x: Cpu): (p: seq<Callback>)
    requires BuffersOk(x)
  {
    Batch(x) + x.slots[x.buf][..x.count[x.buf]]
  }

  /** A CPU by itself: nothing deferred is lost, doubled or overtaken. */
  ghost predicate LocalOk(x: Cpu)
  {
    && BuffersOk(x)
    && x.deferred == x.ran + Pending(x)
    && (!HasBatch(x.pc) || x.pc.Run? ==> x.count[1 - x.buf] == 0)
    && (x.pc.Run? ==> x.pc.i <= x.pc.n <= |x.slots[1 - x.buf]|)
  }

  lemma DeferKeepsLocal(x: Cpu, f: Callback)
    requires LocalOk(x)
    ensures LocalOk(DeferAt(x, f)) && Batch(DeferAt(x, f)) == Batch(x)
  {
    var x', b := DeferAt(x, f), x.buf;
    assert x'.slots[b][..x'.count[b]] == x.slots[b][..x.count[b]] + [f];
    assert x'.slots[1 - b] == x.slots[1 - b] && x'.count[1 - b] == x.count[1 - b];
    assert Batch(x') == Batch(x);
  }

  /** The section now running on CPU d was already running when f was deferred. */
  ghost predicate Blocks(s: State, d: nat, f: Callback)
    requires d < |s.cpus|
  {
    s.cpus[d].reading.Some? && Section(d, s.cpus[d].reading.value) in f.active
  }

  /** The thread has drawn a generation for its batch and waits for all CPUs to reach it. */
  predicate Drawn(pc: Pc)
  {
    pc.Ask? || pc.Publish? || pc.Test? || pc.Scan? || pc.Load? || pc.Serve?
  }

  predicate Cleared(pc: Pc)
  {
    pc.Clean? || pc.Run?
  }

  /** Only sections that started before now are known. */
  ghost predicate Known(s: State, c: nat, i: nat)
    requires c < |s.cpus|
  {
    i < |s.cpus[c].deferred| ==>
      forall x: Section :: x in s.cpus[c].deferred[i].active ==> x.serial < s.serial
  }

  ghost predicate GenOk(s: State, c: nat)
    requires c < |s.cpus|
  {
    var x := s.cpus[c];
    && x.gen <= s.nextGen && x.request <= s.nextGen
    && (x.reading.Some? ==> x.reading.value < s.serial)
    && (Drawn(x.pc) || Cleared(x.pc) ==> x.pc.g <= s.nextGen)
    && (x.pc.Ask? || x.pc.Publish? ==> x.gen < x.pc.g)
    && (x.pc.Test? || x.pc.Scan? || x.pc.Load? || x.pc.Serve? ==> x.pc.g <= x.gen)
    && (x.pc.Load? && !x.pc.all ==> x.gen < x.request)
    && (x.pc.Serve? || x.pc.IdleServe? ==> x.gen < x.pc.r <= s.nextGen)
    && (forall i: nat {:trigger Known(s, c, i)} :: Known(s, c, i))
  }

  /** While a section that some callback of the batch must wait for runs on d, d is behind the generation. */
  ghost predicate BatchOk(s: State, c: nat, d: nat, i: nat)
    requires c < |s.cpus| && d < |s.cpus| && BuffersOk(s.cpus[c])
  {
    var x, b := s.cpus[c], Batch(s.cpus[c]);
    i < |b| ==>
      && (Drawn(x.pc) && Blocks(s, d, b[i]) ==> s.cpus[d].gen < x.pc.g)
      && (Cleared(x.pc) ==> !Blocks(s, d, b[i]))
  }

  ghost predicate RanOk(s: State, c: nat, d: nat, i: nat)
    requires c < |s.cpus| && d < |s.cpus|
  {
    i < |s.cpus[c].ran| ==> !Blocks(s, d, s.cpus[c].ran[i])
  }

  /** What the thread of c has asked of d and seen of it. */
  ghost predicate SeenOk(s: State, c: nat, d: nat)
    requires c < |s.cpus| && d < |s.cpus|
  {
    var pc := s.cpus[c].pc;
    && (pc.Ask? && d < pc.j && d != c ==> s.cpus[d].request >= pc.g)
    && (Drawn(pc) && !pc.Ask? && d != c ==> s.cpus[d].request >= pc.g)
    && (pc.Scan? && d < pc.k ==> s.cpus[d].gen >= pc.g)
    && ((pc.Load? && pc.all) || Cleared(pc) ==> s.cpus[d].gen >= pc.g)
  }

  ghost predicate PairOk(s: State, c: nat, d: nat)
    requires c < |s.cpus| && d < |s.cpus| && BuffersOk(s.cpus[c])
  {
    && SeenOk(s, c, d)
    && (forall i: nat {:trigger BatchOk(s, c, d, i)} :: BatchOk(s, c, d, i))
    && (forall i: nat {:trigger RanOk(s, c, d, i)} :: RanOk(s, c, d, i))
  }

  ghost predicate CpuOk(s: State, c: nat)
  {
    c < |s.cpus| ==> LocalOk(s.cpus[c]) && GenOk(s, c)
  }

  ghost predicate TwoOk(s: State, c: nat, d: nat)
  {
    c < |s.cpus| && d < |s.cpus| && BuffersOk(s.cpus[c]) ==> PairOk(s, c, d)
  }

  ghost predicate Inv(s: State)
  {
    && (forall c: nat {:trigger CpuOk(s, c)} :: CpuOk(s, c))
    && (forall c: nat, d: nat {:trigger TwoOk(s, c, d)} :: TwoOk(s, c, d))
  }

  // One CPU

  lemma RunKeepsLocal(x: Cpu)
    requires LocalOk(x) && x.pc.Run? && x.pc.i < x.pc.n
    ensures x.pc.i < |x.slots[1 - x.buf]|
    ensures var x' := x.(ran := x.ran + [x.slots[1 - x.buf][x.pc.i]], pc := Run(x.pc.g, x.pc.i + 1, x.pc.n));
            LocalOk(x') && Batch(x) == [x.slots[1 - x.buf][x.pc.i]] + Batch(x')
  {
    var x' := x.(ran := x.ran + [x.slots[1 - x.buf][x.pc.i]], pc := Run(x.pc.g, x.pc.i + 1, x.pc.n));
    assert Batch(x) == [x.slots[1 - x.buf][x.pc.i]] + Batch(x');
  }

  /** A step that touches no buffer. */
  lemma QuietKeepsLocal(x: Cpu, gen: nat, pc: Pc)
    requires LocalOk(x) && !x.pc.Run? && !pc.Run? && HasBatch(pc) == HasBatch(x.pc)
    ensures LocalOk(x.(gen := gen, pc := pc)) && Batch(x.(gen := gen, pc := pc)) == Batch(x)
  {
    var x' := x.(gen := gen, pc := pc);
    assert Batch(x') == Batch(x);
  }

  /** Every step keeps the order of one CPU's callbacks. */
  lemma StepKeepsLocal(s: State, c: nat)
    requires c < |s.cpus| && LocalOk(s.cpus[c])
    ensures LocalOk(NextCpu(s, c))
  {
    var x, x' := s.cpus[c], NextCpu(s, c);
    match x.pc
    case Run(_, _, _) =>
      if x.pc.i < x.pc.n {
        RunKeepsLocal(x);
      } else {
        assert Batch(x) == [] && Batch(x') == [];
      }
    case Top =>
      assert Batch(x) == [];
      if x.count[x.buf] > 0 {
        assert x'.slots[x'.buf][..x'.count[x'.buf]] == [];
        assert Pending(x') == Batch(x') == Pending(x);
      } else {
        QuietKeepsLocal(x, x.gen, Idle);
      }
    case Clean(_) =>
      assert Batch(x') == Batch(x);
    case _ =>
      QuietKeepsLocal(x, x'.gen, x'.pc);
  }

  lemma BatchAfter(s: State, c: nat)
    requires c < |s.cpus| && LocalOk(s.cpus[c]) && HasBatch(s.cpus[c].pc) && !s.cpus[c].pc.Run?
    ensures Batch(NextCpu(s, c)) == Batch(s.cpus[c])
  {
    var x, x' := s.cpus[c], NextCpu(s, c);
    if x.pc.Clean? {
      assert Batch(x') == Batch(x);
    } else {
      QuietKeepsLocal(x, x'.gen, x'.pc);
    }
  }

  // Steps of an RCU thread

  /** What a step of the thread of CPU x may do to CPU d. */
  ghost predicate FrameAt(s: State, s': State, x: nat, d: nat)
  {
    |s'.cpus| == |s.cpus| && s'.serial == s.serial && s'.nextGen >= s.nextGen && (d < |s.cpus| ==>
      var y, y' := s.cpus[d], s'.cpus[d];
      && y'.reading == y.reading && y'.deferred == y.deferred
      && y'.gen >= y.gen && (y'.gen != y.gen ==> y.reading.None?)
      && y'.request >= y.request && y'.request <= s'.nextGen
      && (d != x ==> y' == y.(request := y'.request)))
  }

  lemma StepFrame(s: State, x: nat, d: nat)
    requires Inv(s) && Enabled(s, Step(x)) && x < |s.cpus|
    ensures FrameAt(s, StepOf(s, x), x, d)
    ensures StepOf(s, x).cpus[x] == NextCpu(s, x)
    ensures StepOf(s, x).nextGen == s.nextGen + (if s.cpus[x].pc.Draw? then 1 else 0)
  {
    assert CpuOk(s, x) && CpuOk(s, d);
  }

  lemma OtherCpu(s: State, s': State, x: nat, c: nat)
    requires CpuOk(s, c) && c < |s.cpus| && c != x && FrameAt(s, s', x, c)
    ensures CpuOk(s', c)
  {
    assert Batch(s'.cpus[c]) == Batch(s.cpus[c]);
    forall i: nat ensures Known(s', c, i) { assert Known(s, c, i); }
  }

  lemma OtherPair(s: State, s': State, x: nat, c: nat, d: nat)
    requires TwoOk(s, c, d) && c < |s.cpus| && d < |s.cpus| && BuffersOk(s.cpus[c]) && c != x
    requires FrameAt(s, s', x, c) && FrameAt(s, s', x, d)
    ensures TwoOk(s', c, d)
  {
    assert Batch(s'.cpus[c]) == Batch(s.cpus[c]);
    forall i: nat ensures BatchOk(s', c, d, i) { assert BatchOk(s, c, d, i); }
    forall i: nat ensures RanOk(s', c, d, i) { assert RanOk(s, c, d, i); }
  }

  lemma OwnCpu(s: State, x: nat)
    requires Inv(s) && Enabled(s, Step(x)) && x < |s.cpus|
    ensures CpuOk(StepOf(s, x), x)
  {
    var s' := StepOf(s, x);
    assert CpuOk(s, x);
    StepFrame(s, x, x);
    StepKeepsLocal(s, x);
    forall i: nat ensures Known(s', x, i) { assert Known(s, x, i); }
  }

  /** s' is s after a step of x, as seen by d. */
  ghost predicate Stepped(s: State, s': State, x: nat, d: nat)
  {
    && x < |s.cpus| == |s'.cpus| && d < |s.cpus| && BuffersOk(s.cpus[x]) && s.cpus[x].reading.None?
    && FrameAt(s, s', x, d) && s'.cpus[x] == NextCpu(s, x)
    && (s.cpus[x].pc.Ask? && s.cpus[x].pc.j == d && d != x ==> s'.cpus[d].request >= s.cpus[x].pc.g)
  }

  lemma StepIsStepped(s: State, x: nat, d: nat)
    requires Inv(s) && Enabled(s, Step(x)) && x < |s.cpus| && d < |s.cpus|
    ensures Stepped(s, StepOf(s, x), x, d)
  {
    StepFrame(s, x, d);
  }

  /** Asking: one more CPU has the request. */
  lemma OwnSeenAsk(s: State, s': State, x: nat, d: nat)
    requires Stepped(s, s', x, d) && CpuOk(s, x) && TwoOk(s, x, d)
    requires s.cpus[x].pc.Draw? || s.cpus[x].pc.Ask? || s.cpus[x].pc.Publish?
    ensures SeenOk(s', x, d)
  {
  }

  /** Scanning: one more CPU has reached the generation; it cannot fall back. */
  lemma OwnSeenScan(s: State, s': State, x: nat, d: nat)
    requires Stepped(s, s', x, d) && CpuOk(s, x) && TwoOk(s, x, d)
    requires s.cpus[x].pc.Test? || s.cpus[x].pc.Scan?
    ensures SeenOk(s', x, d)
  {
  }

  lemma OwnSeen(s: State, s': State, x: nat, d: nat)
    requires Stepped(s, s', x, d) && CpuOk(s, x) && TwoOk(s, x, d)
    ensures SeenOk(s', x, d)
  {
    var pc := s.cpus[x].pc;
    if pc.Draw? || pc.Ask? || pc.Publish? {
      OwnSeenAsk(s, s', x, d);
    } else if pc.Test? || pc.Scan? {
      OwnSeenScan(s, s', x, d);
    }
  }

  lemma OwnBatchRun(s: State, s': State, x: nat, d: nat, i: nat)
    requires Stepped(s, s', x, d) && CpuOk(s, x) && TwoOk(s, x, d) && BuffersOk(s'.cpus[x]) && s.cpus[x].pc.Run?
    ensures BatchOk(s', x, d, i)
  {
    var y := s.cpus[x];
    assert BatchOk(s, x, d, i + 1);
    if y.pc.i < y.pc.n { RunKeepsLocal(y); }
  }

  /** Whoever gets to Clean has seen every CPU at its generation, so no section of the batch is left. */
  lemma OwnBatchLoad(s: State, s': State, x: nat, d: nat, i: nat)
    requires Stepped(s, s', x, d) && CpuOk(s, x) && TwoOk(s, x, d) && BuffersOk(s'.cpus[x])
    requires s.cpus[x].pc.Load? || s.cpus[x].pc.Clean?
    ensures BatchOk(s', x, d, i)
  {
    BatchAfter(s, x);
    assert BatchOk(s, x, d, i);
  }

  lemma OwnBatch(s: State, s': State, x: nat, d: nat, i: nat)
    requires Stepped(s, s', x, d) && CpuOk(s, x) && CpuOk(s, d) && TwoOk(s, x, d) && BuffersOk(s'.cpus[x])
    ensures BatchOk(s', x, d, i)
  {
    var y := s.cpus[x];
    if y.pc.Run? {
      OwnBatchRun(s, s', x, d, i);
    } else if y.pc.Load? || y.pc.Clean? {
      OwnBatchLoad(s, s', x, d, i);
    } else if HasBatch(y.pc) {
      BatchAfter(s, x);
      assert BatchOk(s, x, d, i);
    }
  }

  lemma RanStays(s: State, x: nat)
    requires x < |s.cpus| && BuffersOk(s.cpus[x]) && (s.cpus[x].pc.Run? ==> s.cpus[x].pc.i >= s.cpus[x].pc.n)
    ensures NextCpu(s, x).ran == s.cpus[x].ran
  {
  }

  lemma OwnRan(s: State, s': State, x: nat, d: nat, i: nat)
    requires Stepped(s, s', x, d) && CpuOk(s, x) && TwoOk(s, x, d)
    ensures RanOk(s', x, d, i)
  {
    assert RanOk(s, x, d, i);
    var y := s.cpus[x];
    if y.pc.Run? && y.pc.i < y.pc.n {
      OwnRanRun(s, s', x, d, i);
    } else {
      RanStays(s, x);
    }
  }

  lemma OwnRanRun(s: State, s': State, x: nat, d: nat, i: nat)
    requires Stepped(s, s', x, d) && CpuOk(s, x) && TwoOk(s, x, d) && s.cpus[x].pc.Run?
             && s.cpus[x].pc.i < s.cpus[x].pc.n
    ensures RanOk(s', x, d, i)
  {
    assert RanOk(s, x, d, i) && BatchOk(s, x, d, 0);
    RunKeepsLocal(s.cpus[x]);
  }

  lemma StepKeepsInv(s: State, x: nat)
    requires Inv(s) && Enabled(s, Step(x))
    ensures Inv(StepOf(s, x))
  {
    var s' := StepOf(s, x);
    forall c: nat ensures CpuOk(s', c)
    {
      if c == x {
        OwnCpu(s, x);
      } else if c < |s.cpus| {
        assert CpuOk(s, c);
        StepFrame(s, x, c);
        OtherCpu(s, s', x, c);
      }
    }
    forall c: nat, d: nat ensures TwoOk(s', c, d)
    {
      if c < |s.cpus| && d < |s.cpus| {
        assert CpuOk(s, c) && TwoOk(s, c, d);
        StepFrame(s, x, c);
        StepFrame(s, x, d);
        if c == x {
          assert CpuOk(s', x) && CpuOk(s, d);
          StepIsStepped(s, x, d);
          OwnSeen(s, s', x, d);
          forall i: nat ensures BatchOk(s', x, d, i) { OwnBatch(s, s', x, d, i); }
          forall i: nat ensures RanOk(s', x, d, i) { OwnRan(s, s', x, d, i); }
        } else {
          OtherPair(s, s', x, c, d);
        }
      }
    }
  }

  // The other moves

  /** Callbacks run or taken over are among those deferred. */
  lemma InDeferred(x: Cpu, i: nat)
    requires LocalOk(x)
    ensures i < |x.ran| ==> i < |x.deferred| && x.deferred[i] == x.ran[i]
    ensures i < |Batch(x)| ==> |x.ran| + i < |x.deferred| && x.deferred[|x.ran| + i] == Batch(x)[i]
  {
    assert x.deferred == x.ran + (Batch(x) + x.slots[x.buf][..x.count[x.buf]]);
  }

  lemma SectionKeepsCpu(s: State, s': State, x: nat, reading: Option<nat>, c: nat)
    requires CpuOk(s, c) && x < |s.cpus| && (reading.Some? ==> reading.value == s.serial)
    requires s' == Set(s, x, s.cpus[x].(reading := reading)).(serial := s.serial + (if reading.Some? then 1 else 0))
    ensures CpuOk(s', c)
  {
    if c < |s.cpus| {
      assert Batch(s'.cpus[c]) == Batch(s.cpus[c]);
      forall i: nat ensures Known(s', c, i) { assert Known(s, c, i); }
    }
  }

  /** Starting or ending a section changes only which section runs on x, and a new one is unknown to all callbacks. */
  lemma SectionKeepsInv(s: State, x: nat, reading: Option<nat>)
    requires Inv(s) && x < |s.cpus| && (reading.Some? ==> reading.value == s.serial)
    ensures Inv(Set(s, x, s.cpus[x].(reading := reading)).(serial := s.serial + (if reading.Some? then 1 else 0)))
  {
    var s' := Set(s, x, s.cpus[x].(reading := reading)).(serial := s.serial + (if reading.Some? then 1 else 0));
    forall c: nat ensures CpuOk(s', c)
    {
      assert CpuOk(s, c);
      SectionKeepsCpu(s, s', x, reading, c);
    }
    forall c: nat, d: nat ensures TwoOk(s', c, d)
    {
      assert CpuOk(s, c) && TwoOk(s, c, d);
      if c < |s.cpus| && d < |s.cpus| {
        SectionKeepsPair(s, s', x, reading, c, d);
      }
    }
  }

  lemma SectionKeepsPair(s: State, s': State, x: nat, reading: Option<nat>, c: nat, d: nat)
    requires CpuOk(s, c) && TwoOk(s, c, d) && c < |s.cpus| && d < |s.cpus| && x < |s.cpus|
    requires reading.Some? ==> reading.value == s.serial
    requires s' == Set(s, x, s.cpus[x].(reading := reading)).(serial := s'.serial)
    ensures TwoOk(s', c, d)
  {
    var y, y' := s.cpus[c], s'.cpus[c];
    assert Batch(y') == Batch(y);
    forall i: nat ensures BatchOk(s', c, d, i)
    {
      assert BatchOk(s, c, d, i) && Known(s, c, |y.ran| + i);
      InDeferred(y, i);
    }
    forall i: nat ensures RanOk(s', c, d, i)
    {
      assert RanOk(s, c, d, i) && Known(s, c, i);
      InDeferred(y, i);
    }
  }

  lemma DeferKeepsCpu(s: State, x: nat, id: nat, c: nat)
    requires Inv(s) && Enabled(s, Defer(x, id))
    ensures CpuOk(Next(s, Defer(x, id)), c)
  {
    var s', f := Next(s, Defer(x, id)), Callback(id, Running(s));
    assert CpuOk(s, x) && CpuOk(s, c);
    DeferKeepsLocal(s.cpus[x], f);
    if c < |s.cpus| {
      forall i: nat ensures Known(s', c, i)
      {
        assert Known(s, c, i);
        forall y: Section | y in f.active ensures y.serial < s.serial { assert CpuOk(s, y.cpu); }
      }
    }
  }

  lemma DeferKeepsPair(s: State, x: nat, id: nat, c: nat, d: nat)
    requires Inv(s) && Enabled(s, Defer(x, id))
    ensures TwoOk(Next(s, Defer(x, id)), c, d)
  {
    var s' := Next(s, Defer(x, id));
    assert CpuOk(s, x) && CpuOk(s, c) && TwoOk(s, c, d);
    DeferKeepsLocal(s.cpus[x], Callback(id, Running(s)));
    if c < |s.cpus| && d < |s.cpus| {
      assert Batch(s'.cpus[c]) == Batch(s.cpus[c]);
      forall i: nat ensures BatchOk(s', c, d, i) { assert BatchOk(s, c, d, i); }
      forall i: nat ensures RanOk(s', c, d, i) { assert RanOk(s, c, d, i); }
    }
  }

  lemma DeferKeepsInv(s: State, x: nat, id: nat)
    requires Inv(s) && Enabled(s, Defer(x, id))
    ensures Inv(Next(s, Defer(x, id)))
  {
    var s' := Next(s, Defer(x, id));
    forall c: nat ensures CpuOk(s', c) { DeferKeepsCpu(s, x, id, c); }
    forall c: nat, d: nat ensures TwoOk(s', c, d) { DeferKeepsPair(s, x, id, c, d); }
  }

  // ----------------------------------------------------------------------------------------
  // Runs
  // ----------------------------------------------------------------------------------------

  lemma InitInv(s: State)
    requires Init(s)
    ensures Inv(s)
  {
    forall c: nat ensures CpuOk(s, c) {}
    forall c: nat, d: nat ensures TwoOk(s, c, d) {}
  }

  lemma NextKeepsInv(s: State, m: Move)
    requires Inv(s) && Enabled(s, m)
    ensures Inv(Next(s, m))
  {
    match m
    case ReadLock(c) => SectionKeepsInv(s, c, Some(s.serial));
    case ReadUnlock(c) => SectionKeepsInv(s, c, None);
    case Defer(c, id) => DeferKeepsInv(s, c, id);
    case Step(c) => StepKeepsInv(s, c);
  }

  lemma {:induction false} RunKeepsInv(run: seq<State>, moves: seq<Move>, n: nat)
    requires IsRun(run, moves) && n < |run|
    ensures Inv(run[n])
  {
    if n == 0 {
      InitInv(run[0]);
    } else {
      RunKeepsInv(run, moves, n - 1);
      NextKeepsInv(run[n - 1], moves[n - 1]);
    }
  }

  /** Grace periods: in every state of every run, no section that was running when a callback was deferred is still
      running once the callback has run. */
  lemma GracePeriod(run: seq<State>, moves: seq<Move>, n: nat, c: nat, i: nat)
    requires IsRun(run, moves) && n < |run| && c < |run[n].cpus| && i < |run[n].cpus[c].ran|
    ensures run[n].cpus[c].ran[i].active * Running(run[n]) == {}
  {
    RunKeepsInv(run, moves, n);
    var s := run[n];
    forall x: Section | x in Running(s) ensures x !in s.cpus[c].ran[i].active
    {
      assert CpuOk(s, c) && TwoOk(s, c, x.cpu) && RanOk(s, c, x.cpu, i);
    }
  }

  /** Exactly once and in order: what a CPU has run is the beginning of what was deferred there, and the rest is still
      in its buffers, in order. */
  lemma RunsInOrder(run: seq<State>, moves: seq<Move>, n: nat, c: nat)
    requires IsRun(run, moves) && n < |run| && c < |run[n].cpus|
    ensures BuffersOk(run[n].cpus[c]) && run[n].cpus[c].deferred == run[n].cpus[c].ran + Pending(run[n].cpus[c])
  {
    RunKeepsInv(run, moves, n);
    assert CpuOk(run[n], c);
  }

  /** A thread starts to run its callbacks only when every CPU has reached the generation it drew for them. */
  lemma CleansWhenAllReached(run: seq<State>, moves: seq<Move>, n: nat, c: nat, d: nat)
    requires IsRun(run, moves) && n < |run| && c < |run[n].cpus| && d < |run[n].cpus| && Cleared(run[n].cpus[c].pc)
    ensures run[n].cpus[d].gen >= run[n].cpus[c].pc.g
  {
    RunKeepsInv(run, moves, n);
    assert CpuOk(run[n], c) && TwoOk(run[n], c, d);
  }

  /** A thread that waits for CPU d has asked it: the wait condition of d's thread holds, so d can move on. */
  lemma WaitedForIsAsked(run: seq<State>, moves: seq<Move>, n: nat, c: nat, d: nat)
    requires IsRun(run, moves) && n < |run| && c < |run[n].cpus| && d < |run[n].cpus|
    requires run[n].cpus[c].pc.Test? || run[n].cpus[c].pc.Scan?
    requires run[n].cpus[d].gen < run[n].cpus[c].pc.g
    ensures d != c && run[n].cpus[d].gen < run[n].cpus[d].request
  {
    RunKeepsInv(run, moves, n);
    assert CpuOk(run[n], c) && TwoOk(run[n], c, d);
  }

  lemma NextGrows(s: State, m: Move, c: nat)
    requires Inv(s) && Enabled(s, m) && c < |s.cpus|
    ensures |Next(s, m).cpus| == |s.cpus|
    ensures s.cpus[c].gen <= Next(s, m).cpus[c].gen && s.cpus[c].deferred <= Next(s, m).cpus[c].deferred
  {
    assert CpuOk(s, c) && CpuOk(s, m.c);
    if m.Step? {
      StepFrame(s, m.c, c);
    }
  }

  /** Published generations never go back, and the record of deferred callbacks only grows. */
  lemma {:induction false} RunGrows(run: seq<State>, moves: seq<Move>, k: nat, n: nat, c: nat)
    requires IsRun(run, moves) && k <= n < |run| && c < |run[k].cpus|
    ensures |run[n].cpus| == |run[k].cpus|
    ensures run[k].cpus[c].gen <= run[n].cpus[c].gen && run[k].cpus[c].deferred <= run[n].cpus[c].deferred
  {
    if k < n {
      RunGrows(run, moves, k, n - 1, c);
      RunKeepsInv(run, moves, n - 1);
      NextGrows(run[n - 1], moves[n - 1], c);
    }
  }

  /** rcu_flush(): once a callback deferred on CPU c at step k has run, all that was deferred there before has too. */
  lemma FlushIsBarrier(run: seq<State>, moves: seq<Move>, k: nat, n: nat, c: nat, id: nat)
    requires IsRun(run, moves) && k < n < |run| && c < |run[k].cpus| && moves[k] == Defer(c, id)
    requires |run[n].cpus| == |run[k].cpus| && |run[n].cpus[c].ran| > |run[k].cpus[c].deferred|
    ensures run[k].cpus[c].deferred <= run[n].cpus[c].ran
    ensures run[n].cpus[c].ran[|run[k].cpus[c].deferred|] == Callback(id, Running(run[k]))
  {
    RunGrows(run, moves, k, n, c);
    RunGrows(run, moves, k + 1, n, c);
    RunsInOrder(run, moves, n, c);
    RunKeepsInv(run, moves, k);
    assert CpuOk(run[k], c);
    var q := |run[k].cpus[c].deferred|;
    assert run[k + 1].cpus[c].deferred[q] == run[n].cpus[c].deferred[q] == run[n].cpus[c].ran[q];
  }

  // ----------------------------------------------------------------------------------------
  // The same by the calls of a run
  // ----------------------------------------------------------------------------------------

  lemma NextReading(s: State, m: Move, d: nat)
    requires Inv(s) && Enabled(s, m) && d < |s.cpus|
    ensures |Next(s, m).cpus| == |s.cpus|
    ensures Next(s, m).cpus[d].reading ==
            if m == ReadLock(d) then Some(s.serial) else if m == ReadUnlock(d) then None else s.cpus[d].reading
  {
    assert CpuOk(s, m.c);
  }

  /** A section that was entered and not left is the one that runs. */
  lemma {:induction false} StillReading(run: seq<State>, moves: seq<Move>, j: nat, n: nat, d: nat)
    requires IsRun(run, moves) && j < n < |run| && d < |run[j].cpus| && moves[j] == ReadLock(d)
    requires forall i: nat :: j < i < n ==> moves[i] != ReadUnlock(d)
    ensures |run[n].cpus| == |run[j].cpus| && run[n].cpus[d].reading == Some(run[j].serial)
  {
    RunKeepsInv(run, moves, n - 1);
    if j + 1 < n {
      StillReading(run, moves, j, n - 1, d);
      assert Enabled(run[n - 1], moves[n - 1]);
    }
    NextReading(run[n - 1], moves[n - 1], d);
  }

  /** The promise of rcu_synchronize(): a reader that entered its section before a callback was deferred has left it by
      the time the callback has run. */
  lemma ReaderHasLeft(run: seq<State>, moves: seq<Move>, j: nat, k: nat, n: nat, d: nat, c: nat, id: nat)
    requires IsRun(run, moves) && j < k < n < |run| && d < |run[j].cpus| && moves[j] == ReadLock(d)
    requires c < |run[k].cpus| && moves[k] == Defer(c, id)
    requires c < |run[n].cpus| && |run[n].cpus[c].ran| > |run[k].cpus[c].deferred|
    ensures exists i: nat :: j < i < n && moves[i] == ReadUnlock(d)
  {
    if forall i: nat :: j < i < n ==> moves[i] != ReadUnlock(d) {
      StillReading(run, moves, j, k, d);
      StillReading(run, moves, j, n, d);
      FlushIsBarrier(run, moves, k, n, c, id);
      var x := Section(d, run[j].serial);
      assert x in Running(run[k]) && x in Running(run[n]) && x in Running(run[k]) * Running(run[n]);
      GracePeriod(run, moves, n, c, |run[k].cpus[c].deferred|);
    }
  }

  /** The callbacks that rcu_defer() was called with on CPU c, in order. */
  function DeferredBy(moves: seq<Move>, n: nat, c: nat): (ids: seq<nat>)
    requires n <= |moves|
  {
    if n == 0 then []
    else DeferredBy(moves, n - 1, c) + if moves[n - 1].Defer? && moves[n - 1].c == c then [moves[n - 1].id] else []
  }

  function Ids(fs: seq<Callback>): (ids: seq<nat>)
  {
    seq(|fs|, i requires 0 <= i < |fs| => fs[i].id)
  }

  lemma NextDefers(s: State, m: Move, c: nat)
    requires Inv(s) && Enabled(s, m) && c < |s.cpus|
    ensures |Next(s, m).cpus| == |s.cpus|
    ensures Ids(Next(s, m).cpus[c].deferred) == Ids(s.cpus[c].deferred) + if m.Defer? && m.c == c then [m.id] else []
  {
    assert CpuOk(s, m.c);
    if m.Step? { StepFrame(s, m.c, c); }
  }

  lemma {:induction false} DefersExactly(run: seq<State>, moves: seq<Move>, n: nat, c: nat)
    requires IsRun(run, moves) && n < |run| && c < |run[0].cpus|
    ensures |run[n].cpus| == |run[0].cpus| && Ids(run[n].cpus[c].deferred) == DeferredBy(moves, n, c)
  {
    if n > 0 {
      DefersExactly(run, moves, n - 1, c);
      RunKeepsInv(run, moves, n - 1);
      NextDefers(run[n - 1], moves[n - 1], c);
    }
  }

  /** The callbacks run on a CPU are the first ones of those deferred there, each once and in order. */
  lemma RunsWhatWasDeferred(run: seq<State>, moves: seq<Move>, n: nat, c: nat)
    requires IsRun(run, moves) && n < |run| && c < |run[0].cpus|
    ensures |run[n].cpus| == |run[0].cpus| && Ids(run[n].cpus[c].ran) <= DeferredBy(moves, n, c)
  {
    DefersExactly(run, moves, n, c);
    RunsInOrder(run, moves, n, c);
    var x := run[n].cpus[c];
    assert forall i: nat :: i < |x.ran| ==> x.deferred[i] == x.ran[i];
  }

  // ----------------------------------------------------------------------------------------
  // A thread that is waited for, or has work, goes on
  // ----------------------------------------------------------------------------------------

  /** An idle thread that another one waits for publishes the generation asked for in three steps of its own. */
  lemma WaitersAreServed(run: seq<State>, moves: seq<Move>, n: nat, c: nat, d: nat)
    requires IsRun(run, moves) && n < |run| && c < |run[n].cpus| && d < |run[n].cpus|
    requires run[n].cpus[c].pc.Test? || run[n].cpus[c].pc.Scan?
    requires run[n].cpus[d].gen < run[n].cpus[c].pc.g && run[n].cpus[d].pc.Idle?
    ensures BuffersOk(run[n].cpus[d])
    ensures var s1 := StepOf(run[n], d);
            && BuffersOk(s1.cpus[d])
            && var s2 := StepOf(s1, d);
               BuffersOk(s2.cpus[d]) && StepOf(s2, d).cpus[d].gen >= run[n].cpus[c].pc.g
  {
    WaitedForIsAsked(run, moves, n, c, d);
    RunKeepsInv(run, moves, n);
    assert CpuOk(run[n], d) && TwoOk(run[n], c, d) && CpuOk(run[n], c);
  }

  /** So does one that waits for others itself. */
  lemma WaitersServeEachOther(run: seq<State>, moves: seq<Move>, n: nat, c: nat, d: nat)
    requires IsRun(run, moves) && n < |run| && c < |run[n].cpus| && d < |run[n].cpus|
    requires run[n].cpus[c].pc.Test? || run[n].cpus[c].pc.Scan?
    requires run[n].cpus[d].gen < run[n].cpus[c].pc.g && run[n].cpus[d].pc.Test?
    ensures BuffersOk(run[n].cpus[d])
    ensures var s1 := StepOf(run[n], d);
            && BuffersOk(s1.cpus[d])
            && var s2 := StepOf(s1, d);
               BuffersOk(s2.cpus[d]) && StepOf(s2, d).cpus[d].gen >= run[n].cpus[c].pc.g
  {
    WaitedForIsAsked(run, moves, n, c, d);
    RunKeepsInv(run, moves, n);
    assert CpuOk(run[n], d) && TwoOk(run[n], c, d) && CpuOk(run[n], c);
  }

  /** A thread at rest with callbacks in its buffer and nothing asked of it takes all of them over in three steps. */
  lemma CallbacksAreTaken(s: State, c: nat)
    requires Inv(s) && c < |s.cpus| && s.cpus[c].pc.Idle? && s.cpus[c].request <= s.cpus[c].gen
    requires BuffersOk(s.cpus[c]) && Pending(s.cpus[c]) != []
    ensures var s1 := StepOf(s, c);
            && BuffersOk(s1.cpus[c])
            && var s2 := StepOf(s1, c);
               && BuffersOk(s2.cpus[c])
               && var x := StepOf(s2, c).cpus[c];
                  x.pc.Draw? && BuffersOk(x) && Batch(x) == Pending(s.cpus[c])
  {
    assert CpuOk(s, c);
    var x := s.cpus[c];
    assert Batch(x) == [];
  }
}
