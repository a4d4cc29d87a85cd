/** The thread states of core/sched.cc over all interleavings of waiting, waking, rescheduling, yielding and balancing.

    Each CPU has a current thread, a run queue ordered by runtime, and for every CPU a queue of threads that CPU has
    woken here, with one bit per queue that says it may hold something. Interrupts are off during a reschedule, so what
    it does after draining the queues is one step; the drain itself is interleaved with the other CPUs. The runtime of
    a thread is an abstract key.
  */
module Sched {

  import opened Common

  datatype Status = Unstarted | Waiting | SendingLock | Running | Queued | Waking | Terminating | Terminated

  /** Where a thread is: in ordinary code, between prepare_wait() and stop_wait(), in the loop of stop_wait(), past
      complete(). */
  datatype Pc = Run | Prepared | Stopping | Dead

  /** `pinned`: _migration_lock_counter is not zero; a thread changes it while it runs. `from`: for a waking thread,
      the CPU whose incoming queue it is in; None while its waker still holds it. */
  datatype Thread = Thread(st: Status, cpu: nat, key: int, pc: Pc, pinned: bool, from: Option<nat>)

  /** Why a CPU drains its incoming queues: idle loop, reschedule, yield() before and after its checks. */
  datatype Why = Poll | Switch | Yield | YieldSwitch

  datatype Mode = Normal | Drain(taken: set<nat>, why: Why)

  datatype Cpu = Cpu(current: nat, idle: nat, rq: seq<nat>, incoming: seq<seq<nat>>, mask: set<nat>, mode: Mode)

  /** A waker on `src` that has filled the queue of `dst` and not yet set the bit. */
  datatype Mark = Mark(dst: nat, src: nat)

  /** `pushing`: threads turned to waking and not yet in a queue, with the CPU of their waker. `crashed`: an assertion
      of the source failed, or it took the first thread of an empty run queue. */
  datatype State = State(th: seq<Thread>, cpus: seq<Cpu>, pushing: map<nat, nat>, marks: multiset<Mark>, crashed: bool)

  datatype Move =
    | PrepareWait(d: nat) | Wait(d: nat) | StopWait(d: nat) | Preempt(d: nat) | YieldCall(d: nat) | PollQueues(d: nat)
    | Exit(d: nat) | Destroy(t: nat) | Start(t: nat, d: nat)
    | Wake(t: nat, d: nat, fromMutex: bool) | WakeLock(t: nat) | Push(t: nat) | SetMask(m: Mark)
    | Pop(d: nat, i: nat, key: int) | NextQueue(d: nat, i: nat) | Finish(d: nat, ran: int, key: int)
    | Balance(d: nat, dst: nat) | Migration(d: nat, pinned: bool)

  // ----------------------------------------------------------------------------------------
  // Run queues
  // ----------------------------------------------------------------------------------------

  function KeyOf(th: seq<Thread>, t: nat): (k: int)
  {
    if t < |th| then th[t].key else 0
  }

  /** insert_equal(): behind all threads of the same or a lower key. */
  function Insert(th: seq<Thread>, rq: seq<nat>, t: nat): (r: seq<nat>)
  {
    if rq == [] || KeyOf(th, t) < KeyOf(th, rq[0]) then [t] + rq else [rq[0]] + Insert(th, rq[1..], t)
  }

  predicate Stuck(th: seq<Thread>, t: nat) { t < |th| ==> th[t].pinned }

  /** The last thread of a run queue that may migrate. */
  function LastFree(th: seq<Thread>, rq: seq<nat>): (r: Option<nat>)
    ensures r.Some? ==> r.value in rq && r.value < |th| && !th[r.value].pinned
    ensures r.Some? ==>
              exists k: nat :: k < |rq| && rq[k] == r.value && forall j: nat :: k < j < |rq| ==> Stuck(th, rq[j])
    ensures r.None? ==> forall j: nat :: j < |rq| ==> Stuck(th, rq[j])
  {
    if rq == [] then None
    else
      var t := rq[|rq| - 1];
      if t < |th| && !th[t].pinned then Some(t) else LastFree(th, rq[..|rq| - 1])
  }

  function Remove(rq: seq<nat>, t: nat): (r: seq<nat>)
  {
    if rq == [] then [] else if rq[0] == t then rq[1..] else [rq[0]] + Remove(rq[1..], t)
  }

  // ----------------------------------------------------------------------------------------
  // Steps
  // ----------------------------------------------------------------------------------------

  function SetTh(s: State, t: nat, x: Thread): (s': State)
    requires t < |s.th|
  {
    s.(th := s.th[t := x])
  }

  function SetCpu(s: State, d: nat, c: Cpu): (s': State)
    requires d < |s.cpus|
  {
    s.(cpus := s.cpus[d := c])
  }

  function Crash(s: State): (s': State) { s.(crashed := true) }

  /** handle_incoming_wakeups() takes all bits of the mask. */
  function StartDrain(s: State, d: nat, why: Why): (s': State)
    requires d < |s.cpus|
  {
    var c := s.cpus[d];
    SetCpu(s, d, c.(mask := {}, mode := Drain(c.mask, why)))
  }

  /** wake_impl() up to the compare-and-exchange, by a waker on CPU d. */
  function WakeStep(s: State, t: nat, d: nat, fromMutex: bool): (s': State)
    requires t < |s.th|
  {
    var x := s.th[t];
    if x.st.Waiting? || (fromMutex && x.st.SendingLock?)
    then SetTh(s, t, x.(st := Waking, from := None)).(pushing := s.pushing[t := d])
    else s
  }

  function PushStep(s: State, t: nat): (s': State)
    requires t < |s.th| && t in s.pushing && s.th[t].cpu < |s.cpus|
    requires s.pushing[t] < |s.cpus[s.th[t].cpu].incoming|
  {
    var dst, src := s.th[t].cpu, s.pushing[t];
    var c := s.cpus[dst];
    SetCpu(SetTh(s, t, s.th[t].(from := Some(src))), dst, c.(incoming := c.incoming[src := c.incoming[src] + [t]]))
    .(pushing := s.pushing - {t}, marks := s.marks + multiset{Mark(dst, src)})
  }

  /** One round of the drain loop on queue i of CPU d; the woken thread continues with the given key. */
  function PopStep(s: State, d: nat, i: nat, key: int): (s': State)
    requires d < |s.cpus| && i < |s.cpus[d].incoming| && s.cpus[d].incoming[i] != []
             && s.cpus[d].incoming[i][0] < |s.th|
  {
    var c := s.cpus[d];
    var t := c.incoming[i][0];
    var c' := c.(incoming := c.incoming[i := c.incoming[i][1..]]);
    var x := s.th[t];
    if t == c.current then SetCpu(SetTh(s, t, x.(st := Running, from := None)), d, c')
    else if x.cpu != d then SetCpu(s, d, c')
    else
      var s1 := SetTh(s, t, x.(st := Queued, from := None, key := key));
      SetCpu(s1, d, c'.(rq := Insert(s1.th, c.rq, t)))
  }

  /** reschedule_from_interrupt() after the drain. `ran` is the runtime of the current thread now, `key` that runtime
      once it has returned what it borrowed. */
  function Reschedule(s: State, d: nat, yielding: bool, ran: int, key: int): (s': State)
    requires d < |s.cpus| && s.cpus[d].current < |s.th|
  {
    var c := s.cpus[d].(mode := Normal);
    var p := c.current;
    var x := s.th[p];
    if x.st.Queued? then Crash(s)
    else if x.st.Running? && (c.rq == [] || (!yielding && ran < KeyOf(s.th, c.rq[0])))
    then SetCpu(SetTh(s, p, x.(key := ran)), d, c)
    else
      var s1 := SetTh(s, p, if x.st.Running? then x.(key := key, st := Queued) else x.(key := key));
      var rq := if x.st.Running? && !yielding then Insert(s1.th, c.rq, p) else c.rq;
      if rq == [] || rq[0] >= |s.th| || !s1.th[rq[0]].st.Queued? || rq[0] == p then Crash(s)
      else
        var n := rq[0];
        var rest := if yielding then Insert(s1.th, rq[1..], p) else rq[1..];
        SetCpu(SetTh(s1, n, s1.th[n].(st := Running)), d, c.(current := n, rq := rest))
  }

  /** What follows a drain. */
  function FinishStep(s: State, d: nat, ran: int, key: int): (s': State)
    requires d < |s.cpus| && s.cpus[d].mode.Drain? && s.cpus[d].current < |s.th|
  {
    var c := s.cpus[d];
    match c.mode.why
    case Poll => SetCpu(s, d, c.(mode := Normal))
    case Yield =>
      if c.rq == [] then SetCpu(s, d, c.(mode := Normal))
      else if !s.th[c.current].st.Running? then Crash(s)
      else if c.rq[0] == c.idle then SetCpu(s, d, c.(mode := Normal))
      else StartDrain(s, d, YieldSwitch)
    case Switch => Reschedule(s, d, false, ran, key)
    case YieldSwitch => Reschedule(s, d, true, ran, key)
  }

  /** load_balance() on CPU d for the less loaded CPU dst: the thread is taken out and pushed like a woken one. */
  function BalanceStep(s: State, d: nat, dst: nat): (s': State)
    requires d < |s.cpus|
  {
    var c := s.cpus[d];
    match LastFree(s.th, c.rq)
    case None => s
    case Some(t) =>
      if !s.th[t].st.Queued? then Crash(s)
      else SetCpu(SetTh(s, t, s.th[t].(st := Waking, from := None, cpu := dst)), d, c.(rq := Remove(c.rq, t)))
           .(pushing := s.pushing[t := d])
  }

  /** A thread's own step on CPU d, in normal mode. */
  predicate Own(s: State, d: nat)
  {
    d < |s.cpus| && s.cpus[d].mode.Normal? && s.cpus[d].current < |s.th|
  }

  predicate Enabled(s: State, m: Move)
  {
    !s.crashed &&
    match m
    case PrepareWait(d) => Own(s, d) && s.th[s.cpus[d].current].pc.Run? && s.cpus[d].current != s.cpus[d].idle
    case Wait(d) => Own(s, d) && s.th[s.cpus[d].current].pc.Prepared?
    case StopWait(d) => Own(s, d) && (s.th[s.cpus[d].current].pc.Prepared? || s.th[s.cpus[d].current].pc.Stopping?)
    case Preempt(d) => Own(s, d) && !s.th[s.cpus[d].current].pc.Prepared?
    case YieldCall(d) => Own(s, d) && s.th[s.cpus[d].current].pc.Run?
    case PollQueues(d) => Own(s, d) && s.cpus[d].current == s.cpus[d].idle
    case Exit(d) => Own(s, d) && s.th[s.cpus[d].current].pc.Run? && s.cpus[d].current != s.cpus[d].idle
    case Destroy(t) => t < |s.th| && s.th[t].st.Terminating? && s.th[t].cpu < |s.cpus|
      && s.cpus[s.th[t].cpu].current != t
    case Start(t, d) => t < |s.th| && d < |s.cpus| && s.th[t].st.Unstarted?
    case Wake(t, d, _) => t < |s.th| && d < |s.cpus|
    case WakeLock(t) => t < |s.th|
    case Push(t) => t in s.pushing && t < |s.th| && s.th[t].cpu < |s.cpus|
      && s.pushing[t] < |s.cpus[s.th[t].cpu].incoming|
    case SetMask(k) => k in s.marks && k.dst < |s.cpus|
    case Pop(d, i, _) =>
      && d < |s.cpus| && s.cpus[d].mode.Drain? && i in s.cpus[d].mode.taken && i < |s.cpus[d].incoming|
      && s.cpus[d].incoming[i] != [] && s.cpus[d].incoming[i][0] < |s.th|
    case NextQueue(d, i) =>
      && d < |s.cpus| && s.cpus[d].mode.Drain? && i in s.cpus[d].mode.taken && i < |s.cpus[d].incoming|
      && s.cpus[d].incoming[i] == []
    case Finish(d, ran, key) =>
      d < |s.cpus| && s.cpus[d].mode.Drain? && s.cpus[d].mode.taken == {} && s.cpus[d].current < |s.th| && ran <= key
    case Balance(d, dst) => Own(s, d) && dst < |s.cpus| && dst != d
    case Migration(d, _) => Own(s, d) && s.th[s.cpus[d].current].pc.Run? && s.cpus[d].current != s.cpus[d].idle
  }

  function Next(s: State, m: Move): (s': State)
    requires Enabled(s, m)
  {
    match m
    case PrepareWait(d) =>
      var t := s.cpus[d].current;
      if s.th[t].st.Running? then SetTh(s, t, s.th[t].(st := Waiting, pc := Prepared)) else Crash(s)
    case Wait(d) => StartDrain(s, d, Switch)
    case StopWait(d) =>
      var t := s.cpus[d].current;
      var x := s.th[t];
      if x.pc.Prepared? then SetTh(s, t, if x.st.Waiting? then x.(st := Running, pc := Run) else x.(pc := Stopping))
      else if x.st.Waking? || x.st.SendingLock? then StartDrain(s, d, Switch)
      else if x.st.Running? then SetTh(s, t, x.(pc := Run))
      else Crash(s)
    case Preempt(d) => StartDrain(s, d, Switch)
    case YieldCall(d) => StartDrain(s, d, Yield)
    case PollQueues(d) => StartDrain(s, d, Poll)
    case Exit(d) =>
      var t := s.cpus[d].current;
      SetTh(s, t, s.th[t].(st := Terminating, pc := Dead))
    case Destroy(t) => SetTh(s, t, s.th[t].(st := Terminated))
    case Start(t, d) => SetTh(s, t, s.th[t].(st := Waiting, cpu := d, pc := Run))
    case Wake(t, d, fromMutex) => WakeStep(s, t, d, fromMutex)
    case WakeLock(t) => if s.th[t].st.Waiting? then SetTh(s, t, s.th[t].(st := SendingLock)) else s
    case Push(t) => PushStep(s, t)
    case SetMask(k) =>
      var c := s.cpus[k.dst];
      SetCpu(s, k.dst, c.(mask := c.mask + {k.src})).(marks := s.marks - multiset{k})
    case Pop(d, i, key) => PopStep(s, d, i, key)
    case NextQueue(d, i) =>
      var c := s.cpus[d];
      SetCpu(s, d, c.(mode := Drain(c.mode.taken - {i}, c.mode.why)))
    case Finish(d, ran, key) => FinishStep(s, d, ran, key)
    case Balance(d, dst) => BalanceStep(s, d, dst)
    case Migration(d, pinned) =>
      var t := s.cpus[d].current;
      SetTh(s, t, s.th[t].(pinned := pinned))
  }

  /** At the start every CPU runs its idle thread and no other thread has been started. */
  ghost predicate Init(s: State)
  {
    && !s.crashed && s.pushing == map[] && s.marks == multiset{}
    && (forall d: nat :: d < |s.cpus| ==>
          && s.cpus[d].current == s.cpus[d].idle < |s.th| && s.cpus[d].rq == [] && s.cpus[d].mask == {}
          && s.cpus[d].mode.Normal? && |s.cpus[d].incoming| == |s.cpus|
          && (forall i: nat :: i < |s.cpus| ==> s.cpus[d].incoming[i] == [])
          && s.th[s.cpus[d].idle].st.Running? && s.th[s.cpus[d].idle].cpu == d)
    && (forall t: nat :: t < |s.th| ==>
          && s.th[t].from.None? && s.th[t].pc.Run?
          && (s.th[t].st.Unstarted?
              || (s.th[t].st.Running? && s.th[t].pinned && s.th[t].cpu < |s.cpus| && s.cpus[s.th[t].cpu].idle == t)))
  }

  ghost predicate IsRun(run: seq<State>, moves: seq<Move>)
  {
    && |run| == |moves| + 1 && Init(run[0])
    && forall i: nat :: i < |moves| ==> Enabled(run[i], moves[i]) && run[i + 1] == Next(run[i], moves[i])
  }

  // ----------------------------------------------------------------------------------------
  // What every step keeps
  // ----------------------------------------------------------------------------------------

  ghost predicate Sorted(th: seq<Thread>, rq: seq<nat>)
  {
    forall i: nat, j: nat :: i < j < |rq| ==> KeyOf(th, rq[i]) <= KeyOf(th, rq[j])
  }

  /** Where a thread must be, by its status. */
  ghost predicate ThreadOk(s: State, t: nat)
  {
    t < |s.th| ==>
      var x := s.th[t];
      && (!x.st.Unstarted? ==> x.cpu < |s.cpus|)
      && (x.st.Queued? ==> t in s.cpus[x.cpu].rq)
      && (x.st.Running? ==> s.cpus[x.cpu].current == t)
      && (t in s.pushing <==> x.st.Waking? && x.from.None?)
      && (t in s.pushing ==> s.pushing[t] < |s.cpus|)
      && (x.from.Some? ==>
            x.st.Waking? && x.from.value < |s.cpus[x.cpu].incoming| && t in s.cpus[x.cpu].incoming[x.from.value])
      && (x.pc.Dead? <==> x.st.Terminating? || x.st.Terminated?)
  }

  /** What is in a run queue: only threads of this CPU that are queued. */
  ghost predicate RqOk(s: State, d: nat, t: nat)
  {
    d < |s.cpus| && t in s.cpus[d].rq ==> t < |s.th| && s.th[t].st.Queued? && s.th[t].cpu == d
  }

  /** What is in an incoming queue: only threads of this CPU that are waking and were pushed there. */
  ghost predicate InOk(s: State, d: nat, i: nat, t: nat)
  {
    d < |s.cpus| && i < |s.cpus[d].incoming| && t in s.cpus[d].incoming[i] ==>
      t < |s.th| && s.th[t].st.Waking? && s.th[t].cpu == d && s.th[t].from == Some(i)
  }

  /** A filled queue is announced: its bit is set, a waker is about to set it, or it is being drained. */
  ghost predicate FlagOk(s: State, d: nat, i: nat)
  {
    d < |s.cpus| && i < |s.cpus[d].incoming| && s.cpus[d].incoming[i] != [] ==>
      || i in s.cpus[d].mask
      || Mark(d, i) in s.marks
      || (s.cpus[d].mode.Drain? && i in s.cpus[d].mode.taken)
  }

  ghost predicate QueueOk(s: State, d: nat, i: nat)
  {
    d < |s.cpus| && i < |s.cpus[d].incoming| ==> NoDup(s.cpus[d].incoming[i])
  }

  /** The status of a current thread fits what it is doing. */
  predicate CurrentOk(x: Thread)
  {
    match x.pc
    case Run => x.st.Running?
    case Prepared => x.st.Running? || x.st.Waiting? || x.st.Waking? || x.st.SendingLock?
    case Stopping => x.st.Running? || x.st.Waking? || x.st.SendingLock?
    case Dead => x.st.Terminating?
  }

  ghost predicate CpuOk(s: State, d: nat)
  {
    d < |s.cpus| ==>
      var c := s.cpus[d];
      && c.current < |s.th| && s.th[c.current].cpu == d && CurrentOk(s.th[c.current])
      && c.idle < |s.th| && s.th[c.idle].cpu == d && s.th[c.idle].pinned && s.th[c.idle].pc.Run?
      && (s.th[c.idle].st.Queued? || s.th[c.idle].st.Running?)
      && |c.incoming| == |s.cpus|
      && NoDup(c.rq) && Sorted(s.th, c.rq)
      && (c.mode.Drain? && (c.mode.why.Yield? || c.mode.why.YieldSwitch?) ==> s.th[c.current].st.Running?)
  }

  ghost predicate Threads(s: State) { forall t: nat {:trigger ThreadOk(s, t)} :: ThreadOk(s, t) }
  ghost predicate Cpus(s: State) { forall d: nat {:trigger CpuOk(s, d)} :: CpuOk(s, d) }
  ghost predicate Rqs(s: State) { forall d: nat, t: nat {:trigger RqOk(s, d, t)} :: RqOk(s, d, t) }
  ghost predicate Ins(s: State) { forall d: nat, i: nat, t: nat {:trigger InOk(s, d, i, t)} :: InOk(s, d, i, t) }
  ghost predicate Flags(s: State) { forall d: nat, i: nat {:trigger FlagOk(s, d, i)} :: FlagOk(s, d, i) }
  ghost predicate Queues(s: State) { forall d: nat, i: nat {:trigger QueueOk(s, d, i)} :: QueueOk(s, d, i) }

  ghost predicate Inv(s: State)
  {
    !s.crashed && Threads(s) && Cpus(s) && Rqs(s) && Ins(s) && Flags(s) && Queues(s)
  }

  // Queues as sequences

  lemma {:induction false} InsertMembers(th: seq<Thread>, rq: seq<nat>, t: nat, x: nat)
    ensures x in Insert(th, rq, t) <==> x in rq || x == t
  {
    if !(rq == [] || KeyOf(th, t) < KeyOf(th, rq[0])) {
      InsertMembers(th, rq[1..], t, x);
      assert rq == [rq[0]] + rq[1..];
    }
  }

  lemma {:induction false} InsertNoDup(th: seq<Thread>, rq: seq<nat>, t: nat)
    requires NoDup(rq) && t !in rq
    ensures NoDup(Insert(th, rq, t))
  {
    if !(rq == [] || KeyOf(th, t) < KeyOf(th, rq[0])) {
      InsertNoDup(th, rq[1..], t);
      var r := Insert(th, rq[1..], t);
      forall i: nat | i < |r| ensures r[i] != rq[0]
      {
        InsertMembers(th, rq[1..], t, r[i]);
        assert r[i] in r;
      }
    }
  }

  lemma {:induction false} InsertSorted(th: seq<Thread>, rq: seq<nat>, t: nat)
    requires Sorted(th, rq)
    ensures Sorted(th, Insert(th, rq, t))
  {
    if !(rq == [] || KeyOf(th, t) < KeyOf(th, rq[0])) {
      InsertSorted(th, rq[1..], t);
      var r := Insert(th, rq[1..], t);
      forall i: nat | i < |r| ensures KeyOf(th, rq[0]) <= KeyOf(th, r[i])
      {
        InsertMembers(th, rq[1..], t, r[i]);
        assert r[i] in r;
        if r[i] in rq[1..] {
          var k: nat :| k < |rq[1..]| && rq[1..][k] == r[i];
          assert rq[k + 1] == r[i];
        }
      }
    }
  }

  /** A thread goes behind all threads of the same or a lower key and before the others. */
  lemma {:induction false} InsertPlace(th: seq<Thread>, rq: seq<nat>, t: nat) returns (k: nat)
    requires Sorted(th, rq)
    ensures k <= |rq| && Insert(th, rq, t) == rq[..k] + [t] + rq[k..]
    ensures forall i: nat :: i < |rq| ==> (i < k <==> KeyOf(th, rq[i]) <= KeyOf(th, t))
  {
    if rq == [] || KeyOf(th, t) < KeyOf(th, rq[0]) {
      k := 0;
    } else {
      var j := InsertPlace(th, rq[1..], t);
      k := j + 1;
      forall i: nat | i < |rq| ensures i < k <==> KeyOf(th, rq[i]) <= KeyOf(th, t)
      {
        if i > 0 { assert rq[1..][i - 1] == rq[i]; }
      }
    }
  }

  lemma {:induction false} RemoveIs(rq: seq<nat>, t: nat, x: nat)
    requires NoDup(rq)
    ensures x in Remove(rq, t) <==> x in rq && x != t
  {
    if rq != [] {
      assert rq == [rq[0]] + rq[1..];
      RemoveIs(rq[1..], t, x);
    }
  }

  lemma {:induction false} RemoveKeeps(th: seq<Thread>, rq: seq<nat>, t: nat)
    requires NoDup(rq) && Sorted(th, rq)
    ensures NoDup(Remove(rq, t)) && Sorted(th, Remove(rq, t))
  {
    if rq != [] && rq[0] != t {
      RemoveKeeps(th, rq[1..], t);
      var r := Remove(rq[1..], t);
      forall i: nat | i < |r| ensures r[i] != rq[0] && KeyOf(th, rq[0]) <= KeyOf(th, r[i])
      {
        RemoveIs(rq[1..], t, r[i]);
        assert r[i] in r;
        var k: nat :| k < |rq[1..]| && rq[1..][k] == r[i];
        assert rq[k + 1] == r[i];
      }
    }
  }

  lemma SortedFrame(th: seq<Thread>, th': seq<Thread>, rq: seq<nat>)
    requires Sorted(th, rq) && forall t: nat :: t in rq ==> KeyOf(th', t) == KeyOf(th, t)
    ensures Sorted(th', rq)
  {
    forall i: nat, j: nat | i < j < |rq| ensures KeyOf(th', rq[i]) <= KeyOf(th', rq[j])
    {
      assert rq[i] in rq && rq[j] in rq;
    }
  }

  // A thread changes and stays outside all queues

  ghost predicate Placed(st: Status) { st.Queued? || st.Waking? }

  /** A change of thread t that leaves queues, keys and wakers alone. */
  ghost predicate Quiet(s: State, t: nat, x': Thread)
  {
    t < |s.th| &&
    var x := s.th[t];
    && x'.from == x.from && (x'.key == x.key || !x.st.Queued?)
    && (x'.st == x.st || (!Placed(x.st) && !Placed(x'.st)))
    && x'.cpu < |s.cpus| && (x'.cpu == x.cpu || x.st.Unstarted?)
    && !x'.st.Unstarted? && (x.st.Unstarted? ==> !x'.st.Running?)
    && (x'.pc.Dead? <==> x'.st.Terminating? || x'.st.Terminated?)
    && (x'.st.Running? ==> x'.cpu < |s.cpus| && s.cpus[x'.cpu].current == t)
    && (x.cpu < |s.cpus| && s.cpus[x.cpu].current == t && !x.st.Unstarted? ==>
          CurrentOk(x') && (s.cpus[x.cpu].mode.Drain? ==> x'.st == x.st || !x.st.Running?))
    && (x.cpu < |s.cpus| && s.cpus[x.cpu].idle == t ==> x' == x.(key := x'.key))
  }

  lemma QuietKeepsInv(s: State, t: nat, x': Thread)
    requires Inv(s) && Quiet(s, t, x')
    ensures Inv(SetTh(s, t, x'))
  {
    var s' := SetTh(s, t, x');
    forall u: nat ensures ThreadOk(s', u) { assert ThreadOk(s, u) && ThreadOk(s, t); }
    forall d: nat ensures CpuOk(s', d)
    {
      assert CpuOk(s, d) && ThreadOk(s, t) && RqOk(s, d, t);
      if d < |s.cpus| { SortedFrame(s.th, s'.th, s.cpus[d].rq); }
    }
    forall d: nat, u: nat ensures RqOk(s', d, u) { assert RqOk(s, d, u); }
    forall d: nat, i: nat, u: nat ensures InOk(s', d, i, u) { assert InOk(s, d, i, u); }
    forall d: nat, i: nat ensures FlagOk(s', d, i) { assert FlagOk(s, d, i); }
    forall d: nat, i: nat ensures QueueOk(s', d, i) { assert QueueOk(s, d, i); }
  }

  // A CPU's mask and mode change

  /** Only mask and mode of CPU d and the pending marks change, and no announcement is lost. */
  lemma MaskKeepsInv(s: State, d: nat, mask: set<nat>, mode: Mode, marks: multiset<Mark>)
    requires Inv(s) && d < |s.cpus|
    requires s.cpus[d].current < |s.th|
    requires mode.Drain? && (mode.why.Yield? || mode.why.YieldSwitch?) ==> s.th[s.cpus[d].current].st.Running?
    requires forall i: nat :: i < |s.cpus[d].incoming| && s.cpus[d].incoming[i] != [] ==>
               i in mask || Mark(d, i) in marks || (mode.Drain? && i in mode.taken)
    requires forall e: nat, i: nat :: e != d && Mark(e, i) in s.marks ==> Mark(e, i) in marks
    ensures Inv(SetCpu(s, d, s.cpus[d].(mask := mask, mode := mode)).(marks := marks))
  {
    var s' := SetCpu(s, d, s.cpus[d].(mask := mask, mode := mode)).(marks := marks);
    forall u: nat ensures ThreadOk(s', u) { assert ThreadOk(s, u); }
    forall e: nat ensures CpuOk(s', e) { assert CpuOk(s, e); }
    forall e: nat, u: nat ensures RqOk(s', e, u) { assert RqOk(s, e, u); }
    forall e: nat, i: nat, u: nat ensures InOk(s', e, i, u) { assert InOk(s, e, i, u); }
    forall e: nat, i: nat ensures FlagOk(s', e, i) { assert FlagOk(s, e, i); }
    forall e: nat, i: nat ensures QueueOk(s', e, i) { assert QueueOk(s, e, i); }
  }

  lemma DrainKeepsInv(s: State, d: nat, why: Why)
    requires Inv(s) && d < |s.cpus| && (s.cpus[d].mode.Normal? || s.cpus[d].mode.taken == {})
    requires why.Yield? || why.YieldSwitch? ==> s.cpus[d].current < |s.th| && s.th[s.cpus[d].current].st.Running?
    ensures Inv(StartDrain(s, d, why))
  {
    forall i: nat | i < |s.cpus[d].incoming| && s.cpus[d].incoming[i] != []
      ensures Mark(d, i) in s.marks || i in s.cpus[d].mask
    {
      assert FlagOk(s, d, i);
    }
    assert CpuOk(s, d);
    assert s.cpus[d].current < |s.th|;
    MaskKeepsInv(s, d, {}, Drain(s.cpus[d].mask, why), s.marks);
  }

  lemma SetMaskKeepsInv(s: State, k: Mark)
    requires Inv(s) && k in s.marks && k.dst < |s.cpus|
    ensures Inv(Next(s, SetMask(k)))
  {
    var c := s.cpus[k.dst];
    assert CpuOk(s, k.dst);
    forall i: nat | i < |c.incoming| && c.incoming[i] != []
      ensures i in c.mask + {k.src} || Mark(k.dst, i) in s.marks - multiset{k} || (c.mode.Drain? && i in c.mode.taken)
    {
      assert FlagOk(s, k.dst, i);
    }
    MaskKeepsInv(s, k.dst, c.mask + {k.src}, c.mode, s.marks - multiset{k});
  }

  lemma NextQueueKeepsInv(s: State, d: nat, i: nat)
    requires Inv(s) && Enabled(s, NextQueue(d, i))
    ensures Inv(Next(s, NextQueue(d, i)))
  {
    var c := s.cpus[d];
    assert CpuOk(s, d);
    forall j: nat | j < |c.incoming| && c.incoming[j] != []
      ensures j in c.mask || Mark(d, j) in s.marks || j in c.mode.taken - {i}
    {
      assert FlagOk(s, d, j);
    }
    MaskKeepsInv(s, d, c.mask, Drain(c.mode.taken - {i}, c.mode.why), s.marks);
  }

  lemma NormalKeepsInv(s: State, d: nat)
    requires Inv(s) && d < |s.cpus| && s.cpus[d].mode.Drain? && s.cpus[d].mode.taken == {}
    ensures Inv(SetCpu(s, d, s.cpus[d].(mode := Normal)))
  {
    forall i: nat | i < |s.cpus[d].incoming| && s.cpus[d].incoming[i] != []
      ensures i in s.cpus[d].mask || Mark(d, i) in s.marks
    {
      assert FlagOk(s, d, i);
    }
    assert CpuOk(s, d);
    MaskKeepsInv(s, d, s.cpus[d].mask, Normal, s.marks);
  }

  // Waking

  /** A thread leaves the waiting states and is held by its waker. */
  lemma WakeKeepsInv(s: State, t: nat, d: nat)
    requires Inv(s) && t < |s.th| && d < |s.cpus| && (s.th[t].st.Waiting? || s.th[t].st.SendingLock?)
    ensures Inv(SetTh(s, t, s.th[t].(st := Waking, from := None)).(pushing := s.pushing[t := d]))
  {
    var s' := SetTh(s, t, s.th[t].(st := Waking, from := None)).(pushing := s.pushing[t := d]);
    forall u: nat ensures ThreadOk(s', u) { assert ThreadOk(s, u); }
    forall e: nat ensures CpuOk(s', e)
    {
      assert CpuOk(s, e);
      if e < |s.cpus| { SortedFrame(s.th, s'.th, s.cpus[e].rq); }
    }
    forall e: nat, u: nat ensures RqOk(s', e, u) { assert RqOk(s, e, u); }
    forall e: nat, i: nat, u: nat ensures InOk(s', e, i, u) { assert InOk(s, e, i, u); }
    forall e: nat, i: nat ensures FlagOk(s', e, i) { assert FlagOk(s, e, i); }
    forall e: nat, i: nat ensures QueueOk(s', e, i) { assert QueueOk(s, e, i); }
  }

  lemma PushKeepsInv(s: State, t: nat)
    requires Inv(s) && Enabled(s, Push(t))
    ensures Inv(PushStep(s, t))
  {
    var s' := PushStep(s, t);
    var dst, src := s.th[t].cpu, s.pushing[t];
    var q := s.cpus[dst].incoming[src];
    assert ThreadOk(s, t) && InOk(s, dst, src, t);
    forall u: nat ensures ThreadOk(s', u) { assert ThreadOk(s, u); }
    forall e: nat ensures CpuOk(s', e)
    {
      assert CpuOk(s, e);
      if e < |s.cpus| { SortedFrame(s.th, s'.th, s.cpus[e].rq); }
    }
    forall e: nat, u: nat ensures RqOk(s', e, u) { assert RqOk(s, e, u); }
    forall e: nat, i: nat, u: nat ensures InOk(s', e, i, u) { assert InOk(s, e, i, u); }
    forall e: nat, i: nat ensures FlagOk(s', e, i) { assert FlagOk(s, e, i); }
    forall e: nat, i: nat ensures QueueOk(s', e, i) { assert QueueOk(s, e, i); }
  }

  // Draining

  /** The current thread is woken before it was switched out. */
  lemma PopCurrentKeepsInv(s: State, d: nat, i: nat, key: int)
    requires Inv(s) && Enabled(s, Pop(d, i, key)) && s.cpus[d].incoming[i][0] == s.cpus[d].current
    ensures Inv(PopStep(s, d, i, key))
  {
    var s', t, q := PopStep(s, d, i, key), s.cpus[d].incoming[i][0], s.cpus[d].incoming[i];
    assert ThreadOk(s, t) && InOk(s, d, i, t) && QueueOk(s, d, i) && CpuOk(s, d);
    forall u: nat ensures ThreadOk(s', u) { assert ThreadOk(s, u); }
    forall e: nat ensures CpuOk(s', e)
    {
      assert CpuOk(s, e);
      if e < |s.cpus| { SortedFrame(s.th, s'.th, s.cpus[e].rq); }
    }
    forall e: nat, u: nat ensures RqOk(s', e, u) { assert RqOk(s, e, u); }
    forall e: nat, j: nat, u: nat ensures InOk(s', e, j, u) { assert InOk(s, e, j, u); }
    forall e: nat, j: nat ensures FlagOk(s', e, j) { assert FlagOk(s, e, j); }
    forall e: nat, j: nat ensures QueueOk(s', e, j) { assert QueueOk(s, e, j); }
  }

  /** Any other thread goes from the incoming queue to the run queue. */
  lemma PopKeepsThreads(s: State, d: nat, i: nat, key: int)
    requires Inv(s) && Enabled(s, Pop(d, i, key)) && s.cpus[d].incoming[i][0] != s.cpus[d].current
    ensures Threads(PopStep(s, d, i, key)) && Rqs(PopStep(s, d, i, key)) && Ins(PopStep(s, d, i, key))
    ensures PopStep(s, d, i, key).crashed == s.crashed
  {
    var s', t, q := PopStep(s, d, i, key), s.cpus[d].incoming[i][0], s.cpus[d].incoming[i];
    assert ThreadOk(s, t) && InOk(s, d, i, t) && QueueOk(s, d, i);
    var th := s.th[t := s.th[t].(st := Queued, from := None, key := key)];
    forall u: nat ensures u in Insert(th, s.cpus[d].rq, t) <==> u in s.cpus[d].rq || u == t
    {
      InsertMembers(th, s.cpus[d].rq, t, u);
    }
    forall u: nat ensures ThreadOk(s', u) { assert ThreadOk(s, u); }
    forall e: nat, u: nat ensures RqOk(s', e, u) { assert RqOk(s, e, u); }
    forall e: nat, j: nat, u: nat ensures InOk(s', e, j, u) { assert InOk(s, e, j, u); }
  }

  lemma PopKeepsCpus(s: State, d: nat, i: nat, key: int)
    requires Inv(s) && Enabled(s, Pop(d, i, key)) && s.cpus[d].incoming[i][0] != s.cpus[d].current
    ensures Cpus(PopStep(s, d, i, key)) && Flags(PopStep(s, d, i, key)) && Queues(PopStep(s, d, i, key))
  {
    var s', t := PopStep(s, d, i, key), s.cpus[d].incoming[i][0];
    assert ThreadOk(s, t) && InOk(s, d, i, t) && QueueOk(s, d, i) && RqOk(s, d, t);
    var th := s.th[t := s.th[t].(st := Queued, from := None, key := key)];
    forall e: nat ensures CpuOk(s', e)
    {
      assert CpuOk(s, e) && RqOk(s, e, t);
      if e < |s.cpus| {
        SortedFrame(s.th, th, s.cpus[e].rq);
        if e == d {
          InsertNoDup(th, s.cpus[d].rq, t);
          InsertSorted(th, s.cpus[d].rq, t);
        }
      }
    }
    forall e: nat, j: nat ensures FlagOk(s', e, j) { assert FlagOk(s, e, j); }
    forall e: nat, j: nat ensures QueueOk(s', e, j) { assert QueueOk(s, e, j); }
  }

  // Switching

  /** p is switched out, to the run queue if it is still runnable, and the first thread of the queue switched in. */
  ghost function SwitchTo(s: State, d: nat, key: int): (s': State)
    requires d < |s.cpus| && s.cpus[d].current < |s.th| && s.cpus[d].rq != [] && s.cpus[d].rq[0] < |s.th|
  {
    var c := s.cpus[d];
    var p, n := c.current, c.rq[0];
    var x := s.th[p];
    var th := s.th[p := if x.st.Running? then x.(key := key, st := Queued) else x.(key := key)];
    var rq := if x.st.Running? then Insert(th, c.rq[1..], p) else c.rq[1..];
    s.(th := th[n := th[n].(st := Running)], cpus := s.cpus[d := c.(mode := Normal, current := n, rq := rq)])
  }

  lemma SwitchMembers(s: State, d: nat, key: int, u: nat)
    requires Inv(s) && d < |s.cpus| && s.cpus[d].current < |s.th| && s.cpus[d].rq != [] && s.cpus[d].rq[0] < |s.th|
    ensures u in SwitchTo(s, d, key).cpus[d].rq <==>
            (u in s.cpus[d].rq && u != s.cpus[d].rq[0]) || (u == s.cpus[d].current && s.th[u].st.Running?)
  {
    var c := s.cpus[d];
    var p, n, x := c.current, c.rq[0], s.th[c.current];
    assert CpuOk(s, d);
    var th := s.th[p := if x.st.Running? then x.(key := key, st := Queued) else x.(key := key)];
    InsertMembers(th, c.rq[1..], p, u);
    assert c.rq == [n] + c.rq[1..];
  }

  lemma SwitchKeepsThreads(s: State, d: nat, key: int)
    requires Inv(s) && d < |s.cpus| && s.cpus[d].current < |s.th| && s.cpus[d].rq != [] && s.cpus[d].rq[0] < |s.th|
    ensures Threads(SwitchTo(s, d, key))
  {
    var s', c := SwitchTo(s, d, key), s.cpus[d];
    assert ThreadOk(s, c.current) && ThreadOk(s, c.rq[0]) && RqOk(s, d, c.rq[0]) && CpuOk(s, d);
    forall u: nat ensures ThreadOk(s', u)
    {
      assert ThreadOk(s, u);
      SwitchMembers(s, d, key, u);
    }
  }

  lemma SwitchKeepsQueues(s: State, d: nat, key: int)
    requires Inv(s) && d < |s.cpus| && s.cpus[d].current < |s.th| && s.cpus[d].rq != [] && s.cpus[d].rq[0] < |s.th|
    ensures Rqs(SwitchTo(s, d, key)) && Ins(SwitchTo(s, d, key))
  {
    var s', c := SwitchTo(s, d, key), s.cpus[d];
    assert ThreadOk(s, c.current) && RqOk(s, d, c.rq[0]) && CpuOk(s, d);
    forall e: nat, u: nat ensures RqOk(s', e, u)
    {
      assert RqOk(s, e, u) && CpuOk(s, e);
      SwitchMembers(s, d, key, u);
    }
    forall e: nat, j: nat, u: nat ensures InOk(s', e, j, u) { assert InOk(s, e, j, u); }
  }

  lemma SwitchKeepsFlags(s: State, d: nat, key: int)
    requires Inv(s) && d < |s.cpus| && s.cpus[d].current < |s.th| && s.cpus[d].rq != [] && s.cpus[d].rq[0] < |s.th|
    requires s.cpus[d].mode.Drain? && s.cpus[d].mode.taken == {}
    ensures Flags(SwitchTo(s, d, key)) && Queues(SwitchTo(s, d, key))
  {
    var s' := SwitchTo(s, d, key);
    forall e: nat, j: nat ensures FlagOk(s', e, j) { assert FlagOk(s, e, j); }
    forall e: nat, j: nat ensures QueueOk(s', e, j) { assert QueueOk(s, e, j); }
  }

  lemma SwitchKeepsCpus(s: State, d: nat, key: int)
    requires Inv(s) && d < |s.cpus| && s.cpus[d].current < |s.th| && s.cpus[d].rq != [] && s.cpus[d].rq[0] < |s.th|
    requires s.cpus[d].mode.Drain? && s.cpus[d].mode.taken == {}
    ensures Cpus(SwitchTo(s, d, key)) && Flags(SwitchTo(s, d, key)) && Queues(SwitchTo(s, d, key))
  {
    SwitchKeepsFlags(s, d, key);
    forall e: nat ensures CpuOk(SwitchTo(s, d, key), e)
    {
      if e == d { SwitchKeepsOwn(s, d, key); } else { SwitchKeepsOthers(s, d, key, e); }
    }
  }

  lemma SwitchKeepsOwn(s: State, d: nat, key: int)
    requires Inv(s) && d < |s.cpus| && s.cpus[d].current < |s.th| && s.cpus[d].rq != [] && s.cpus[d].rq[0] < |s.th|
    ensures CpuOk(SwitchTo(s, d, key), d)
  {
    var s', c := SwitchTo(s, d, key), s.cpus[d];
    var p, n, x := c.current, c.rq[0], s.th[c.current];
    assert ThreadOk(s, p) && ThreadOk(s, n) && RqOk(s, d, n) && RqOk(s, d, p) && CpuOk(s, d);
    var th := s.th[p := if x.st.Running? then x.(key := key, st := Queued) else x.(key := key)];
    SwitchedQueue(s.th, th, s'.th, c.rq, p);
  }

  /** The queue after its first thread has left and p has joined, if it joins. */
  lemma SwitchedQueue(th0: seq<Thread>, th: seq<Thread>, th': seq<Thread>, rq: seq<nat>, p: nat)
    requires rq != [] && NoDup(rq) && Sorted(th0, rq) && p !in rq
    requires forall t: nat :: t in rq ==> KeyOf(th, t) == KeyOf(th0, t)
    requires forall t: nat :: KeyOf(th', t) == KeyOf(th, t)
    ensures NoDup(rq[1..]) && Sorted(th', rq[1..])
    ensures NoDup(Insert(th, rq[1..], p)) && Sorted(th', Insert(th, rq[1..], p))
  {
    SortedFrame(th0, th, rq);
    InsertNoDup(th, rq[1..], p);
    InsertSorted(th, rq[1..], p);
    SortedFrame(th, th', rq[1..]);
    SortedFrame(th, th', Insert(th, rq[1..], p));
  }

  lemma SwitchKeepsOthers(s: State, d: nat, key: int, e: nat)
    requires Inv(s) && d < |s.cpus| && s.cpus[d].current < |s.th| && s.cpus[d].rq != [] && s.cpus[d].rq[0] < |s.th|
    requires e != d
    ensures CpuOk(SwitchTo(s, d, key), e)
  {
    var s', p, n := SwitchTo(s, d, key), s.cpus[d].current, s.cpus[d].rq[0];
    assert ThreadOk(s, p) && RqOk(s, d, n) && CpuOk(s, d) && CpuOk(s, e) && RqOk(s, e, p) && RqOk(s, e, n);
    if e < |s.cpus| { SortedFrame(s.th, s'.th, s.cpus[e].rq); }
  }

  /** A CPU that must switch finds a queued thread other than the one it leaves: its idle thread never waits. */
  lemma FindsAThread(s: State, d: nat)
    requires Inv(s) && d < |s.cpus| && s.cpus[d].current < |s.th| && !s.th[s.cpus[d].current].st.Running?
    ensures s.cpus[d].rq != []
  {
    assert CpuOk(s, d) && ThreadOk(s, s.cpus[d].idle);
  }

  lemma RescheduleIsSwitch(s: State, d: nat, yielding: bool, ran: int, key: int)
    requires Inv(s) && d < |s.cpus| && s.cpus[d].current < |s.th| && ran <= key
    requires yielding ==> s.th[s.cpus[d].current].st.Running?
    ensures var c, x := s.cpus[d], s.th[s.cpus[d].current];
            Reschedule(s, d, yielding, ran, key) ==
            if x.st.Running? && (c.rq == [] || (!yielding && ran < KeyOf(s.th, c.rq[0])))
            then SetCpu(SetTh(s, c.current, x.(key := ran)), d, c.(mode := Normal))
            else if c.rq != [] && c.rq[0] < |s.th| then SwitchTo(s, d, key) else Crash(s)
    ensures s.cpus[d].rq != [] ==> s.cpus[d].rq[0] < |s.th| && s.cpus[d].rq[0] != s.cpus[d].current
  {
    var c, x := s.cpus[d], s.th[s.cpus[d].current];
    assert CpuOk(s, d) && RqOk(s, d, c.current);
    if c.rq == [] {
      if !x.st.Running? { FindsAThread(s, d); }
    } else {
      assert RqOk(s, d, c.rq[0]);
      var s1 := SetTh(s, c.current, if x.st.Running? then x.(key := key, st := Queued) else x.(key := key));
      assert Insert(s1.th, c.rq, c.current) ==
             if KeyOf(s1.th, c.current) < KeyOf(s1.th, c.rq[0]) then [c.current] + c.rq
             else [c.rq[0]] + Insert(s1.th, c.rq[1..], c.current);
    }
  }

  lemma FinishKeepsInv(s: State, d: nat, ran: int, key: int)
    requires Inv(s) && Enabled(s, Finish(d, ran, key))
    ensures Inv(FinishStep(s, d, ran, key))
  {
    var c := s.cpus[d];
    assert CpuOk(s, d);
    match c.mode.why
    case Poll => NormalKeepsInv(s, d);
    case Yield =>
      NormalKeepsInv(s, d);
      DrainKeepsInv(s, d, YieldSwitch);
    case Switch => RescheduleKeepsInv(s, d, false, ran, key);
    case YieldSwitch => RescheduleKeepsInv(s, d, true, ran, key);
  }

  lemma RescheduleKeepsInv(s: State, d: nat, yielding: bool, ran: int, key: int)
    requires Inv(s) && d < |s.cpus| && s.cpus[d].current < |s.th| && ran <= key
    requires s.cpus[d].mode.Drain? && s.cpus[d].mode.taken == {} && (yielding ==> s.th[s.cpus[d].current].st.Running?)
    ensures Inv(Reschedule(s, d, yielding, ran, key))
  {
    var c, x := s.cpus[d], s.th[s.cpus[d].current];
    assert CpuOk(s, d) && ThreadOk(s, c.current);
    RescheduleIsSwitch(s, d, yielding, ran, key);
    if x.st.Running? && (c.rq == [] || (!yielding && ran < KeyOf(s.th, c.rq[0]))) {
      QuietKeepsInv(s, c.current, x.(key := ran));
      NormalKeepsInv(SetTh(s, c.current, x.(key := ran)), d);
    } else {
      if !x.st.Running? { FindsAThread(s, d); }
      SwitchKeepsThreads(s, d, key);
      SwitchKeepsQueues(s, d, key);
      SwitchKeepsCpus(s, d, key);
    }
  }

  // Balancing

  lemma BalanceKeepsInv(s: State, d: nat, dst: nat)
    requires Inv(s) && Enabled(s, Balance(d, dst))
    ensures Inv(BalanceStep(s, d, dst))
  {
    var c := s.cpus[d];
    if LastFree(s.th, c.rq).Some? {
      var t := LastFree(s.th, c.rq).value;
      assert CpuOk(s, d) && ThreadOk(s, t) && RqOk(s, d, t);
      MigrateKeepsInv(s, d, dst, t);
    }
  }

  /** A queued thread that is not pinned leaves its run queue for another CPU. */
  lemma MigrateKeepsInv(s: State, d: nat, dst: nat, t: nat)
    requires Inv(s) && d < |s.cpus| && dst < |s.cpus| && t < |s.th| && t in s.cpus[d].rq && !s.th[t].pinned
    ensures Inv(SetCpu(SetTh(s, t, s.th[t].(st := Waking, from := None, cpu := dst)), d,
                       s.cpus[d].(rq := Remove(s.cpus[d].rq, t))).(pushing := s.pushing[t := d]))
  {
    var s' := SetCpu(SetTh(s, t, s.th[t].(st := Waking, from := None, cpu := dst)), d,
                     s.cpus[d].(rq := Remove(s.cpus[d].rq, t))).(pushing := s.pushing[t := d]);
    assert CpuOk(s, d) && ThreadOk(s, t) && RqOk(s, d, t);
    RemoveKeeps(s.th, s.cpus[d].rq, t);
    forall u: nat ensures u in s'.cpus[d].rq <==> u in s.cpus[d].rq && u != t { RemoveIs(s.cpus[d].rq, t, u); }
    forall u: nat ensures ThreadOk(s', u) { assert ThreadOk(s, u); }
    forall e: nat ensures CpuOk(s', e)
    {
      assert CpuOk(s, e);
      if e < |s.cpus| { SortedFrame(s.th, s'.th, s'.cpus[e].rq); }
    }
    forall e: nat, u: nat ensures RqOk(s', e, u) { assert RqOk(s, e, u); }
    forall e: nat, i: nat, u: nat ensures InOk(s', e, i, u) { assert InOk(s, e, i, u); }
    forall e: nat, i: nat ensures FlagOk(s', e, i) { assert FlagOk(s, e, i); }
    forall e: nat, i: nat ensures QueueOk(s', e, i) { assert QueueOk(s, e, i); }
  }

  // Every move

  lemma OwnKeepsInv(s: State, m: Move)
    requires Inv(s) && Enabled(s, m) && (m.PrepareWait? || m.StopWait? || m.Exit? || m.Migration?)
    ensures Inv(Next(s, m))
  {
    var c := s.cpus[m.d];
    var t, x := c.current, s.th[c.current];
    assert CpuOk(s, m.d) && ThreadOk(s, t);
    if m.StopWait? && x.pc.Stopping? && (x.st.Waking? || x.st.SendingLock?) {
      DrainKeepsInv(s, m.d, Switch);
    } else {
      var x' :=
        if m.PrepareWait? then x.(st := Waiting, pc := Prepared)
        else if m.Exit? then x.(st := Terminating, pc := Dead)
        else if m.Migration? then x.(pinned := m.pinned)
        else if x.pc.Prepared? then (if x.st.Waiting? then x.(st := Running, pc := Run) else x.(pc := Stopping))
        else x.(pc := Run);
      QuietKeepsInv(s, t, x');
    }
  }

  lemma OtherKeepsInv(s: State, m: Move)
    requires Inv(s) && Enabled(s, m) && (m.Destroy? || m.Start? || m.WakeLock?)
    ensures Inv(Next(s, m))
  {
    var x := s.th[m.t];
    assert ThreadOk(s, m.t);
    if x.cpu < |s.cpus| { assert CpuOk(s, x.cpu); }
    match m
    case Destroy(t) => QuietKeepsInv(s, t, x.(st := Terminated));
    case Start(t, d) => QuietKeepsInv(s, t, x.(st := Waiting, cpu := d, pc := Run));
    case WakeLock(t) => if x.st.Waiting? { QuietKeepsInv(s, t, x.(st := SendingLock)); }
  }

  lemma NextKeepsInv(s: State, m: Move)
    requires Inv(s) && Enabled(s, m)
    ensures Inv(Next(s, m))
  {
    match m
    case PrepareWait(d) => OwnKeepsInv(s, m);
    case StopWait(d) => OwnKeepsInv(s, m);
    case Exit(d) => OwnKeepsInv(s, m);
    case Migration(d, _) => OwnKeepsInv(s, m);
    case Wait(d) => DrainKeepsInv(s, d, Switch);
    case Preempt(d) => DrainKeepsInv(s, d, Switch);
    case YieldCall(d) => assert CpuOk(s, d); DrainKeepsInv(s, d, Yield);
    case PollQueues(d) => DrainKeepsInv(s, d, Poll);
    case Destroy(t) => OtherKeepsInv(s, m);
    case Start(t, d) => OtherKeepsInv(s, m);
    case WakeLock(t) => OtherKeepsInv(s, m);
    case Wake(t, d, fromMutex) =>
      if s.th[t].st.Waiting? || (fromMutex && s.th[t].st.SendingLock?) { WakeKeepsInv(s, t, d); }
    case Push(t) => PushKeepsInv(s, t);
    case SetMask(k) => SetMaskKeepsInv(s, k);
    case Pop(d, i, key) =>
      if s.cpus[d].incoming[i][0] == s.cpus[d].current {
        PopCurrentKeepsInv(s, d, i, key);
      } else {
        PopKeepsThreads(s, d, i, key);
        PopKeepsCpus(s, d, i, key);
      }
    case NextQueue(d, i) => NextQueueKeepsInv(s, d, i);
    case Finish(d, ran, key) => FinishKeepsInv(s, d, ran, key);
    case Balance(d, dst) => BalanceKeepsInv(s, d, dst);
  }

  lemma InitInv(s: State)
    requires Init(s)
    ensures Inv(s)
  {
    forall t: nat ensures ThreadOk(s, t) {}
    forall d: nat ensures CpuOk(s, d) {}
    forall d: nat, t: nat ensures RqOk(s, d, t) {}
    forall d: nat, i: nat, t: nat ensures InOk(s, d, i, t) {}
    forall d: nat, i: nat ensures FlagOk(s, d, i) {}
    forall d: nat, i: nat ensures QueueOk(s, d, i) {}
  }

  lemma {:induction false} RunKeepsInv(run: seq<State>, moves: seq<Move>, n: nat)
    requires IsRun(run, moves) && n < |run|
    ensures Inv(run[n])
  {
    if n == 0 {
      InitInv(run[0]);
    } else {
      RunKeepsInv(run, moves, n - 1);
      NextKeepsInv(run[n - 1], moves[n - 1]);
    }
  }

  // ----------------------------------------------------------------------------------------
  // Runs
  // ----------------------------------------------------------------------------------------

  /** No assertion of these functions fails and no CPU takes a thread from an empty run queue. */
  lemma NeverCrashes(run: seq<State>, moves: seq<Move>, n: nat)
    requires IsRun(run, moves) && n < |run|
    ensures !run[n].crashed
  {
    RunKeepsInv(run, moves, n);
  }

  /** How often a thread is in a queue. */
  ghost predicate Once(q: seq<nat>, t: nat)
  {
    exists k: nat :: k < |q| && q[k] == t && forall j: nat :: j < |q| && q[j] == t ==> j == k
  }

  lemma NoDupOnce(q: seq<nat>, t: nat)
    requires NoDup(q) && t in q
    ensures Once(q, t)
  {
    var k: nat :| k < |q| && q[k] == t;
  }

  /** A queued thread is once in the run queue of its own CPU and nowhere else. */
  lemma QueuedIsInOneRunQueue(run: seq<State>, moves: seq<Move>, n: nat, t: nat)
    requires IsRun(run, moves) && n < |run| && t < |run[n].th| && run[n].th[t].st.Queued?
    ensures var s := run[n];
            && s.th[t].cpu < |s.cpus| && Once(s.cpus[s.th[t].cpu].rq, t) && t !in s.pushing
            && (forall d: nat :: d < |s.cpus| ==> s.cpus[d].current != t && (t in s.cpus[d].rq ==> d == s.th[t].cpu))
            && (forall d: nat, i: nat :: d < |s.cpus| && i < |s.cpus[d].incoming| ==> t !in s.cpus[d].incoming[i])
  {
    RunKeepsInv(run, moves, n);
    var s := run[n];
    assert ThreadOk(s, t) && CpuOk(s, s.th[t].cpu);
    NoDupOnce(s.cpus[s.th[t].cpu].rq, t);
    forall d: nat | d < |s.cpus| ensures s.cpus[d].current != t && (t in s.cpus[d].rq ==> d == s.th[t].cpu)
    {
      assert CpuOk(s, d) && RqOk(s, d, t);
    }
    forall d: nat, i: nat | d < |s.cpus| && i < |s.cpus[d].incoming| ensures t !in s.cpus[d].incoming[i]
    {
      assert InOk(s, d, i, t);
    }
  }

  /** A waking thread is held by one waker and in no queue, or once in the one incoming queue that it was pushed to, and
      that queue is announced to its CPU: no wakeup is lost. */
  lemma WakingIsInOneQueue(run: seq<State>, moves: seq<Move>, n: nat, t: nat)
    requires IsRun(run, moves) && n < |run| && t < |run[n].th| && run[n].th[t].st.Waking?
    ensures var s, x := run[n], run[n].th[t];
            && x.cpu < |s.cpus|
            && (t in s.pushing <==> x.from.None?)
            && (x.from.Some? ==>
                  && x.from.value < |s.cpus[x.cpu].incoming| && Once(s.cpus[x.cpu].incoming[x.from.value], t)
                  && FlagOk(s, x.cpu, x.from.value))
            && (forall d: nat, i: nat {:trigger InOk(s, d, i, t)} :: InOk(s, d, i, t))
            && (forall d: nat :: d < |s.cpus| ==> t !in s.cpus[d].rq)
  {
    RunKeepsInv(run, moves, n);
    var s, x := run[n], run[n].th[t];
    assert ThreadOk(s, t);
    if x.from.Some? {
      assert QueueOk(s, x.cpu, x.from.value) && FlagOk(s, x.cpu, x.from.value);
      NoDupOnce(s.cpus[x.cpu].incoming[x.from.value], t);
    }
    forall d: nat | d < |s.cpus| ensures t !in s.cpus[d].rq { assert RqOk(s, d, t); }
  }

  /** No thread is current on two CPUs, and a running thread is current on its own. */
  lemma CurrentOnOneCpu(run: seq<State>, moves: seq<Move>, n: nat, d: nat, e: nat)
    requires IsRun(run, moves) && n < |run| && d < |run[n].cpus| && e < |run[n].cpus|
    ensures run[n].cpus[d].current == run[n].cpus[e].current ==> d == e
    ensures forall t: nat :: t < |run[n].th| && run[n].th[t].st.Running? ==>
              run[n].th[t].cpu < |run[n].cpus| && run[n].cpus[run[n].th[t].cpu].current == t
  {
    RunKeepsInv(run, moves, n);
    assert CpuOk(run[n], d) && CpuOk(run[n], e);
    forall t: nat | t < |run[n].th| && run[n].th[t].st.Running?
      ensures run[n].th[t].cpu < |run[n].cpus| && run[n].cpus[run[n].th[t].cpu].current == t
    {
      assert ThreadOk(run[n], t);
    }
  }

  /** A reschedule that leaves the current thread goes to another, queued one with the lowest runtime; it stays only
      with a running thread that is alone or has a lower runtime than all queued ones. */
  lemma SwitchesToLowest(s: State, d: nat, ran: int, key: int)
    requires Inv(s) && Enabled(s, Finish(d, ran, key)) && s.cpus[d].mode.why.Switch?
    ensures var c, p, n := s.cpus[d], s.cpus[d].current, FinishStep(s, d, ran, key).cpus[d].current;
            && (n != p ==> n in c.rq && forall t: nat :: t in c.rq ==> KeyOf(s.th, n) <= KeyOf(s.th, t))
            && (n == p <==> s.th[p].st.Running? && forall t: nat :: t in c.rq ==> ran < KeyOf(s.th, t))
  {
    var c, p := s.cpus[d], s.cpus[d].current;
    assert CpuOk(s, d);
    RescheduleIsSwitch(s, d, false, ran, key);
    if !s.th[p].st.Running? { FindsAThread(s, d); }
    forall t: nat | t in c.rq ensures KeyOf(s.th, c.rq[0]) <= KeyOf(s.th, t)
    {
      var k: nat :| k < |c.rq| && c.rq[k] == t;
    }
    if c.rq != [] { assert c.rq[0] in c.rq; }
  }

  /** yield() goes on to a reschedule exactly when a thread is queued and the first one is not the idle thread. */
  lemma YieldsExactly(s: State, d: nat, ran: int, key: int)
    requires Inv(s) && Enabled(s, Finish(d, ran, key)) && s.cpus[d].mode.why.Yield?
    ensures var c, c' := s.cpus[d], FinishStep(s, d, ran, key).cpus[d];
            && c'.current == c.current && c'.rq == c.rq && FinishStep(s, d, ran, key).th == s.th
            && (c'.mode.Drain? <==> c.rq != [] && c.rq[0] != c.idle)
            && (c'.mode.Drain? ==> c'.mode == Drain(c.mask, YieldSwitch))
  {
    assert CpuOk(s, d);
  }

  /** That reschedule leaves the thread for the queued one of lowest runtime, whatever its own, and queues it. */
  lemma YieldSwitches(s: State, d: nat, ran: int, key: int)
    requires Inv(s) && Enabled(s, Finish(d, ran, key)) && s.cpus[d].mode.why.YieldSwitch?
    ensures var s', c := FinishStep(s, d, ran, key), s.cpus[d];
            if c.rq == [] then s'.cpus[d].current == c.current
            else
              && s'.cpus[d].current in c.rq && c.current in s'.cpus[d].rq
              && forall t: nat :: t in c.rq ==> KeyOf(s.th, s'.cpus[d].current) <= KeyOf(s.th, t)
  {
    var c := s.cpus[d];
    assert CpuOk(s, d);
    RescheduleIsSwitch(s, d, true, ran, key);
    if c.rq != [] {
      SwitchMembers(s, d, key, c.current);
      forall t: nat | t in c.rq ensures KeyOf(s.th, c.rq[0]) <= KeyOf(s.th, t)
      {
        var k: nat :| k < |c.rq| && c.rq[k] == t;
      }
    }
  }

  // ----------------------------------------------------------------------------------------
  // Every change of status and its cause
  // ----------------------------------------------------------------------------------------

  /** Finish(d, ran, key) makes CPU d leave its current thread. */
  ghost predicate Leaves(s: State, d: nat, ran: int)
    requires d < |s.cpus| && s.cpus[d].current < |s.th|
  {
    var c := s.cpus[d];
    && c.mode.Drain? && (c.mode.why.Switch? || c.mode.why.YieldSwitch?) && c.rq != []
    && (s.th[c.current].st.Running? && c.mode.why.Switch? ==> KeyOf(s.th, c.rq[0]) <= ran)
  }

  ghost predicate IsCurrent(s: State, d: nat, t: nat) { d < |s.cpus| && s.cpus[d].current == t }

  /** The status of thread t after a move. */
  ghost function StatusAfter(s: State, m: Move, t: nat): (st: Status)
    requires Enabled(s, m) && t < |s.th|
  {
    match s.th[t].st
    case Unstarted => if m.Start? && m.t == t then Waiting else Unstarted
    case Waiting =>
      if m.Wake? && m.t == t then Waking
      else if m == WakeLock(t) then SendingLock
      else if m.StopWait? && IsCurrent(s, m.d, t) then Running
      else Waiting
    case SendingLock => if m.Wake? && m.t == t && m.fromMutex then Waking else SendingLock
    case Waking =>
      if m.Pop? && s.cpus[m.d].incoming[m.i][0] == t then (if IsCurrent(s, m.d, t) then Running else Queued)
      else Waking
    case Queued =>
      if m.Finish? && Leaves(s, m.d, m.ran) && s.cpus[m.d].rq[0] == t then Running
      else if m.Balance? && LastFree(s.th, s.cpus[m.d].rq) == Some(t) then Waking
      else Queued
    case Running =>
      if m.PrepareWait? && IsCurrent(s, m.d, t) then Waiting
      else if m.Exit? && IsCurrent(s, m.d, t) then Terminating
      else if m.Finish? && IsCurrent(s, m.d, t) && Leaves(s, m.d, m.ran) then Queued
      else Running
    case Terminating => if m == Destroy(t) then Terminated else Terminating
    case Terminated => Terminated
  }

  lemma FinishStatus(s: State, d: nat, ran: int, key: int, t: nat)
    requires Inv(s) && Enabled(s, Finish(d, ran, key)) && t < |s.th|
    ensures var s' := FinishStep(s, d, ran, key);
            |s'.th| == |s.th| && s'.th[t].st == StatusAfter(s, Finish(d, ran, key), t) && s'.th[t].cpu == s.th[t].cpu
  {
    var c := s.cpus[d];
    assert CpuOk(s, d) && ThreadOk(s, t) && RqOk(s, d, t) && ThreadOk(s, c.current);
    if c.rq != [] { assert RqOk(s, d, c.rq[0]) && c.rq[0] in c.rq; }
    if c.mode.why.Switch? || c.mode.why.YieldSwitch? {
      RescheduleIsSwitch(s, d, c.mode.why.YieldSwitch?, ran, key);
      if !s.th[c.current].st.Running? { FindsAThread(s, d); }
    }
  }

  lemma PopStatus(s: State, d: nat, i: nat, key: int, t: nat)
    requires Inv(s) && Enabled(s, Pop(d, i, key)) && t < |s.th|
    ensures var s' := PopStep(s, d, i, key);
            |s'.th| == |s.th| && s'.th[t].st == StatusAfter(s, Pop(d, i, key), t) && s'.th[t].cpu == s.th[t].cpu
  {
    var u := s.cpus[d].incoming[i][0];
    assert u in s.cpus[d].incoming[i];
    assert ThreadOk(s, t) && InOk(s, d, i, u) && CpuOk(s, d);
  }

  lemma BalanceStatus(s: State, d: nat, dst: nat, t: nat)
    requires Inv(s) && Enabled(s, Balance(d, dst)) && t < |s.th|
    ensures var s' := BalanceStep(s, d, dst);
            && |s'.th| == |s.th| && s'.th[t].st == StatusAfter(s, Balance(d, dst), t)
            && s'.th[t].cpu == if StatusAfter(s, Balance(d, dst), t) != s.th[t].st then dst else s.th[t].cpu
  {
    var u := LastFree(s.th, s.cpus[d].rq);
    if u.Some? { assert RqOk(s, d, u.value); }
  }

  /** A thread changes its status only by the moves, and from the states, that say so: a wake-up always takes a waiting
      thread, one from a mutex also a thread that is being sent a lock, and what is waking stays so until its own CPU
      takes it from the queue. It changes its CPU only when it is started or, queued and not pinned, migrated. */
  lemma StatusExactly(run: seq<State>, moves: seq<Move>, n: nat, t: nat)
    requires IsRun(run, moves) && n < |moves| && t < |run[n].th|
    ensures |run[n + 1].th| == |run[n].th| && run[n + 1].th[t].st == StatusAfter(run[n], moves[n], t)
    ensures run[n + 1].th[t].cpu ==
            if moves[n].Start? && moves[n].t == t then moves[n].d
            else if moves[n].Balance? && run[n + 1].th[t].st != run[n].th[t].st then moves[n].dst
            else run[n].th[t].cpu
    ensures run[n + 1].th[t].pinned ==
            if moves[n].Migration? && IsCurrent(run[n], moves[n].d, t) then moves[n].pinned else run[n].th[t].pinned
  {
    RunKeepsInv(run, moves, n);
    NextStatus(run[n], moves[n], t);
    NextPinned(run[n], moves[n], t);
  }

  lemma ReschedulePinned(s: State, d: nat, yielding: bool, ran: int, key: int, t: nat)
    requires d < |s.cpus| && s.cpus[d].current < |s.th| && t < |s.th|
    ensures var s' := Reschedule(s, d, yielding, ran, key); |s'.th| == |s.th| && s'.th[t].pinned == s.th[t].pinned
  {
  }

  lemma FinishPinned(s: State, d: nat, ran: int, key: int, t: nat)
    requires Enabled(s, Finish(d, ran, key)) && t < |s.th|
    ensures |FinishStep(s, d, ran, key).th| == |s.th| && FinishStep(s, d, ran, key).th[t].pinned == s.th[t].pinned
  {
    ReschedulePinned(s, d, false, ran, key, t);
    ReschedulePinned(s, d, true, ran, key, t);
  }

  lemma NextPinned(s: State, m: Move, t: nat)
    requires Enabled(s, m) && t < |s.th|
    ensures |Next(s, m).th| == |s.th|
    ensures Next(s, m).th[t].pinned == if m.Migration? && IsCurrent(s, m.d, t) then m.pinned else s.th[t].pinned
  {
    if m.Finish? { FinishPinned(s, m.d, m.ran, m.key, t); }
  }

  lemma NextStatus(s: State, m: Move, t: nat)
    requires Inv(s) && Enabled(s, m) && t < |s.th|
    ensures |Next(s, m).th| == |s.th| && Next(s, m).th[t].st == StatusAfter(s, m, t)
    ensures Next(s, m).th[t].cpu ==
            if m.Start? && m.t == t then m.d
            else if m.Balance? && StatusAfter(s, m, t) != s.th[t].st then m.dst
            else s.th[t].cpu
  {
    assert ThreadOk(s, t);
    if m.Finish? {
      FinishStatus(s, m.d, m.ran, m.key, t);
    } else if m.Pop? {
      PopStatus(s, m.d, m.i, m.key, t);
    } else if m.Balance? {
      BalanceStatus(s, m.d, m.dst, t);
    } else if m.PrepareWait? || m.StopWait? || m.Exit? || m.Migration? {
      OwnStatus(s, m, t);
    } else if m.Wait? || m.Preempt? || m.YieldCall? || m.PollQueues? || m.Push? || m.NextQueue? || m.SetMask? {
      SameStatus(s, m, t);
      NoStatusMove(s, m, t);
    }
  }

  lemma SameStatus(s: State, m: Move, t: nat)
    requires Enabled(s, m) && t < |s.th|
    requires m.Wait? || m.Preempt? || m.YieldCall? || m.PollQueues? || m.Push? || m.NextQueue? || m.SetMask?
    ensures |Next(s, m).th| == |s.th| && Next(s, m).th[t].st == s.th[t].st
    ensures Next(s, m).th[t].cpu == s.th[t].cpu
  {
  }

  lemma NoStatusMove(s: State, m: Move, t: nat)
    requires Enabled(s, m) && t < |s.th|
    requires m.Wait? || m.Preempt? || m.YieldCall? || m.PollQueues? || m.Push? || m.NextQueue? || m.SetMask?
    ensures StatusAfter(s, m, t) == s.th[t].st
  {
  }

  lemma OwnStatus(s: State, m: Move, t: nat)
    requires Inv(s) && Enabled(s, m) && t < |s.th|
    requires m.PrepareWait? || m.StopWait? || m.Exit? || m.Migration?
    ensures |Next(s, m).th| == |s.th| && Next(s, m).th[t].st == StatusAfter(s, m, t)
    ensures Next(s, m).th[t].cpu == s.th[t].cpu
  {
    assert ThreadOk(s, t) && CpuOk(s, m.d) && ThreadOk(s, s.cpus[m.d].current);
  }

  /** A wake-up of a waiting thread leaves it with the waker, who will push it to a queue; any other call that does not
      change the status changes nothing. */
  lemma WakesExactly(s: State, t: nat, d: nat, fromMutex: bool)
    requires Inv(s) && Enabled(s, Wake(t, d, fromMutex))
    ensures var s' := Next(s, Wake(t, d, fromMutex));
            if s.th[t].st.Waiting? || (fromMutex && s.th[t].st.SendingLock?)
            then
              && s'.th[t].st.Waking? && t in s'.pushing && s'.pushing[t] == d
              && Enabled(s', Push(t)) && s'.cpus == s.cpus
            else s' == s
    ensures forall u: nat :: u < |s.th| && u != t ==> Next(s, Wake(t, d, fromMutex)).th[u] == s.th[u]
  {
    assert ThreadOk(s, t) && CpuOk(s, s.th[t].cpu);
  }
}
