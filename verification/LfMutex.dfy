/** The lock-free recursive mutex of core/lfmutex.cc, with its "Responsibility Hand-Off" protocol.

    The protocol is a state machine: every thread has a program counter, and one step of one
    thread is one atomic access to the shared words `count`, `owner`, `handoff` or `waitqueue`.
    `depth` and `sequence` are plain words that only the holder of the right to pop touches, so
    an access to them is folded into the neighbouring atomic step.

    A wait record is named by the thread that sleeps on it: a thread has at most one record on
    the mutex at a time, because it sleeps on it.
  */
module LfMutex {

  import opened Common

  type Tid = nat

  /** Width of `sequence` and `handoff` (unsigned int). */
  const WORD: nat := 0x1_0000_0000

  /** Where a thread is. The holder of the mutex runs at `Idle` with `holds` set. */
  datatype Pc =
    | Idle
    // owner and depth still to be stored: the tail of lock() and of try_lock()
    | Acquire
    // lock(), after count.fetch_add returned non-zero
    | LockOwner | LockRecurse | LockPush | LockLoad
    | LockEmpty(h: nat) | LockCas(h: nat) | LockPop | LockWake(o: Tid) | LockSleep
    // asleep on a condition variable; then given to send_lock() by thread `giver`
    | Parked | Moved(giver: Tid)
    // send_lock(). `e` is the number of the publication that `h` was read from
    | SendPush(t: Tid) | SendLoad
    | SendEmpty(h: nat, e: nat) | SendCas(h: nat, e: nat) | SendPop | SendWake(o: Tid)
    // try_lock(), after the compare-and-swap on count failed
    | TryOwner | TryLoad | TryCas(h: nat) | TryAdd
    // unlock(), after depth reached zero
    // `again` marks the second and later rounds of its loop
    | UnlockOwner | UnlockCount | UnlockPop(again: bool) | UnlockPublish
    | UnlockEmpty(h: nat, e: nat) | UnlockCas(h: nat, e: nat) | UnlockWake(o: Tid)

  /** `holds`: owner was stored and count not yet given back. `woken`: the record's wake() was called. */
  datatype Thread = Thread(pc: Pc, holds: bool, woken: bool)

  /** `epoch` counts the values ever published in `handoff`. `crashed`: an assert() failed. */
  datatype State = State(
    count: int, owner: int, depth: nat, handoff: nat, sequence: nat, epoch: nat,
    queue: seq<Tid>, th: seq<Thread>, crashed: bool)

  /** nullptr in `owner`. */
  const NOBODY: int := -1

  /** What a thread may do next: start an operation, or take the next step of the one it is in. */
  datatype Act = CallLock | CallTryLock | CallUnlock | CallSend(t: Tid) | Park | Timeout | Continue

  predicate Init(s: State)
  {
    && s.count == 0 && s.owner == NOBODY && s.depth == 0 && s.handoff == 0 && s.sequence == 0
    && s.epoch == 0 && s.queue == [] && !s.crashed
    && forall t: Tid :: t < |s.th| ==> s.th[t] == Thread(Idle, false, false)
  }

  /** `if (++sequence == 0U) ++sequence`. */
  function NextSequence(q: nat): (r: nat)
  {
    var n := if q + 1 == WORD then 0 else q + 1;
    if n == 0 then 1 else n
  }

  function Goto(s: State, t: Tid, pc: Pc): (s': State)
    requires t < |s.th|
  {
    s.(th := s.th[t := s.th[t].(pc := pc)])
  }

  function Wake(s: State, o: Tid): (s': State)
    requires o < |s.th|
  {
    s.(th := s.th[o := s.th[o].(woken := true)])
  }

  function Crash(s: State): (s': State)
  {
    s.(crashed := true)
  }

  /** The caller's duty: lock/try_lock/send_lock may be called any time outside another operation,
      unlock only by the holder, send_lock only for a record that sleeps on a condition variable. */
  predicate Enabled(s: State, t: Tid, a: Act)
  {
    && !s.crashed && t < |s.th|
    && match a
       case CallLock => s.th[t].pc.Idle?
       case CallTryLock => s.th[t].pc.Idle?
       case CallUnlock => s.th[t].pc.Idle? && s.th[t].holds
       case CallSend(o) => s.th[t].pc.Idle? && o < |s.th| && o != t && s.th[o].pc.Parked?
       case Park => s.th[t].pc.Idle? && !s.th[t].holds
       case Timeout => s.th[t].pc.Parked?
       case Continue =>
         match s.th[t].pc
         case Idle => false
         case Parked => false
         case LockSleep => s.th[t].woken
         case Moved(_) => s.th[t].woken
         case LockWake(o) => o < |s.th|
         case SendWake(o) => o < |s.th|
         case UnlockWake(o) => o < |s.th|
         case _ => true
  }

  /** `owner = current; depth = 1;`, and the thread is in its critical section. */
  function Own(s: State, t: Tid): (s': State)
    requires t < |s.th|
  {
    s.(owner := t, depth := 1, th := s.th[t := Thread(Idle, true, false)])
  }

  function Next(s: State, t: Tid, a: Act): (s': State)
    requires Enabled(s, t, a)
  {
    match a
    case CallLock =>
      Goto(s.(count := s.count + 1), t, if s.count == 0 then Acquire else LockOwner)
    case CallTryLock =>
      if s.count == 0 then Goto(s.(count := 1), t, Acquire) else Goto(s, t, TryOwner)
    case CallUnlock =>
      if s.owner != t || s.depth == 0 then Crash(s)
      else if s.depth > 1 then s.(depth := s.depth - 1)
      else Goto(s.(depth := 0), t, UnlockOwner)
    case CallSend(o) =>
      var s1 := Goto(s.(count := s.count + 1), o, Moved(t));
      Goto(s1, t, if s.count == 0 then SendWake(o) else SendPush(o))
    case Park => Goto(s, t, Parked)
    case Timeout => Goto(s, t, Idle)
    case Continue => StepOf(s, t)
  }

  function StepOf(s: State, t: Tid): (s': State)
    requires Enabled(s, t, Continue)
  {
    match s.th[t].pc
    case Acquire => Own(s, t)
    case LockOwner => Goto(s, t, if s.owner == t then LockRecurse else LockPush)
    case LockRecurse => Goto(s.(count := s.count - 1, depth := s.depth + 1), t, Idle)
    case LockPush => Goto(s.(queue := s.queue + [t]), t, LockLoad)
    case LockLoad => Goto(s, t, if s.handoff != 0 then LockEmpty(s.handoff) else LockSleep)
    case LockEmpty(h) => Goto(s, t, if s.queue != [] then LockCas(h) else LockSleep)
    case LockCas(h) =>
      if s.handoff == h then Goto(s.(handoff := 0), t, LockPop) else Goto(s, t, LockSleep)
    case LockPop =>
      if s.queue == [] then Crash(s)
      else
        var o := s.queue[0];
        var s1 := s.(queue := s.queue[1..]);
        if o == t then Goto(s1, t, Acquire)
        else if s.th[t].woken then Crash(s)
        else Goto(s1, t, LockWake(o))
    case LockWake(o) => Goto(Wake(s, o), t, LockSleep)
    case LockSleep => Own(s, t)
    case Moved(_) => Own(s, t)
    case SendPush(o) => Goto(s.(queue := s.queue + [o]), t, SendLoad)
    case SendLoad => Goto(s, t, if s.handoff != 0 then SendEmpty(s.handoff, s.epoch) else Idle)
    case SendEmpty(h, e) => Goto(s, t, if s.queue != [] then SendCas(h, e) else Idle)
    case SendCas(h, e) =>
      if s.handoff == h then Goto(s.(handoff := 0), t, SendPop) else Goto(s, t, Idle)
    case SendPop =>
      if s.queue == [] then Crash(s)
      else Goto(s.(queue := s.queue[1..]), t, SendWake(s.queue[0]))
    case SendWake(o) => Goto(Wake(s, o), t, Idle)
    case TryOwner =>
      if s.owner == t then Goto(s.(depth := s.depth + 1), t, Idle) else Goto(s, t, TryLoad)
    case TryLoad => Goto(s, t, if s.handoff != 0 then TryCas(s.handoff) else Idle)
    case TryCas(h) =>
      if s.handoff == h then Goto(s.(handoff := 0), t, TryAdd) else Goto(s, t, Idle)
    case TryAdd => Goto(s.(count := s.count + 1), t, Acquire)
    case UnlockOwner => Goto(s.(owner := NOBODY), t, UnlockCount)
    case UnlockCount =>
      s.(count := s.count - 1,
         th := s.th[t := Thread(if s.count == 1 then Idle else UnlockPop(false), false, false)])
    case UnlockPop(_) =>
      if s.queue == [] then Goto(s, t, UnlockPublish)
      else if s.queue[0] == t then Crash(s)
      else Goto(s.(queue := s.queue[1..]), t, UnlockWake(s.queue[0]))
    case UnlockPublish =>
      var q := NextSequence(s.sequence);
      Goto(s.(sequence := q, handoff := q, epoch := s.epoch + 1), t, UnlockEmpty(q, s.epoch + 1))
    case UnlockEmpty(h, e) => Goto(s, t, if s.queue == [] then Idle else UnlockCas(h, e))
    case UnlockCas(h, _) =>
      if s.handoff == h then Goto(s.(handoff := 0), t, UnlockPop(true)) else Goto(s, t, Idle)
    case UnlockWake(o) => Goto(Wake(s, o), t, Idle)
    case Idle => s
    case Parked => s
  }

  // ----------------------------------------------------------------------------------------
  // The invariant
  // ----------------------------------------------------------------------------------------

  /** Where the single right to pop the wait queue is. */
  datatype Token = Free | Handoff | At(t: Tid)

  /** The thread has the right to pop: it holds the mutex, is about to, was handed it by a wake(), or
      is the one that must pass it on. */
  predicate HasToken(x: Thread)
  {
    || x.holds || x.woken
    || match x.pc
       case Acquire => true
       case LockPop => true
       case LockWake(_) => true
       case SendPop => true
       case SendWake(_) => true
       case TryAdd => true
       case UnlockPop(_) => true
       case UnlockPublish => true
       case UnlockWake(_) => true
       case _ => false
  }

  /** In lock() with its own record pushed. */
  predicate Queued(pc: Pc)
  {
    pc.LockLoad? || pc.LockEmpty? || pc.LockCas? || pc.LockPop? || pc.LockWake? || pc.LockSleep?
  }

  /** About to call wake() on a popped record. */
  predicate IsWake(pc: Pc) { pc.LockWake? || pc.SendWake? || pc.UnlockWake? }

  /** About to call wake() on the record of o. */
  predicate IsWaking(pc: Pc, o: Tid)
  {
    IsWake(pc) && pc.o == o
  }

  /** What a thread contributes to `count`: one for holding, one for a lock request in progress. */
  function Weight(x: Thread): (w: nat)
  {
    (if x.holds then 1 else 0) +
    (if Queued(x.pc) || x.pc.Acquire? || x.pc.LockOwner? || x.pc.LockRecurse? || x.pc.LockPush? || x.pc.Moved?
     then 1 else 0)
  }

  function Sum(th: seq<Thread>): (r: nat)
  {
    if th == [] then 0 else Sum(th[..|th| - 1]) + Weight(th[|th| - 1])
  }

  /** The value of `sequence` after `e` publications. */
  function SequenceAt(e: nat): (q: nat)
  {
    if e == 0 then 0 else NextSequence(SequenceAt(e - 1))
  }

  /** Threads that have still to look at a hand-off of value `h`. */
  predicate WillCheck(pc: Pc, h: nat)
  {
    || pc.LockLoad? || pc.SendLoad?
    || (pc.LockEmpty? && pc.h == h) || (pc.LockCas? && pc.h == h)
    || (pc.SendEmpty? && pc.h == h) || (pc.SendCas? && pc.h == h)
    || (pc.UnlockEmpty? && pc.h == h) || (pc.UnlockCas? && pc.h == h)
  }

  /** Program counters possible while holding. */
  predicate HolderPc(pc: Pc)
  {
    || pc.Idle? || pc.LockOwner? || pc.LockRecurse? || pc.TryOwner? || pc.SendPush? || pc.SendLoad?
    || pc.UnlockOwner? || pc.UnlockCount?
  }

  /** Program counters at which a thread's own record can be woken. */
  predicate SleepyPc(pc: Pc)
  {
    pc.LockLoad? || pc.LockEmpty? || pc.LockCas? || pc.LockSleep? || pc.Moved?
  }

  /** Program counters that carry a value read from, or published in, `handoff`. */
  predicate ReadHandoff(pc: Pc)
  {
    || pc.LockEmpty? || pc.LockCas? || pc.TryCas? || pc.UnlockEmpty? || pc.UnlockCas?
    || pc.SendEmpty? || pc.SendCas?
  }

  predicate LocalOk(x: Thread)
  {
    && (x.holds ==> HolderPc(x.pc) && !x.woken)
    && (x.woken ==> SleepyPc(x.pc))
    && (x.pc.LockRecurse? || x.pc.UnlockOwner? || x.pc.UnlockCount? ==> x.holds)
    && (ReadHandoff(x.pc) ==> x.pc.h != 0)
  }

  ghost predicate LocalInv(s: State)
  {
    forall t: Tid :: t < |s.th| ==> LocalOk(s.th[t])
  }

  ghost predicate TokenInv(s: State, k: Token)
  {
    && (k.Free? <==> s.count == 0)
    && (k.Handoff? <==> s.handoff != 0)
    && (k.At? ==> k.t < |s.th|)
    && forall t: Tid :: t < |s.th| ==> (HasToken(s.th[t]) <==> k == At(t))
  }

  ghost predicate WordsInv(s: State)
  {
    && s.count == Sum(s.th)
    && s.sequence == SequenceAt(s.epoch)
    && (s.handoff != 0 ==> s.handoff == s.sequence)
  }

  ghost predicate OwnerInv(s: State)
  {
    forall t: Tid :: t < |s.th| ==>
      && (s.owner == t <==> s.th[t].holds && !s.th[t].pc.UnlockCount?)
      && (s.owner == t && !s.th[t].pc.UnlockOwner? ==> s.depth > 0)
  }

  /** The holder of the token has popped the record of t and is about to wake it. */
  predicate BeingWoken(s: State, k: Token, t: Tid)
  {
    k.At? && k.t < |s.th| && IsWaking(s.th[k.t].pc, t)
  }

  /** A send_lock() has counted the record of t and is about to push it. */
  predicate BeingPushed(s: State, t: Tid)
    requires t < |s.th|
  {
    var pc := s.th[t].pc;
    pc.Moved? && pc.giver < |s.th| && s.th[pc.giver].pc == SendPush(t)
  }

  /** The record of thread t is in exactly one place: in the queue, in the hands of the send_lock()
      that will push it, in the hands of a waker, or woken. */
  ghost predicate RecordOk(s: State, k: Token, t: Tid)
    requires t < |s.th|
  {
    var x := s.th[t];
    && (t in s.queue ==> !x.woken && !BeingWoken(s, k, t) && !BeingPushed(s, t))
    && (BeingWoken(s, k, t) ==> SleepyPc(x.pc) && !BeingPushed(s, t))
    && (x.woken ==> !BeingPushed(s, t))
    && (t in s.queue || x.woken || BeingWoken(s, k, t) || BeingPushed(s, t) <==> Queued(x.pc) || x.pc.Moved?)
    && (x.pc.SendPush? ==> x.pc.t < |s.th| && s.th[x.pc.t].pc == Moved(t))
  }

  ghost predicate RecordInv(s: State, k: Token)
  {
    && NoDup(s.queue)
    && (forall i: nat :: i < |s.queue| ==> s.queue[i] < |s.th|)
    && (k.At? && k.t < |s.th| && IsWake(s.th[k.t].pc) ==> s.th[k.t].pc.o < |s.th|)
    && (forall t: Tid :: t < |s.th| ==> RecordOk(s, k, t))
  }

  /** Somebody has still to look at the hand-off whenever there is a record to be woken. */
  ghost predicate HandoffInv(s: State)
  {
    s.handoff != 0 && s.queue != [] ==>
      exists t: Tid :: t < |s.th| && WillCheck(s.th[t].pc, s.handoff)
  }

  /** Carries a hand-off with the number of its publication. */
  predicate Sees(pc: Pc) { pc.SendEmpty? || pc.SendCas? || pc.UnlockEmpty? || pc.UnlockCas? }

  /** The hand-off a send_lock() read, or an unlock() published, carries the number of its publication; while
      that is the latest and still on offer, the record seen on the queue is still there. */
  predicate SeenOk(s: State, pc: Pc)
  {
    && (Sees(pc) ==> 1 <= pc.e <= s.epoch && pc.h == SequenceAt(pc.e))
    && ((pc.SendCas? || pc.UnlockCas?) && pc.e == s.epoch && s.handoff != 0 ==> s.queue != [])
  }

  ghost predicate SeenInv(s: State)
  {
    forall t: Tid :: t < |s.th| ==> SeenOk(s, s.th[t].pc)
  }

  ghost predicate Inv(s: State, k: Token)
  {
    && LocalInv(s) && TokenInv(s, k) && WordsInv(s) && OwnerInv(s) && RecordInv(s, k)
    && HandoffInv(s) && SeenInv(s)
  }

  // ----------------------------------------------------------------------------------------
  // Preservation
  // ----------------------------------------------------------------------------------------

  lemma {:induction false} SumUpdate(th: seq<Thread>, i: nat, x: Thread)
    requires i < |th|
    ensures Sum(th[i := x]) == Sum(th) - Weight(th[i]) + Weight(x)
  {
    var n := |th| - 1;
    if i == n {
      assert th[i := x][..n] == th[..n];
    } else {
      assert th[i := x][..n] == th[..n][i := x];
      SumUpdate(th[..n], i, x);
    }
  }

  lemma {:induction false} SumAtLeast(th: seq<Thread>, i: nat)
    requires i < |th|
    ensures Sum(th) >= Weight(th[i])
  {
    if i < |th| - 1 { SumAtLeast(th[..|th| - 1], i); }
  }

  lemma {:induction false} SumZero(th: seq<Thread>)
    requires forall t: Tid :: t < |th| ==> Weight(th[t]) == 0
    ensures Sum(th) == 0
  {
    if th != [] { SumZero(th[..|th| - 1]); }
  }

  lemma InitHolds(s: State)
    requires Init(s)
    ensures Inv(s, Free)
  {
    SumZero(s.th);
  }

  /** Where the token goes in one step. */
  function TokenAfter(s: State, k: Token, t: Tid, a: Act): (k': Token)
    requires Enabled(s, t, a)
  {
    match a
    case CallLock => if s.count == 0 then At(t) else k
    case CallTryLock => if s.count == 0 then At(t) else k
    case CallSend(_) => if s.count == 0 then At(t) else k
    case Continue => (
      match s.th[t].pc
      case LockCas(h) => if s.handoff == h then At(t) else k
      case SendCas(h, _) => if s.handoff == h then At(t) else k
      case TryCas(h) => if s.handoff == h then At(t) else k
      case UnlockCas(h, _) => if s.handoff == h then At(t) else k
      case LockWake(o) => At(o)
      case SendWake(o) => At(o)
      case UnlockWake(o) => At(o)
      case UnlockCount => if s.count == 1 then Free else k
      case UnlockPublish => Handoff
      case _ => k)
    case _ => k
  }

  predicate IsLock(pc: Pc) { (Queued(pc) || pc.LockOwner? || pc.LockRecurse? || pc.LockPush?) && !pc.LockWake? }

  predicate IsUnlock(pc: Pc)
  {
    || pc.UnlockOwner? || pc.UnlockCount? || pc.UnlockPop? || pc.UnlockPublish?
    || pc.UnlockEmpty? || pc.UnlockCas?
  }

  predicate IsOther(pc: Pc) { !IsWake(pc) && !IsLock(pc) && !IsUnlock(pc) }

  // Local consistency

  lemma StepLocalCall(s: State, k: Token, t: Tid, a: Act)
    requires LocalInv(s) && TokenInv(s, k) && OwnerInv(s) && Enabled(s, t, a) && !a.Continue?
    ensures LocalInv(Next(s, t, a))
  {
  }

  lemma StepLocalWake(s: State, k: Token, t: Tid)
    requires LocalInv(s) && TokenInv(s, k) && RecordInv(s, k)
    requires Enabled(s, t, Continue) && IsWake(s.th[t].pc)
    ensures LocalInv(StepOf(s, t))
  {
    assert BeingWoken(s, k, s.th[t].pc.o);
    assert RecordOk(s, k, s.th[t].pc.o);
  }

  lemma StepLocalSelf(s: State, t: Tid)
    requires Enabled(s, t, Continue) && !IsWake(s.th[t].pc) && LocalOk(s.th[t])
    requires s.owner == t <==> s.th[t].holds && !s.th[t].pc.UnlockCount?
    requires s.th[t].holds || s.th[t].woken ==> s.handoff == 0
    ensures LocalOk(StepOf(s, t).th[t])
  {
  }

  lemma StepLocal(s: State, k: Token, t: Tid)
    requires LocalInv(s) && TokenInv(s, k) && OwnerInv(s)
    requires Enabled(s, t, Continue) && !IsWake(s.th[t].pc)
    ensures LocalInv(StepOf(s, t))
  {
    if !StepOf(s, t).crashed {
      StepWeight(s, t);
      StepLocalSelf(s, t);
    }
  }

  // The token

  lemma StepTokenCall(s: State, k: Token, t: Tid, a: Act)
    requires LocalInv(s) && TokenInv(s, k) && s.count >= 0 && OwnerInv(s)
    requires Enabled(s, t, a) && !a.Continue? && !Next(s, t, a).crashed
    ensures TokenInv(Next(s, t, a), TokenAfter(s, k, t, a))
  {
  }

  lemma StepTokenWake(s: State, k: Token, t: Tid)
    requires LocalInv(s) && TokenInv(s, k) && RecordInv(s, k)
    requires Enabled(s, t, Continue) && IsWake(s.th[t].pc)
    ensures TokenInv(StepOf(s, t), TokenAfter(s, k, t, Continue))
  {
    assert BeingWoken(s, k, s.th[t].pc.o);
  }

  lemma StepTokenLock(s: State, k: Token, t: Tid)
    requires LocalInv(s) && TokenInv(s, k)
    requires Enabled(s, t, Continue) && IsLock(s.th[t].pc) && !StepOf(s, t).crashed
    requires s.count >= Weight(s.th[t])
    ensures TokenInv(StepOf(s, t), TokenAfter(s, k, t, Continue))
  {
  }

  lemma StepTokenUnlock(s: State, k: Token, t: Tid)
    requires LocalInv(s) && TokenInv(s, k)
    requires Enabled(s, t, Continue) && IsUnlock(s.th[t].pc) && !StepOf(s, t).crashed
    ensures TokenInv(StepOf(s, t), TokenAfter(s, k, t, Continue))
  {
  }

  lemma StepTokenOther(s: State, k: Token, t: Tid)
    requires LocalInv(s) && TokenInv(s, k) && s.count >= 0
    requires Enabled(s, t, Continue) && IsOther(s.th[t].pc) && !StepOf(s, t).crashed
    ensures TokenInv(StepOf(s, t), TokenAfter(s, k, t, Continue))
  {
  }

  // The counter and the sequence word

  lemma StepWeightCall(s: State, t: Tid, a: Act)
    requires LocalInv(s) && Enabled(s, t, a) && !a.Continue? && !a.CallSend? && !Next(s, t, a).crashed
    ensures var s' := Next(s, t, a);
            && s'.th == s.th[t := s'.th[t]]
            && s'.count - s.count == Weight(s'.th[t]) - Weight(s.th[t])
            && s'.sequence == s.sequence && s'.epoch == s.epoch && s'.handoff == s.handoff
  {
  }

  lemma StepWordsCall(s: State, t: Tid, a: Act)
    requires LocalInv(s) && WordsInv(s) && Enabled(s, t, a) && !a.Continue? && !Next(s, t, a).crashed
    ensures WordsInv(Next(s, t, a))
  {
    var s' := Next(s, t, a);
    if a.CallSend? {
      SumUpdate(s.th, a.t, s.th[a.t].(pc := Moved(t)));
      SumUpdate(s.th[a.t := s.th[a.t].(pc := Moved(t))], t, s'.th[t]);
    } else {
      StepWeightCall(s, t, a);
      SumUpdate(s.th, t, s'.th[t]);
    }
  }

  lemma StepWordsWake(s: State, t: Tid)
    requires WordsInv(s)
    requires Enabled(s, t, Continue) && IsWake(s.th[t].pc)
    ensures WordsInv(StepOf(s, t))
  {
    var o := s.th[t].pc.o;
    SumUpdate(s.th, o, s.th[o].(woken := true));
    var th := s.th[o := s.th[o].(woken := true)];
    SumUpdate(th, t, StepOf(s, t).th[t]);
    assert StepOf(s, t).th == th[t := StepOf(s, t).th[t]];
  }

  lemma StepWeight(s: State, t: Tid)
    requires LocalInv(s) && Enabled(s, t, Continue) && !IsWake(s.th[t].pc) && !StepOf(s, t).crashed
    ensures var s' := StepOf(s, t);
            && s'.th == s.th[t := s'.th[t]]
            && s'.count - s.count == Weight(s'.th[t]) - Weight(s.th[t])
  {
  }

  lemma StepSequence(s: State, t: Tid)
    requires s.sequence == SequenceAt(s.epoch) && (s.handoff != 0 ==> s.handoff == s.sequence)
    requires Enabled(s, t, Continue) && !IsWake(s.th[t].pc) && !StepOf(s, t).crashed
    ensures var s' := StepOf(s, t);
            && s'.sequence == SequenceAt(s'.epoch)
            && (s'.handoff != 0 ==> s'.handoff == s'.sequence)
  {
  }

  lemma StepWords(s: State, t: Tid)
    requires LocalInv(s) && WordsInv(s)
    requires Enabled(s, t, Continue) && !IsWake(s.th[t].pc) && !StepOf(s, t).crashed
    ensures WordsInv(StepOf(s, t))
  {
    StepWeight(s, t);
    StepSequence(s, t);
    SumUpdate(s.th, t, StepOf(s, t).th[t]);
  }

  // The owner word

  lemma StepOwnerCall(s: State, k: Token, t: Tid, a: Act)
    requires LocalInv(s) && OwnerInv(s) && Enabled(s, t, a) && !a.Continue? && !Next(s, t, a).crashed
    ensures OwnerInv(Next(s, t, a))
  {
  }

  lemma StepOwnerWake(s: State, k: Token, t: Tid)
    requires LocalInv(s) && OwnerInv(s) && Enabled(s, t, Continue) && IsWake(s.th[t].pc)
    ensures OwnerInv(StepOf(s, t))
  {
  }

  lemma StepOwner(s: State, k: Token, t: Tid)
    requires LocalInv(s) && TokenInv(s, k) && OwnerInv(s)
    requires Enabled(s, t, Continue) && !IsWake(s.th[t].pc) && !StepOf(s, t).crashed
    ensures OwnerInv(StepOf(s, t))
  {
  }

  // The records

  lemma PopMembers(q: seq<Tid>)
    requires q != [] && NoDup(q)
    ensures NoDup(q[1..])
    ensures forall t: Tid :: t in q[1..] <==> t in q && t != q[0]
  {
    assert q == [q[0]] + q[1..];
  }

  /** A step that moves no record. */
  ghost predicate Neutral(s: State, s': State, t: Tid)
  {
    && t < |s.th| == |s'.th|
    && s'.queue == s.queue && s'.th == s.th[t := s'.th[t]]
    && s'.th[t].woken == s.th[t].woken
    && Queued(s'.th[t].pc) == Queued(s.th[t].pc)
    && SleepyPc(s'.th[t].pc) == SleepyPc(s.th[t].pc)
    && !s.th[t].pc.Moved? && !s'.th[t].pc.Moved?
    && !s.th[t].pc.SendPush? && !s'.th[t].pc.SendPush?
  }

  lemma NeutralKeepsRecords(s: State, s': State, k: Token, k': Token, t: Tid)
    requires RecordInv(s, k) && Neutral(s, s', t)
    requires forall o: Tid :: BeingWoken(s', k', o) <==> BeingWoken(s, k, o)
    ensures RecordInv(s', k')
  {
    if k'.At? && k'.t < |s'.th| && IsWake(s'.th[k'.t].pc) {
      assert BeingWoken(s', k', s'.th[k'.t].pc.o);
    }
    forall u: Tid | u < |s'.th|
      ensures RecordOk(s', k', u)
    {
      assert RecordOk(s, k, u);
      assert BeingPushed(s', u) <==> BeingPushed(s, u);
    }
  }

  /** Program counters whose step moves a record from one place to another. */
  predicate MovesRecord(pc: Pc)
  {
    || pc.LockPush? || pc.LockCas? || pc.LockPop? || pc.LockSleep? || pc.Moved? || pc.SendPush?
    || pc.SendPop? || pc.UnlockPop? || IsWake(pc)
  }

  lemma StepRecordNeutral(s: State, k: Token, t: Tid)
    requires LocalInv(s) && TokenInv(s, k) && RecordInv(s, k)
    requires Enabled(s, t, Continue) && !StepOf(s, t).crashed && !MovesRecord(s.th[t].pc)
    ensures RecordInv(StepOf(s, t), TokenAfter(s, k, t, Continue))
  {
    StepWeight(s, t);
    NeutralKeepsRecords(s, StepOf(s, t), k, TokenAfter(s, k, t, Continue), t);
  }

  lemma StepRecordCas(s: State, k: Token, t: Tid)
    requires LocalInv(s) && TokenInv(s, k) && RecordInv(s, k)
    requires Enabled(s, t, Continue) && s.th[t].pc.LockCas?
    ensures RecordInv(StepOf(s, t), TokenAfter(s, k, t, Continue))
  {
    var s', k' := StepOf(s, t), TokenAfter(s, k, t, Continue);
    forall u: Tid | u < |s'.th|
      ensures RecordOk(s', k', u)
    {
      assert RecordOk(s, k, u);
      assert BeingPushed(s', u) <==> BeingPushed(s, u);
    }
  }

  lemma PushKeepsRecords(s: State, k: Token, t: Tid, o: Tid, pc: Pc)
    requires TokenInv(s, k) && RecordInv(s, k) && t < |s.th| && !s.th[t].woken
    requires (s.th[t].pc == LockPush && o == t && pc == LockLoad) || (s.th[t].pc == SendPush(o) && pc == SendLoad)
    ensures RecordInv(Goto(s.(queue := s.queue + [o]), t, pc), k)
  {
    var s' := Goto(s.(queue := s.queue + [o]), t, pc);
    assert RecordOk(s, k, t);
    assert RecordOk(s, k, o);
    forall u: Tid | u < |s'.th|
      ensures RecordOk(s', k, u)
    {
      assert RecordOk(s, k, u);
      assert BeingPushed(s', u) <==> BeingPushed(s, u) && u != o;
      assert u in s'.queue <==> u in s.queue || u == o;
      assert BeingWoken(s', k, u) <==> BeingWoken(s, k, u);
    }
  }

  lemma StepRecordPush(s: State, k: Token, t: Tid)
    requires LocalInv(s) && TokenInv(s, k) && RecordInv(s, k)
    requires Enabled(s, t, Continue) && (s.th[t].pc.LockPush? || s.th[t].pc.SendPush?)
    ensures RecordInv(StepOf(s, t), k)
  {
    if s.th[t].pc.LockPush? {
      PushKeepsRecords(s, k, t, t, LockLoad);
    } else {
      PushKeepsRecords(s, k, t, s.th[t].pc.t, SendLoad);
    }
  }

  lemma PopKeepsRecords(s: State, k: Token, t: Tid, pc: Pc)
    requires TokenInv(s, k) && RecordInv(s, k) && k == At(t) && s.queue != []
    requires s.th[t].pc == LockPop || s.th[t].pc == SendPop || s.th[t].pc.UnlockPop?
    requires pc == (if s.queue[0] == t then Acquire
                    else if s.th[t].pc.LockPop? then LockWake(s.queue[0])
                    else if s.th[t].pc.SendPop? then SendWake(s.queue[0]) else UnlockWake(s.queue[0]))
    ensures RecordInv(Goto(s.(queue := s.queue[1..]), t, pc), k)
  {
    var s' := Goto(s.(queue := s.queue[1..]), t, pc);
    PopMembers(s.queue);
    assert RecordOk(s, k, s.queue[0]);
    forall u: Tid | u < |s'.th|
      ensures RecordOk(s', k, u)
    {
      assert RecordOk(s, k, u);
      assert BeingPushed(s', u) <==> BeingPushed(s, u);
      assert BeingWoken(s', k, u) <==> u == s.queue[0] && u != t;
    }
  }

  lemma StepRecordPop(s: State, k: Token, t: Tid)
    requires LocalInv(s) && TokenInv(s, k) && RecordInv(s, k)
    requires Enabled(s, t, Continue) && (s.th[t].pc.LockPop? || s.th[t].pc.SendPop? || s.th[t].pc.UnlockPop?)
    requires !StepOf(s, t).crashed
    ensures RecordInv(StepOf(s, t), k)
  {
    assert HasToken(s.th[t]);
    if s.queue == [] {
      NeutralKeepsRecords(s, StepOf(s, t), k, k, t);
    } else {
      assert RecordOk(s, k, s.queue[0]);
      PopKeepsRecords(s, k, t, StepOf(s, t).th[t].pc);
    }
  }

  lemma StepRecordWake(s: State, k: Token, t: Tid)
    requires LocalInv(s) && TokenInv(s, k) && RecordInv(s, k)
    requires Enabled(s, t, Continue) && IsWake(s.th[t].pc)
    ensures RecordInv(StepOf(s, t), TokenAfter(s, k, t, Continue))
  {
    var s', k' := StepOf(s, t), TokenAfter(s, k, t, Continue);
    var o := s.th[t].pc.o;
    assert BeingWoken(s, k, o);
    assert RecordOk(s, k, o);
    forall u: Tid | u < |s'.th|
      ensures RecordOk(s', k', u)
    {
      assert RecordOk(s, k, u);
      assert BeingPushed(s', u) <==> BeingPushed(s, u);
    }
  }

  lemma StepRecordOwn(s: State, k: Token, t: Tid)
    requires LocalInv(s) && TokenInv(s, k) && RecordInv(s, k)
    requires Enabled(s, t, Continue) && (s.th[t].pc.LockSleep? || s.th[t].pc.Moved?)
    ensures RecordInv(StepOf(s, t), k)
  {
    var s' := StepOf(s, t);
    assert RecordOk(s, k, t);
    forall u: Tid | u < |s'.th|
      ensures RecordOk(s', k, u)
    {
      assert RecordOk(s, k, u);
      assert BeingPushed(s', u) <==> BeingPushed(s, u);
    }
  }

  lemma StepRecordSend(s: State, k: Token, t: Tid, o: Tid)
    requires LocalInv(s) && TokenInv(s, k) && RecordInv(s, k)
    requires Enabled(s, t, CallSend(o))
    ensures RecordInv(Next(s, t, CallSend(o)), TokenAfter(s, k, t, CallSend(o)))
  {
    var s', k' := Next(s, t, CallSend(o)), TokenAfter(s, k, t, CallSend(o));
    assert RecordOk(s, k, o);
    forall u: Tid | u < |s'.th|
      ensures RecordOk(s', k', u)
    {
      assert RecordOk(s, k, u);
      assert BeingPushed(s', u) <==> BeingPushed(s, u) || (u == o && s.count != 0);
    }
  }

  lemma StepRecordCall(s: State, k: Token, t: Tid, a: Act)
    requires LocalInv(s) && TokenInv(s, k) && RecordInv(s, k)
    requires Enabled(s, t, a) && !a.Continue? && !a.CallSend? && !Next(s, t, a).crashed
    ensures RecordInv(Next(s, t, a), TokenAfter(s, k, t, a))
  {
    StepWeightCall(s, t, a);
    NeutralKeepsRecords(s, Next(s, t, a), k, TokenAfter(s, k, t, a), t);
  }

  // The pending hand-off

  /** A witness that survives the step, or a new one. */
  lemma StepHandoff(s: State, k: Token, t: Tid)
    requires LocalInv(s) && TokenInv(s, k) && HandoffInv(s)
    requires Enabled(s, t, Continue) && !IsWake(s.th[t].pc) && !StepOf(s, t).crashed
    ensures HandoffInv(StepOf(s, t))
  {
    var s' := StepOf(s, t);
    StepWeight(s, t);
    if s'.handoff != 0 && s'.queue != [] {
      if s.th[t].pc.LockPush? || s.th[t].pc.SendPush? || s.th[t].pc.UnlockPublish? {
        assert WillCheck(s'.th[t].pc, s'.handoff);
      } else {
        assert s.handoff == s'.handoff && s.queue == s'.queue;
        var c: Tid :| c < |s.th| && WillCheck(s.th[c].pc, s.handoff);
        assert WillCheck(s'.th[c].pc, s'.handoff);
      }
    }
  }

  lemma StepHandoffWake(s: State, k: Token, t: Tid)
    requires TokenInv(s, k) && Enabled(s, t, Continue) && IsWake(s.th[t].pc)
    ensures HandoffInv(StepOf(s, t))
  {
  }

  lemma StepHandoffCall(s: State, k: Token, t: Tid, a: Act)
    requires HandoffInv(s) && Enabled(s, t, a) && !a.Continue? && !Next(s, t, a).crashed
    ensures HandoffInv(Next(s, t, a))
  {
    var s' := Next(s, t, a);
    if s'.handoff != 0 && s'.queue != [] {
      var c: Tid :| c < |s.th| && WillCheck(s.th[c].pc, s.handoff);
      assert WillCheck(s'.th[c].pc, s'.handoff);
    }
  }

  // What a send_lock() remembers

  lemma StepSeenNone(s: State, t: Tid)
    requires Enabled(s, t, Continue) && !IsWake(s.th[t].pc) && !StepOf(s, t).crashed
    requires !s.th[t].pc.SendLoad? && !s.th[t].pc.SendEmpty?
    requires !s.th[t].pc.UnlockPublish? && !s.th[t].pc.UnlockEmpty?
    ensures !Sees(StepOf(s, t).th[t].pc)
  {
  }

  lemma StepSeenOwn(s: State, t: Tid)
    requires s.sequence == SequenceAt(s.epoch) && (s.handoff != 0 ==> s.handoff == s.sequence && s.epoch > 0)
    requires Enabled(s, t, Continue) && !IsWake(s.th[t].pc) && SeenOk(s, s.th[t].pc)
    requires !StepOf(s, t).crashed
    ensures SeenOk(StepOf(s, t), StepOf(s, t).th[t].pc)
  {
    match s.th[t].pc {
      case SendLoad =>
      case SendEmpty(_, _) =>
      case UnlockPublish =>
      case UnlockEmpty(_, _) =>
      case _ => StepSeenNone(s, t);
    }
  }

  /** A step publishes a new number, or leaves an offered hand-off with no fewer records queued. */
  lemma StepSeenShared(s: State, k: Token, t: Tid)
    requires TokenInv(s, k) && Enabled(s, t, Continue) && !IsWake(s.th[t].pc) && !StepOf(s, t).crashed
    ensures var s' := StepOf(s, t);
            || s'.epoch == s.epoch + 1
            || (s'.epoch == s.epoch && (s'.handoff != 0 ==> s.handoff != 0 && (s.queue != [] ==> s'.queue != [])))
  {
  }

  lemma StepSeen(s: State, k: Token, t: Tid)
    requires LocalInv(s) && TokenInv(s, k) && WordsInv(s) && SeenInv(s)
    requires Enabled(s, t, Continue) && !IsWake(s.th[t].pc) && !StepOf(s, t).crashed
    ensures SeenInv(StepOf(s, t))
  {
    var s' := StepOf(s, t);
    StepWeight(s, t);
    StepSeenOwn(s, t);
    StepSeenShared(s, k, t);
    forall u: Tid | u < |s'.th|
      ensures SeenOk(s', s'.th[u].pc)
    {
      assert SeenOk(s, s.th[u].pc);
    }
  }

  lemma StepSeenWake(s: State, t: Tid)
    requires SeenInv(s) && Enabled(s, t, Continue) && IsWake(s.th[t].pc)
    ensures SeenInv(StepOf(s, t))
  {
  }

  lemma StepSeenCall(s: State, t: Tid, a: Act)
    requires SeenInv(s) && Enabled(s, t, a) && !a.Continue? && !Next(s, t, a).crashed
    ensures SeenInv(Next(s, t, a))
  {
  }

  // ----------------------------------------------------------------------------------------
  // Every run
  // ----------------------------------------------------------------------------------------

  lemma StepKeepsRecords(s: State, k: Token, t: Tid, a: Act)
    requires LocalInv(s) && TokenInv(s, k) && RecordInv(s, k)
    requires Enabled(s, t, a) && !Next(s, t, a).crashed
    ensures RecordInv(Next(s, t, a), TokenAfter(s, k, t, a))
  {
    if a.CallSend? {
      StepRecordSend(s, k, t, a.t);
    } else if !a.Continue? {
      StepRecordCall(s, k, t, a);
    } else {
      var pc := s.th[t].pc;
      if !MovesRecord(pc) {
        StepRecordNeutral(s, k, t);
      } else if pc.LockCas? {
        StepRecordCas(s, k, t);
      } else if pc.LockPush? || pc.SendPush? {
        StepRecordPush(s, k, t);
      } else if pc.LockSleep? || pc.Moved? {
        StepRecordOwn(s, k, t);
      } else if IsWake(pc) {
        StepRecordWake(s, k, t);
      } else {
        StepRecordPop(s, k, t);
      }
    }
  }

  lemma StepKeepsToken(s: State, k: Token, t: Tid, a: Act)
    requires Inv(s, k) && Enabled(s, t, a) && !Next(s, t, a).crashed
    ensures TokenInv(Next(s, t, a), TokenAfter(s, k, t, a))
  {
    SumAtLeast(s.th, t);
    if !a.Continue? {
      StepTokenCall(s, k, t, a);
    } else if IsWake(s.th[t].pc) {
      StepTokenWake(s, k, t);
    } else if IsLock(s.th[t].pc) {
      StepTokenLock(s, k, t);
    } else if IsUnlock(s.th[t].pc) {
      StepTokenUnlock(s, k, t);
    } else {
      StepTokenOther(s, k, t);
    }
  }

  lemma StepKeepsInv(s: State, k: Token, t: Tid, a: Act)
    requires Inv(s, k) && Enabled(s, t, a) && !Next(s, t, a).crashed
    ensures Inv(Next(s, t, a), TokenAfter(s, k, t, a))
  {
    StepKeepsToken(s, k, t, a);
    StepKeepsRecords(s, k, t, a);
    if !a.Continue? {
      StepLocalCall(s, k, t, a);
      StepWordsCall(s, t, a);
      StepOwnerCall(s, k, t, a);
      StepHandoffCall(s, k, t, a);
      StepSeenCall(s, t, a);
    } else if IsWake(s.th[t].pc) {
      StepLocalWake(s, k, t);
      StepWordsWake(s, t);
      StepOwnerWake(s, k, t);
      StepHandoffWake(s, k, t);
      StepSeenWake(s, t);
    } else {
      StepLocal(s, k, t);
      StepWords(s, t);
      StepOwner(s, k, t);
      StepHandoff(s, k, t);
      StepSeen(s, k, t);
    }
  }

  datatype Move = Move(t: Tid, a: Act)

  /** `run` is a run of any number of threads from the initial state, one atomic step per move. */
  ghost predicate IsRun(run: seq<State>, moves: seq<Move>)
  {
    && |run| == |moves| + 1 && Init(run[0])
    && forall i: nat :: i < |moves| ==>
         && Enabled(run[i], moves[i].t, moves[i].a)
         && run[i + 1] == Next(run[i], moves[i].t, moves[i].a)
  }

  lemma {:induction false} RunKeepsInv(run: seq<State>, moves: seq<Move>, i: nat) returns (k: Token)
    requires IsRun(run, moves) && i < |run| && !run[i].crashed
    ensures Inv(run[i], k)
  {
    if i == 0 {
      InitHolds(run[0]);
      k := Free;
    } else {
      var m := moves[i - 1];
      var k0 := RunKeepsInv(run, moves, i - 1);
      StepKeepsInv(run[i - 1], k0, m.t, m.a);
      k := TokenAfter(run[i - 1], k0, m.t, m.a);
    }
  }

  /** Mutual exclusion, and what the words of the mutex mean, in every reachable state. */
  lemma MutualExclusion(run: seq<State>, moves: seq<Move>, i: nat)
    requires IsRun(run, moves) && i < |run| && !run[i].crashed
    ensures var s := run[i];
            && (forall t: Tid, u: Tid :: t < |s.th| && u < |s.th| && s.th[t].holds && s.th[u].holds ==> t == u)
            && (forall t: Tid :: t < |s.th| ==> (s.owner == t <==> s.th[t].holds && !s.th[t].pc.UnlockCount?))
            && s.count == Sum(s.th)
  {
    var k := RunKeepsInv(run, moves, i);
    assert forall t: Tid :: t < |run[i].th| && run[i].th[t].holds ==> HasToken(run[i].th[t]);
  }

  /** In lock(), in try_lock(), or asleep on a record that send_lock() was given. */
  predicate InLock(pc: Pc)
  {
    || pc.LockOwner? || pc.LockRecurse? || pc.LockPush? || pc.LockLoad? || pc.LockEmpty? || pc.LockCas? || pc.LockPop?
    || pc.LockWake? || pc.LockSleep?
  }

  predicate InTryLock(pc: Pc) { pc.TryOwner? || pc.TryLoad? || pc.TryCas? || pc.TryAdd? }

  /** A call of lock() or receive_lock() that returns has the mutex; so has a try_lock() that returns true, which is one
      that does not return from where it looked at the hand-off. */
  predicate ReturnsLocked(pc: Pc, pc': Pc)
  {
    pc'.Idle? && (InLock(pc) || pc.Acquire? || pc.Moved? || (InTryLock(pc) && !pc.TryLoad? && !pc.TryCas?))
  }

  /** What one move does to the number of times that thread u has the mutex, by its calls and their returns. */
  function Gain(s: State, m: Move, u: Tid): (d: int)
    requires Enabled(s, m.t, m.a) && u < |s.th| == |Next(s, m.t, m.a).th|
  {
    if u != m.t then 0
    else
      match m.a
      case CallUnlock => -1
      case Continue => if ReturnsLocked(s.th[u].pc, Next(s, m.t, m.a).th[u].pc) then 1 else 0
      case _ => 0
  }

  /** Calls of thread u that returned with the mutex, less its calls of unlock(), in the first n moves of a run. */
  ghost function HoldsAfter(run: seq<State>, moves: seq<Move>, n: nat, u: Tid): (h: int)
    requires IsRun(run, moves) && n < |run|
  {
    if n == 0 then 0
    else
      var s, m := run[n - 1], moves[n - 1];
      HoldsAfter(run, moves, n - 1, u) + if u < |s.th| == |Next(s, m.t, m.a).th| then Gain(s, m, u) else 0
  }

  /** How often the words of the mutex say that thread u has it. */
  function HeldBy(s: State, u: Tid): (h: nat) { if s.owner == u then s.depth else 0 }

  /** unlock() goes on with the hand-over only when no hold is left. */
  predicate LastUnlock(s: State, u: Tid)
  {
    u < |s.th| && s.th[u].pc.UnlockOwner? ==> s.depth == 0
  }

  lemma StaysLast(s: State, k: Token, m: Move, u: Tid)
    requires Inv(s, k) && Enabled(s, m.t, m.a) && u < |s.th| && LastUnlock(s, u)
    ensures LastUnlock(Next(s, m.t, m.a), u)
  {
    assert LocalOk(s.th[m.t]) && LocalOk(s.th[u]);
    assert HasToken(s.th[m.t]) <==> k == At(m.t);
    assert HasToken(s.th[u]) <==> k == At(u);
  }

  /** The moves of another thread leave the holds of u alone: to take the mutex it must have the token. */
  lemma OthersKeepDepth(s: State, k: Token, m: Move, u: Tid)
    requires Inv(s, k) && Enabled(s, m.t, m.a) && u < |s.th| && u != m.t
    ensures |Next(s, m.t, m.a).th| == |s.th| && HeldBy(Next(s, m.t, m.a), u) == HeldBy(s, u)
  {
    assert LocalOk(s.th[m.t]) && LocalOk(s.th[u]);
    assert HasToken(s.th[m.t]) <==> k == At(m.t);
    assert HasToken(s.th[u]) <==> k == At(u);
  }

  lemma GainsDepth(s: State, k: Token, m: Move)
    requires Inv(s, k) && Enabled(s, m.t, m.a) && LastUnlock(s, m.t) && !Next(s, m.t, m.a).crashed
    ensures |Next(s, m.t, m.a).th| == |s.th|
    ensures HeldBy(Next(s, m.t, m.a), m.t) == HeldBy(s, m.t) + Gain(s, m, m.t)
  {
    assert LocalOk(s.th[m.t]);
    assert HasToken(s.th[m.t]) <==> k == At(m.t);
  }

  lemma {:induction false} RunGains(run: seq<State>, moves: seq<Move>, n: nat, u: Tid)
    requires IsRun(run, moves) && n < |run| && !run[n].crashed && u < |run[0].th|
    ensures |run[n].th| == |run[0].th| && HeldBy(run[n], u) == HoldsAfter(run, moves, n, u) && LastUnlock(run[n], u)
  {
    if n > 0 {
      assert Enabled(run[n - 1], moves[n - 1].t, moves[n - 1].a);
      RunGains(run, moves, n - 1, u);
      var k := RunKeepsInv(run, moves, n - 1);
      if u == moves[n - 1].t {
        GainsDepth(run[n - 1], k, moves[n - 1]);
      } else {
        OthersKeepDepth(run[n - 1], k, moves[n - 1], u);
      }
      StaysLast(run[n - 1], k, moves[n - 1], u);
    }
  }

  /** The mutex is recursive and exclusive by the calls made: at any time at most one thread has locked it more often
      than it has called unlock(). That thread is the owner, `depth` is by how much, and it is not waiting. Only a
      thread that is counted so may call unlock(). */
  lemma LocksAreCounted(run: seq<State>, moves: seq<Move>, n: nat, u: Tid)
    requires IsRun(run, moves) && n < |run| && !run[n].crashed && u < |run[0].th|
    ensures |run[n].th| == |run[0].th|
    ensures var s, h := run[n], HoldsAfter(run, moves, n, u);
            && h >= 0
            && (h > 0 <==> s.owner == u && !s.th[u].pc.UnlockOwner?) && (s.owner == u ==> s.depth == h)
            && (h > 0 ==> forall w: Tid :: w < |s.th| && w != u ==> HoldsAfter(run, moves, n, w) == 0)
            && (h > 0 ==> !Queued(s.th[u].pc) && !s.th[u].pc.LockPush? && !s.th[u].pc.TryLoad?)
            && (s.th[u].pc.Idle? ==> (Enabled(s, u, CallUnlock) <==> h > 0))
  {
    var s := run[n];
    var k := RunKeepsInv(run, moves, n);
    RunGains(run, moves, n, u);
    assert LocalOk(s.th[u]) && (s.th[u].pc.UnlockOwner? ==> s.th[u].holds);
    forall w: Tid | w < |s.th| && w != u && s.owner == u
      ensures HoldsAfter(run, moves, n, w) == 0
    {
      RunGains(run, moves, n, w);
    }
  }

  /** The right to pop the wait queue is in exactly one place while count > 0, and nowhere otherwise. */
  lemma OneToken(run: seq<State>, moves: seq<Move>, i: nat) returns (k: Token)
    requires IsRun(run, moves) && i < |run| && !run[i].crashed
    ensures k.Free? <==> run[i].count == 0
    ensures k.Handoff? <==> run[i].handoff != 0
    ensures forall t: Tid :: t < |run[i].th| ==> (HasToken(run[i].th[t]) <==> k == At(t))
    ensures k.At? ==> k.t < |run[i].th|
  {
    k := RunKeepsInv(run, moves, i);
  }

  lemma LockPopsARecord(s: State, k: Token, t: Tid)
    requires Inv(s, k) && t < |s.th| && s.th[t].pc.LockPop?
    ensures t in s.queue && !s.th[t].woken
  {
    assert RecordOk(s, k, t);
  }

  lemma CrashingStep(s: State, k: Token, t: Tid, a: Act)
    requires Inv(s, k) && Enabled(s, t, a) && Next(s, t, a).crashed
    ensures a.Continue? && s.th[t].pc.SendPop? && s.queue == []
  {
    if s.th[t].pc.LockPop? {
      LockPopsARecord(s, k, t);
    }
    assert RecordOk(s, k, t);
  }

  /** An assert() can fail only at the pop of send_lock(): those of lock() and unlock() hold in every
      interleaving, even when the 32-bit sequence number wraps around. */
  lemma OnlySendPopCrashes(run: seq<State>, moves: seq<Move>, i: nat)
    requires IsRun(run, moves) && i < |moves| && run[i + 1].crashed
    ensures moves[i].a.Continue? && run[i].th[moves[i].t].pc.SendPop? && run[i].queue == []
  {
    var k := RunKeepsInv(run, moves, i);
    CrashingStep(run[i], k, moves[i].t, moves[i].a);
  }

  /** A sender did not sleep, between reading `handoff` and trying to take it, through a whole cycle of
      the sequence number. */
  predicate Timely(s: State, t: Tid, a: Act)
  {
    t < |s.th| && a.Continue? && s.th[t].pc.SendCas? ==> s.epoch - s.th[t].pc.e < WORD - 1
  }

  ghost predicate SendersSafe(s: State)
  {
    forall t: Tid :: t < |s.th| && s.th[t].pc.SendPop? ==> s.queue != []
  }

  /** The sequence number runs through 1, 2, ..., 2^32 - 1 and starts over. */
  lemma {:induction false} SequenceCycles(e: nat)
    requires e > 0
    ensures SequenceAt(e) == 1 + (e - 1) % (WORD - 1)
  {
    if e > 1 { SequenceCycles(e - 1); }
  }

  lemma SameSequenceSameEpoch(e: nat, f: nat)
    requires 1 <= e <= f && f - e < WORD - 1 && SequenceAt(e) == SequenceAt(f)
    ensures e == f
  {
    SequenceCycles(e);
    SequenceCycles(f);
  }

  lemma StepKeepsSendersSafe(s: State, k: Token, t: Tid, a: Act)
    requires Inv(s, k) && SendersSafe(s) && Enabled(s, t, a) && Timely(s, t, a)
    ensures SendersSafe(Next(s, t, a)) && !Next(s, t, a).crashed
  {
    var s' := Next(s, t, a);
    if s'.crashed { CrashingStep(s, k, t, a); }
    forall u: Tid | u < |s'.th| && s'.th[u].pc.SendPop?
      ensures s'.queue != []
    {
      if s.th[u].pc.SendPop? {
        assert k == At(u);
      } else {
        assert u == t && s.th[t].pc.SendCas? && s.handoff == s.th[t].pc.h;
        SameSequenceSameEpoch(s.th[t].pc.e, s.epoch);
      }
    }
  }

  lemma TimelyMove(run: seq<State>, moves: seq<Move>, i: nat)
    requires IsRun(run, moves) && i < |moves| && !run[i].crashed && SendersSafe(run[i])
    requires Timely(run[i], moves[i].t, moves[i].a)
    ensures !run[i + 1].crashed && SendersSafe(run[i + 1])
  {
    var k := RunKeepsInv(run, moves, i);
    StepKeepsSendersSafe(run[i], k, moves[i].t, moves[i].a);
  }

  /** With timely senders no assert() fails in any run. */
  lemma {:induction false} TimelyRunNeverCrashes(run: seq<State>, moves: seq<Move>, i: nat)
    requires IsRun(run, moves) && i < |run|
    requires forall j: nat :: j < |moves| ==> Timely(run[j], moves[j].t, moves[j].a)
    ensures !run[i].crashed && SendersSafe(run[i])
  {
    if i > 0 {
      TimelyRunNeverCrashes(run, moves, i - 1);
      TimelyMove(run, moves, i - 1);
    }
  }

  /** The unlock() of t takes its own hand-off back before the sequence number has come round. */
  predicate TimelyUnlock(s: State, t: Tid, a: Act)
  {
    t < |s.th| && a.Continue? && s.th[t].pc.UnlockCas? ==> s.epoch - s.th[t].pc.e < WORD - 1
  }

  ghost predicate SecondPopFinds(s: State)
  {
    forall t: Tid :: t < |s.th| && s.th[t].pc == UnlockPop(true) ==> s.queue != []
  }

  lemma StepKeepsSecondPop(s: State, k: Token, t: Tid, a: Act)
    requires Inv(s, k) && SecondPopFinds(s) && Enabled(s, t, a) && TimelyUnlock(s, t, a)
    requires !Next(s, t, a).crashed
    ensures SecondPopFinds(Next(s, t, a))
  {
    var s' := Next(s, t, a);
    forall u: Tid | u < |s'.th| && s'.th[u].pc == UnlockPop(true)
      ensures s'.queue != []
    {
      if s.th[u].pc == UnlockPop(true) {
        assert k == At(u);
      } else {
        assert u == t && s.th[t].pc.UnlockCas? && s.handoff == s.th[t].pc.h;
        SameSequenceSameEpoch(s.th[t].pc.e, s.epoch);
      }
    }
  }

  lemma TimelyUnlockMove(run: seq<State>, moves: seq<Move>, i: nat)
    requires IsRun(run, moves) && i < |moves| && !run[i + 1].crashed && SecondPopFinds(run[i])
    requires TimelyUnlock(run[i], moves[i].t, moves[i].a)
    ensures SecondPopFinds(run[i + 1])
  {
    assert Enabled(run[i], moves[i].t, moves[i].a);
    var k := RunKeepsInv(run, moves, i);
    StepKeepsSecondPop(run[i], k, moves[i].t, moves[i].a);
  }

  /** The loop of unlock() runs at most twice when unlockers are timely: a second round always finds a record
      to pop, so it returns and never publishes another hand-off. */
  lemma {:induction false} UnlockLoopsAtMostTwice(run: seq<State>, moves: seq<Move>, i: nat)
    requires IsRun(run, moves) && i < |run| && !run[i].crashed
    requires forall j: nat :: j < |moves| ==> TimelyUnlock(run[j], moves[j].t, moves[j].a)
    ensures SecondPopFinds(run[i])
  {
    if i > 0 {
      assert Enabled(run[i - 1], moves[i - 1].t, moves[i - 1].a);
      UnlockLoopsAtMostTwice(run, moves, i - 1);
      TimelyUnlockMove(run, moves, i - 1);
    }
  }

  /** No lost wake-up: while a hand-off is on offer and a record is queued, some thread has still to look
      at that very hand-off. */
  lemma NoLostWakeup(run: seq<State>, moves: seq<Move>, i: nat)
    requires IsRun(run, moves) && i < |run| && !run[i].crashed
    requires run[i].handoff != 0 && run[i].queue != []
    ensures exists t: Tid :: t < |run[i].th| && WillCheck(run[i].th[t].pc, run[i].handoff)
  {
    var k := RunKeepsInv(run, moves, i);
  }

  lemma SomeWeight(th: seq<Thread>) returns (t: Tid)
    requires Sum(th) > 0
    ensures t < |th| && Weight(th[t]) > 0
  {
    if forall u: Tid :: u < |th| ==> Weight(th[u]) == 0 {
      SumZero(th);
    }
    t :| t < |th| && Weight(th[t]) > 0;
  }

  /** No thread sleeps for ever: while anybody waits for the mutex or holds it, some thread can take a
      step of its own, or is the holder and may unlock. */
  lemma NeverStuck(run: seq<State>, moves: seq<Move>, i: nat) returns (t: Tid)
    requires IsRun(run, moves) && i < |run| && !run[i].crashed && run[i].count > 0
    ensures Enabled(run[i], t, Continue) || Enabled(run[i], t, CallUnlock)
  {
    var s := run[i];
    var k := RunKeepsInv(run, moves, i);
    if k.At? {
      t := k.t;
      assert HasToken(s.th[t]);
    } else if s.queue != [] {
      t :| t < |s.th| && WillCheck(s.th[t].pc, s.handoff);
    } else {
      t := SomeWeight(s.th);
      assert RecordOk(s, k, t) && !HasToken(s.th[t]);
      if s.th[t].pc.Moved? {
        t := s.th[t].pc.giver;
      }
    }
  }

  // ----------------------------------------------------------------------------------------
  // An untimely sender, and an untimely unlocker
  // ----------------------------------------------------------------------------------------

  /** Some run leads to s. */
  ghost predicate Reachable(s: State)
  {
    exists run: seq<State>, moves: seq<Move> :: IsRun(run, moves) && run[|run| - 1] == s
  }

  lemma Go(s: State, t: Tid, a: Act)
    requires Reachable(s) && Enabled(s, t, a)
    ensures Reachable(Next(s, t, a))
  {
    var run, moves :| IsRun(run, moves) && run[|run| - 1] == s;
    var run', moves' := run + [Next(s, t, a)], moves + [Move(t, a)];
    assert IsRun(run', moves') && run'[|run'| - 1] == Next(s, t, a);
  }

  /** A thread outside all operations, one that holds the mutex, and one at pc. */
  const REST := Thread(Idle, false, false)

  const HOLDER := Thread(Idle, true, false)

  function Busy(pc: Pc): (x: Thread) { Thread(pc, false, false) }

  function Unlocking(pc: Pc): (x: Thread) { Thread(pc, true, false) }

  /** The owner gives the mutex up, up to its look at the wait queue. */
  lemma UnlockStarts(s: State, t: Tid)
    requires Reachable(s) && !s.crashed && t < |s.th| && s.th[t] == HOLDER && s.owner == t && s.depth == 1
             && s.count > 1
    ensures Reachable(s.(count := s.count - 1, owner := NOBODY, depth := 0, th := s.th[t := Busy(UnlockPop(false))]))
  {
    Go(s, t, CallUnlock);
    var s1 := s.(depth := 0, th := s.th[t := Unlocking(UnlockOwner)]);
    Go(s1, t, Continue);
    var s2 := s1.(owner := NOBODY, th := s.th[t := Unlocking(UnlockCount)]);
    Go(s2, t, Continue);
    assert Next(s2, t, Continue) == s2.(count := s.count - 1, th := s.th[t := Busy(UnlockPop(false))]);
  }

  /** The owner unlocks, finds nobody queued, and publishes a hand-off because somebody is still counted. */
  lemma UnlockPublishes(s: State, t: Tid)
    requires Reachable(s) && !s.crashed && t < |s.th| && s.th[t] == HOLDER && s.owner == t && s.depth == 1
    requires s.queue == [] && s.count > 1
    ensures var q := NextSequence(s.sequence);
            Reachable(State(s.count - 1, NOBODY, 0, q, q, s.epoch + 1, [], s.th[t := REST], false))
  {
    UnlockStarts(s, t);
    var s3 := s.(count := s.count - 1, owner := NOBODY, depth := 0, th := s.th[t := Busy(UnlockPop(false))]);
    Go(s3, t, Continue);
    var s4 := s3.(th := s.th[t := Busy(UnlockPublish)]);
    Go(s4, t, Continue);
    var q := NextSequence(s.sequence);
    var s5 := s4.(sequence := q, handoff := q, epoch := s.epoch + 1,
                  th := s.th[t := Busy(UnlockEmpty(q, s.epoch + 1))]);
    Go(s5, t, Continue);
    assert Next(s5, t, Continue) == State(s.count - 1, NOBODY, 0, q, q, s.epoch + 1, [], s.th[t := REST], false);
  }

  lemma TryStarts(s: State, t: Tid)
    requires Reachable(s) && !s.crashed && t < |s.th| && s.th[t] == REST && s.owner == NOBODY && s.count > 0
             && s.handoff != 0
    ensures Reachable(s.(th := s.th[t := Busy(TryCas(s.handoff))]))
  {
    Go(s, t, CallTryLock);
    var s1 := s.(th := s.th[t := Busy(TryOwner)]);
    Go(s1, t, Continue);
    var s2 := s.(th := s.th[t := Busy(TryLoad)]);
    Go(s2, t, Continue);
    assert Next(s2, t, Continue) == s.(th := s.th[t := Busy(TryCas(s.handoff))]);
  }

  /** try_lock() takes a hand-off that is on offer. */
  lemma TryTakes(s: State, t: Tid)
    requires Reachable(s) && !s.crashed && t < |s.th| && s.th[t] == REST && s.owner == NOBODY && s.count > 0
             && s.handoff != 0
    ensures Reachable(s.(count := s.count + 1, handoff := 0, owner := t, depth := 1, th := s.th[t := HOLDER]))
  {
    TryStarts(s, t);
    var s3 := s.(th := s.th[t := Busy(TryCas(s.handoff))]);
    Go(s3, t, Continue);
    var s4 := s.(handoff := 0, th := s.th[t := Busy(TryAdd)]);
    Go(s4, t, Continue);
    var s5 := s4.(count := s.count + 1, th := s.th[t := Busy(Acquire)]);
    Go(s5, t, Continue);
    assert Next(s5, t, Continue)
        == s.(count := s.count + 1, handoff := 0, owner := t, depth := 1, th := s.th[t := HOLDER]);
  }

  /** Thread 0 is about to compare-and-swap the first hand-off, thread 3 is counted and not queued. */
  function Asleep(e: nat, pc: Pc): (s: State)
  {
    State(1, NOBODY, 0, SequenceAt(e), SequenceAt(e), e, [], [Busy(pc), REST, REST, Busy(LockPush)], false)
  }

  /** While thread 0 sleeps, thread 1 can lock and unlock over and over, each time with a new hand-off. */
  lemma {:induction false} Cycles(e: nat, pc: Pc)
    requires e >= 2 && Reachable(Asleep(2, pc))
    ensures Reachable(Asleep(e, pc))
    decreases e
  {
    if e > 2 {
      Cycles(e - 1, pc);
      var s := Asleep(e - 1, pc);
      SequenceCycles(e - 1);
      TryTakes(s, 1);
      var s1 := s.(count := 2, handoff := 0, owner := 1, depth := 1, th := s.th[1 := HOLDER]);
      UnlockPublishes(s1, 1);
      assert s1.th[1 := REST] == s.th;
    }
  }

  /** Thread 1 took the first hand-off while the record of thread 2 is queued. On unlock it pops the record and
      wakes thread 2. */
  lemma RecordPopped(pc: Pc, sleep: Pc)
    requires Reachable(State(3, 1, 1, 0, 1, 1, [2], [Busy(pc), HOLDER, Busy(sleep), Busy(LockPush)], false))
    ensures Reachable(State(2, NOBODY, 0, 0, 1, 1, [],
                            [Busy(pc), REST, Thread(sleep, false, true), Busy(LockPush)], false))
  {
    var s1 := State(3, 1, 1, 0, 1, 1, [2], [Busy(pc), HOLDER, Busy(sleep), Busy(LockPush)], false);
    UnlockStarts(s1, 1);
    var s4 := s1.(count := 2, owner := NOBODY, depth := 0, th := s1.th[1 := Busy(UnlockPop(false))]);
    Go(s4, 1, Continue);
    var s5 := s4.(queue := [], th := s1.th[1 := Busy(UnlockWake(2))]);
    Go(s5, 1, Continue);
    assert Next(s5, 1, Continue).th == [Busy(pc), REST, Thread(sleep, false, true), Busy(LockPush)];
  }

  /** Then thread 2 gets the mutex, unlocks, and publishes the second hand-off. */
  lemma RecordServed(pc: Pc, sleep: Pc)
    requires sleep == Moved(0) || sleep == LockSleep
    requires Reachable(State(3, 1, 1, 0, 1, 1, [2], [Busy(pc), HOLDER, Busy(sleep), Busy(LockPush)], false))
    ensures Reachable(Asleep(2, pc))
  {
    RecordPopped(pc, sleep);
    var s6 := State(2, NOBODY, 0, 0, 1, 1, [],
                    [Busy(pc), REST, Thread(sleep, false, true), Busy(LockPush)], false);
    Go(s6, 2, Continue);
    var s7 := s6.(owner := 2, depth := 1, th := [Busy(pc), REST, HOLDER, Busy(LockPush)]);
    assert Next(s6, 2, Continue) == s7;
    UnlockPublishes(s7, 2);
    assert s7.th[2 := REST] == Asleep(2, pc).th;
  }

  /** Thread 2 waits on a condition variable and thread 1 holds the mutex. */
  lemma FirstHolder()
    ensures Reachable(State(1, 1, 1, 0, 0, 0, [], [REST, HOLDER, Busy(Parked), REST], false))
  {
    var s := State(0, NOBODY, 0, 0, 0, 0, [], [REST, REST, REST, REST], false);
    assert IsRun([s], []) && [s][|[s]| - 1] == s;
    Go(s, 2, Park);
    var s1 := s.(th := [REST, REST, Busy(Parked), REST]);
    Go(s1, 1, CallLock);
    var s2 := s1.(count := 1, th := [REST, Busy(Acquire), Busy(Parked), REST]);
    Go(s2, 1, Continue);
    assert Next(s2, 1, Continue) == s2.(owner := 1, depth := 1, th := [REST, HOLDER, Busy(Parked), REST]);
  }

  /** Thread 1 holds the mutex, thread 3 is counted, and thread 0 is about to push the record of thread 2. */
  lemma SenderPushes()
    ensures Reachable(State(3, 1, 1, 0, 0, 0, [], [Busy(SendPush(2)), HOLDER, Busy(Moved(0)), Busy(LockPush)], false))
  {
    FirstHolder();
    var s3 := State(1, 1, 1, 0, 0, 0, [], [REST, HOLDER, Busy(Parked), REST], false);
    Go(s3, 3, CallLock);
    var s4 := s3.(count := 2, th := [REST, HOLDER, Busy(Parked), Busy(LockOwner)]);
    Go(s4, 3, Continue);
    var s5 := s4.(th := [REST, HOLDER, Busy(Parked), Busy(LockPush)]);
    Go(s5, 0, CallSend(2));
    assert Next(s5, 0, CallSend(2))
        == s5.(count := 3, th := [Busy(SendPush(2)), HOLDER, Busy(Moved(0)), Busy(LockPush)]);
  }

  /** Thread 0 has read the first hand-off and seen its record queued. */
  lemma SenderReads()
    ensures Reachable(State(2, NOBODY, 0, 1, 1, 1, [2], [Busy(SendCas(1, 1)), REST, Busy(Moved(0)), Busy(LockPush)],
                            false))
  {
    SenderPushes();
    var s := State(3, 1, 1, 0, 0, 0, [], [Busy(SendPush(2)), HOLDER, Busy(Moved(0)), Busy(LockPush)], false);
    UnlockPublishes(s, 1);
    assert s.th[1 := REST] == [Busy(SendPush(2)), REST, Busy(Moved(0)), Busy(LockPush)];
    var s1 := State(2, NOBODY, 0, 1, 1, 1, [], [Busy(SendPush(2)), REST, Busy(Moved(0)), Busy(LockPush)], false);
    Go(s1, 0, Continue);
    var s2 := s1.(queue := [2], th := [Busy(SendLoad), REST, Busy(Moved(0)), Busy(LockPush)]);
    Go(s2, 0, Continue);
    var s3 := s2.(th := [Busy(SendEmpty(1, 1)), REST, Busy(Moved(0)), Busy(LockPush)]);
    Go(s3, 0, Continue);
    assert Next(s3, 0, Continue) == s3.(th := [Busy(SendCas(1, 1)), REST, Busy(Moved(0)), Busy(LockPush)]);
  }

  /** The bound on timely senders is tight: a sender that sleeps through exactly one cycle of the 32-bit sequence
      number finds its hand-off back, takes it, and its assert() fails on the empty queue. */
  lemma UntimelySenderCrashes()
    ensures var s := Asleep(WORD, SendCas(1, 1));
            Reachable(s) && s.epoch - s.th[0].pc.e == WORD - 1
    ensures exists s: State :: Reachable(s) && s.crashed
  {
    SenderReads();
    var s0 := State(2, NOBODY, 0, 1, 1, 1, [2], [Busy(SendCas(1, 1)), REST, Busy(Moved(0)), Busy(LockPush)], false);
    TryTakes(s0, 1);
    assert s0.th[1 := HOLDER] == [Busy(SendCas(1, 1)), HOLDER, Busy(Moved(0)), Busy(LockPush)];
    RecordServed(SendCas(1, 1), Moved(0));
    Cycles(WORD, SendCas(1, 1));
    SequenceCycles(WORD);
    var s := Asleep(WORD, SendCas(1, 1));
    Go(s, 0, Continue);
    var s1 := s.(handoff := 0, th := s.th[0 := Busy(SendPop)]);
    assert Next(s, 0, Continue) == s1;
    Go(s1, 0, Continue);
    assert Next(s1, 0, Continue).crashed;
  }

  /** A thread whose lock() finds the mutex taken gets as far as pushing its record. */
  lemma LockStarts(s: State, t: Tid)
    requires Reachable(s) && !s.crashed && t < |s.th| && s.th[t] == REST && s.count > 0 && s.owner != t
    ensures Reachable(s.(count := s.count + 1, th := s.th[t := Busy(LockPush)]))
  {
    Go(s, t, CallLock);
    var s1 := s.(count := s.count + 1, th := s.th[t := Busy(LockOwner)]);
    assert Next(s, t, CallLock) == s1;
    Go(s1, t, Continue);
    assert Next(s1, t, Continue) == s.(count := s.count + 1, th := s.th[t := Busy(LockPush)]);
  }

  /** Thread 0 holds the mutex, threads 2 and 3 are counted and not queued. */
  lemma TwoCounted()
    ensures Reachable(State(3, 0, 1, 0, 0, 0, [], [HOLDER, REST, Busy(LockPush), Busy(LockPush)], false))
  {
    var s := State(0, NOBODY, 0, 0, 0, 0, [], [REST, REST, REST, REST], false);
    assert IsRun([s], []) && [s][|[s]| - 1] == s;
    Go(s, 0, CallLock);
    var s1 := s.(count := 1, th := [Busy(Acquire), REST, REST, REST]);
    Go(s1, 0, Continue);
    var s2 := s1.(owner := 0, depth := 1, th := [HOLDER, REST, REST, REST]);
    assert Next(s1, 0, Continue) == s2;
    LockStarts(s2, 2);
    var s3 := s2.(count := 2, th := [HOLDER, REST, Busy(LockPush), REST]);
    LockStarts(s3, 3);
    assert s3.th[3 := Busy(LockPush)] == [HOLDER, REST, Busy(LockPush), Busy(LockPush)];
  }

  /** Thread 0 unlocks, publishes, and then sees the record that thread 2 pushes. */
  lemma UnlockerSees()
    ensures Reachable(State(2, NOBODY, 0, 1, 1, 1, [2], [Busy(UnlockCas(1, 1)), REST, Busy(LockLoad), Busy(LockPush)],
                            false))
  {
    TwoCounted();
    var s := State(3, 0, 1, 0, 0, 0, [], [HOLDER, REST, Busy(LockPush), Busy(LockPush)], false);
    UnlockStarts(s, 0);
    var s1 := s.(count := 2, owner := NOBODY, depth := 0, th := s.th[0 := Busy(UnlockPop(false))]);
    Go(s1, 0, Continue);
    var s2 := s1.(th := s.th[0 := Busy(UnlockPublish)]);
    Go(s2, 0, Continue);
    var s3 := s2.(sequence := 1, handoff := 1, epoch := 1, th := s.th[0 := Busy(UnlockEmpty(1, 1))]);
    Go(s3, 2, Continue);
    var s4 := s3.(queue := [2], th := s3.th[2 := Busy(LockLoad)]);
    assert Next(s3, 2, Continue) == s4;
    Go(s4, 0, Continue);
    assert Next(s4, 0, Continue).th == [Busy(UnlockCas(1, 1)), REST, Busy(LockLoad), Busy(LockPush)];
  }

  /** Thread 1 takes that hand-off, so thread 2 finds none and sleeps. */
  lemma LockerSleeps()
    ensures Reachable(State(3, 1, 1, 0, 1, 1, [2], [Busy(UnlockCas(1, 1)), HOLDER, Busy(LockSleep), Busy(LockPush)],
                            false))
  {
    UnlockerSees();
    var s := State(2, NOBODY, 0, 1, 1, 1, [2], [Busy(UnlockCas(1, 1)), REST, Busy(LockLoad), Busy(LockPush)], false);
    TryTakes(s, 1);
    var s1 := s.(count := 3, handoff := 0, owner := 1, depth := 1, th := s.th[1 := HOLDER]);
    Go(s1, 2, Continue);
    assert Next(s1, 2, Continue).th == [Busy(UnlockCas(1, 1)), HOLDER, Busy(LockSleep), Busy(LockPush)];
  }

  /** Three rounds of the loop of unlock() are possible, and need a full cycle of the sequence number: thread 0
      takes a later hand-off for its own, finds nobody queued in its second round, and publishes again. */
  lemma UntimelyUnlockLoopsAgain()
    ensures var s := Asleep(WORD, UnlockCas(1, 1));
            Reachable(s) && s.epoch - s.th[0].pc.e == WORD - 1
    ensures exists s: State :: Reachable(s) && !s.crashed && !SecondPopFinds(s)
  {
    LockerSleeps();
    RecordServed(UnlockCas(1, 1), LockSleep);
    Cycles(WORD, UnlockCas(1, 1));
    SequenceCycles(WORD);
    var s := Asleep(WORD, UnlockCas(1, 1));
    Go(s, 0, Continue);
    var s1 := s.(handoff := 0, th := s.th[0 := Busy(UnlockPop(true))]);
    assert Next(s, 0, Continue) == s1;
    assert s1.th[0].pc == UnlockPop(true) && s1.queue == [];
  }
}
