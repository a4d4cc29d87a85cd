/** Condition variables over all interleavings: core/condvar.cc.

    wait(), its removal after a timeout, wake_one() and the first half of wake_all() run under the condition variable's
    mutex and are one step each, with the effect that the methods of Condvar.WaitQueue have. The loop of wake_all() runs
    outside it: each visit of a record is a step of its own, between which anything else may happen, other wake_all()
    calls included. A record that was sent the lock belongs to the user's mutex, which may link it anew at any time.
  */
module CondvarRace {

  import opened Common
  import opened Condvar

  /** The loop of wake_all(): about to send to wr, or in the inner loop with its local variables. */
  datatype Loop = Done | Outer(wr: Option<nat>) | Inner(c: nat, nextWr: Option<nat>, prevr: Option<nat>, r: Option<nat>)

  /** A thread in wake_all(). `taken`: the queue it took. `sent`: the records it sent the lock, in order. `kept`,
      `todo`: the others, those that the inner loop has passed and those still before it. */
  datatype Waker = Waker(loop: Loop, taken: seq<nat>, sent: seq<nat>, kept: seq<nat>, todo: seq<nat>)

  /** Where a record is: not yet used, in the queue, out of it by its timeout, in the hands of a wake_all(), or sent the
      lock. */
  datatype Place = Fresh | Queued | Left | Held(w: nat) | Sent

  datatype State = State(next: seq<Option<nat>>, cpu: seq<nat>, q: Queue, place: seq<Place>, wakers: seq<Waker>,
                         crashed: bool)

  datatype Move =
    | Wait(r: nat, mutex: nat) | TimeOut(r: nat) | WakeOne | Take(w: nat) | Step(w: nat)
    | Relink(x: nat, link: Option<nat>)

  const IDLE := Waker(Done, [], [], [], [])

  ghost predicate Init(s: State)
  {
    && |s.next| == |s.cpu| == |s.place| && s.q == NOBODY && !s.crashed
    && (forall x: nat :: x < |s.place| ==> s.place[x].Fresh?)
    && (forall w: nat :: w < |s.wakers| ==> s.wakers[w] == IDLE)
  }

  // ----------------------------------------------------------------------------------------
  // Steps
  // ----------------------------------------------------------------------------------------

  /** The records of l are put in a place. */
  function PutAll(place: seq<Place>, l: seq<nat>, p: Place): (place': seq<Place>)
  {
    seq(|place|, x requires 0 <= x < |place| => if x in l then p else place[x])
  }

  function SetWaker(s: State, w: nat, k: Waker): (s': State)
    requires w < |s.wakers|
  {
    s.(wakers := s.wakers[w := k])
  }

  /** A step of the loop sends the lock to x. */
  function SendTo(s: State, w: nat, x: nat, k: Waker): (s': State)
    requires w < |s.wakers| && x < |s.place|
  {
    SetWaker(s, w, k.(sent := k.sent + [x])).(place := s.place[x := Sent])
  }

  /** One visit of the loop. It dereferences the record visited and, to unlink it, the one before. */
  function StepOf(s: State, w: nat): (s': State)
    requires Ready(s, w)
  {
    var k := s.wakers[w];
    match k.loop
    case Done => s
    case Outer(wr) =>
      if wr.None? then SetWaker(s, w, k.(loop := Done))
      else
        var nextWr := s.next[wr.value];
        SendTo(s, w, wr.value, k.(loop := Inner(s.cpu[wr.value], nextWr, None, nextWr), todo := Tail(k.todo)))
    case Inner(c, nextWr, prevr, r) =>
      if r.None? then SetWaker(s, w, k.(loop := Outer(nextWr), kept := [], todo := k.kept))
      else
        var nextr := s.next[r.value];
        if s.cpu[r.value] != c
        then SetWaker(s, w, k.(loop := Inner(c, nextWr, r, nextr), kept := k.kept + [r.value], todo := Tail(k.todo)))
        else
          var s1 := SendTo(s, w, r.value, k.(loop := Inner(c, if nextWr == r then nextr else nextWr, prevr, nextr),
                                             todo := Tail(k.todo)));
          if nextWr == r then s1
          else if prevr.None? || prevr.value >= |s.next| then s.(crashed := true)
          else s1.(next := s.next[prevr.value := nextr])
  }

  function Tail(l: seq<nat>): (t: seq<nat>)
  {
    if l == [] then [] else l[1..]
  }

  predicate Here(s: State, x: Option<nat>)
  {
    x.Some? ==> x.value < |s.next| && x.value < |s.cpu| && x.value < |s.place|
  }

  predicate Ready(s: State, w: nat)
  {
    w < |s.wakers| &&
    match s.wakers[w].loop
    case Done => false
    case Outer(wr) => Here(s, wr)
    case Inner(_, _, _, r) => Here(s, r)
  }

  ghost predicate Enabled(s: State, m: Move)
  {
    !s.crashed && Linked(s.next, s.q.fifo) &&
    match m
    case Wait(r, _) => r < |s.next| && r < |s.place| && s.place[r].Fresh?
    case TimeOut(r) => r < |s.place| && !s.place[r].Fresh?
    case WakeOne => true
    case Take(w) => w < |s.wakers| && s.wakers[w].loop.Done?
    case Step(w) => Ready(s, w)
    case Relink(x, _) => x < |s.place| && x < |s.next| && s.place[x].Sent?
  }

  ghost function Next(s: State, m: Move): (s': State)
    requires Enabled(s, m)
  {
    match m
    case Wait(r, mutex) =>
      s.(next := Joined(s.next, s.q.fifo, r), q := Join(s.q, r, mutex), place := s.place[r := Queued])
    case TimeOut(r) =>
      s.(next := Parted(s.next, s.q.fifo, r), q := TimesOut(s.q, r),
         place := if r in s.q.fifo then s.place[r := Left] else s.place)
    case WakeOne =>
      if s.q.fifo == [] then s
      else s.(q := WakeFirst(s.q), place := PutAll(s.place, [s.q.fifo[0]], Sent))
    case Take(w) =>
      var l := s.q.fifo;
      SetWaker(s, w, Waker(Outer(After(l, 0)), l, [], [], l)).(q := WakeEvery(s.q),
                                                               place := PutAll(s.place, l, Held(w)))
    case Step(w) => StepOf(s, w)
    case Relink(x, link) => s.(next := s.next[x := link])
  }

  ghost predicate IsRun(run: seq<State>, moves: seq<Move>)
  {
    && |run| == |moves| + 1 && Init(run[0])
    && forall i: nat :: i < |moves| ==> Enabled(run[i], moves[i]) && run[i + 1] == Next(run[i], moves[i])
  }

  // ----------------------------------------------------------------------------------------
  // What every step keeps
  // ----------------------------------------------------------------------------------------

  /** A record's place says which list it is in. */
  ghost predicate PlaceOk(s: State, x: nat)
  {
    x < |s.place| ==>
      && (s.place[x].Queued? <==> x in s.q.fifo) && (s.place[x].Left? <==> x in s.q.timedOut)
      && (s.place[x].Fresh? <==> x !in s.q.waited)
      && (s.place[x].Held? ==> s.place[x].w < |s.wakers|)
  }

  function Unsent(k: Waker): (l: seq<nat>)
  {
    k.kept + k.todo
  }

  /** The records a wake_all() has still to send are its own, and linked. */
  ghost predicate OwnOk(s: State, w: nat)
  {
    w < |s.wakers| ==>
      && Linked(s.next, Unsent(s.wakers[w]))
      && (forall x: nat :: x in Unsent(s.wakers[w]) ==> x < |s.place| && s.place[x] == Held(w))
  }

  /** The local variables of the loop, and what it still has to send. */
  ghost predicate LoopOk(cpu: seq<nat>, k: Waker)
  {
    match k.loop
    case Done => k.kept == [] && k.todo == [] && k.sent == Regrouped(cpu, k.taken)
    case Outer(wr) => k.kept == [] && wr == After(k.todo, 0)
      && k.sent + Regrouped(cpu, k.todo) == Regrouped(cpu, k.taken)
    case Inner(c, nextWr, prevr, r) =>
      && nextWr == After(Unsent(k), 0) && prevr == Last(k.kept) && r == After(k.todo, 0)
      && k.sent + Pick(cpu, k.todo, c, true) + Regrouped(cpu, k.kept + Pick(cpu, k.todo, c, false))
         == Regrouped(cpu, k.taken)
  }

  ghost predicate WakerOk(s: State, w: nat)
  {
    w < |s.wakers| ==> LoopOk(s.cpu, s.wakers[w])
  }

  ghost predicate Inv(s: State)
  {
    && |s.next| == |s.cpu| == |s.place| && !s.crashed && Ledger(s.q) && Linked(s.next, s.q.fifo)
    && (forall x: nat {:trigger PlaceOk(s, x)} :: PlaceOk(s, x))
    && (forall w: nat {:trigger OwnOk(s, w)} :: OwnOk(s, w))
    && (forall w: nat {:trigger WakerOk(s, w)} :: WakerOk(s, w))
  }

  /** Records of l keep their links and places, and so does a wake_all() that holds them. */
  lemma OwnFrame(s: State, s': State, w: nat)
    requires OwnOk(s, w) && w < |s.wakers| && w < |s'.wakers| && Unsent(s'.wakers[w]) == Unsent(s.wakers[w])
    requires |s'.next| == |s.next| && |s'.place| == |s.place|
    requires forall x: nat :: x < |s.next| && x < |s.place| && s.place[x] == Held(w) ==>
               s'.next[x] == s.next[x] && s'.place[x] == s.place[x]
    ensures OwnOk(s', w)
  {
    LinkedFrame(s.next, s'.next, Unsent(s.wakers[w]));
  }

  lemma QueueFrame(s: State, s': State)
    requires Inv(s) && |s'.next| == |s.next| && s'.q == s.q
    requires forall x: nat :: x < |s.place| && s.place[x].Queued? ==> s'.next[x] == s.next[x]
    ensures Linked(s'.next, s'.q.fifo)
  {
    forall i: nat | i < |s.q.fifo|
      ensures s'.next[s.q.fifo[i]] == s.next[s.q.fifo[i]]
    {
      assert PlaceOk(s, s.q.fifo[i]);
    }
    LinkedFrame(s.next, s'.next, s.q.fifo);
  }

  lemma WaitKeepsInv(s: State, r: nat, mutex: nat)
    requires Inv(s) && Enabled(s, Wait(r, mutex))
    ensures Inv(Next(s, Wait(r, mutex)))
  {
    var s' := Next(s, Wait(r, mutex));
    assert PlaceOk(s, r);
    LedgerWait(s.q, r, mutex);
    Append(s.next, s.q.fifo, r);
    forall x: nat ensures PlaceOk(s', x) { assert PlaceOk(s, x); }
    forall w: nat ensures OwnOk(s', w)
    {
      assert OwnOk(s, w);
      if w < |s.wakers| {
        forall x: nat | x < |s.next| && s.place[x] == Held(w) ensures s'.next[x] == s.next[x] { assert PlaceOk(s, x); }
        OwnFrame(s, s', w);
      }
    }
    forall w: nat ensures WakerOk(s', w) { assert WakerOk(s, w); }
  }

  lemma PartedLinks(next: seq<Option<nat>>, l: seq<nat>, r: nat)
    requires Linked(next, l)
    ensures |Parted(next, l, r)| == |next| && Linked(Parted(next, l, r), Remove(l, r))
    ensures forall x: nat :: x < |next| && x !in l ==> Parted(next, l, r)[x] == next[x]
  {
    var k := Index(l, r);
    if r !in l {
      RemoveAbsent(l, r);
    } else {
      RemoveAt(l, k);
      if k > 0 { Unlink(next, l, k); } else { LinkedTail(next, l); }
    }
  }

  lemma TimeOutKeepsInv(s: State, r: nat)
    requires Inv(s) && Enabled(s, TimeOut(r))
    ensures Inv(Next(s, TimeOut(r)))
  {
    var s' := Next(s, TimeOut(r));
    LedgerTimeOut(s.q, r);
    PartedLinks(s.next, s.q.fifo, r);
    if r !in s.q.fifo { RemoveAbsent(s.q.fifo, r); }
    forall x: nat ensures PlaceOk(s', x)
    {
      assert PlaceOk(s, x) && PlaceOk(s, r) && Accounted(s.q, x);
      RemoveMembers(s.q.fifo, r, x);
    }
    forall w: nat ensures OwnOk(s', w)
    {
      assert OwnOk(s, w) && PlaceOk(s, r);
      if w < |s.wakers| {
        forall x: nat | x < |s.next| && s.place[x] == Held(w) ensures s'.next[x] == s.next[x] { assert PlaceOk(s, x); }
        OwnFrame(s, s', w);
      }
    }
    forall w: nat ensures WakerOk(s', w) { assert WakerOk(s, w); }
  }

  lemma WakeOneKeepsInv(s: State)
    requires Inv(s) && Enabled(s, WakeOne)
    ensures Inv(Next(s, WakeOne))
  {
    var s' := Next(s, WakeOne);
    if s.q.fifo != [] {
      var l := s.q.fifo;
      LedgerWake(s.q);
      LinkedTail(s.next, l);
      forall x: nat ensures PlaceOk(s', x) { WakeOneKeepsPlace(s, x); }
      forall w: nat ensures OwnOk(s', w) { WakeOneKeepsOwn(s, w); }
      forall w: nat ensures WakerOk(s', w) { assert WakerOk(s, w); }
    }
  }

  lemma WakeOneKeepsPlace(s: State, x: nat)
    requires Inv(s) && Enabled(s, WakeOne) && s.q.fifo != []
    ensures PlaceOk(Next(s, WakeOne), x)
  {
    var l := s.q.fifo;
    assert PlaceOk(s, x) && l == [l[0]] + l[1..] && l[0] !in l[1..];
  }

  lemma WakeOneKeepsOwn(s: State, w: nat)
    requires Inv(s) && Enabled(s, WakeOne) && s.q.fifo != []
    ensures OwnOk(Next(s, WakeOne), w)
  {
    assert OwnOk(s, w) && PlaceOk(s, s.q.fifo[0]);
    if w < |s.wakers| { OwnFrame(s, Next(s, WakeOne), w); }
  }

  lemma TakeKeepsInv(s: State, w: nat)
    requires Inv(s) && Enabled(s, Take(w))
    ensures Inv(Next(s, Take(w)))
  {
    var s' := Next(s, Take(w));
    LedgerWakeAll(s.q);
    forall x: nat ensures PlaceOk(s', x) { assert PlaceOk(s, x); }
    forall v: nat ensures OwnOk(s', v) { TakeKeepsOwn(s, w, v); }
    forall v: nat ensures WakerOk(s', v) { TakeKeepsWaker(s, w, v); }
  }

  lemma TakeKeepsWaker(s: State, w: nat, v: nat)
    requires Inv(s) && Enabled(s, Take(w))
    ensures WakerOk(Next(s, Take(w)), v)
  {
    assert WakerOk(s, v);
  }

  lemma TakeKeepsOwn(s: State, w: nat, v: nat)
    requires Inv(s) && Enabled(s, Take(w))
    ensures OwnOk(Next(s, Take(w)), v)
  {
    var s', l := Next(s, Take(w)), s.q.fifo;
    assert OwnOk(s, v);
    if v == w {
      assert Unsent(s'.wakers[w]) == l;
      assert forall x: nat :: x in l ==> PlaceOk(s, x);
    } else if v < |s.wakers| {
      forall x: nat | x < |s.next| && s.place[x] == Held(v)
        ensures s'.place[x] == s.place[x]
      {
        assert PlaceOk(s, x);
      }
      OwnFrame(s, s', v);
    }
  }

  lemma RelinkKeepsInv(s: State, x: nat, link: Option<nat>)
    requires Inv(s) && Enabled(s, Relink(x, link))
    ensures Inv(Next(s, Relink(x, link)))
  {
    var s' := Next(s, Relink(x, link));
    QueueFrame(s, s');
    forall y: nat ensures PlaceOk(s', y) { assert PlaceOk(s, y); }
    forall w: nat ensures OwnOk(s', w)
    {
      assert OwnOk(s, w);
      if w < |s.wakers| { OwnFrame(s, s', w); }
    }
    forall w: nat ensures WakerOk(s', w) { assert WakerOk(s, w); }
  }

  // ----------------------------------------------------------------------------------------
  // The loop of wake_all()
  // ----------------------------------------------------------------------------------------

  /** The outer loop sends to its first record. */
  lemma LoopSendsFirst(cpu: seq<nat>, k: Waker, nw: Option<nat>)
    requires LoopOk(cpu, k) && k.loop.Outer? && k.todo != [] && nw == After(k.todo[1..], 0)
    ensures LoopOk(cpu, k.(loop := Inner(On(cpu, k.todo[0]), nw, None, nw), sent := k.sent + [k.todo[0]],
                           todo := k.todo[1..]))
  {
    var x, t := k.todo[0], k.todo[1..];
    var c := On(cpu, x);
    assert [] + t == t && [] + Pick(cpu, t, c, false) == Pick(cpu, t, c, false);
    assert k.sent + Regrouped(cpu, k.todo)
        == k.sent + [x] + Pick(cpu, t, c, true) + Regrouped(cpu, Pick(cpu, t, c, false));
  }

  /** The inner loop has passed all records. */
  lemma LoopTurns(cpu: seq<nat>, k: Waker)
    requires LoopOk(cpu, k) && k.loop.Inner? && k.todo == []
    ensures LoopOk(cpu, k.(loop := Outer(k.loop.nextWr), kept := [], todo := k.kept))
  {
    assert Unsent(k) == k.kept && k.kept + Pick(cpu, k.todo, k.loop.c, false) == k.kept;
    assert k.sent + Pick(cpu, k.todo, k.loop.c, true) == k.sent;
  }

  lemma LoopKeeps(cpu: seq<nat>, k: Waker)
    requires LoopOk(cpu, k) && k.loop.Inner? && k.todo != [] && On(cpu, k.todo[0]) != k.loop.c
    ensures LoopOk(cpu, k.(loop := k.loop.(prevr := Some(k.todo[0]), r := After(k.todo[1..], 0)),
                           kept := k.kept + [k.todo[0]], todo := k.todo[1..]))
  {
    var x, t, c := k.todo[0], k.todo[1..], k.loop.c;
    assert k.kept + [x] + t == Unsent(k);
    assert k.kept + ([x] + Pick(cpu, t, c, false)) == k.kept + [x] + Pick(cpu, t, c, false);
  }

  lemma LoopSends(cpu: seq<nat>, k: Waker)
    requires LoopOk(cpu, k) && k.loop.Inner? && k.todo != [] && On(cpu, k.todo[0]) == k.loop.c
    ensures LoopOk(cpu, k.(loop := k.loop.(nextWr := After(k.kept + k.todo[1..], 0), r := After(k.todo[1..], 0)),
                           sent := k.sent + [k.todo[0]], todo := k.todo[1..]))
  {
    var x, t, c := k.todo[0], k.todo[1..], k.loop.c;
    assert k.sent + ([x] + Pick(cpu, t, c, true)) == k.sent + [x] + Pick(cpu, t, c, true);
  }

  /** What a visit changes: the caller's own variables, links of records it holds, and one of those to sent. */
  ghost predicate Visited(s: State, s': State, w: nat)
  {
    && w < |s.wakers| && |s'.wakers| == |s.wakers| && s'.wakers == s.wakers[w := s'.wakers[w]]
    && s'.q == s.q && s'.cpu == s.cpu && !s'.crashed && |s'.next| == |s.next| && |s'.place| == |s.place|
    && (forall x: nat {:trigger s'.next[x]} ::
          x < |s.next| && x < |s.place| && s.place[x] != Held(w) ==> s'.next[x] == s.next[x])
    && (forall x: nat {:trigger s'.place[x]} ::
          x < |s.place| ==> s'.place[x] == s.place[x] || (s.place[x] == Held(w) && s'.place[x] == Sent))
  }

  /** The waker drops x, if any, from its list, and relinks its own records only. */
  lemma OwnNext(s: State, s': State, w: nat, sent: Option<nat>)
    requires OwnOk(s, w) && w < |s.wakers| && w < |s'.wakers| && |s'.place| == |s.place|
    requires Linked(s'.next, Unsent(s'.wakers[w]))
    requires forall y: nat :: y in Unsent(s'.wakers[w]) ==> y in Unsent(s.wakers[w]) && Some(y) != sent
    requires forall y: nat :: y < |s.place| && Some(y) != sent ==> s'.place[y] == s.place[y]
    ensures OwnOk(s', w)
  {
  }

  lemma OuterVisits(s: State, w: nat)
    requires Inv(s) && Enabled(s, Step(w)) && s.wakers[w].loop.Outer? && s.wakers[w].loop.wr.Some?
    ensures Visited(s, StepOf(s, w), w) && OwnOk(StepOf(s, w), w) && LoopOk(s.cpu, StepOf(s, w).wakers[w])
  {
    var s', k := StepOf(s, w), s.wakers[w];
    assert OwnOk(s, w) && WakerOk(s, w);
    FirstExactly(s, w);
    var x, t := k.todo[0], k.todo[1..];
    LoopSendsFirst(s.cpu, k, After(t, 0));
    OwnNext(s, s', w, Some(x));
  }

  lemma FirstExactly(s: State, w: nat)
    requires |s.next| == |s.cpu| == |s.place| && OwnOk(s, w) && WakerOk(s, w)
    requires Ready(s, w) && s.wakers[w].loop.Outer? && s.wakers[w].loop.wr.Some?
    ensures var s', k := StepOf(s, w), s.wakers[w];
            && k.todo != [] && k.todo[0] < |s.place| && s.place[k.todo[0]] == Held(w)
            && var x, t := k.todo[0], k.todo[1..];
               && s' == s.(place := s.place[x := Sent],
                           wakers := s.wakers[w := k.(loop := Inner(On(s.cpu, x), After(t, 0), None, After(t, 0)),
                                                      sent := k.sent + [x], todo := t)])
               && Linked(s.next, Unsent(s'.wakers[w])) && Unsent(k) == k.todo && Unsent(s'.wakers[w]) == t && x !in t
  {
    var s', k := StepOf(s, w), s.wakers[w];
    assert Unsent(k) == k.todo;
    var x, t := k.todo[0], k.todo[1..];
    assert x in k.todo && k.todo == [x] + t && x !in t;
    LinkedTail(s.next, k.todo);
    assert Unsent(s'.wakers[w]) == t;
  }

  lemma TurnVisits(s: State, w: nat)
    requires Inv(s) && Enabled(s, Step(w))
    requires var l := s.wakers[w].loop; (l.Outer? && l.wr.None?) || (l.Inner? && l.r.None?)
    ensures Visited(s, StepOf(s, w), w) && OwnOk(StepOf(s, w), w) && LoopOk(s.cpu, StepOf(s, w).wakers[w])
  {
    var s', k := StepOf(s, w), s.wakers[w];
    assert OwnOk(s, w) && WakerOk(s, w);
    assert k.todo == [] && Unsent(k) == k.kept == Unsent(s'.wakers[w]);
    if k.loop.Inner? {
      LoopTurns(s.cpu, k);
    } else {
      assert k.sent + Regrouped(s.cpu, k.todo) == k.sent;
    }
    OwnNext(s, s', w, None);
  }

  /** The record before the inner loop: it is held, and its link leads to the one after it. */
  ghost predicate AtRecord(s: State, w: nat)
  {
    && |s.next| == |s.cpu| == |s.place| && Ready(s, w) && s.wakers[w].loop.Inner? && s.wakers[w].loop.r.Some?
    && var k := s.wakers[w];
       && k.todo != [] && k.loop.r.value == k.todo[0] < |s.next| && s.place[k.todo[0]] == Held(w)
       && s.next[k.todo[0]] == After(k.todo[1..], 0) && (k.loop.nextWr == k.loop.r <==> k.kept == [])
  }

  lemma InnerAt(s: State, w: nat)
    requires |s.next| == |s.cpu| == |s.place| && OwnOk(s, w) && WakerOk(s, w)
    requires Ready(s, w) && s.wakers[w].loop.Inner? && s.wakers[w].loop.r.Some?
    ensures AtRecord(s, w)
    ensures var k := s.wakers[w];
            Scan(s.next, k.kept, k.todo, k.loop.nextWr, k.loop.prevr)
  {
    var k := s.wakers[w];
    assert k.todo[0] in Unsent(k) && Scan(s.next, k.kept, k.todo, k.loop.nextWr, k.loop.prevr);
    ScanAt(s.next, k.kept, k.todo, k.loop.nextWr, k.loop.prevr);
  }

  lemma InnerKeeps(s: State, w: nat)
    requires Inv(s) && Enabled(s, Step(w)) && s.wakers[w].loop.Inner? && s.wakers[w].loop.r.Some?
    requires s.cpu[s.wakers[w].loop.r.value] != s.wakers[w].loop.c
    ensures Visited(s, StepOf(s, w), w) && OwnOk(StepOf(s, w), w) && LoopOk(s.cpu, StepOf(s, w).wakers[w])
  {
    var s', k := StepOf(s, w), s.wakers[w];
    assert OwnOk(s, w) && WakerOk(s, w);
    InnerAt(s, w);
    KeepsExactly(s, w);
    LoopKeeps(s.cpu, k);
    OwnNext(s, s', w, None);
  }

  lemma KeepsExactly(s: State, w: nat)
    requires AtRecord(s, w) && s.cpu[s.wakers[w].loop.r.value] != s.wakers[w].loop.c
    ensures var s', k := StepOf(s, w), s.wakers[w];
            && k.todo != [] && On(s.cpu, k.todo[0]) != k.loop.c
            && s' == s.(wakers := s.wakers[w := k.(loop := k.loop.(prevr := Some(k.todo[0]),
                                                                   r := After(k.todo[1..], 0)),
                                                   kept := k.kept + [k.todo[0]], todo := k.todo[1..])])
            && Unsent(s'.wakers[w]) == Unsent(k)
  {
    var k := s.wakers[w];
    assert k.kept + [k.todo[0]] + k.todo[1..] == Unsent(k);
  }

  /** Unlinking the record before the inner loop: the links after it, and the new head. */
  ghost predicate Unlinked(s: State, w: nat, next': seq<Option<nat>>, nextWr': Option<nat>)
    requires w < |s.wakers|
  {
    var k := s.wakers[w];
    && k.todo != [] && |next'| == |s.next| && Linked(next', k.kept + k.todo[1..])
    && nextWr' == After(k.kept + k.todo[1..], 0)
    && (forall x: nat {:trigger next'[x]} ::
          x < |s.next| && x < |s.place| && s.place[x] != Held(w) ==> next'[x] == s.next[x])
    && k.todo[0] !in k.kept && k.todo[0] !in k.todo[1..]
  }

  /** The loop unlinks the record by moving its head, or by one write. */
  ghost predicate Unlinks(s: State, w: nat)
    requires AtRecord(s, w)
  {
    var k := s.wakers[w];
    if k.kept == [] then Unlinked(s, w, s.next, s.next[k.loop.r.value])
    else
      && k.loop.prevr.Some? && k.loop.prevr.value < |s.next|
      && Unlinked(s, w, s.next[k.loop.prevr.value := s.next[k.loop.r.value]], k.loop.nextWr)
  }

  lemma InnerUnlinks(s: State, w: nat)
    requires Inv(s) && AtRecord(s, w)
    ensures Unlinks(s, w)
  {
    var k := s.wakers[w];
    assert OwnOk(s, w) && WakerOk(s, w);
    InnerAt(s, w);
    ScanApart(s.next, k.kept, k.todo, k.loop.nextWr, k.loop.prevr);
    if k.kept == [] {
      ScanDropFirst(s.next, k.todo, k.loop.nextWr, k.loop.prevr);
      assert [] + k.todo[1..] == k.todo[1..];
    } else {
      var p := k.kept[|k.kept| - 1];
      assert p in Unsent(k);
      ScanDrop(s.next, k.kept, k.todo, k.loop.nextWr, p);
    }
  }

  lemma InnerSends(s: State, w: nat)
    requires Inv(s) && Enabled(s, Step(w)) && s.wakers[w].loop.Inner? && s.wakers[w].loop.r.Some?
    requires s.cpu[s.wakers[w].loop.r.value] == s.wakers[w].loop.c
    ensures Visited(s, StepOf(s, w), w) && OwnOk(StepOf(s, w), w) && LoopOk(s.cpu, StepOf(s, w).wakers[w])
  {
    var s', k := StepOf(s, w), s.wakers[w];
    assert OwnOk(s, w) && WakerOk(s, w);
    InnerAt(s, w);
    InnerUnlinks(s, w);
    LoopSends(s.cpu, k);
    SendsExactly(s, w);
    var x, l := k.todo[0], k.kept + k.todo[1..];
    forall y: nat | y in l ensures y in Unsent(k) && y != x {}
    OwnNext(s, s', w, Some(x));
  }

  lemma SendsExactly(s: State, w: nat)
    requires AtRecord(s, w) && s.cpu[s.wakers[w].loop.r.value] == s.wakers[w].loop.c && Unlinks(s, w)
    ensures var s', k := StepOf(s, w), s.wakers[w];
            && k.todo != [] && k.todo[0] < |s.place|
            && s' == s.(next := s'.next, place := s.place[k.todo[0] := Sent],
                        wakers := s.wakers[w := k.(loop := k.loop.(nextWr := After(k.kept + k.todo[1..], 0),
                                                                      r := After(k.todo[1..], 0)),
                                                      sent := k.sent + [k.todo[0]], todo := k.todo[1..])])
            && Unlinked(s, w, s'.next, After(k.kept + k.todo[1..], 0))
  {
  }

  /** Every visit keeps the loop on its way. */
  lemma StepVisits(s: State, w: nat)
    requires Inv(s) && Enabled(s, Step(w))
    ensures Visited(s, StepOf(s, w), w) && OwnOk(StepOf(s, w), w) && LoopOk(s.cpu, StepOf(s, w).wakers[w])
  {
    var l := s.wakers[w].loop;
    if (l.Outer? && l.wr.None?) || (l.Inner? && l.r.None?) {
      TurnVisits(s, w);
    } else if l.Outer? {
      OuterVisits(s, w);
    } else if s.cpu[l.r.value] != l.c {
      InnerKeeps(s, w);
    } else {
      InnerSends(s, w);
    }
  }

  lemma StepKeepsInv(s: State, w: nat)
    requires Inv(s) && Enabled(s, Step(w))
    ensures Inv(StepOf(s, w))
  {
    var s' := StepOf(s, w);
    StepVisits(s, w);
    QueueFrame(s, s');
    forall x: nat ensures PlaceOk(s', x) { assert PlaceOk(s, x); }
    forall v: nat ensures OwnOk(s', v)
    {
      assert OwnOk(s, v);
      if v < |s.wakers| && v != w { OwnFrame(s, s', v); }
    }
    forall v: nat ensures WakerOk(s', v) { assert WakerOk(s, v); }
  }

  lemma NextKeepsInv(s: State, m: Move)
    requires Inv(s) && Enabled(s, m)
    ensures Inv(Next(s, m))
  {
    match m
    case Wait(r, mutex) => WaitKeepsInv(s, r, mutex);
    case TimeOut(r) => TimeOutKeepsInv(s, r);
    case WakeOne => WakeOneKeepsInv(s);
    case Take(w) => TakeKeepsInv(s, w);
    case Step(w) => StepKeepsInv(s, w);
    case Relink(x, link) => RelinkKeepsInv(s, x, link);
  }

  lemma InitInv(s: State)
    requires Init(s)
    ensures Inv(s)
  {
    forall x: nat ensures Accounted(s.q, x) {}
    forall x: nat ensures PlaceOk(s, x) {}
    forall w: nat ensures OwnOk(s, w) && WakerOk(s, w) {}
  }

  lemma {:induction false} RunKeepsInv(run: seq<State>, moves: seq<Move>, n: nat)
    requires IsRun(run, moves) && n < |run|
    ensures Inv(run[n])
  {
    if n == 0 {
      InitInv(run[0]);
    } else {
      RunKeepsInv(run, moves, n - 1);
      NextKeepsInv(run[n - 1], moves[n - 1]);
    }
  }

  // ----------------------------------------------------------------------------------------
  // Runs
  // ----------------------------------------------------------------------------------------

  /** A wake_all() that has ended has sent the lock to exactly the records it took, grouped by CPU, whatever came to
      wait, timed out, was woken or was linked anew meanwhile. */
  lemma EachSentOnce(run: seq<State>, moves: seq<Move>, n: nat, w: nat)
    requires IsRun(run, moves) && n < |run| && w < |run[n].wakers| && run[n].wakers[w].loop.Done?
    ensures run[n].wakers[w].sent == Regrouped(run[n].cpu, run[n].wakers[w].taken)
    ensures multiset(run[n].wakers[w].sent) == multiset(run[n].wakers[w].taken)
  {
    RunKeepsInv(run, moves, n);
    assert WakerOk(run[n], w);
    RegroupedOnce(run[n].cpu, run[n].wakers[w].taken);
  }

  /** The records a visit reads or writes. */
  function Touched(s: State, w: nat): (xs: set<nat>)
    requires Ready(s, w)
  {
    match s.wakers[w].loop
    case Done => {}
    case Outer(wr) => if wr.Some? then {wr.value} else {}
    case Inner(c, nextWr, prevr, r) =>
      if r.None? then {}
      else if s.cpu[r.value] == c && nextWr != r && prevr.Some? then {r.value, prevr.value}
      else {r.value}
  }

  /** A visit touches only records that this wake_all() took and has not sent the lock: none that is in the queue, none
      of another caller, none that was sent. */
  lemma TouchesOwnOnly(run: seq<State>, moves: seq<Move>, n: nat, w: nat)
    requires IsRun(run, moves) && n < |run| && Ready(run[n], w)
    ensures forall x: nat :: x in Touched(run[n], w) ==> x < |run[n].place| && run[n].place[x] == Held(w)
  {
    RunKeepsInv(run, moves, n);
    var s, k := run[n], run[n].wakers[w];
    assert OwnOk(s, w) && WakerOk(s, w);
    forall x: nat | x in Touched(s, w) ensures x in Unsent(k) {}
  }

  /** A wake_all() that has not ended can go on. */
  lemma LoopGoesOn(run: seq<State>, moves: seq<Move>, n: nat, w: nat)
    requires IsRun(run, moves) && n < |run| && w < |run[n].wakers| && !run[n].wakers[w].loop.Done?
    ensures Enabled(run[n], Step(w))
  {
    RunKeepsInv(run, moves, n);
    var s, k := run[n], run[n].wakers[w];
    assert OwnOk(s, w) && WakerOk(s, w);
    if k.todo != [] { assert k.todo[0] in Unsent(k); }
  }

  function InHand(k: Waker): (n: nat) { |k.kept| + |k.todo| }

  /** What is left to do. */
  function Work(k: Waker): (n: nat)
  {
    match k.loop
    case Done => 0
    case Outer(_) => (InHand(k) + 1) * (InHand(k) + 2)
    case Inner(_, _, _, _) => (InHand(k) + 1) * (InHand(k) + 2) + |k.todo| + 1
  }

  /** A visit sends a record, or passes one, or turns to the next round, or ends. */
  predicate Advances(k: Waker, k': Waker)
  {
    || (InHand(k') < InHand(k) && !k.loop.Done?)
    || (InHand(k') == InHand(k) && k.loop.Inner? && k'.loop.Inner? && |k'.todo| < |k.todo|)
    || (InHand(k') == InHand(k) && k.loop.Inner? && k'.loop.Outer?)
    || (k.loop.Outer? && k'.loop.Done?)
  }

  lemma StepAdvances(s: State, w: nat)
    requires Inv(s) && Enabled(s, Step(w)) && !StepOf(s, w).crashed
    ensures Advances(s.wakers[w], StepOf(s, w).wakers[w])
  {
    assert WakerOk(s, w);
  }

  lemma LessWork(k: Waker, k': Waker)
    requires Advances(k, k')
    ensures Work(k') < Work(k)
  {
    if InHand(k') < InHand(k) { Fewer(InHand(k'), InHand(k)); }
  }

  /** Each visit leaves less to do, so the loop ends. */
  lemma LoopEnds(run: seq<State>, moves: seq<Move>, n: nat, w: nat)
    requires IsRun(run, moves) && n < |moves| && moves[n] == Step(w)
    ensures w < |run[n].wakers| && w < |run[n + 1].wakers| && Work(run[n + 1].wakers[w]) < Work(run[n].wakers[w])
  {
    RunKeepsInv(run, moves, n);
    StepVisits(run[n], w);
    StepAdvances(run[n], w);
    LessWork(run[n].wakers[w], run[n + 1].wakers[w]);
  }

  lemma Fewer(a: nat, b: nat)
    requires a < b
    ensures (a + 1) * (a + 2) + a + 1 < (b + 1) * (b + 2)
  {
    assert (a + 2) * (a + 3) <= (b + 1) * (b + 2);
  }

  /** How far a record has come. */
  function Rank(p: Place): (n: nat)
  {
    match p
    case Fresh => 0
    case Queued => 1
    case Left => 2
    case Held(_) => 2
    case Sent => 3
  }

  lemma NextPlace(s: State, m: Move, x: nat)
    requires Inv(s) && Enabled(s, m) && x < |s.place|
    ensures var p, p' := s.place[x], Next(s, m).place[x];
            p' == p || (Rank(p) < Rank(p') && !p.Left?)
    ensures |Next(s, m).place| == |s.place|
  {
    assert PlaceOk(s, x);
    match m
    case Step(w) => StepVisits(s, w);
    case TimeOut(r) => assert PlaceOk(s, r);
    case WakeOne => if s.q.fifo != [] { assert PlaceOk(s, s.q.fifo[0]); }
    case _ =>
  }

  /** A record leaves the queue at most once, by its own timeout or by one waker and not both, and never comes back. */
  lemma {:induction false} LeavesOnce(run: seq<State>, moves: seq<Move>, i: nat, j: nat, x: nat)
    requires IsRun(run, moves) && i <= j < |run| && x < |run[i].place|
    ensures |run[j].place| == |run[i].place|
    ensures var p, p' := run[i].place[x], run[j].place[x];
            p' == p || (Rank(p) < Rank(p') && !p.Left?)
    decreases j
  {
    if i < j {
      LeavesOnce(run, moves, i, j - 1, x);
      StepPlace(run, moves, j, x);
    }
  }

  lemma StepPlace(run: seq<State>, moves: seq<Move>, n: nat, x: nat)
    requires IsRun(run, moves) && 0 < n < |run| && x < |run[n - 1].place|
    ensures |run[n].place| == |run[n - 1].place|
    ensures var p, p' := run[n - 1].place[x], run[n].place[x];
            p' == p || (Rank(p) < Rank(p') && !p.Left?)
  {
    RunKeepsInv(run, moves, n - 1);
    NextPlace(run[n - 1], moves[n - 1], x);
  }
}
