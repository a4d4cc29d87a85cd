/** The read-write lock of core/rwlock.cc over all interleavings of its callers.

    Every operation runs under the lock's own mutex and is one step; a thread that waits gives the mutex up and, once
    woken, takes it again and looks anew. The two wait queues are first in, first out. Who holds the lock is not part of
    the lock's state: it is worked out from what the calls told their callers.
  */
module RwLock {

  import opened Common

  /** `readers`, `owner`, `extra`: _readers, _wowner, _wrecurse. `readWait`, `writeWait`: the wait queues. `readWoken`,
      `writeWoken`: threads taken off them that have not run yet. `crashed`: an assertion failed. */
  datatype State = State(
    readers: nat, owner: Option<nat>, extra: nat, readWait: seq<nat>, writeWait: seq<nat>,
    readWoken: multiset<nat>, writeWoken: multiset<nat>, crashed: bool)

  /** Downgrade is downgrade() up to its final rlock(), which comes after it has given the mutex up. */
  datatype Move =
    | RLock(t: nat) | TryRLock(t: nat) | RUnlock(t: nat) | TryUpgrade(t: nat)
    | WLock(t: nat) | TryWLock(t: nat) | WUnlock(t: nat) | Downgrade(t: nat)
    | ReaderRuns(t: nat) | WriterRuns(t: nat)

  // ----------------------------------------------------------------------------------------
  // Steps
  // ----------------------------------------------------------------------------------------

  predicate ReadLockable(s: State) { s.owner.None? && s.writeWait == [] }

  predicate WriteLockable(s: State, t: nat) { s.owner == Some(t) || (s.readers == 0 && s.owner.None?) }

  predicate Upgradable(s: State) { s.readers == 1 && s.writeWait == [] }

  function WakeOneWriter(s: State): (s': State)
  {
    if s.writeWait == [] then s
    else s.(writeWait := s.writeWait[1..], writeWoken := s.writeWoken + multiset{s.writeWait[0]})
  }

  function WakeAllReaders(s: State): (s': State)
  {
    s.(readWait := [], readWoken := s.readWoken + multiset(s.readWait))
  }

  function TakeRead(s: State): (s': State)
  {
    s.(readers := s.readers + 1)
  }

  function TakeWrite(s: State, t: nat): (s': State)
  {
    s.(extra := if s.owner == Some(t) then s.extra + 1 else s.extra, owner := Some(t))
  }

  /** rlock() and a woken reader: take the lock or wait. */
  function ReadOrWait(s: State, t: nat): (s': State)
  {
    if ReadLockable(s) then TakeRead(s) else s.(readWait := s.readWait + [t])
  }

  function WriteOrWait(s: State, t: nat): (s': State)
  {
    if WriteLockable(s, t) then TakeWrite(s, t) else s.(writeWait := s.writeWait + [t])
  }

  /** wunlock() after its assertion: also after a recursive release it wakes one writer or all readers. */
  function ReleaseWrite(s: State): (s': State)
  {
    var s1 := if s.extra > 0 then s.(extra := s.extra - 1) else s.(owner := None);
    if s1.writeWait != [] then WakeOneWriter(s1) else WakeAllReaders(s1)
  }

  /** The loop of downgrade(): one wunlock() for every hold. */
  function ReleaseAll(s: State): (s': State)
    decreases s.extra
  {
    if s.extra > 0 then ReleaseAll(ReleaseWrite(s)) else ReleaseWrite(s)
  }

  function Crash(s: State): (s': State) { s.(crashed := true) }

  function Next(s: State, m: Move): (s': State)
  {
    match m
    case RLock(t) => ReadOrWait(s, t)
    case TryRLock(t) => if ReadLockable(s) then TakeRead(s) else s
    case RUnlock(t) =>
      if s.owner.Some? || s.readers == 0 then Crash(s)
      else
        var s1 := s.(readers := s.readers - 1);
        if s1.readers == 0 then WakeOneWriter(s1) else s1
    case TryUpgrade(t) =>
      if !Upgradable(s) then s
      else if s.owner.Some? then Crash(s)
      else s.(readers := 0, owner := Some(t))
    case WLock(t) => WriteOrWait(s, t)
    case TryWLock(t) => if WriteLockable(s, t) then TakeWrite(s, t) else s
    case WUnlock(t) => if s.owner != Some(t) then Crash(s) else ReleaseWrite(s)
    case Downgrade(t) => if s.owner != Some(t) then Crash(s) else ReleaseAll(s)
    case ReaderRuns(t) => ReadOrWait(s.(readWoken := s.readWoken - multiset{t}), t)
    case WriterRuns(t) => WriteOrWait(s.(writeWoken := s.writeWoken - multiset{t}), t)
  }

  // ----------------------------------------------------------------------------------------
  // Who holds the lock
  // ----------------------------------------------------------------------------------------

  /** Whether the call returned, and if it has an answer, with yes. A call that waits has not returned. */
  predicate Succeeds(s: State, m: Move)
  {
    match m
    case RLock(_) => ReadLockable(s)
    case TryRLock(_) => ReadLockable(s)
    case ReaderRuns(_) => ReadLockable(s)
    case TryUpgrade(_) => Upgradable(s)
    case WLock(t) => WriteLockable(s, t)
    case TryWLock(t) => WriteLockable(s, t)
    case WriterRuns(t) => WriteLockable(s, t)
    case _ => true
  }

  /** How often each thread holds the lock for reading and for writing. */
  datatype Holds = Holds(readHolds: multiset<nat>, writeHolds: multiset<nat>)

  /** What a call that succeeded does to the holds, by what its name says. */
  function Note(h: Holds, m: Move): (h': Holds)
  {
    match m
    case RLock(t) => h.(readHolds := h.readHolds + multiset{t})
    case TryRLock(t) => h.(readHolds := h.readHolds + multiset{t})
    case ReaderRuns(t) => h.(readHolds := h.readHolds + multiset{t})
    case RUnlock(t) => h.(readHolds := h.readHolds - multiset{t})
    case TryUpgrade(t) => Holds(h.readHolds - multiset{t}, h.writeHolds + multiset{t})
    case WLock(t) => h.(writeHolds := h.writeHolds + multiset{t})
    case TryWLock(t) => h.(writeHolds := h.writeHolds + multiset{t})
    case WriterRuns(t) => h.(writeHolds := h.writeHolds + multiset{t})
    case WUnlock(t) => h.(writeHolds := h.writeHolds - multiset{t})
    case Downgrade(t) => h.(writeHolds := h.writeHolds[t := 0])
  }

  /** The holds after the first n moves of a run. */
  function HoldsAfter(run: seq<State>, moves: seq<Move>, n: nat): (h: Holds)
    requires n <= |moves| < |run|
  {
    if n == 0 then Holds(multiset{}, multiset{})
    else
      var h := HoldsAfter(run, moves, n - 1);
      if Succeeds(run[n - 1], moves[n - 1]) then Note(h, moves[n - 1]) else h
  }

  /** A caller releases only what it holds, and only a woken thread runs. */
  predicate Enabled(s: State, h: Holds, m: Move)
  {
    !s.crashed &&
    match m
    case RUnlock(t) => t in h.readHolds
    case TryUpgrade(t) => t in h.readHolds
    case WUnlock(t) => t in h.writeHolds
    case Downgrade(t) => t in h.writeHolds
    case ReaderRuns(t) => t in s.readWoken
    case WriterRuns(t) => t in s.writeWoken
    case _ => true
  }

  predicate Init(s: State)
  {
    s == State(0, None, 0, [], [], multiset{}, multiset{}, false)
  }

  ghost predicate StepAt(run: seq<State>, moves: seq<Move>, i: nat)
    requires i < |moves| < |run|
  {
    Enabled(run[i], HoldsAfter(run, moves, i), moves[i]) && run[i + 1] == Next(run[i], moves[i])
  }

  ghost predicate IsRun(run: seq<State>, moves: seq<Move>)
  {
    |run| == |moves| + 1 && Init(run[0]) && forall i: nat :: i < |moves| ==> StepAt(run, moves, i)
  }

  // ----------------------------------------------------------------------------------------
  // What every step keeps
  // ----------------------------------------------------------------------------------------

  predicate Idle(s: State) { s.readers == 0 && s.owner.None? }

  /** The counters of the lock are those of the holds. */
  ghost predicate Counted(s: State, h: Holds)
  {
    && s.readers == |h.readHolds|
    && (s.owner.Some? ==> s.readers == 0 && h.writeHolds == multiset{}[s.owner.value := s.extra + 1])
    && (s.owner.None? ==> s.extra == 0 && h.writeHolds == multiset{})
  }

  /** Whoever waits for an idle lock is preceded by a woken writer. */
  ghost predicate Awaited(s: State)
  {
    && (Idle(s) && s.writeWait != [] ==> s.writeWoken != multiset{})
    && (s.owner.None? && s.readWait != [] ==> s.writeWait != [] || s.writeWoken != multiset{})
  }

  ghost predicate Inv(s: State, h: Holds)
  {
    !s.crashed && Counted(s, h) && Awaited(s)
  }

  lemma ReadOrWaitKeeps(s: State, t: nat)
    requires Awaited(s)
    ensures Awaited(ReadOrWait(s, t))
  {
  }

  lemma WriteOrWaitKeeps(s: State, t: nat)
    requires Awaited(s)
    ensures Awaited(WriteOrWait(s, t))
  {
  }

  /** A woken writer that finds the lock taken queues again, so it is never the one that is missed. */
  lemma WriterRunsKeeps(s: State, t: nat)
    requires Awaited(s) && t in s.writeWoken
    ensures Awaited(WriteOrWait(s.(writeWoken := s.writeWoken - multiset{t}), t))
  {
    var s1 := s.(writeWoken := s.writeWoken - multiset{t});
    if !WriteLockable(s1, t) {
      assert !Idle(s);
    }
  }

  lemma ReleaseWriteKeeps(s: State)
    requires Awaited(s) && s.owner.Some?
    ensures Awaited(ReleaseWrite(s)) && ReleaseWrite(s).readers == s.readers && ReleaseWrite(s).crashed == s.crashed
    ensures if s.extra > 0 then ReleaseWrite(s).owner == s.owner && ReleaseWrite(s).extra == s.extra - 1
            else ReleaseWrite(s).owner.None? && ReleaseWrite(s).extra == 0
  {
    if s.writeWait != [] {
      assert s.writeWait[0] in WakeOneWriter(s).writeWoken;
    }
  }

  lemma {:induction false} ReleaseAllKeeps(s: State)
    requires Awaited(s) && s.owner.Some?
    ensures Awaited(ReleaseAll(s)) && ReleaseAll(s).readers == s.readers && ReleaseAll(s).crashed == s.crashed
    ensures ReleaseAll(s).owner.None? && ReleaseAll(s).extra == 0
    decreases s.extra
  {
    ReleaseWriteKeeps(s);
    if s.extra > 0 {
      ReleaseAllKeeps(ReleaseWrite(s));
    }
  }

  /** The last reader hands over to a waiting writer. */
  lemma RUnlockKeeps(s: State, h: Holds, t: nat)
    requires Inv(s, h) && t in h.readHolds
    ensures Inv(Next(s, RUnlock(t)), Note(h, RUnlock(t)))
  {
    assert |h.readHolds - multiset{t}| == |h.readHolds| - 1;
    var s1 := s.(readers := s.readers - 1);
    if s.writeWait != [] { assert s.writeWait[0] in WakeOneWriter(s1).writeWoken; }
  }

  lemma TryUpgradeKeeps(s: State, h: Holds, t: nat)
    requires Inv(s, h) && t in h.readHolds
    ensures Inv(Next(s, TryUpgrade(t)), if Upgradable(s) then Note(h, TryUpgrade(t)) else h)
  {
    assert |h.readHolds - multiset{t}| == |h.readHolds| - 1;
  }

  /** Taking and giving back keep the counters. */
  lemma WritesCounted(s: State, h: Holds, t: nat)
    requires Counted(s, h)
    ensures WriteLockable(s, t) ==> Counted(TakeWrite(s, t), h.(writeHolds := h.writeHolds + multiset{t}))
    ensures t in h.writeHolds ==> s.owner == Some(t) && h.writeHolds[t := 0] == multiset{}
  {
    var m := h.writeHolds + multiset{t};
    if WriteLockable(s, t) {
      assert forall u: nat :: m[u] == multiset{}[t := TakeWrite(s, t).extra + 1][u];
    }
  }

  lemma WUnlockKeeps(s: State, h: Holds, t: nat)
    requires Inv(s, h) && t in h.writeHolds
    ensures Inv(Next(s, WUnlock(t)), Note(h, WUnlock(t)))
  {
    WritesCounted(s, h, t);
    ReleaseWriteKeeps(s);
    var m := h.writeHolds - multiset{t};
    assert forall u: nat :: m[u] == if u == t then s.extra else 0;
  }

  lemma DowngradeKeeps(s: State, h: Holds, t: nat)
    requires Inv(s, h) && t in h.writeHolds
    ensures Inv(Next(s, Downgrade(t)), Note(h, Downgrade(t)))
  {
    WritesCounted(s, h, t);
    ReleaseAllKeeps(s);
  }

  /** The three ways to read, and the three to write: with the lock, or waiting for it. */
  lemma ReadingKeeps(s: State, h: Holds, m: Move)
    requires Inv(s, h) && Enabled(s, h, m) && (m.RLock? || m.TryRLock? || m.ReaderRuns?)
    ensures Inv(Next(s, m), if Succeeds(s, m) then Note(h, m) else h)
  {
    ReadOrWaitKeeps(s, m.t);
    ReadOrWaitKeeps(s.(readWoken := s.readWoken - multiset{m.t}), m.t);
  }

  lemma WritingKeeps(s: State, h: Holds, m: Move)
    requires Inv(s, h) && Enabled(s, h, m) && (m.WLock? || m.TryWLock? || m.WriterRuns?)
    ensures Inv(Next(s, m), if Succeeds(s, m) then Note(h, m) else h)
  {
    var s1 := if m.WriterRuns? then s.(writeWoken := s.writeWoken - multiset{m.t}) else s;
    WriteOrWaitKeeps(s, m.t);
    if m.WriterRuns? { WriterRunsKeeps(s, m.t); }
    WritesCounted(s1, h, m.t);
  }

  lemma NextKeepsInv(s: State, h: Holds, m: Move)
    requires Inv(s, h) && Enabled(s, h, m)
    ensures Inv(Next(s, m), if Succeeds(s, m) then Note(h, m) else h)
  {
    match m
    case RUnlock(t) => RUnlockKeeps(s, h, t);
    case TryUpgrade(t) => TryUpgradeKeeps(s, h, t);
    case WUnlock(t) => WUnlockKeeps(s, h, t);
    case Downgrade(t) => DowngradeKeeps(s, h, t);
    case _ => if m.RLock? || m.TryRLock? || m.ReaderRuns? { ReadingKeeps(s, h, m); } else { WritingKeeps(s, h, m); }
  }

  lemma {:induction false} RunKeepsInv(run: seq<State>, moves: seq<Move>, n: nat)
    requires IsRun(run, moves) && n < |run|
    ensures Inv(run[n], HoldsAfter(run, moves, n))
  {
    if n > 0 {
      RunKeepsInv(run, moves, n - 1);
      assert StepAt(run, moves, n - 1);
      NextKeepsInv(run[n - 1], HoldsAfter(run, moves, n - 1), moves[n - 1]);
    }
  }

  // ----------------------------------------------------------------------------------------
  // Runs
  // ----------------------------------------------------------------------------------------

  /** Readers and writers never hold the lock at once, nor do two writers, and no assertion fails. */
  lemma Exclusion(run: seq<State>, moves: seq<Move>, n: nat)
    requires IsRun(run, moves) && n < |run|
    ensures !run[n].crashed
    ensures var h := HoldsAfter(run, moves, n);
            && (h.readHolds == multiset{} || h.writeHolds == multiset{})
            && (forall t: nat, u: nat :: t in h.writeHolds && u in h.writeHolds ==> t == u)
  {
    RunKeepsInv(run, moves, n);
  }

  /** What the lock counts is what the calls of the run come to: _readers all read holds, _wowner the thread with write
      holds, _wrecurse how many it has beyond the first. */
  lemma HoldsAreCounted(run: seq<State>, moves: seq<Move>, n: nat)
    requires IsRun(run, moves) && n < |run|
    ensures var s, h := run[n], HoldsAfter(run, moves, n);
            && s.readers == |h.readHolds|
            && (forall t: nat :: t in h.writeHolds <==> s.owner == Some(t))
            && (s.owner.Some? ==> h.writeHolds[s.owner.value] == s.extra + 1)
            && (s.owner.None? ==> s.extra == 0)
  {
    RunKeepsInv(run, moves, n);
  }

  // ----------------------------------------------------------------------------------------
  // Callers that wait
  // ----------------------------------------------------------------------------------------

  /** Threads whose rlock() or wlock() was called and has not returned. */
  datatype Callers = Callers(reading: multiset<nat>, writing: multiset<nat>)

  /** A call adds its thread, and its return takes it away again. */
  function Calls(c: Callers, s: State, m: Move): (c': Callers)
  {
    match m
    case RLock(t) => if Succeeds(s, m) then c else c.(reading := c.reading + multiset{t})
    case WLock(t) => if Succeeds(s, m) then c else c.(writing := c.writing + multiset{t})
    case ReaderRuns(t) => if Succeeds(s, m) then c.(reading := c.reading - multiset{t}) else c
    case WriterRuns(t) => if Succeeds(s, m) then c.(writing := c.writing - multiset{t}) else c
    case _ => c
  }

  function CallersAfter(run: seq<State>, moves: seq<Move>, n: nat): (c: Callers)
    requires n <= |moves| < |run|
  {
    if n == 0 then Callers(multiset{}, multiset{})
    else Calls(CallersAfter(run, moves, n - 1), run[n - 1], moves[n - 1])
  }

  /** The threads in a queue and those woken from it. */
  function Present(queue: seq<nat>, woken: multiset<nat>): (p: multiset<nat>)
  {
    multiset(queue) + woken
  }

  /** The threads queued and those woken. */
  function Waiting(s: State): (c: Callers)
  {
    Callers(Present(s.readWait, s.readWoken), Present(s.writeWait, s.writeWoken))
  }

  lemma FirstWoken(q: seq<nat>, w: multiset<nat>)
    requires q != []
    ensures Present(q[1..], w + multiset{q[0]}) == Present(q, w)
  {
    assert q == [q[0]] + q[1..];
  }

  lemma AllWoken(q: seq<nat>, w: multiset<nat>)
    ensures Present([], w + multiset(q)) == Present(q, w)
  {
  }

  lemma Joined(q: seq<nat>, w: multiset<nat>, t: nat)
    ensures Present(q + [t], w) == Present(q, w) + multiset{t}
  {
  }

  lemma Returned(q: seq<nat>, w: multiset<nat>, t: nat)
    requires t in w
    ensures Present(q, w - multiset{t}) == Present(q, w) - multiset{t}
  {
  }

  lemma JoinedAgain(q: seq<nat>, w: multiset<nat>, t: nat)
    requires t in w
    ensures Present(q + [t], w - multiset{t}) == Present(q, w)
  {
    Joined(q, w - multiset{t}, t);
    assert (w - multiset{t}) + multiset{t} == w;
  }

  /** A wake-up moves a thread from the queue to the woken ones, and a release makes nothing but wake-ups. */
  lemma WakingKeeps(s: State)
    ensures Waiting(WakeOneWriter(s)) == Waiting(s) == Waiting(WakeAllReaders(s))
  {
    if s.writeWait != [] { FirstWoken(s.writeWait, s.writeWoken); }
    AllWoken(s.readWait, s.readWoken);
  }

  lemma ReleaseWakes(s: State)
    ensures Waiting(ReleaseWrite(s)) == Waiting(s)
  {
    var s1 := if s.extra > 0 then s.(extra := s.extra - 1) else s.(owner := None);
    WakingKeeps(s1);
    assert Waiting(s1) == Waiting(s);
  }

  lemma {:induction false} ReleaseAllWakes(s: State)
    ensures Waiting(ReleaseAll(s)) == Waiting(s)
    decreases s.extra
  {
    ReleaseWakes(s);
    if s.extra > 0 { ReleaseAllWakes(ReleaseWrite(s)); }
  }

  /** A caller that finds the lock taken joins the queue; a woken one that does, joins it again. */
  lemma ReadingCalls(s: State, h: Holds, m: Move)
    requires Enabled(s, h, m) && (m.RLock? || m.ReaderRuns?)
    ensures Waiting(Next(s, m)) == Calls(Waiting(s), s, m)
  {
    if m.RLock? {
      Joined(s.readWait, s.readWoken, m.t);
    } else {
      Returned(s.readWait, s.readWoken, m.t);
      JoinedAgain(s.readWait, s.readWoken, m.t);
    }
  }

  lemma WritingCalls(s: State, h: Holds, m: Move)
    requires Enabled(s, h, m) && (m.WLock? || m.WriterRuns?)
    ensures Waiting(Next(s, m)) == Calls(Waiting(s), s, m)
  {
    if m.WLock? {
      Joined(s.writeWait, s.writeWoken, m.t);
    } else {
      Returned(s.writeWait, s.writeWoken, m.t);
      JoinedAgain(s.writeWait, s.writeWoken, m.t);
    }
  }

  lemma LastReaderWakes(s: State, t: nat)
    ensures Waiting(Next(s, RUnlock(t))) == Waiting(s)
  {
    if s.readers > 0 {
      var s1 := s.(readers := s.readers - 1);
      WakingKeeps(s1);
      assert Waiting(s1) == Waiting(s);
    }
  }

  lemma ReleasingCalls(s: State, m: Move)
    requires m.RUnlock? || m.WUnlock? || m.Downgrade?
    ensures Waiting(Next(s, m)) == Waiting(s)
  {
    match m
    case RUnlock(t) => LastReaderWakes(s, t);
    case WUnlock(t) => ReleaseWakes(s);
    case Downgrade(t) => ReleaseAllWakes(s);
  }

  lemma TryingCalls(s: State, m: Move)
    requires m.TryRLock? || m.TryWLock? || m.TryUpgrade?
    ensures Waiting(Next(s, m)) == Waiting(s)
  {
  }

  lemma NextKeepsCallers(s: State, h: Holds, m: Move)
    requires Enabled(s, h, m)
    ensures Waiting(Next(s, m)) == Calls(Waiting(s), s, m)
  {
    if m.RLock? || m.ReaderRuns? {
      ReadingCalls(s, h, m);
    } else if m.WLock? || m.WriterRuns? {
      WritingCalls(s, h, m);
    } else if m.RUnlock? || m.WUnlock? || m.Downgrade? {
      ReleasingCalls(s, m);
    } else {
      TryingCalls(s, m);
    }
  }

  lemma NobodyWaits(s: State)
    requires Init(s)
    ensures Waiting(s) == Callers(multiset{}, multiset{})
  {
  }

  lemma StepKeepsCallers(run: seq<State>, moves: seq<Move>, n: nat)
    requires 0 < n < |run| == |moves| + 1 && StepAt(run, moves, n - 1)
    requires CallersAfter(run, moves, n - 1) == Waiting(run[n - 1])
    ensures CallersAfter(run, moves, n) == Waiting(run[n])
  {
    NextKeepsCallers(run[n - 1], HoldsAfter(run, moves, n - 1), moves[n - 1]);
    assert CallersAfter(run, moves, n) == Calls(CallersAfter(run, moves, n - 1), run[n - 1], moves[n - 1]);
  }

  /** No caller is lost or doubled: the threads queued and those woken are exactly those whose call has not returned. */
  lemma {:induction false} CallersAreKept(run: seq<State>, moves: seq<Move>, n: nat)
    requires IsRun(run, moves) && n < |run|
    ensures CallersAfter(run, moves, n) == Waiting(run[n])
  {
    if n == 0 {
      NobodyWaits(run[0]);
    } else {
      CallersAreKept(run, moves, n - 1);
      StepKeepsCallers(run, moves, n);
    }
  }

  lemma WokenMayRead(s: State, h: Holds, u: nat)
    requires s.writeWait == [] && s.readers == 0 && !s.crashed && u in s.readWait
    ensures Enabled(WakeAllReaders(s), h, ReaderRuns(u))
    ensures s.owner.None? ==> Next(WakeAllReaders(s), ReaderRuns(u)).readers == 1
                              && Next(WakeAllReaders(s), ReaderRuns(u)).readWait == []
  {
    assert u in multiset(s.readWait);
  }

  /** wunlock() with no writer waiting: every reader in the queue may go on, and no reader stays. */
  lemma ReleaseWakesReaders(s: State, h: Holds, t: nat)
    requires Inv(s, h) && t in h.writeHolds && s.writeWait == []
    ensures var s', h' := Next(s, WUnlock(t)), Note(h, WUnlock(t));
            && s'.readWait == []
            && (forall u: nat :: u in s.readWait ==> Enabled(s', h', ReaderRuns(u)))
            && (h.writeHolds[t] == 1 ==> forall u: nat :: u in s.readWait ==>
                  Next(s', ReaderRuns(u)).readers == 1 && Next(s', ReaderRuns(u)).readWait == [])
  {
    WritesCounted(s, h, t);
    var s1 := if s.extra > 0 then s.(extra := s.extra - 1) else s.(owner := None);
    assert Next(s, WUnlock(t)) == WakeAllReaders(s1);
    forall u: nat | u in s.readWait
      ensures Enabled(Next(s, WUnlock(t)), Note(h, WUnlock(t)), ReaderRuns(u))
      ensures h.writeHolds[t] == 1 ==>
                Next(Next(s, WUnlock(t)), ReaderRuns(u)).readers == 1
                && Next(Next(s, WUnlock(t)), ReaderRuns(u)).readWait == []
    {
      WokenMayRead(s1, Note(h, WUnlock(t)), u);
    }
  }

  /** The first k threads have left. */
  predicate Left(q: seq<nat>, q': seq<nat>, k: nat) { k <= |q| && q' == q[k..] }

  /** A queue is left at its front and joined at its end. */
  ghost predicate Follows(q: seq<nat>, q': seq<nat>, t: nat)
  {
    q' == q + [t] || exists k: nat :: Left(q, q', k)
  }

  lemma StaysPut(q: seq<nat>, t: nat)
    ensures Follows(q, q, t) && (q != [] ==> Follows(q, q[1..], t)) && Follows(q, [], t)
  {
    assert Left(q, q, 0) && Left(q, [], |q|) && (q != [] ==> Left(q, q[1..], 1));
  }

  lemma LeftTwice(q: seq<nat>, q1: seq<nat>, q2: seq<nat>, k: nat, i: nat)
    requires Left(q, q1, k) && Left(q1, q2, i)
    ensures Left(q, q2, k + i)
  {
  }

  lemma {:induction false} ReleaseAllInOrder(s: State) returns (k: nat, l: nat)
    ensures Left(s.writeWait, ReleaseAll(s).writeWait, k) && Left(s.readWait, ReleaseAll(s).readWait, l)
    decreases s.extra
  {
    var s1 := ReleaseWrite(s);
    k, l := if s.writeWait != [] then 1 else 0, if s.writeWait != [] then 0 else |s.readWait|;
    assert Left(s.writeWait, s1.writeWait, k) && Left(s.readWait, s1.readWait, l);
    if s.extra > 0 {
      var i, j := ReleaseAllInOrder(s1);
      LeftTwice(s.writeWait, s1.writeWait, ReleaseAll(s1).writeWait, k, i);
      LeftTwice(s.readWait, s1.readWait, ReleaseAll(s1).readWait, l, j);
      k, l := k + i, l + j;
    }
  }

  /** Nobody overtakes in a queue: who leaves it has been in it longest. */
  lemma WaitInOrder(s: State, m: Move)
    ensures Follows(s.readWait, Next(s, m).readWait, m.t) && Follows(s.writeWait, Next(s, m).writeWait, m.t)
  {
    StaysPut(s.readWait, m.t);
    StaysPut(s.writeWait, m.t);
    if m.Downgrade? {
      var k, l := ReleaseAllInOrder(s);
    } else {
      QueuesAfter(s, m);
    }
  }

  lemma QueuesAfter(s: State, m: Move)
    requires !m.Downgrade?
    ensures var q, q' := s.readWait, Next(s, m).readWait; q' == q || q' == q + [m.t] || q' == []
    ensures var q, q' := s.writeWait, Next(s, m).writeWait; q' == q || q' == q + [m.t] || (q != [] && q' == q[1..])
  {
  }

  // ----------------------------------------------------------------------------------------
  // Who gets the lock
  // ----------------------------------------------------------------------------------------

  /** By the calls so far: reading is granted exactly when nobody writes and no writer is queued, writing exactly when
      nobody else writes and nobody reads, and an upgrade exactly to the only reader when no writer is queued. Who is
      not granted the lock joins the end of its queue. */
  lemma GrantedExactly(run: seq<State>, moves: seq<Move>, n: nat, t: nat)
    requires IsRun(run, moves) && n < |run|
    ensures var s, h := run[n], HoldsAfter(run, moves, n);
            && Next(s, RLock(t)) ==
               (if h.writeHolds == multiset{} && s.writeWait == [] then s.(readers := |h.readHolds| + 1)
                else s.(readWait := s.readWait + [t]))
            && (if h.writeHolds == multiset{}[t := h.writeHolds[t]] && h.readHolds == multiset{}
                then Next(s, WLock(t)).owner == Some(t) && Next(s, WLock(t)).extra == h.writeHolds[t]
                else Next(s, WLock(t)) == s.(writeWait := s.writeWait + [t]))
            && (Next(s, TryUpgrade(t)) != s <==> |h.readHolds| == 1 && s.writeWait == [])
  {
    RunKeepsInv(run, moves, n);
    var s, h := run[n], HoldsAfter(run, moves, n);
    if s.owner == Some(t) {
      assert h.writeHolds == multiset{}[t := h.writeHolds[t]];
      assert h.readHolds == multiset{};
    }
  }

  /** No wakeup is lost: while a thread waits for an idle lock, a woken writer has yet to run. */
  lemma NoLostWakeup(run: seq<State>, moves: seq<Move>, n: nat)
    requires IsRun(run, moves) && n < |run| && Idle(run[n]) && (run[n].readWait != [] || run[n].writeWait != [])
    ensures exists t: nat :: t in run[n].writeWoken
  {
    RunKeepsInv(run, moves, n);
  }

  /** That writer takes the lock when it runs first, so an idle lock with waiters does not stay idle. */
  lemma IdleLockIsTaken(run: seq<State>, moves: seq<Move>, n: nat, t: nat)
    requires IsRun(run, moves) && n < |run| && Idle(run[n]) && t in run[n].writeWoken
    ensures Enabled(run[n], HoldsAfter(run, moves, n), WriterRuns(t)) && Next(run[n], WriterRuns(t)).owner == Some(t)
  {
    RunKeepsInv(run, moves, n);
  }
}
