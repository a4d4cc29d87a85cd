/** The guest side of a virtio split ring: drivers/virtio-vring.cc, section 2.4 of VIRTIO 1.0.

    The free descriptors are a list threaded through the descriptor table; add_buf() cuts a chain off its
    front and get_buf_gc() puts completed chains back. All ring positions are free-running 16-bit counters.
  */
module Vring {

  import opened Common

  const U16: nat := 0x1_0000

  /** sizeof(vring_desc). */
  const DESC_SIZE: nat := 16

  /** A buffer of the scatter-gather list: address, length and whether the device may write it. */
  datatype Sg = Sg(paddr: int, len: int, write: bool)

  /** One entry of the descriptor table. `nextFlag` and `indirect` are bits of _flags. */
  datatype Desc = Desc(nextFlag: bool, indirect: bool, next: nat, sg: Sg)

  datatype UsedElem = UsedElem(id: nat, len: nat)

  /** The upper layer's pointer. */
  datatype Cookie = Null | Cookie(p: int)

  // ----------------------------------------------------------------------------------------
  // The ring seen from outside
  // ----------------------------------------------------------------------------------------

  /** Where a posted buffer is: not yet seen by the device, in its hands, or completed as the k-th one. */
  datatype Stage = Posted | Taken | Done(k: nat)

  /** A posted buffer: its descriptors, its scatter-gather list, and its number in the order of posting. */
  datatype Flight = Flight(chain: seq<nat>, indirect: bool, sgs: seq<Sg>, stage: Stage, serial: nat)

  /** Where a descriptor is. */
  datatype Loc = OnStack(i: nat) | InChain(h: nat, i: nat)

  /** `stack`: the free descriptors, the head of the list last. `flight`: the posted buffers by first descriptor.
      `posted`, `cookies`: head and cookie of every buffer ever posted. `used`, `serials`, `lens`: head, number and
      written length of every buffer ever completed; `doneAt` is the inverse of `serials`. `taken`, `host` and `guest`
      count the buffers the device has taken, get_buf_finalize() has passed and get_buf_gc() has collected. `fetched`:
      the cookie of the buffer at `host` was handed out; `got`: all cookies handed out. */
  datatype Ring = Ring(
    stack: seq<nat>, flight: map<nat, Flight>, loc: seq<Loc>,
    posted: seq<nat>, cookies: seq<Cookie>, taken: nat,
    used: seq<nat>, serials: seq<nat>, lens: seq<nat>, doneAt: seq<int>,
    host: nat, guest: nat, fetched: bool, got: seq<Cookie>)

  ghost predicate StackOk(d: seq<Desc>, r: Ring, i: nat)
  {
    i < |r.stack| ==>
      && r.stack[i] < |d| == |r.loc| && r.loc[r.stack[i]] == OnStack(i)
      && (i > 0 ==> d[r.stack[i]].next == r.stack[i - 1])
  }

  ghost predicate LinkOk(d: seq<Desc>, r: Ring, h: nat, i: nat)
  {
    h in r.flight && i < |r.flight[h].chain| ==>
      var f := r.flight[h];
      && f.chain[i] < |d| == |r.loc| && r.loc[f.chain[i]] == InChain(h, i)
      && (f.indirect ==> d[f.chain[i]].indirect && d[f.chain[i]].sg.len == |f.sgs| * DESC_SIZE)
      && (!f.indirect ==>
            && !d[f.chain[i]].indirect
            && |f.sgs| == |f.chain| && d[f.chain[i]].sg == f.sgs[i]
            && d[f.chain[i]].nextFlag == (i + 1 < |f.chain|)
            && (i + 1 < |f.chain| ==> d[f.chain[i]].next == f.chain[i + 1]))
  }

  ghost predicate LocOk(r: Ring, x: nat)
  {
    x < |r.loc| ==>
      match r.loc[x]
      case OnStack(i) => i < |r.stack| && r.stack[i] == x
      case InChain(h, i) => h in r.flight && i < |r.flight[h].chain| && r.flight[h].chain[i] == x
  }

  ghost predicate FlightOk(r: Ring, h: nat)
  {
    h in r.flight ==>
      var f := r.flight[h];
      && |f.chain| > 0 && f.chain[0] == h && (f.indirect ==> |f.chain| == 1)
      && f.serial < |r.posted| == |r.doneAt| && r.posted[f.serial] == h && |r.used| == |r.serials|
      && (f.stage.Posted? <==> r.taken <= f.serial)
      && (f.stage.Done? ==>
            r.guest <= f.stage.k < |r.used| && r.used[f.stage.k] == h && r.serials[f.stage.k] == f.serial)
      && (r.doneAt[f.serial] == if f.stage.Done? then f.stage.k else -1)
  }

  /** The k-th posted buffer, while the device has not seen it, is in its slot of the available ring. */
  ghost predicate PostedOk(avail: seq<nat>, r: Ring, k: nat)
    requires |avail| > 0
  {
    r.taken <= k < |r.posted| ==>
      && r.posted[k] in r.flight && r.flight[r.posted[k]].stage.Posted? && r.flight[r.posted[k]].serial == k
      && avail[k % |avail|] == r.posted[k]
  }

  /** The k-th completed buffer, while not collected, is in its slot of the used ring. */
  ghost predicate DoneOk(elems: seq<UsedElem>, r: Ring, k: nat)
    requires |elems| > 0
  {
    && (r.guest <= k < |r.used| ==>
          && r.used[k] in r.flight && r.flight[r.used[k]].stage == Done(k)
          && k < |r.lens| && elems[k % |elems|] == UsedElem(r.used[k], r.lens[k]))
    && (k < |r.used| == |r.serials| ==> r.serials[k] < |r.doneAt| && r.doneAt[r.serials[k]] == k)
  }

  /** The cookie of a buffer stays in the table until it is handed out. */
  ghost predicate CookieOk(cookie: seq<Cookie>, r: Ring, h: nat)
  {
    h in r.flight && h < |cookie| && r.flight[h].serial < |r.cookies| ==>
      var f := r.flight[h];
      if f.stage.Done? && f.stage.k <= r.host then
        (f.stage.k == r.host && !r.fetched ==> cookie[h] == r.cookies[f.serial])
        && (f.stage.k == r.host && r.fetched ==> cookie[h].Null?)
      else cookie[h] == r.cookies[f.serial]
  }

  /** The cookies handed out are those of the completed buffers, in order of completion. */
  ghost predicate GotOk(r: Ring, k: nat)
  {
    k < |r.got| && k < |r.serials| && r.serials[k] < |r.cookies| ==> r.got[k] == r.cookies[r.serials[k]]
  }

  ghost predicate CountsOk(r: Ring)
  {
    && |r.posted| == |r.cookies| == |r.doneAt| && |r.used| == |r.serials| == |r.lens|
    && r.guest <= r.host <= |r.used| && r.taken <= |r.posted|
    && (r.fetched ==> r.host < |r.used|)
    && |r.got| == r.host + (if r.fetched then 1 else 0)
  }

  /** Everything the driver's tables must say. */
  ghost predicate RingOk(d: seq<Desc>, avail: seq<nat>, elems: seq<UsedElem>, cookie: seq<Cookie>, r: Ring)
  {
    && 0 < |d| == |avail| == |elems| == |cookie| == |r.loc|
    && CountsOk(r)
    && (forall i: nat {:trigger StackOk(d, r, i)} :: StackOk(d, r, i))
    && (forall h: nat, i: nat {:trigger LinkOk(d, r, h, i)} :: LinkOk(d, r, h, i))
    && (forall x: nat {:trigger LocOk(r, x)} :: LocOk(r, x))
    && (forall h: nat {:trigger FlightOk(r, h)} :: FlightOk(r, h))
    && (forall k: nat {:trigger PostedOk(avail, r, k)} :: PostedOk(avail, r, k))
    && (forall k: nat {:trigger DoneOk(elems, r, k)} :: DoneOk(elems, r, k))
    && (forall h: nat {:trigger CookieOk(cookie, r, h)} :: CookieOk(cookie, r, h))
    && (forall k: nat {:trigger GotOk(r, k)} :: GotOk(r, k))
  }

  // ----------------------------------------------------------------------------------------
  // What each operation does to the ring
  // ----------------------------------------------------------------------------------------

  /** The first m free descriptors, in list order. */
  ghost function Front(r: Ring, m: nat): (chain: seq<nat>)
    requires m <= |r.stack|
  {
    seq(m, i requires 0 <= i < m => r.stack[|r.stack| - 1 - i])
  }

  /** The descriptors a buffer takes from the table. */
  function Needed(indirect: bool, sgs: seq<Sg>): (m: nat)
  {
    if indirect then 1 else |sgs|
  }

  /** add_buf() of a scatter-gather list. */
  ghost function Post(r: Ring, indirect: bool, sgs: seq<Sg>, c: Cookie): (r': Ring)
    requires 0 < Needed(indirect, sgs) <= |r.stack|
  {
    var m := Needed(indirect, sgs);
    var n, h := |r.stack|, r.stack[|r.stack| - 1];
    r.(stack := r.stack[..n - m],
       flight := r.flight[h := Flight(Front(r, m), indirect, sgs, Posted, |r.posted|)],
       loc := seq(|r.loc|, x requires 0 <= x < |r.loc| =>
                if r.loc[x].OnStack? && n - m <= r.loc[x].i < n then InChain(h, n - 1 - r.loc[x].i) else r.loc[x]),
       posted := r.posted + [h], cookies := r.cookies + [c], doneAt := r.doneAt + [-1])
  }

  /** The device takes the next buffer. */
  ghost function TakeNext(r: Ring): (r': Ring)
    requires r.taken < |r.posted| && r.posted[r.taken] in r.flight
  {
    var h := r.posted[r.taken];
    r.(taken := r.taken + 1, flight := r.flight[h := r.flight[h].(stage := Taken)])
  }

  /** The device completes a buffer it has taken, after it wrote len bytes. */
  ghost function Complete(r: Ring, h: nat, len: nat): (r': Ring)
    requires h in r.flight && r.flight[h].serial < |r.doneAt|
  {
    var f, k := r.flight[h], |r.used|;
    r.(flight := r.flight[h := f.(stage := Done(k))], used := r.used + [h], serials := r.serials + [f.serial],
       lens := r.lens + [len], doneAt := r.doneAt[f.serial := k])
  }

  /** get_buf_elem() on a used ring that is not empty. */
  ghost function Fetch(r: Ring): (r': Ring)
    requires r.host < |r.serials| && r.serials[r.host] < |r.cookies|
  {
    r.(fetched := true, got := r.got + [r.cookies[r.serials[r.host]]])
  }

  ghost function Finalize(r: Ring): (r': Ring)
  {
    r.(host := r.host + 1, fetched := false)
  }

  /** One round of get_buf_gc(). */
  ghost function Collect(r: Ring): (r': Ring)
    requires r.guest < |r.used| && r.used[r.guest] in r.flight
  {
    var h := r.used[r.guest];
    var c, n := r.flight[h].chain, |r.stack|;
    r.(stack := r.stack + seq(|c|, i requires 0 <= i < |c| => c[|c| - 1 - i]),
       flight := r.flight - {h},
       loc := seq(|r.loc|, x requires 0 <= x < |r.loc| =>
                if r.loc[x].InChain? && r.loc[x].h == h && r.loc[x].i < |c| then OnStack(n + |c| - 1 - r.loc[x].i)
                else r.loc[x]),
       guest := r.guest + 1)
  }

  // ----------------------------------------------------------------------------------------
  // Every operation keeps the ring consistent
  // ----------------------------------------------------------------------------------------

  /** add_buf() leaves every link alone and rewrites the flags of the chain. */
  ghost predicate Chained(d: seq<Desc>, d': seq<Desc>, c: seq<nat>, indirect: bool, sgs: seq<Sg>)
  {
    && |d'| == |d|
    && (forall x: nat :: x < |d| && x !in c ==> d'[x] == d[x])
    && (forall i: nat :: i < |c| && c[i] < |d| ==>
          && d'[c[i]].next == d[c[i]].next
          && d'[c[i]].indirect == indirect
          && (indirect ==> d'[c[i]].sg.len == |sgs| * DESC_SIZE)
          && (!indirect ==> |sgs| == |c| && d'[c[i]].sg == sgs[i] && d'[c[i]].nextFlag == (i + 1 < |c|)))
  }

  lemma FrontIsFree(d: seq<Desc>, avail: seq<nat>, elems: seq<UsedElem>, cookie: seq<Cookie>, r: Ring, m: nat)
    requires RingOk(d, avail, elems, cookie, r) && 0 < m <= |r.stack|
    ensures forall i: nat :: i < m ==>
              Front(r, m)[i] < |d| && r.loc[Front(r, m)[i]] == OnStack(|r.stack| - 1 - i)
    ensures forall x: nat :: x < |d| ==>
              (x in Front(r, m) <==> r.loc[x].OnStack? && |r.stack| - m <= r.loc[x].i)
    ensures r.stack[|r.stack| - 1] !in r.flight
    ensures forall i: nat :: i + 1 < m ==> d[Front(r, m)[i]].next == Front(r, m)[i + 1]
  {
    var c, n := Front(r, m), |r.stack|;
    forall i: nat | i < m ensures c[i] < |d| && r.loc[c[i]] == OnStack(n - 1 - i) { assert StackOk(d, r, n - 1 - i); }
    forall i: nat | i + 1 < m ensures d[c[i]].next == c[i + 1] { assert StackOk(d, r, n - 1 - i); }
    forall x: nat | x < |d|
      ensures x in c <==> r.loc[x].OnStack? && n - m <= r.loc[x].i
    {
      assert LocOk(r, x);
      if r.loc[x].OnStack? && n - m <= r.loc[x].i { assert c[n - 1 - r.loc[x].i] == x; }
    }
    var h := r.stack[n - 1];
    assert StackOk(d, r, n - 1);
    assert FlightOk(r, h) && LinkOk(d, r, h, 0);
  }

  lemma PostKeepsLists(d: seq<Desc>, d': seq<Desc>, avail: seq<nat>, elems: seq<UsedElem>, cookie: seq<Cookie>,
                       r: Ring, indirect: bool, sgs: seq<Sg>, v: Cookie)
    requires RingOk(d, avail, elems, cookie, r) && 0 < Needed(indirect, sgs) <= |r.stack|
    requires Chained(d, d', Front(r, Needed(indirect, sgs)), indirect, sgs)
    ensures var r' := Post(r, indirect, sgs, v);
            && (forall i: nat {:trigger StackOk(d', r', i)} :: StackOk(d', r', i))
            && (forall g: nat, i: nat {:trigger LinkOk(d', r', g, i)} :: LinkOk(d', r', g, i))
            && (forall x: nat {:trigger LocOk(r', x)} :: LocOk(r', x))
  {
    var m := Needed(indirect, sgs);
    var r', c, n := Post(r, indirect, sgs, v), Front(r, m), |r.stack|;
    FrontIsFree(d, avail, elems, cookie, r, m);
    forall i: nat ensures StackOk(d', r', i) { assert StackOk(d, r, i); }
    forall g: nat, i: nat ensures LinkOk(d', r', g, i) { assert LinkOk(d, r, g, i); }
    forall x: nat ensures LocOk(r', x) { assert LocOk(r, x); }
  }

  // Counting

  ghost function Below(n: nat): (r: set<nat>)
    ensures |r| == n && forall x: nat :: x in r <==> x < n
  {
    if n == 0 then {} else Below(n - 1) + {n - 1}
  }

  lemma {:induction false} SubsetSize(a: set<nat>, b: set<nat>)
    requires a <= b
    ensures |a| <= |b|
  {
    if a != {} {
      var x :| x in a;
      SubsetSize(a - {x}, b - {x});
    }
  }

  lemma {:induction false} SeqSetSize(s: seq<nat>)
    requires NoDup(s)
    ensures |set x: nat | x in s| == |s|
  {
    if s != [] {
      var n := |s| - 1;
      SeqSetSize(s[..n]);
      assert (set x: nat | x in s) == (set x: nat | x in s[..n]) + {s[n]};
    }
  }

  /** Distinct numbers below n are at most n. */
  lemma Pigeonhole(s: seq<nat>, n: nat)
    requires NoDup(s) && forall i: nat :: i < |s| ==> s[i] < n
    ensures |s| <= n
  {
    SeqSetSize(s);
    SubsetSize((set x: nat | x in s), Below(n));
  }

  /** A free descriptor leaves room for its buffer in the available ring. */
  lemma RoomInAvail(d: seq<Desc>, avail: seq<nat>, elems: seq<UsedElem>, cookie: seq<Cookie>, r: Ring)
    requires RingOk(d, avail, elems, cookie, r) && |r.stack| > 0
    ensures |r.posted| - r.taken < |d|
  {
    var h := r.stack[|r.stack| - 1];
    FrontIsFree(d, avail, elems, cookie, r, 1);
    assert StackOk(d, r, |r.stack| - 1);
    var s: seq<nat> := r.posted[r.taken..] + [h];
    forall i: nat | i < |s|
      ensures s[i] < |d| && (i + 1 < |s| ==> s[i] in r.flight && r.flight[s[i]].serial == r.taken + i)
    {
      assert PostedOk(avail, r, r.taken + i);
      assert FlightOk(r, s[i]) && LinkOk(d, r, s[i], 0);
    }
    Pigeonhole(s, |d|);
  }

  /** A buffer in the hands of the device leaves room for it in the used ring. */
  lemma RoomInUsed(d: seq<Desc>, avail: seq<nat>, elems: seq<UsedElem>, cookie: seq<Cookie>, r: Ring, h: nat)
    requires RingOk(d, avail, elems, cookie, r) && h in r.flight && !r.flight[h].stage.Done?
    ensures |r.used| - r.guest < |d|
  {
    var s: seq<nat> := r.used[r.guest..] + [h];
    forall i: nat | i < |s|
      ensures s[i] < |d| && (i + 1 < |s| ==> s[i] in r.flight && r.flight[s[i]].stage == Done(r.guest + i))
    {
      assert DoneOk(elems, r, r.guest + i);
      assert FlightOk(r, s[i]) && LinkOk(d, r, s[i], 0);
    }
    Pigeonhole(s, |d|);
  }

  /** At most as many completed buffers wait to be collected as there are descriptors. */
  lemma UsedWindow(d: seq<Desc>, avail: seq<nat>, elems: seq<UsedElem>, cookie: seq<Cookie>, r: Ring)
    requires RingOk(d, avail, elems, cookie, r)
    ensures |r.used| - r.guest <= |d|
  {
    var s: seq<nat> := r.used[r.guest..];
    forall i: nat | i < |s|
      ensures s[i] < |d| && s[i] in r.flight && r.flight[s[i]].stage == Done(r.guest + i)
    {
      assert DoneOk(elems, r, r.guest + i);
      assert FlightOk(r, s[i]) && LinkOk(d, r, s[i], 0);
    }
    Pigeonhole(s, |d|);
  }

  /** The free descriptors are at most all. */
  lemma StackFits(d: seq<Desc>, avail: seq<nat>, elems: seq<UsedElem>, cookie: seq<Cookie>, r: Ring)
    requires RingOk(d, avail, elems, cookie, r)
    ensures |r.stack| <= |d|
  {
    forall i: nat | i < |r.stack|
      ensures r.stack[i] < |d| && r.loc[r.stack[i]] == OnStack(i)
    {
      assert StackOk(d, r, i);
    }
    Pigeonhole(r.stack, |d|);
  }

  // Preservation

  lemma PostKeepsRing(d: seq<Desc>, d': seq<Desc>, avail: seq<nat>, elems: seq<UsedElem>, cookie: seq<Cookie>,
                      r: Ring, indirect: bool, sgs: seq<Sg>, v: Cookie)
    requires RingOk(d, avail, elems, cookie, r) && 0 < Needed(indirect, sgs) <= |r.stack|
    requires Chained(d, d', Front(r, Needed(indirect, sgs)), indirect, sgs)
    ensures r.stack[|r.stack| - 1] < |d|
    ensures var h := r.stack[|r.stack| - 1];
            RingOk(d', avail[|r.posted| % |avail| := h], elems, cookie[h := v], Post(r, indirect, sgs, v))
  {
    var m := Needed(indirect, sgs);
    var r', h := Post(r, indirect, sgs, v), r.stack[|r.stack| - 1];
    PostKeepsLists(d, d', avail, elems, cookie, r, indirect, sgs, v);
    FrontIsFree(d, avail, elems, cookie, r, m);
    RoomInAvail(d, avail, elems, cookie, r);
    assert h == Front(r, m)[0];
    var avail', cookie' := avail[|r.posted| % |avail| := h], cookie[h := v];
    forall g: nat ensures FlightOk(r', g) { assert FlightOk(r, g); }
    forall k: nat ensures PostedOk(avail', r', k)
    {
      assert PostedOk(avail, r, k);
      if r.taken <= k < |r.posted| { ModDistinct(k, |r.posted|, |avail|); }
    }
    forall k: nat ensures DoneOk(elems, r', k) { assert DoneOk(elems, r, k); }
    forall g: nat ensures CookieOk(cookie', r', g) { assert CookieOk(cookie, r, g) && FlightOk(r, g); }
    forall k: nat ensures GotOk(r', k) { assert GotOk(r, k) && DoneOk(elems, r, k); }
  }

  lemma PostShape(d: seq<Desc>, avail: seq<nat>, elems: seq<UsedElem>, cookie: seq<Cookie>, r: Ring, indirect: bool,
                  sgs: seq<Sg>, v: Cookie)
    requires RingOk(d, avail, elems, cookie, r) && 0 < Needed(indirect, sgs) <= |r.stack|
    ensures var m, h, r' := Needed(indirect, sgs), r.stack[|r.stack| - 1], Post(r, indirect, sgs, v);
            && h !in r.flight && r'.flight == r.flight[h := r'.flight[h]]
            && r'.flight[h].indirect == indirect && r'.flight[h].sgs == sgs
            && r' == r.(stack := r'.stack, flight := r'.flight, loc := r'.loc, posted := r.posted + [h],
                        cookies := r'.cookies, doneAt := r'.doneAt)
            && |r'.stack| == |r.stack| - m && Front(r, m)[m - 1] < |d|
            && (r'.stack != [] ==> r'.stack[|r'.stack| - 1] == d[Front(r, m)[m - 1]].next)
  {
    FrontChain(d, avail, elems, cookie, r, Needed(indirect, sgs));
    FrontIsFree(d, avail, elems, cookie, r, Needed(indirect, sgs));
  }

  lemma TakeKeepsRing(d: seq<Desc>, avail: seq<nat>, elems: seq<UsedElem>, cookie: seq<Cookie>, r: Ring)
    requires RingOk(d, avail, elems, cookie, r) && r.taken < |r.posted|
    ensures r.posted[r.taken] in r.flight && avail[r.taken % |avail|] == r.posted[r.taken]
    ensures RingOk(d, avail, elems, cookie, TakeNext(r))
  {
    assert PostedOk(avail, r, r.taken);
    var r' := TakeNext(r);
    forall i: nat ensures StackOk(d, r', i) { assert StackOk(d, r, i); }
    forall g: nat, i: nat ensures LinkOk(d, r', g, i) { assert LinkOk(d, r, g, i); }
    forall x: nat ensures LocOk(r', x) { assert LocOk(r, x); }
    forall g: nat ensures FlightOk(r', g) { assert FlightOk(r, g); }
    forall k: nat ensures PostedOk(avail, r', k) { assert PostedOk(avail, r, k); }
    forall k: nat ensures DoneOk(elems, r', k) { assert DoneOk(elems, r, k); }
    forall g: nat ensures CookieOk(cookie, r', g) { assert CookieOk(cookie, r, g); }
    forall k: nat ensures GotOk(r', k) { assert GotOk(r, k); }
  }

  lemma CompleteKeepsRing(d: seq<Desc>, avail: seq<nat>, elems: seq<UsedElem>, cookie: seq<Cookie>, r: Ring, h: nat,
                          len: nat)
    requires RingOk(d, avail, elems, cookie, r) && h in r.flight && r.flight[h].stage.Taken?
    ensures r.flight[h].serial < |r.doneAt|
    ensures RingOk(d, avail, elems[|r.used| % |elems| := UsedElem(h, len)], cookie, Complete(r, h, len))
  {
    assert FlightOk(r, h);
    RoomInUsed(d, avail, elems, cookie, r, h);
    var r', elems' := Complete(r, h, len), elems[|r.used| % |elems| := UsedElem(h, len)];
    forall i: nat ensures StackOk(d, r', i) { assert StackOk(d, r, i); }
    forall g: nat, i: nat ensures LinkOk(d, r', g, i) { assert LinkOk(d, r, g, i); }
    forall x: nat ensures LocOk(r', x) { assert LocOk(r, x); }
    forall g: nat ensures FlightOk(r', g) { assert FlightOk(r, g); }
    forall k: nat ensures PostedOk(avail, r', k) { assert PostedOk(avail, r, k); }
    forall k: nat ensures DoneOk(elems', r', k)
    {
      assert DoneOk(elems, r, k);
      if r.guest <= k < |r.used| { ModDistinct(k, |r.used|, |elems|); }
    }
    forall g: nat ensures CookieOk(cookie, r', g) { assert CookieOk(cookie, r, g); }
    forall k: nat ensures GotOk(r', k) { assert GotOk(r, k); }
  }

  lemma FetchKeepsRing(d: seq<Desc>, avail: seq<nat>, elems: seq<UsedElem>, cookie: seq<Cookie>, r: Ring)
    requires RingOk(d, avail, elems, cookie, r) && r.host < |r.used|
    ensures var h := r.used[r.host];
            && h < |cookie| && r.host < |r.lens| && elems[r.host % |elems|] == UsedElem(h, r.lens[r.host])
            && h in r.flight && r.serials[r.host] < |r.cookies|
            && cookie[h] == (if r.fetched then Null else r.cookies[r.serials[r.host]])
            && (!r.fetched ==> RingOk(d, avail, elems, cookie[h := Null], Fetch(r)))
            && (r.fetched ==> cookie[h := Null] == cookie)
  {
    var h := r.used[r.host];
    assert DoneOk(elems, r, r.host) && FlightOk(r, h) && CookieOk(cookie, r, h) && LinkOk(d, r, h, 0);
    if !r.fetched {
      var r', cookie' := Fetch(r), cookie[h := Null];
      forall i: nat ensures StackOk(d, r', i) { assert StackOk(d, r, i); }
      forall g: nat, i: nat ensures LinkOk(d, r', g, i) { assert LinkOk(d, r, g, i); }
      forall x: nat ensures LocOk(r', x) { assert LocOk(r, x); }
      forall g: nat ensures FlightOk(r', g) { assert FlightOk(r, g); }
      forall k: nat ensures PostedOk(avail, r', k) { assert PostedOk(avail, r, k); }
      forall k: nat ensures DoneOk(elems, r', k) { assert DoneOk(elems, r, k); }
      forall g: nat ensures CookieOk(cookie', r', g) { assert CookieOk(cookie, r, g) && FlightOk(r, g); }
      forall k: nat ensures GotOk(r', k) { assert GotOk(r, k); }
    }
  }

  lemma FinalizeKeepsRing(d: seq<Desc>, avail: seq<nat>, elems: seq<UsedElem>, cookie: seq<Cookie>, r: Ring)
    requires RingOk(d, avail, elems, cookie, r) && r.fetched
    ensures RingOk(d, avail, elems, cookie, Finalize(r))
  {
    var r' := Finalize(r);
    forall i: nat ensures StackOk(d, r', i) { assert StackOk(d, r, i); }
    forall g: nat, i: nat ensures LinkOk(d, r', g, i) { assert LinkOk(d, r, g, i); }
    forall x: nat ensures LocOk(r', x) { assert LocOk(r, x); }
    forall g: nat ensures FlightOk(r', g) { assert FlightOk(r, g); }
    forall k: nat ensures PostedOk(avail, r', k) { assert PostedOk(avail, r, k); }
    forall k: nat ensures DoneOk(elems, r', k) { assert DoneOk(elems, r, k); }
    forall g: nat ensures CookieOk(cookie, r', g) { assert CookieOk(cookie, r, g); }
    forall k: nat ensures GotOk(r', k) { assert GotOk(r, k); }
  }

  /** get_buf_gc() links the end of the collected chain to the old head of the free list. */
  lemma CollectKeepsLists(d: seq<Desc>, avail: seq<nat>, elems: seq<UsedElem>, cookie: seq<Cookie>, r: Ring, head: nat)
    requires RingOk(d, avail, elems, cookie, r) && r.guest < r.host
    requires r.stack != [] ==> head == r.stack[|r.stack| - 1]
    ensures r.used[r.guest] in r.flight && |r.flight[r.used[r.guest]].chain| > 0
    ensures var c := r.flight[r.used[r.guest]].chain;
            && c[|c| - 1] < |d|
            && var d', r' := d[c[|c| - 1] := d[c[|c| - 1]].(next := head)], Collect(r);
               && (forall i: nat {:trigger StackOk(d', r', i)} :: StackOk(d', r', i))
               && (forall g: nat, i: nat {:trigger LinkOk(d', r', g, i)} :: LinkOk(d', r', g, i))
               && (forall x: nat {:trigger LocOk(r', x)} :: LocOk(r', x))
  {
    assert DoneOk(elems, r, r.guest);
    var h := r.used[r.guest];
    assert FlightOk(r, h);
    var f, n := r.flight[h], |r.stack|;
    var c := f.chain;
    assert LinkOk(d, r, h, |c| - 1);
    var d', r' := d[c[|c| - 1] := d[c[|c| - 1]].(next := head)], Collect(r);
    forall i: nat ensures StackOk(d', r', i)
    {
      assert StackOk(d, r, i);
      if n <= i < n + |c| {
        assert LinkOk(d, r, h, n + |c| - 1 - i);
      }
    }
    forall g: nat, i: nat ensures LinkOk(d', r', g, i) { assert LinkOk(d, r, g, i); }
    forall x: nat ensures LocOk(r', x) { assert LocOk(r, x); }
  }

  lemma CollectKeepsRing(d: seq<Desc>, avail: seq<nat>, elems: seq<UsedElem>, cookie: seq<Cookie>, r: Ring, head: nat)
    requires RingOk(d, avail, elems, cookie, r) && r.guest < r.host
    requires r.stack != [] ==> head == r.stack[|r.stack| - 1]
    ensures r.used[r.guest] in r.flight && |r.flight[r.used[r.guest]].chain| > 0
    ensures elems[r.guest % |elems|].id == r.used[r.guest]
    ensures var c := r.flight[r.used[r.guest]].chain;
            && c[|c| - 1] < |d|
            && |Collect(r).stack| == |r.stack| + |c| && Collect(r).stack[|r.stack| + |c| - 1] == r.used[r.guest]
            && RingOk(d[c[|c| - 1] := d[c[|c| - 1]].(next := head)], avail, elems, cookie, Collect(r))
  {
    CollectKeepsLists(d, avail, elems, cookie, r, head);
    assert DoneOk(elems, r, r.guest);
    var h, r' := r.used[r.guest], Collect(r);
    assert FlightOk(r, h);
    forall g: nat ensures FlightOk(r', g) { assert FlightOk(r, g); }
    forall k: nat ensures PostedOk(avail, r', k) { assert PostedOk(avail, r, k); }
    forall k: nat ensures DoneOk(elems, r', k) { assert DoneOk(elems, r, k); }
    forall g: nat ensures CookieOk(cookie, r', g) { assert CookieOk(cookie, r, g); }
    forall k: nat ensures GotOk(r', k) { assert GotOk(r, k); }
  }

  /** A cookie written at a free descriptor does not matter. */
  lemma SpareCookie(d: seq<Desc>, avail: seq<nat>, elems: seq<UsedElem>, cookie: seq<Cookie>, r: Ring, h: nat,
                    v: Cookie)
    requires RingOk(d, avail, elems, cookie, r) && h < |d| && h !in r.flight
    ensures RingOk(d, avail, elems, cookie[h := v], r)
  {
    var cookie' := cookie[h := v];
    forall g: nat ensures CookieOk(cookie', r, g) { assert CookieOk(cookie, r, g); }
  }

  /** What add_buf() needs to know of the front of the free list. */
  lemma FrontChain(d: seq<Desc>, avail: seq<nat>, elems: seq<UsedElem>, cookie: seq<Cookie>, r: Ring, m: nat)
    requires RingOk(d, avail, elems, cookie, r) && 0 < m <= |r.stack|
    ensures NoDup(Front(r, m)) && Linked(d, Front(r, m))
    ensures Front(r, m)[0] == r.stack[|r.stack| - 1]
    ensures m < |r.stack| ==> d[Front(r, m)[m - 1]].next == r.stack[|r.stack| - m - 1]
  {
    FrontIsFree(d, avail, elems, cookie, r, m);
    assert StackOk(d, r, |r.stack| - m);
  }

  /** Descriptors c are linked in this order. */
  ghost predicate Linked(d: seq<Desc>, c: seq<nat>)
  {
    forall i: nat :: i < |c| ==> c[i] < |d| && (i + 1 < |c| ==> d[c[i]].next == c[i + 1])
  }

  // ----------------------------------------------------------------------------------------
  // What a consistent ring means
  // ----------------------------------------------------------------------------------------

  /** Every descriptor is free exactly once or in exactly one place of exactly one chain. */
  lemma EachDescriptorOnce(d: seq<Desc>, avail: seq<nat>, elems: seq<UsedElem>, cookie: seq<Cookie>, r: Ring)
    requires RingOk(d, avail, elems, cookie, r)
    ensures NoDup(r.stack) && forall h: nat :: h in r.flight ==> NoDup(r.flight[h].chain)
    ensures forall x: nat :: x < |d| ==> (x in r.stack <==> !exists h: nat :: h in r.flight && x in r.flight[h].chain)
    ensures forall g: nat, h: nat, x: nat ::
              g in r.flight && h in r.flight && x in r.flight[g].chain && x in r.flight[h].chain ==> g == h
  {
    forall i: nat | i < |r.stack|
      ensures r.stack[i] < |d| && r.loc[r.stack[i]] == OnStack(i)
    {
      assert StackOk(d, r, i);
    }
    forall h: nat, i: nat | h in r.flight && i < |r.flight[h].chain|
      ensures r.flight[h].chain[i] < |d| && r.loc[r.flight[h].chain[i]] == InChain(h, i)
    {
      assert LinkOk(d, r, h, i);
    }
    forall x: nat | x < |d|
      ensures x in r.stack <==> !exists h: nat :: h in r.flight && x in r.flight[h].chain
    {
      assert LocOk(r, x);
    }
  }

  /** The cookies handed out so far are those of distinct posts, in the order the device completed them. */
  lemma EachCookieOnce(d: seq<Desc>, avail: seq<nat>, elems: seq<UsedElem>, cookie: seq<Cookie>, r: Ring)
    requires RingOk(d, avail, elems, cookie, r)
    ensures |r.got| <= |r.used| && NoDup(r.serials)
    ensures forall k: nat :: k < |r.got| ==> r.serials[k] < |r.cookies| && r.got[k] == r.cookies[r.serials[k]]
  {
    forall k: nat | k < |r.used|
      ensures r.serials[k] < |r.doneAt| && r.doneAt[r.serials[k]] == k
    {
      assert DoneOk(elems, r, k);
    }
    forall k: nat | k < |r.got| ensures r.got[k] == r.cookies[r.serials[k]] { assert GotOk(r, k); }
  }

  /** The cookies of the first n posts that are not among the first k completed ones. */
  ghost function Outstanding(cookies: seq<Cookie>, serials: seq<nat>, k: nat, n: nat): (m: multiset<Cookie>)
    requires k <= |serials| && n <= |cookies|
  {
    if n == 0 then multiset{}
    else
      Outstanding(cookies, serials, k, n - 1)
      + if n - 1 in serials[..k] then multiset{} else multiset{cookies[n - 1]}
  }

  lemma {:induction false} NoneCompleted(cookies: seq<Cookie>, serials: seq<nat>, n: nat)
    requires n <= |cookies|
    ensures Outstanding(cookies, serials, 0, n) == multiset(cookies[..n])
  {
    if n > 0 {
      NoneCompleted(cookies, serials, n - 1);
      assert cookies[..n] == cookies[..n - 1] + [cookies[n - 1]];
    }
  }

  lemma AmongFirst(serials: seq<nat>, k: nat, j: nat)
    requires NoDup(serials) && k < |serials|
    ensures j in serials[..k + 1] <==> j in serials[..k] || j == serials[k]
    ensures serials[k] !in serials[..k]
  {
    assert serials[..k + 1] == serials[..k] + [serials[k]];
  }

  /** One more completed post takes exactly its own cookie away. */
  lemma {:induction false} OneCompleted(cookies: seq<Cookie>, serials: seq<nat>, k: nat, n: nat)
    requires NoDup(serials) && k < |serials| && n <= |cookies|
    ensures Outstanding(cookies, serials, k, n)
            == Outstanding(cookies, serials, k + 1, n)
               + if serials[k] < n then multiset{cookies[serials[k]]} else multiset{}
  {
    if n > 0 {
      var j := n - 1;
      OneCompleted(cookies, serials, k, j);
      AmongFirst(serials, k, j);
      var before, after := Outstanding(cookies, serials, k, j), Outstanding(cookies, serials, k + 1, j);
      if j == serials[k] {
        assert before == after;
      }
    }
  }

  lemma {:induction false} Conserved(r: Ring, k: nat)
    requires NoDup(r.serials) && k <= |r.got| <= |r.serials|
    requires forall i: nat :: i < |r.got| ==> r.serials[i] < |r.cookies| && r.got[i] == r.cookies[r.serials[i]]
    ensures multiset(r.got[..k]) + Outstanding(r.cookies, r.serials, k, |r.cookies|) == multiset(r.cookies)
  {
    if k == 0 {
      NoneCompleted(r.cookies, r.serials, |r.cookies|);
      assert r.cookies[..|r.cookies|] == r.cookies;
    } else {
      Conserved(r, k - 1);
      OneCompleted(r.cookies, r.serials, k - 1, |r.cookies|);
      assert r.got[..k] == r.got[..k - 1] + [r.got[k - 1]];
    }
  }

  lemma {:induction false} AllCompleted(cookies: seq<Cookie>, serials: seq<nat>, k: nat, n: nat)
    requires k <= |serials| && n <= |cookies| && forall j: nat :: j < n ==> j in serials[..k]
    ensures Outstanding(cookies, serials, k, n) == multiset{}
  {
    if n > 0 { AllCompleted(cookies, serials, k, n - 1); }
  }

  /** No cookie is lost or made up: those handed out and those of posts not yet handed out are those posted, and when as
      many were handed out as posted, every cookie has come back exactly once. */
  lemma CookiesConserved(d: seq<Desc>, avail: seq<nat>, elems: seq<UsedElem>, cookie: seq<Cookie>, r: Ring)
    requires RingOk(d, avail, elems, cookie, r)
    ensures |r.got| <= |r.serials|
            && multiset(r.got) + Outstanding(r.cookies, r.serials, |r.got|, |r.cookies|) == multiset(r.cookies)
    ensures |r.got| == |r.posted| ==> multiset(r.got) == multiset(r.cookies)
  {
    EachCookieOnce(d, avail, elems, cookie, r);
    Conserved(r, |r.got|);
    assert r.got[..|r.got|] == r.got;
    var s, n := r.serials[..|r.got|], |r.posted|;
    if |s| == n {
      forall i: nat | i < |s| ensures s[i] < n { assert s[i] == r.serials[i]; }
      forall j: nat | j < n ensures j in s { if j !in s { Pigeonhole(s + [j], n); } }
      AllCompleted(r.cookies, r.serials, |r.got|, n);
    }
  }

  /** Once everything posted was completed and collected, all descriptors are free again. */
  lemma AllComeBack(d: seq<Desc>, avail: seq<nat>, elems: seq<UsedElem>, cookie: seq<Cookie>, r: Ring)
    requires RingOk(d, avail, elems, cookie, r) && r.guest == |r.posted|
    ensures r.flight == map[] && |r.stack| == |d|
  {
    forall k: nat | k < |r.used|
      ensures r.serials[k] < |r.doneAt| && r.doneAt[r.serials[k]] == k
    {
      assert DoneOk(elems, r, k);
    }
    Pigeonhole(r.serials, |r.posted|);
    forall h: nat ensures h !in r.flight
    {
      if h in r.flight {
        assert FlightOk(r, h);
        Pigeonhole(r.serials + [r.flight[h].serial], |r.posted|);
      }
    }
    var places := seq(|d|, x requires 0 <= x < |d| => if r.loc[x].OnStack? then r.loc[x].i else 0);
    forall x: nat | x < |d| ensures places[x] < |r.stack| && r.stack[places[x]] == x { assert LocOk(r, x); }
    Pigeonhole(places, |r.stack|);
    StackFits(d, avail, elems, cookie, r);
  }

  /** What a device reads when it follows a chain from descriptor h of table d: at most n entries. */
  function Walk(d: seq<Desc>, h: nat, n: nat): (s: seq<Sg>)
    decreases n
  {
    if n == 0 || h >= |d| then []
    else [d[h].sg] + (if d[h].nextFlag then Walk(d, d[h].next, n - 1) else [])
  }

  /** Descriptors c, linked in this order, hold the list sgs. */
  ghost predicate Holds(d: seq<Desc>, c: seq<nat>, sgs: seq<Sg>)
  {
    |c| == |sgs| && forall i: nat :: i < |c| ==>
      && c[i] < |d| && d[c[i]].sg == sgs[i] && d[c[i]].nextFlag == (i + 1 < |c|)
      && (i + 1 < |c| ==> d[c[i]].next == c[i + 1])
  }

  lemma {:induction false} WalkReads(d: seq<Desc>, c: seq<nat>, sgs: seq<Sg>, i: nat, n: nat)
    requires Holds(d, c, sgs) && i < |c| && |c| - i <= n
    ensures Walk(d, c[i], n) == sgs[i..]
    decreases n
  {
    if i + 1 < |c| {
      WalkReads(d, c, sgs, i + 1, n - 1);
    }
  }

  /** The device reads exactly the posted scatter-gather list. */
  lemma DeviceReadsPosted(d: seq<Desc>, avail: seq<nat>, elems: seq<UsedElem>, cookie: seq<Cookie>, r: Ring, h: nat)
    requires RingOk(d, avail, elems, cookie, r) && h in r.flight && !r.flight[h].indirect
    ensures Walk(d, h, |d|) == r.flight[h].sgs
  {
    EachDescriptorOnce(d, avail, elems, cookie, r);
    var c, sgs := r.flight[h].chain, r.flight[h].sgs;
    assert FlightOk(r, h) && LinkOk(d, r, h, 0);
    assert Holds(d, c, sgs) by {
      forall i: nat | i < |c|
        ensures
          && c[i] < |d| && d[c[i]].sg == sgs[i] && d[c[i]].nextFlag == (i + 1 < |c|)
          && (i + 1 < |c| ==> d[c[i]].next == c[i + 1])
      {
        assert LinkOk(d, r, h, i);
      }
    }
    Pigeonhole(c, |d|);
    WalkReads(d, c, sgs, 0, |d|);
  }

  /** get_buf_gc() from here on. */
  ghost function CollectAll(r: Ring): (r': Ring)
    decreases r.host - r.guest
  {
    if r.guest < r.host && r.guest < |r.used| && r.used[r.guest] in r.flight then CollectAll(Collect(r)) else r
  }

  /** Every collected buffer frees a descriptor at least, and all of them together fit in the table. */
  lemma {:induction false} GcFrees(d: seq<Desc>, avail: seq<nat>, elems: seq<UsedElem>, cookie: seq<Cookie>, r: Ring)
    requires RingOk(d, avail, elems, cookie, r)
    ensures |r.stack| + r.host - r.guest <= |CollectAll(r).stack| <= |d|
    decreases r.host - r.guest
  {
    if r.guest < r.host {
      var head := if r.stack == [] then 0 else r.stack[|r.stack| - 1];
      CollectKeepsRing(d, avail, elems, cookie, r, head);
      var c := r.flight[r.used[r.guest]].chain;
      GcFrees(d[c[|c| - 1] := d[c[|c| - 1]].(next := head)], avail, elems, cookie, Collect(r));
    } else {
      StackFits(d, avail, elems, cookie, r);
    }
  }

  // ----------------------------------------------------------------------------------------
  // Free-running counters
  // ----------------------------------------------------------------------------------------

  /** Trimming the 16-bit counter gives the slot of the true count. */
  lemma TrimWrapped(t: nat, n: nat)
    requires n > 0 && U16 % n == 0
    ensures t % U16 % n == t % n
  {
    var q, m := t / U16, U16 / n;
    assert t == q * U16 + t % U16 && U16 == m * n;
    assert q * U16 == (q * m) * n;
    SameRemainder(q * m, t % U16, n);
  }

  lemma SameRemainder(k: int, x: nat, n: nat)
    requires n > 0
    ensures (k * n + x) % n == x % n
  {
    var y := k * n + x;
    assert y - x % n == (k + x / n) * n;
    var j := y / n - (k + x / n);
    assert y % n - x % n == -j * n;
    assert j >= 1 ==> j * n >= n;
    assert j <= -1 ==> j * n + n <= 0;
  }

  lemma NextCount(t: nat)
    ensures (t % U16 + 1) % U16 == (t + 1) % U16
  {
  }

  lemma WrapDifference(a: nat, h: nat, g: nat)
    requires g <= h && a + h - g < U16
    ensures (a + (h % U16 - g % U16)) % U16 == a + h - g
  {
  }

  lemma WrapEq(a: nat, b: nat)
    requires a <= b < a + U16
    ensures a % U16 == b % U16 <==> a == b
  {
    if a < b { ModDistinct(a, b, U16); }
  }

  /** Some entry from..to-1 has the 16-bit position `event`. */
  ghost predicate Passed(event: nat, from: int, to: nat)
  {
    exists k: nat :: from <= k < to && k % U16 == event
  }

  /** The comparison in kick() finds exactly whether the position the device asked about is among the last `added`. */
  lemma EventInWindow(total: nat, added: nat, event: nat)
    requires added <= total && added < U16 && event < U16
    ensures (total % U16 - event - 1) % U16 < added <==> Passed(event, total - added, total)
  {
    var x := (total % U16 - event - 1) % U16;
    if x < added {
      var k := total - 1 - x;
      assert k % U16 == event;
    }
    if k: nat :| total - added <= k < total && k % U16 == event {
      assert x == total - 1 - k;
    }
  }

  /** The device is to be notified: of total entries, `since` were there at the last time. */
  ghost predicate Kicks(eventCap: bool, availEvent: nat, notifyOff: bool, total: nat, since: nat)
  {
    if eventCap then
      var added := (total - since) % U16;
      added >= 0x7fff || Passed(availEvent, total - added, total)
    else !notifyOff
  }

  // ----------------------------------------------------------------------------------------
  // The driver's object
  // ----------------------------------------------------------------------------------------

  /** An indirect table describes the whole scatter-gather list. */
  ghost predicate IsTable(t: seq<Desc>, sgs: seq<Sg>)
  {
    |t| == |sgs| && Holds(t, InOrder(|t|), sgs)
  }

  ghost function InOrder(n: nat): (c: seq<nat>)
  {
    seq(n, i requires 0 <= i < n => i)
  }

  /** The device reads the same list from an indirect table. */
  lemma DeviceReadsTable(t: seq<Desc>, sgs: seq<Sg>)
    requires IsTable(t, sgs)
    ensures Walk(t, 0, |t|) == sgs
  {
    if t != [] {
      WalkReads(t, InOrder(|t|), sgs, 0, |t|);
    }
  }

  ghost predicate TableOk(tables: map<nat, seq<Desc>>, flight: map<nat, Flight>, h: nat)
  {
    && (h in tables <==> h in flight && flight[h].indirect)
    && (h in tables ==> IsTable(tables[h], flight[h].sgs))
  }

  /** The indirect tables in memory are those of the buffers in flight. */
  ghost predicate TablesOk(tables: map<nat, seq<Desc>>, flight: map<nat, Flight>)
  {
    forall h: nat {:trigger TableOk(tables, flight, h)} :: TableOk(tables, flight, h)
  }

  /** A change of stage does not touch the tables. */
  lemma TablesFrame(tables: map<nat, seq<Desc>>, flight: map<nat, Flight>, h: nat, stage: Stage)
    requires TablesOk(tables, flight) && h in flight
    ensures TablesOk(tables, flight[h := flight[h].(stage := stage)])
  {
    var flight' := flight[h := flight[h].(stage := stage)];
    forall g: nat ensures TableOk(tables, flight', g) { assert TableOk(tables, flight, g); }
  }

  lemma TablesPost(tables: map<nat, seq<Desc>>, flight: map<nat, Flight>, h: nat, f: Flight, t: seq<Desc>)
    requires TablesOk(tables, flight) && h !in flight && (f.indirect ==> IsTable(t, f.sgs))
    ensures TablesOk(if f.indirect then tables[h := t] else tables, flight[h := f])
  {
    var tables', flight' := if f.indirect then tables[h := t] else tables, flight[h := f];
    forall g: nat ensures TableOk(tables', flight', g) { assert TableOk(tables, flight, g); }
  }

  lemma TablesCollect(tables: map<nat, seq<Desc>>, flight: map<nat, Flight>, h: nat)
    requires TablesOk(tables, flight) && h in flight
    ensures h in tables <==> flight[h].indirect
    ensures TablesOk(if flight[h].indirect then tables - {h} else tables, flight - {h})
  {
    var tables', flight' := if flight[h].indirect then tables - {h} else tables, flight - {h};
    assert TableOk(tables, flight, h);
    forall g: nat ensures TableOk(tables', flight', g) { assert TableOk(tables, flight, g); }
  }

  /** The ring as the constructor leaves it. */
  ghost function Fresh(n: nat): (r: Ring)
  {
    Ring(seq(n, i requires 0 <= i < n => n - 1 - i), map[], seq(n, x requires 0 <= x < n => OnStack(n - 1 - x)),
         [], [], 0, [], [], [], [], 0, 0, false, [])
  }

  lemma FreshRing(d: seq<Desc>, avail: seq<nat>, elems: seq<UsedElem>, cookie: seq<Cookie>)
    requires 0 < |d| == |avail| == |elems| == |cookie|
    requires forall i: nat :: i + 1 < |d| ==> d[i].next == i + 1
    ensures RingOk(d, avail, elems, cookie, Fresh(|d|))
    ensures TablesOk(map[], Fresh(|d|).flight)
  {
    var r := Fresh(|d|);
    forall i: nat ensures StackOk(d, r, i) {}
    forall x: nat ensures LocOk(r, x) {}
  }

  class Virtqueue {
    const num: nat
    const desc: array<Desc>
    const avail: array<nat>
    const elems: array<UsedElem>
    const cookie: array<Cookie>
    /** Indirect tables allocated and not freed, by the descriptor that points to them. */
    var tables: map<nat, seq<Desc>>
    var availIdx: nat
    var usedIdx: nat
    /** How far the device has read the available ring. */
    var deviceIdx: nat
    var availHead: nat
    var usedHost: nat
    var usedGuest: nat
    var addedSinceKick: nat
    var availCount: nat
    var useIndirectOn: bool
    ghost var ring: Ring
    /** Buffers posted before the last notification. */
    ghost var kickedAt: nat

    ghost predicate Shape()
      reads this
    {
      && 0 < num < U16 && U16 % num == 0
      && desc.Length == avail.Length == elems.Length == cookie.Length == num
      && availIdx == |ring.posted| % U16 && usedIdx == |ring.used| % U16
      && deviceIdx == ring.taken % U16
      && usedHost == ring.host % U16 && usedGuest == ring.guest % U16
      && availCount == |ring.stack|
      && (ring.stack != [] ==> availHead == ring.stack[|ring.stack| - 1])
      && kickedAt <= |ring.posted| && addedSinceKick == (|ring.posted| - kickedAt) % U16
    }

    ghost predicate Valid()
      reads this, desc, avail, elems, cookie
    {
      && Shape()
      && RingOk(desc[..], avail[..], elems[..], cookie[..], ring)
      && TablesOk(tables, ring.flight)
    }

    predicate UseIndirect(cap: bool, needed: nat)
      reads this
    {
      useIndirectOn && cap && (needed > availCount || (needed > 1 && availCount < num / 4))
    }

    /** The position counters are read as the numbers they count. */
    lemma Counters()
      requires Valid()
      ensures usedGuest == usedHost <==> ring.guest == ring.host
      ensures usedHost == usedIdx <==> ring.host == |ring.used|
      ensures usedGuest % num == ring.guest % num && usedHost % num == ring.host % num
      ensures availIdx % num == |ring.posted| % num && usedIdx % num == |ring.used| % num
    {
      UsedWindow(desc[..], avail[..], elems[..], cookie[..], ring);
      WrapEq(ring.guest, ring.host);
      WrapEq(ring.host, |ring.used|);
      TrimWrapped(ring.guest, num);
      TrimWrapped(ring.host, num);
      TrimWrapped(|ring.posted|, num);
      TrimWrapped(|ring.used|, num);
    }

    /** get_buf_elem(): the next completed buffer's cookie, exactly once, and the length the device gave for it. */
    method GetBufElem() returns (c: Cookie, len: nat)
      requires Valid()
      modifies `ring, cookie
      ensures Valid()
      ensures old(ring.host) == |old(ring.used)| ==> c.Null? && ring == old(ring)
      ensures old(ring.host) < |old(ring.used)| ==>
                old(ring.host) < |old(ring).lens| && len == old(ring).lens[old(ring.host)]
      ensures old(ring.host) < |old(ring.used)| && old(ring.fetched) ==> c.Null? && ring == old(ring)
      ensures old(ring.host) < |old(ring.used)| && !old(ring.fetched) ==>
                old(ring).serials[old(ring.host)] < |old(ring.cookies)|
                && ring == Fetch(old(ring)) && c == old(ring.cookies)[old(ring).serials[old(ring.host)]]
    {
      Counters();
      c, len := Null, 0;
      var usedPtr := usedHost % num;
      if usedHost != usedIdx {
        FetchKeepsRing(desc[..], avail[..], elems[..], cookie[..], ring);
        var elem := elems[usedPtr];
        len := elem.len;
        c := cookie[elem.id];
        ghost var d, a, e := desc[..], avail[..], elems[..];
        if !ring.fetched {
          ring := Fetch(ring);
        }
        cookie[elem.id] := Null;
        assert cookie[..] == old(cookie[..])[elem.id := Null];
        assert desc[..] == d && avail[..] == a && elems[..] == e;
      }
    }

    constructor (n: nat)
      requires 0 < n < U16 && U16 % n == 0
      ensures Valid() && num == n && ring == Fresh(n)
      ensures fresh(desc) && fresh(avail) && fresh(elems) && fresh(cookie)
    {
      num := n;
      desc := new Desc[n](_ => Desc(false, false, 0, Sg(0, 0, false)));
      avail := new nat[n](_ => 0);
      elems := new UsedElem[n](_ => UsedElem(0, 0));
      cookie := new Cookie[n](_ => Null);
      tables := map[];
      availIdx, usedIdx, availHead, usedHost, usedGuest, addedSinceKick, deviceIdx := 0, 0, 0, 0, 0, 0, 0;
      availCount := n;
      useIndirectOn := false;
      ring := Fresh(n);
      kickedAt := 0;
      new;
      LinkAll();
      FreshRing(desc[..], avail[..], elems[..], cookie[..]);
    }

    /** The constructor links all descriptors into one list. */
    method LinkAll()
      requires 0 < num == desc.Length
      modifies desc
      ensures forall i: nat :: i + 1 < num ==> desc[i].next == i + 1
    {
      for i := 0 to num
        invariant forall j: nat :: j < i ==> desc[j].next == j + 1
      {
        desc[i] := desc[i].(next := i + 1);
      }
      desc[num - 1] := desc[num - 1].(next := 0);
    }

    /** get_buf_finalize() of a buffer that was fetched. */
    method GetBufFinalize()
      requires Valid() && ring.fetched
      modifies `ring, `usedHost
      ensures Valid() && ring == Finalize(old(ring))
    {
      FinalizeKeepsRing(desc[..], avail[..], elems[..], cookie[..], ring);
      NextCount(ring.host);
      usedHost := (usedHost + 1) % U16;
      ring := Finalize(ring);
    }

    /** The device reads the next entry of the available ring. */
    method DeviceTake() returns (h: nat)
      requires Valid() && ring.taken < |ring.posted|
      modifies `ring, `deviceIdx
      ensures h == old(ring).posted[old(ring).taken] && h in old(ring).flight
      ensures Valid() && ring == TakeNext(old(ring))
    {
      TakeKeepsRing(desc[..], avail[..], elems[..], cookie[..], ring);
      TrimWrapped(ring.taken, num);
      h := avail[deviceIdx % num];
      TablesFrame(tables, ring.flight, h, Taken);
      NextCount(ring.taken);
      deviceIdx := (deviceIdx + 1) % U16;
      ring := TakeNext(ring);
    }

    /** The device returns a buffer it has taken. */
    method DeviceComplete(h: nat, len: nat)
      requires Valid() && h in ring.flight && ring.flight[h].stage.Taken?
      modifies `ring, `usedIdx, elems
      ensures old(ring).flight[h].serial < |old(ring).doneAt|
      ensures Valid() && ring == Complete(old(ring), h, len)
    {
      Counters();
      ghost var d, a, c := desc[..], avail[..], cookie[..];
      CompleteKeepsRing(desc[..], avail[..], elems[..], cookie[..], ring, h, len);
      TablesFrame(tables, ring.flight, h, Done(|ring.used|));
      NextCount(|ring.used|);
      elems[usedIdx % num] := UsedElem(h, len);
      usedIdx := (usedIdx + 1) % U16;
      ring := Complete(ring, h, len);
      assert elems[..] == old(elems[..])[|old(ring).used| % num := UsedElem(h, len)];
      assert desc[..] == d && avail[..] == a && cookie[..] == c;
    }

    /** One round of get_buf_gc(): the chain of the oldest finalized buffer goes to the front of the free list. */
    method CollectOne()
      requires Valid() && ring.guest < ring.host
      modifies `tables, `usedGuest, `availCount, `availHead, `ring, desc
      ensures old(ring).used[old(ring).guest] in old(ring).flight
      ensures Valid() && ring == Collect(old(ring))
    {
      Counters();
      CollectKeepsRing(desc[..], avail[..], elems[..], cookie[..], ring, availHead);
      var head := elems[usedGuest % num].id;
      TablesCollect(tables, ring.flight, head);
      var i, idx := ChainEnd(head);
      if desc[head].indirect {
        tables := tables - {head};
      }
      Splice(head, i, idx, Collect(ring));
    }

    /** Puts a chain of i descriptors ending in idx in front of the free list; r' is the ring that results. */
    method Splice(head: nat, i: nat, idx: nat, ghost r': Ring)
      requires Shape() && i > 0 && idx < num && TablesOk(tables, r'.flight)
      requires RingOk(desc[..][idx := desc[..][idx].(next := availHead)], avail[..], elems[..], cookie[..], r')
      requires r' == ring.(stack := r'.stack, flight := r'.flight, loc := r'.loc, guest := ring.guest + 1)
      requires |r'.stack| == |ring.stack| + i && r'.stack[|r'.stack| - 1] == head
      modifies `usedGuest, `availCount, `availHead, `ring, desc
      ensures Valid() && ring == r'
    {
      ghost var d, a, e, k := desc[..], avail[..], elems[..], cookie[..];
      ghost var d' := d[idx := d[idx].(next := availHead)];
      NextCount(ring.guest);
      usedGuest := (usedGuest + 1) % U16;
      availCount := availCount + i;
      desc[idx] := desc[idx].(next := availHead);
      availHead := head;
      ring := r';
      assert desc[..] == d' && avail[..] == a && elems[..] == e && cookie[..] == k;
    }

    /** Follows a completed chain to its last descriptor, counting. */
    method ChainEnd(head: nat) returns (i: nat, idx: nat)
      requires Valid() && head in ring.flight
      ensures head < num && desc[head].indirect == ring.flight[head].indirect
      ensures i == |ring.flight[head].chain| > 0 && idx == ring.flight[head].chain[i - 1]
    {
      ghost var d, c := desc[..], ring.flight[head].chain;
      assert FlightOk(ring, head) && LinkOk(d, ring, head, 0);
      i, idx := 1, head;
      if !desc[idx].indirect {
        while desc[idx].nextFlag
          invariant 1 <= i <= |c| && idx == c[i - 1] && idx < num && desc[idx].nextFlag == (i < |c|)
          decreases |c| - i
        {
          assert LinkOk(d, ring, head, i - 1) && LinkOk(d, ring, head, i);
          idx := desc[idx].next;
          i := i + 1;
        }
      }
    }

    method GetBufGc()
      requires Valid()
      modifies `tables, `usedGuest, `availCount, `availHead, `ring, desc
      ensures Valid() && ring == CollectAll(old(ring)) && ring.guest == ring.host
    {
      Counters();
      while usedGuest != usedHost
        invariant Valid() && CollectAll(ring) == CollectAll(old(ring))
        invariant usedGuest == usedHost <==> ring.guest == ring.host
        decreases ring.host - ring.guest
      {
        CollectOne();
        Counters();
      }
    }

    /** The loop of add_buf() over the scatter-gather list, on the descriptor table or on an indirect table. */
    static method Fill(descp: array<Desc>, head: nat, sgs: seq<Sg>, ghost c: seq<nat>) returns (idx: nat)
      requires |c| == |sgs| > 0 && c[0] == head && NoDup(c) && Linked(descp[..], c)
      modifies descp
      ensures Chained(old(descp[..]), descp[..], c, false, sgs) && Holds(descp[..], c, sgs)
      ensures idx == old(descp[..])[c[|c| - 1]].next
    {
      ghost var d := descp[..];
      idx := head;
      var prev := head;
      for i := 0 to |sgs|
        invariant i > 0 ==> prev == c[i - 1] && idx == d[prev].next
        invariant i < |c| ==> idx == c[i]
        invariant forall x: nat :: x < |d| && x !in c ==> descp[x] == d[x]
        invariant forall j: nat :: j < |c| ==>
                    descp[c[j]] == if j < i then Desc(true, false, d[c[j]].next, sgs[j]) else d[c[j]]
      {
        descp[idx] := descp[idx].(nextFlag := true, indirect := false, sg := sgs[i]);
        prev := idx;
        idx := descp[idx].next;
      }
      descp[prev] := descp[prev].(nextFlag := false);
    }

    /** Allocates and fills an indirect table; its last link is `tail`, which the loop then reads back. */
    static method BuildTable(sgs: seq<Sg>, tail: nat) returns (t: seq<Desc>, idx: nat)
      requires sgs != []
      ensures IsTable(t, sgs) && idx == tail
    {
      var n := |sgs|;
      var descp := new Desc[n](_ => Desc(false, false, 0, Sg(0, 0, false)));
      for j := 0 to n
        invariant forall i: nat :: i < j ==> descp[i].next == i + 1
      {
        descp[j] := descp[j].(next := j + 1);
      }
      descp[n - 1] := descp[n - 1].(next := tail);
      idx := Fill(descp, 0, sgs, InOrder(n));
      t := descp[..];
    }

    /** Publishes the chain at the head of the free list; r' is the ring that results. */
    method Publish(idx: nat, m: nat, ghost r': Ring)
      requires Shape() && 0 < m <= availCount && TablesOk(tables, r'.flight)
      requires RingOk(desc[..], avail[..][|ring.posted| % num := availHead], elems[..], cookie[..], r')
      requires r' == ring.(stack := r'.stack, flight := r'.flight, loc := r'.loc, posted := ring.posted + [availHead],
                           cookies := r'.cookies, doneAt := r'.doneAt)
      requires |r'.stack| == |ring.stack| - m && (r'.stack != [] ==> r'.stack[|r'.stack| - 1] == idx)
      modifies `addedSinceKick, `availCount, `availIdx, `availHead, `ring, avail
      ensures Valid() && ring == r'
    {
      ghost var d, a, e, k := desc[..], avail[..], elems[..], cookie[..];
      NextCount(|ring.posted|);
      NextCount(|ring.posted| - kickedAt);
      TrimWrapped(|ring.posted|, num);
      addedSinceKick := (addedSinceKick + 1) % U16;
      availCount := availCount - m;
      avail[availIdx % num] := availHead;
      availIdx := (availIdx + 1) % U16;
      assert avail[..] == a[|ring.posted| % num := availHead];
      availHead := idx;
      ring := r';
      assert desc[..] == d && elems[..] == e && cookie[..] == k;
    }

    /** kick(): whether the device was notified. The count of what was added since the last time wraps at 16 bits, so
        only that many of the last entries are looked at: after exactly 2^16 entries none, and no notification. */
    method Kick(eventCap: bool, availEvent: nat, notifyOff: bool) returns (kicked: bool)
      requires Valid() && availEvent < U16
      modifies `addedSinceKick, `kickedAt
      ensures Valid() && kickedAt == (if kicked then |ring.posted| else old(kickedAt))
      ensures kicked <==> Kicks(eventCap, availEvent, notifyOff, |ring.posted|, old(kickedAt))
    {
      kicked := true;
      if eventCap {
        EventInWindow(|ring.posted|, addedSinceKick, availEvent);
        kicked := (availIdx - availEvent - 1) % U16 < addedSinceKick;
      } else if notifyOff {
        return false;
      }
      if kicked || addedSinceKick >= (U16 - 1) / 2 {
        addedSinceKick := 0;
        kickedAt := |ring.posted|;
        return true;
      }
      return false;
    }

    /** add_buf(): collects finished chains, then posts the list, directly or through an indirect table. */
    method AddBuf(c: Cookie, sgs: seq<Sg>, indirectCap: bool, allocOk: bool, eventCap: bool, availEvent: nat,
                  notifyOff: bool)
      returns (ok: bool)
      requires Valid() && sgs != [] && availEvent < U16
      modifies this, desc, avail, cookie
      ensures Valid() && useIndirectOn == old(useIndirectOn)
      ensures var r := CollectAll(old(ring));
              var indirect := useIndirectOn && indirectCap
                              && (|sgs| > |r.stack| || (|sgs| > 1 && |r.stack| < num / 4));
              && (ok <==> Needed(indirect, sgs) <= |r.stack| && (indirect ==> allocOk))
              && ring == (if ok then Post(r, indirect, sgs, c) else r)
              && kickedAt == if Needed(indirect, sgs) > |r.stack|
                                && Kicks(eventCap, availEvent, notifyOff, |r.posted|, old(kickedAt))
                 then |r.posted| else old(kickedAt)
    {
      GetBufGc();
      var needed := |sgs|;
      var indirect := UseIndirect(indirectCap, needed);
      if indirect {
        needed := 1;
      }
      if availCount < needed {
        var _ := Kick(eventCap, availEvent, notifyOff);
        return false;
      }
      ok := PostAt(c, sgs, indirect, allocOk);
    }

    /** effective_avail_ring_count(): the counters are subtracted as they are, and the sum is cut to 16 bits. */
    method EffectiveAvailRingCount() returns (count: nat)
      requires Valid()
      ensures count == |ring.stack| + ring.host - ring.guest <= |CollectAll(ring).stack| <= num
    {
      GcFrees(desc[..], avail[..], elems[..], cookie[..], ring);
      WrapDifference(availCount, ring.host, ring.guest);
      count := (availCount + (usedHost - usedGuest)) % U16;
    }

    /** avail_ring_has_room(): a yes is a promise that add_buf() of n buffers succeeds, unless it finds no memory
        for an indirect table. After get_buf_gc() a no is exact too. */
    method AvailRingHasRoom(n: nat, indirectCap: bool) returns (room: bool)
      requires Valid() && n > 0
      ensures var r := CollectAll(ring);
              var indirect := useIndirectOn && indirectCap && (n > |r.stack| || (n > 1 && |r.stack| < num / 4));
              && (room ==> (if indirect then 1 else n) <= |r.stack|)
              && (ring.guest == ring.host && !room ==> (if indirect then 1 else n) > |r.stack|)
    {
      var count := EffectiveAvailRingCount();
      var descriptors := n;
      if UseIndirect(indirectCap, n) {
        descriptors := 1;
      }
      room := count >= descriptors;
    }

    /** Writes the list behind descriptor `head`, the first of `chain`; f is the buffer that results. */
    method WriteChain(head: nat, sgs: seq<Sg>, indirect: bool, ghost chain: seq<nat>, ghost f: Flight)
      returns (idx: nat)
      requires sgs != [] && |chain| == Needed(indirect, sgs) && chain[0] == head
      requires NoDup(chain) && Linked(desc[..], chain)
      requires TablesOk(tables, ring.flight) && head !in ring.flight && f.indirect == indirect && f.sgs == sgs
      modifies `tables, desc
      ensures Chained(old(desc[..]), desc[..], chain, indirect, sgs)
      ensures idx == old(desc[..])[chain[|chain| - 1]].next
      ensures TablesOk(tables, ring.flight[head := f])
    {
      if indirect {
        var t;
        t, idx := BuildTable(sgs, desc[head].next);
        TablesPost(tables, ring.flight, head, f, t);
        desc[head] := desc[head].(nextFlag := false, indirect := true,
                                  sg := desc[head].sg.(len := |sgs| * DESC_SIZE));
        tables := tables[head := t];
      } else {
        TablesPost(tables, ring.flight, head, f, []);
        idx := Fill(desc, head, sgs, chain);
      }
    }

    /** The part of add_buf() after the cookie is stored and an indirect table, if any, was allocated. */
    method PostChain(c: Cookie, sgs: seq<Sg>, indirect: bool)
      requires Valid() && sgs != [] && Needed(indirect, sgs) <= availCount
      requires availHead < num && cookie[availHead] == c
      modifies `tables, `addedSinceKick, `availCount, `availIdx, `availHead, `ring, desc, avail
      ensures Valid() && ring == Post(old(ring), indirect, sgs, c)
    {
      ghost var d, a, e, k := desc[..], avail[..], elems[..], cookie[..];
      ghost var r' := Post(ring, indirect, sgs, c);
      FrontChain(d, a, e, k, ring, Needed(indirect, sgs));
      PostShape(d, a, e, k, ring, indirect, sgs, c);
      var idx := WriteChain(availHead, sgs, indirect, Front(ring, Needed(indirect, sgs)), r'.flight[availHead]);
      PostKeepsRing(d, desc[..], a, e, k, ring, indirect, sgs, c);
      assert avail[..] == a && elems[..] == e && cookie[..] == k && k[availHead := c] == k;
      Publish(idx, Needed(indirect, sgs), r');
    }

    /** The part of add_buf() after the room check. */
    method PostAt(c: Cookie, sgs: seq<Sg>, indirect: bool, allocOk: bool) returns (ok: bool)
      requires Valid() && sgs != [] && Needed(indirect, sgs) <= availCount
      modifies `tables, `addedSinceKick, `availCount, `availIdx, `availHead, `ring, desc, avail, cookie
      ensures Valid() && ok == (indirect ==> allocOk)
      ensures ring == if ok then Post(old(ring), indirect, sgs, c) else old(ring)
    {
      ghost var d, a, e, k := desc[..], avail[..], elems[..], cookie[..];
      FrontIsFree(d, a, e, k, ring, 1);
      assert availHead == Front(ring, 1)[0];
      SpareCookie(d, a, e, k, ring, availHead, c);
      cookie[availHead] := c;
      assert desc[..] == d && avail[..] == a && elems[..] == e && cookie[..] == k[availHead := c];
      ok := indirect ==> allocOk;
      if ok {
        PostChain(c, sgs, indirect);
      }
    }
  }
}
