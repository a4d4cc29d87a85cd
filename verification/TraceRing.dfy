/** The per-CPU trace ring and its dump: core/trace.cc.

    Space is counted in 8-byte words, the alignment of records. Positions run on without end; a position modulo the size
    of the buffer is a place in it. A record never crosses a page of the buffer.
  */
module TraceRing {

  import opened Common

  /** Words of a trace page. */
  const PAGE: nat := 512

  /** The tracepoint field of a record, at its first word: null marks padding up to the next page, an invalid one a
      record that is being written. Other words hold a record's data. */
  datatype Cell = Pad | Incomplete | Head(id: nat, words: nat) | Data

  /** A record: its position, what it traces, and its length with the header. */
  datatype Rec = Rec(start: nat, id: nat, words: nat)

  function End(r: Rec): (e: nat) { r.start + r.words }

  function AlignUp(p: nat): (r: nat)
  {
    (p + PAGE - 1) / PAGE * PAGE
  }

  /** Where allocate_trace_record() puts n words when the next free position is p. */
  function Place(p: nat, n: nat): (q: nat)
    requires n > 0
  {
    if p / PAGE != (p + n - 1) / PAGE then AlignUp(p) else p
  }

  // ----------------------------------------------------------------------------------------
  // The log
  // ----------------------------------------------------------------------------------------

  function Last(log: seq<Rec>): (p: nat)
  {
    if log == [] then 0 else End(log[|log| - 1])
  }

  /** The end of the records before i. */
  function Before(log: seq<Rec>, i: nat): (p: nat)
    requires i <= |log|
  {
    if i == 0 then 0 else End(log[i - 1])
  }

  ghost predicate RecOk(log: seq<Rec>, i: nat)
  {
    i < |log| ==>
      && 0 < log[i].words <= PAGE && log[i].start == Place(Before(log, i), log[i].words)
      && log[i].start / PAGE == (End(log[i]) - 1) / PAGE
  }

  ghost predicate LogOk(log: seq<Rec>)
  {
    forall i: nat {:trigger RecOk(log, i)} :: RecOk(log, i)
  }

  lemma PlaceFits(p: nat, n: nat)
    requires 0 < n <= PAGE
    ensures p <= Place(p, n) <= AlignUp(p) && Place(p, n) / PAGE == (Place(p, n) + n - 1) / PAGE
    ensures Place(p, n) == p || (Place(p, n) == AlignUp(p) && p % PAGE != 0)
  {
  }

  lemma {:induction false} StartsGrow(log: seq<Rec>, i: nat, j: nat)
    requires LogOk(log) && i < j < |log|
    ensures End(log[i]) <= log[j].start
  {
    assert RecOk(log, j) && RecOk(log, j - 1);
    PlaceFits(Before(log, j), log[j].words);
    if i + 1 < j {
      StartsGrow(log, i, j - 1);
    }
  }

  /** The first record at or after position p. */
  ghost function FirstAt(log: seq<Rec>, p: int, i: nat): (k: nat)
    requires i <= |log|
    ensures i <= k <= |log| && (forall j: nat :: i <= j < k ==> log[j].start < p) && (k < |log| ==> log[k].start >= p)
    decreases |log| - i
  {
    if i == |log| || log[i].start >= p then i else FirstAt(log, p, i + 1)
  }

  /** Every page up to the last position begins with a record. */
  lemma PageBegins(log: seq<Rec>, p: nat)
    requires LogOk(log) && p % PAGE == 0 && p < Last(log)
    ensures FirstAt(log, p, 0) < |log| && log[FirstAt(log, p, 0)].start == p
  {
    var k, n := FirstAt(log, p, 0), |log|;
    assert RecOk(log, n - 1);
    InPage(log[n - 1].start, log[n - 1].words, p);
    assert k < n;
    assert RecOk(log, k);
    PlaceFits(Before(log, k), log[k].words);
    if k > 0 {
      assert RecOk(log, k - 1);
      InPage(log[k - 1].start, log[k - 1].words, p);
      AlignBelow(Before(log, k), p);
    }
  }

  /** A record that does not cross pages lies wholly on one side of a page boundary. */
  lemma InPage(s: nat, n: nat, p: nat)
    requires n > 0 && s / PAGE == (s + n - 1) / PAGE && p % PAGE == 0
    ensures s < p ==> s + n <= p
  {
  }

  lemma AlignBelow(q: nat, p: nat)
    requires p % PAGE == 0 && q <= p
    ensures AlignUp(q) <= p
  {
  }

  // ----------------------------------------------------------------------------------------
  // The log in the buffer
  // ----------------------------------------------------------------------------------------

  /** The position at which the current lap through the buffer began. */
  function LapStart(size: nat, last: nat): (a: nat)
    requires size > 0
    ensures a + last % size == last && a == last / size * size
  {
    assert last == last / size * size + last % size && last / size * size >= 0;
    last - last % size
  }

  /** The oldest position whose page has not been entered again. */
  function Floor(size: nat, last: nat): (f: int)
  {
    AlignUp(last) - size
  }

  ghost predicate HeadAt(mem: seq<Cell>, log: seq<Rec>, floor: int, i: nat)
    requires |mem| > 0
  {
    i < |log| && log[i].start >= floor ==> mem[log[i].start % |mem|] == Head(log[i].id, log[i].words)
  }

  ghost predicate PadAt(mem: seq<Cell>, log: seq<Rec>, floor: int, i: nat)
    requires |mem| > 0
  {
    i + 1 < |log| && log[i].start >= floor && End(log[i]) < log[i + 1].start ==> mem[End(log[i]) % |mem|] == Pad
  }

  /** Pages that were never entered are still zero. */
  ghost predicate FreshAt(mem: seq<Cell>, last: nat, k: nat)
  {
    AlignUp(last) <= k * PAGE < |mem| ==> mem[k * PAGE] == Pad
  }

  ghost predicate RingOk(mem: seq<Cell>, log: seq<Rec>)
  {
    && |mem| > 0 && |mem| % PAGE == 0 && LogOk(log)
    && (forall i: nat {:trigger HeadAt(mem, log, Floor(|mem|, Last(log)), i)} ::
        HeadAt(mem, log, Floor(|mem|, Last(log)), i))
    && (forall i: nat {:trigger PadAt(mem, log, Floor(|mem|, Last(log)), i)} ::
        PadAt(mem, log, Floor(|mem|, Last(log)), i))
    && (forall k: nat {:trigger FreshAt(mem, Last(log), k)} :: FreshAt(mem, Last(log), k))
  }

  /** The cells after a record of n words at place tr1, with padding at place tr0. */
  ghost predicate Stored(mem: seq<Cell>, mem': seq<Cell>, tr0: nat, tr1: nat, id: nat, n: nat)
  {
    |mem'| == |mem| && forall x: nat {:trigger mem'[x]} :: x < |mem| ==>
      mem'[x] == if x == tr1 then Head(id, n) else if tr1 < x < tr1 + n then Data else if x == tr0 then Pad else mem[x]
  }

  /** A record is written at position q; where it is not the next free position p, padding is written there. */
  ghost predicate Written(mem: seq<Cell>, mem': seq<Cell>, p: nat, q: nat, id: nat, n: nat)
  {
    && |mem| > 0 && |mem| % PAGE == 0 && p <= q && 0 < n && q / PAGE == (q + n - 1) / PAGE
    && Stored(mem, mem', p % |mem|, q % |mem|, id, n)
  }

  lemma PageOffset(a: nat, k: nat, m: nat)
    ensures (a * (k * PAGE) + m) % PAGE == m % PAGE
  {
    var b := a * k;
    assert a * (k * PAGE) == b * PAGE;
    assert (b * PAGE + m) % PAGE == m % PAGE;
  }

  /** A record lies in one piece in the buffer. */
  lemma InOnePiece(q: nat, n: nat, size: nat)
    requires size > 0 && size % PAGE == 0 && n > 0 && q / PAGE == (q + n - 1) / PAGE
    ensures q % size + n <= size && forall j: nat :: q <= j < q + n ==> j % size == q % size + (j - q)
  {
    var m, a, k := q % size, q / size, size / PAGE;
    assert q == a * (k * PAGE) + m;
    PageOffset(a, k, m);
    assert q % PAGE + n <= PAGE;
    assert m + n <= size;
    forall j: nat | q <= j < q + n ensures j % size == m + (j - q) { ShiftMod(a, size, m + (j - q)); }
  }

  lemma ShiftMod(a: nat, size: nat, x: nat)
    requires x < size
    ensures (a * size + x) % size == x
  {
    var y := a * size + x;
    var d := y / size - a;
    assert y % size == x - d * size;
    assert d >= 1 ==> d * size >= size;
    assert d <= -1 ==> d * size + size <= 0;
  }

  /** A position of the same window before the record is not hit by it. */
  lemma Missed(a: nat, q: nat, n: nat, size: nat)
    requires size > 0 && size % PAGE == 0 && n > 0 && q / PAGE == (q + n - 1) / PAGE && a < q && q + n <= a + size
    ensures !(q % size <= a % size < q % size + n)
  {
    InOnePiece(q, n, size);
    if q % size <= a % size < q % size + n {
      var j := q + (a % size - q % size);
      ModDistinct(a, j, size);
    }
  }

  /** A cell of the window that ends at the new last position, and before p, keeps its content. */
  lemma KeepsLive(mem: seq<Cell>, mem': seq<Cell>, p: nat, q: nat, id: nat, n: nat, a: nat)
    requires Written(mem, mem', p, q, id, n) && Floor(|mem|, q + n) <= a < p
    ensures mem'[a % |mem|] == mem[a % |mem|]
  {
    AlignGrows(q + n, q + n);
    Missed(a, q, n, |mem|);
    ModDistinct(a, p, |mem|);
  }

  lemma PadWritten(mem: seq<Cell>, mem': seq<Cell>, p: nat, q: nat, id: nat, n: nat)
    requires Written(mem, mem', p, q, id, n) && p < q && Floor(|mem|, q + n) <= p
    ensures mem'[p % |mem|] == Pad
  {
    AlignGrows(q + n, q + n);
    Missed(p, q, n, |mem|);
  }

  lemma SmallMod(j: nat, n: nat)
    requires j < n
    ensures j % n == j
  {
  }

  lemma AlignGrows(p: nat, q: nat)
    requires p <= q
    ensures p <= AlignUp(p) <= AlignUp(q) && q <= AlignUp(q)
  {
  }

  lemma KeepsFresh(mem: seq<Cell>, mem': seq<Cell>, p: nat, q: nat, id: nat, n: nat, k: nat)
    requires Written(mem, mem', p, q, id, n) && FreshAt(mem, p, k)
    ensures FreshAt(mem', q + n, k)
  {
    AlignGrows(p, q + n);
    if AlignUp(q + n) <= k * PAGE < |mem| {
      SmallMod(q, |mem|);
      SmallMod(p, |mem|);
    }
  }

  lemma LogKeepsHead(mem: seq<Cell>, mem': seq<Cell>, log: seq<Rec>, id: nat, n: nat, i: nat)
    requires RingOk(mem, log) && 0 < n <= PAGE
    requires Written(mem, mem', Last(log), Place(Last(log), n), id, n)
    ensures HeadAt(mem', log + [Rec(Place(Last(log), n), id, n)], Floor(|mem|, Place(Last(log), n) + n), i)
  {
    var p, q := Last(log), Place(Last(log), n);
    PlaceFits(p, n);
    AlignGrows(p, q + n);
    assert HeadAt(mem, log, Floor(|mem|, p), i);
    if i < |log| && log[i].start >= Floor(|mem|, q + n) {
      BeforeLast(log, i);
      KeepsLive(mem, mem', p, q, id, n, log[i].start);
    }
  }

  lemma LogKeepsPad(mem: seq<Cell>, mem': seq<Cell>, log: seq<Rec>, id: nat, n: nat, i: nat)
    requires RingOk(mem, log) && 0 < n <= PAGE
    requires Written(mem, mem', Last(log), Place(Last(log), n), id, n)
    ensures PadAt(mem', log + [Rec(Place(Last(log), n), id, n)], Floor(|mem|, Place(Last(log), n) + n), i)
  {
    var p, q := Last(log), Place(Last(log), n);
    PlaceFits(p, n);
    AlignGrows(p, q + n);
    assert PadAt(mem, log, Floor(|mem|, p), i);
    if i < |log| && log[i].start >= Floor(|mem|, q + n) {
      BeforeLast(log, i);
      if i + 1 < |log| {
        BeforeLast(log, i + 1);
        if End(log[i]) < log[i + 1].start { KeepsLive(mem, mem', p, q, id, n, End(log[i])); }
      } else if p < q {
        PadWritten(mem, mem', p, q, id, n);
      }
    }
  }

  /** Logging keeps the ring in order. */
  lemma LogKeeps(mem: seq<Cell>, mem': seq<Cell>, log: seq<Rec>, id: nat, n: nat)
    requires RingOk(mem, log) && 0 < n <= PAGE
    requires Written(mem, mem', Last(log), Place(Last(log), n), id, n)
    ensures RingOk(mem', log + [Rec(Place(Last(log), n), id, n)])
  {
    var p, q := Last(log), Place(Last(log), n);
    var log', last' := log + [Rec(q, id, n)], q + n;
    var f' := Floor(|mem|, last');
    PlaceFits(p, n);
    forall i: nat ensures RecOk(log', i) { assert RecOk(log, i); }
    forall i: nat ensures HeadAt(mem', log', f', i) { LogKeepsHead(mem, mem', log, id, n, i); }
    forall i: nat ensures PadAt(mem', log', f', i) { LogKeepsPad(mem, mem', log, id, n, i); }
    forall k: nat ensures FreshAt(mem', last', k)
    {
      assert FreshAt(mem, p, k);
      KeepsFresh(mem, mem', p, q, id, n, k);
    }
  }

  lemma BeforeLast(log: seq<Rec>, i: nat)
    requires LogOk(log) && i < |log|
    ensures log[i].start < End(log[i]) <= Last(log)
  {
    assert RecOk(log, i) && RecOk(log, |log| - 1);
    if i + 1 < |log| {
      StartsGrow(log, i, |log| - 1);
    }
  }

  // ----------------------------------------------------------------------------------------
  // The dump
  // ----------------------------------------------------------------------------------------

  function Ids(log: seq<Rec>): (r: seq<nat>)
  {
    if log == [] then [] else [log[0].id] + Ids(log[1..])
  }

  lemma {:induction false} IdsAdd(a: seq<Rec>, b: seq<Rec>)
    ensures Ids(a + b) == Ids(a) + Ids(b)
  {
    if a == [] {
      assert a + b == b;
    } else {
      var ab := a + b;
      assert ab[0] == a[0] && ab[1..] == a[1..] + b;
      IdsAdd(a[1..], b);
    }
  }

  lemma IdsNext(log: seq<Rec>, i: nat, k: nat)
    requires i <= k < |log|
    ensures Ids(log[i..k + 1]) == Ids(log[i..k]) + [log[k].id]
  {
    assert log[i..k + 1] == log[i..k] + [log[k]];
    IdsAdd(log[i..k], [log[k]]);
  }

  /** A reader at position v has passed the first i records: it stands before record i, at the padding before it, or at
      the end of the log. */
  ghost predicate Stands(log: seq<Rec>, v: nat, i: nat)
  {
    && i <= |log|
    && (if i < |log| then v == log[i].start || (0 < i && v == End(log[i - 1]) < log[i].start) else v == Last(log))
  }

  /** Past record i. */
  lemma StandsAfter(log: seq<Rec>, v: nat, i: nat)
    requires LogOk(log) && i < |log| && v == log[i].start
    ensures Stands(log, End(log[i]), i + 1) && v < End(log[i]) <= Last(log)
  {
    BeforeLast(log, i);
    assert RecOk(log, i) && RecOk(log, i + 1);
    if i + 1 < |log| { PlaceFits(End(log[i]), log[i + 1].words); }
  }

  /** Past the padding before record i. */
  lemma StandsPadding(log: seq<Rec>, v: nat, i: nat)
    requires LogOk(log) && Stands(log, v, i) && i < |log| && v != log[i].start
    ensures v % PAGE != 0 && AlignUp(v) == log[i].start < Last(log)
  {
    assert RecOk(log, i);
    PlaceFits(End(log[i - 1]), log[i].words);
    BeforeLast(log, i);
  }

  /** What the reader finds where it stands. */
  lemma Finds(mem: seq<Cell>, log: seq<Rec>, v: nat, i: nat)
    requires RingOk(mem, log) && Stands(log, v, i) && i < |log| && Floor(|mem|, Last(log)) <= v
    ensures mem[v % |mem|] == if v == log[i].start then Head(log[i].id, log[i].words) else Pad
  {
    var f := Floor(|mem|, Last(log));
    if v == log[i].start {
      assert HeadAt(mem, log, f, i);
    } else {
      StandsPadding(log, v, i);
      FloorAligned(|mem|, Last(log));
      assert RecOk(log, i - 1) && PadAt(mem, log, f, i - 1);
      SamePage(log[i - 1].start, log[i - 1].words, f);
    }
  }

  lemma SamePage(s: nat, n: nat, f: int)
    requires n > 0 && s / PAGE == (s + n - 1) / PAGE && f % PAGE == 0 && f < s + n
    ensures f <= s
  {
  }

  lemma FloorAligned(size: nat, last: nat)
    requires size % PAGE == 0
    ensures Floor(size, last) % PAGE == 0
  {
    var m := (last + PAGE - 1) / PAGE - size / PAGE;
    assert Floor(size, last) == m * PAGE;
    assert m * PAGE % PAGE == 0;
  }

  // ----------------------------------------------------------------------------------------
  // The buffer
  // ----------------------------------------------------------------------------------------

  class TraceBuf {
    const mem: array<Cell>
    var last: nat
    /** All records ever logged. */
    ghost var log: seq<Rec>

    ghost predicate Valid()
      reads this, mem
    {
      RingOk(mem[..], log) && last == Last(log)
    }

    constructor (pages: nat)
      requires pages > 0
      ensures Valid() && fresh(mem) && mem.Length == pages * PAGE && log == []
    {
      mem := new Cell[pages * PAGE](_ => Pad);
      last, log := 0, [];
      new;
      forall k: nat ensures FreshAt(mem[..], 0, k) {}
    }

    /** allocate_trace_record() and the writing of the record, up to the tracepoint that completes it. */
    method Trace(id: nat, n: nat)
      requires Valid() && 0 < n <= PAGE
      modifies this, mem
      ensures Valid() && log == old(log) + [Rec(Place(old(last), n), id, n)]
    {
      var size := mem.Length;
      var p := last;
      var pn := p + n;
      if p / PAGE != (pn - 1) / PAGE {
        pn := AlignUp(p) + n;
      }
      PlaceFits(p, n);
      InOnePiece(pn - n, n, size);
      last := pn;
      Store(p % size, (pn - n) % size, id, n);
      LogKeeps(old(mem[..]), mem[..], log, id, n);
      log := log + [Rec(pn - n, id, n)];
    }

    /** The writes, in the order of the source: end marker, padding, data, and at last the tracepoint. */
    method Store(tr0: nat, tr1: nat, id: nat, n: nat)
      requires tr0 < mem.Length && 0 < n && tr1 + n <= mem.Length
      modifies mem
      ensures Stored(old(mem[..]), mem[..], tr0, tr1, id, n)
    {
      mem[tr1] := Incomplete;
      if tr0 != tr1 {
        mem[tr0] := Pad;
      }
      for j := 1 to n
        invariant mem[tr1] == Incomplete
        invariant forall x: nat :: x < mem.Length && x != tr1 ==>
                    mem[x] == if tr1 < x < tr1 + j then Data else if x == tr0 then Pad else old(mem[x])
      {
        mem[tr1 + j] := Data;
      }
      mem[tr1] := Head(id, n);
    }

    /** One of the two regions of the dump: places lo to hi, which hold the log from position v on, or were never
        written. */
    method ReadRegion(lo: nat, hi: nat, ghost v: nat, ghost i: nat, ghost unused: bool)
      returns (out: seq<nat>, ghost k: nat)
      requires Valid() && lo <= hi <= mem.Length && lo % PAGE == 0
      requires unused ==> AlignUp(last) <= lo && hi == mem.Length
      requires !unused ==> v % PAGE == 0 && v % mem.Length == lo && Floor(mem.Length, last) <= v && Stands(log, v, i)
      requires !unused ==> v + (hi - lo) == last || (hi == mem.Length && v + (hi - lo) <= last)
      ensures unused ==> out == [] && k == i
      ensures !unused ==> i <= k <= |log| && out == Ids(log[i..k]) && Stands(log, v + (hi - lo), k)
    {
      var s := lo;
      out, k := [], i;
      if !unused { assert log[i..i] == []; }
      while s < hi
        invariant lo <= s <= hi
        invariant unused ==> out == [] && k == i && s % PAGE == 0
        invariant !unused ==> i <= k <= |log| && out == Ids(log[i..k]) && Stands(log, v + (s - lo), k)
        decreases hi - s
      {
        if unused {
          assert FreshAt(mem[..], last, s / PAGE);
        } else {
          ReaderAt(mem[..], log, v, lo, hi, s, k);
        }
        match mem[s] {
          case Pad =>
            s := lo + AlignUp(s - lo + 1);
          case Incomplete =>
            break;
          case Data =>
            break;
          case Head(id, n) =>
            if !unused { IdsNext(log, i, k); }
            out, k := out + [id], k + 1;
            s := s + n;
        }
      }
    }

    /** The first region of the dump: what is left of the lap before the one that began at position a. */
    method ReadOld(pivot: nat, ghost a: nat, ghost f: int, ghost i: nat) returns (out: seq<nat>, ghost k: nat)
      requires Valid() && Oldest(mem.Length, log, pivot, a, f, i)
      ensures i <= k <= |log| && out == Ids(log[i..k]) && Stands(log, a, k)
    {
      out, k := [], i;
      assert log[i..i] == [];
      if pivot < mem.Length {
        out, k := ReadRegion(pivot, mem.Length, if a > 0 then f else 0, i, a == 0);
      }
    }

    /** The dump: exactly the records from the oldest page that is still whole to the newest, in order. */
    method Dump() returns (out: seq<nat>)
      requires Valid()
      ensures out == Ids(log[FirstAt(log, Floor(mem.Length, last), 0)..])
    {
      var size := mem.Length;
      Laps(size, last);
      ghost var a, f := LapStart(size, last), Floor(size, last);
      ghost var i, k, e := FirstAt(log, f, 0), 0, 0;
      OldRegion(size, log);
      var more;
      out, k := ReadOld(AlignUp(last % size), a, f, i);
      LapFloor(size, last);
      more, e := ReadRegion(0, last % size, a, k, false);
      StandsAtEnd(log, e);
      IdsJoin(log, i, k);
      assert log[k..e] == log[k..];
      out := out + more;
    }
  }

  // Ends of the regions

  /** A reader at the end of the log has passed all records. */
  lemma StandsAtEnd(log: seq<Rec>, k: nat)
    requires LogOk(log) && Stands(log, Last(log), k)
    ensures k == |log|
  {
    if k < |log| {
      BeforeLast(log, k);
    }
  }

  lemma StandsAtStart(log: seq<Rec>)
    requires LogOk(log)
    ensures Stands(log, 0, 0)
  {
    assert RecOk(log, 0);
  }

  lemma StandsAtPage(log: seq<Rec>, p: nat)
    requires LogOk(log) && p % PAGE == 0 && p < Last(log)
    ensures Stands(log, p, FirstAt(log, p, 0))
  {
    PageBegins(log, p);
  }

  lemma IdsJoin(log: seq<Rec>, i: nat, k: nat)
    requires i <= k <= |log|
    ensures Ids(log[i..k]) + Ids(log[k..]) == Ids(log[i..])
  {
    assert log[i..] == log[i..k] + log[k..];
    IdsAdd(log[i..k], log[k..]);
  }

  lemma LapAligned(size: nat, last: nat)
    requires size > 0 && size % PAGE == 0
    ensures LapStart(size, last) % PAGE == 0 && LapStart(size, last) % size == 0
  {
    var k, c := last / size, size / PAGE;
    assert size == c * PAGE && LapStart(size, last) == k * (c * PAGE) + 0;
    PageOffset(k, c, 0);
    ShiftMod(k, size, 0);
  }

  /** The places of the last position and of the page boundary after it, in the lap that starts at position a. */
  lemma Laps(size: nat, last: nat)
    requires size > 0 && size % PAGE == 0
    ensures var l, a := last % size, LapStart(size, last);
            && a + l == last && a % PAGE == 0 && a % size == 0
            && AlignUp(last) == a + AlignUp(l) && l <= AlignUp(l) <= size && AlignUp(l) % PAGE == 0
  {
    LapAligned(size, last);
    AlignShift(LapStart(size, last), last % size);
    AlignBelow(last % size, size);
    AlignGrows(last % size, last % size);
    AlignedUp(last % size);
  }

  lemma AlignedUp(p: nat)
    ensures AlignUp(p) % PAGE == 0
  {
  }

  /** The place of the oldest page that is still whole. */
  lemma FloorPlace(size: nat, last: nat)
    requires size > 0 && size % PAGE == 0 && last >= size && AlignUp(last % size) < size
    ensures Floor(size, last) >= 0 && Floor(size, last) % size == AlignUp(last % size)
  {
    var k, x := last / size, AlignUp(last % size);
    Laps(size, last);
    assert k >= 1;
    assert Floor(size, last) == (k - 1) * size + x;
    ShiftMod(k - 1, size, x);
  }

  /** Where the reader of the first region starts: at place `pivot`, position f, before record i; a is the position
      where the current lap began. */
  ghost predicate Oldest(size: nat, log: seq<Rec>, pivot: nat, a: nat, f: int, i: nat)
  {
    && pivot <= size && pivot % PAGE == 0 && a <= Last(log) && f + (size - pivot) == a && i <= |log|
    && f == Floor(size, Last(log))
    && (a == 0 ==> i == 0 && Stands(log, 0, 0) && AlignUp(Last(log)) == pivot)
    && (a > 0 ==> f >= 0 && f % PAGE == 0 && Stands(log, f, i) && (pivot < size ==> f % size == pivot))
  }

  lemma OldRegion(size: nat, log: seq<Rec>)
    requires size > 0 && size % PAGE == 0 && LogOk(log)
    ensures var f := Floor(size, Last(log));
            Oldest(size, log, AlignUp(Last(log) % size), LapStart(size, Last(log)), f, FirstAt(log, f, 0))
  {
    var last, f := Last(log), Floor(size, Last(log));
    Laps(size, last);
    if last / size == 0 {
      StandsAtStart(log);
      FirstLap(size, log);
    } else {
      FloorAligned(size, last);
      LapBefore(size, last);
      StandsAtPage(log, f);
      if AlignUp(last % size) < size { FloorPlace(size, last); }
    }
  }

  lemma FirstLap(size: nat, log: seq<Rec>)
    requires size > 0 && size % PAGE == 0 && Last(log) / size == 0
    ensures Floor(size, Last(log)) <= 0 && FirstAt(log, Floor(size, Last(log)), 0) == 0
    ensures AlignUp(Last(log)) == AlignUp(Last(log) % size)
  {
    SmallQuotient(Last(log), size);
    AlignBelow(Last(log), size);
  }

  lemma SmallQuotient(x: nat, n: nat)
    requires n > 0 && x / n == 0
    ensures x < n && x % n == x
  {
  }

  lemma LapFloor(size: nat, last: nat)
    requires size > 0 && size % PAGE == 0
    ensures Floor(size, last) <= LapStart(size, last)
  {
    Laps(size, last);
  }

  lemma LapBefore(size: nat, last: nat)
    requires size > 0 && size % PAGE == 0 && last / size > 0
    ensures last >= size && 0 <= Floor(size, last) < last && LapStart(size, last) > 0
  {
    var k := last / size;
    Laps(size, last);
    assert k * size >= size;
    assert AlignUp(last) < last + PAGE;
    SizeOfPages(size);
  }

  lemma SizeOfPages(size: nat)
    requires size > 0 && size % PAGE == 0
    ensures size >= PAGE
  {
  }

  lemma AlignShift(v: nat, off: nat)
    requires v % PAGE == 0
    ensures AlignUp(v + off) == v + AlignUp(off) && off % PAGE == (v + off) % PAGE
  {
    var q := v / PAGE;
    assert v == q * PAGE;
    assert (q * PAGE + off + PAGE - 1) / PAGE == q + (off + PAGE - 1) / PAGE;
  }

  lemma AlignNext(off: nat)
    requires off % PAGE != 0
    ensures AlignUp(off + 1) == AlignUp(off) > off
  {
  }

  lemma SumAligned(v: nat, lo: nat, hi: nat)
    requires v % PAGE == 0 && lo % PAGE == 0 && hi % PAGE == 0 && lo <= hi
    ensures (v + (hi - lo)) % PAGE == 0
  {
  }

  lemma ReaderPlace(v: nat, size: nat, lo: nat, s: nat)
    requires size > 0 && v % size == lo <= s < size
    ensures (v + (s - lo)) % size == s
  {
    ShiftMod(v / size, size, s);
    assert v + (s - lo) == v / size * size + s;
  }

  /** A step that starts in the region ends in it. */
  lemma Inside(log: seq<Rec>, k: nat, from: nat, end: nat)
    requires LogOk(log) && k < |log| && from < end && (end == Last(log) || (end % PAGE == 0 && end <= Last(log)))
    ensures from == log[k].start ==> End(log[k]) <= end
    ensures AlignUp(from) == log[k].start ==> log[k].start <= end
  {
    BeforeLast(log, k);
    assert RecOk(log, k);
    if end % PAGE == 0 {
      InPage(log[k].start, log[k].words, end);
      AlignBelow(from, end);
    }
  }

  /** One step of the reader: a record or padding, never past the end of the region. */
  lemma ReaderAt(mem: seq<Cell>, log: seq<Rec>, v: nat, lo: nat, hi: nat, s: nat, k: nat)
    requires RingOk(mem, log) && lo <= s < hi <= |mem| && v % PAGE == 0 && v % |mem| == lo
             && Floor(|mem|, Last(log)) <= v
    requires Stands(log, v + (s - lo), k) && lo % PAGE == 0
    requires v + (hi - lo) == Last(log) || (hi == |mem| && v + (hi - lo) <= Last(log))
    ensures k < |log| && (mem[s].Head? || mem[s].Pad?)
    ensures mem[s].Head? ==> mem[s].id == log[k].id && mem[s].words > 0 && s + mem[s].words <= hi
                             && Stands(log, v + (s + mem[s].words - lo), k + 1)
    ensures mem[s].Pad? ==> s < lo + AlignUp(s - lo + 1) <= hi && Stands(log, v + AlignUp(s - lo + 1), k)
  {
    var x, end := v + (s - lo), v + (hi - lo);
    assert k < |log|;
    ReaderPlace(v, |mem|, lo, s);
    Finds(mem, log, x, k);
    if hi == |mem| { SumAligned(v, lo, hi); }
    Inside(log, k, x, end);
    if x == log[k].start {
      StandsAfter(log, x, k);
    } else {
      StandsPadding(log, x, k);
      AlignShift(v, s - lo);
      AlignNext(s - lo);
    }
  }
}
