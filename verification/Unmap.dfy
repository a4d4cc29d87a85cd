/** unpopulate() as a whole: the walk of PageTable drives the gather of TlbGather. core/mmu.cc.

    The walk calls page() for the pages it clears and drops second-level tables; the gather sees these calls in the same
    order. What is flushed at the end is then a question about the page table and the range before the call.
  */
module Unmap {

  import opened Common
  import P = PageTable
  import T = TlbGather

  /** The call of the gather that an act of the walk makes. `gives` says of a page whether its provider gives it up. */
  function StepOf(a: P.Act, gives: nat -> bool): (x: T.Step)
  {
    match a
    case Called(v) =>
      var frame := if v.en.pte.Leaf? then v.en.pte.frame else 0;
      var size := if v.en.level == 0 then P.PAGE else P.ENTRIES * P.PAGE;
      T.Step.Leaf(T.PageRef(frame * P.PAGE, size), gives(v.lo))
    case Dropped(b) => T.Step.Table(T.PageRef(b * P.PAGE, P.PAGE))
  }

  function StepsOf(acts: seq<P.Act>, gives: nat -> bool): (steps: seq<T.Step>)
  {
    seq(|acts|, i requires 0 <= i < |acts| => StepOf(acts[i], gives))
  }

  lemma {:induction false} NoVisits(acts: seq<P.Act>)
    ensures P.VisitsOf(acts) == [] <==> forall i: nat :: i < |acts| ==> acts[i].Dropped?
  {
    if acts != [] {
      var n := |acts| - 1;
      NoVisits(acts[..n]);
      assert forall i: nat :: i < n ==> acts[..n][i] == acts[i];
    }
  }

  lemma StepsAre(acts: seq<P.Act>, gives: nat -> bool)
    ensures T.AnyLeaf(StepsOf(acts, gives)) <==> P.VisitsOf(acts) != []
    ensures T.AnyTable(StepsOf(acts, gives)) <==> exists b: nat :: P.Dropped(b) in acts
  {
    var steps := StepsOf(acts, gives);
    NoVisits(acts);
    if i: nat :| i < |acts| && !acts[i].Dropped? { assert steps[i].Leaf?; }
    if i: nat :| i < |steps| && steps[i].Leaf? { assert !acts[i].Dropped?; }
    if i: nat :| i < |steps| && steps[i].Table? { assert P.Dropped(acts[i].b) in acts; }
    if b: nat :| P.Dropped(b) in acts {
      var i: nat :| i < |acts| && acts[i] == P.Dropped(b);
      assert steps[i].Table?;
    }
  }

  /** Some second-level table lies wholly in pages s..e. */
  ghost predicate HoldsTable(n: P.Node, s: nat, e: nat)
  {
    exists b: nat :: P.Drops(P.Unpopulate, n, 4, 0, s, e, b)
  }

  /** Some page of s..e is mapped, and not by a huge page with its valid bit off that the range cuts. */
  ghost predicate ClearsPage(n: P.Node, s: nat, e: nat)
  {
    exists v: nat :: s <= v <= e && !P.Unmapped(n, 4, 0, v) && !P.CutsInvalidHuge(n, 4, 0, s, e, v)
  }

  /** The walk calls page() exactly when there is such a page. */
  lemma CallsWhenMapped(n: P.Node, s: nat, e: nat, log: seq<P.Visit>)
    requires P.Wf(n, 4) && s <= e < P.Span(4) && P.Logged(P.Unpopulate, n, 4, 0, s, e, log)
    ensures log != [] <==> ClearsPage(n, s, e)
  {
    if log != [] {
      var v := log[0].lo;
      assert P.VisitOk(log[0]) && s <= v <= e;
      assert P.LogAt(P.Unpopulate, n, 4, 0, s, e, log, v) && P.Hit(log, v);
      assert !P.Unmapped(n, 4, 0, v) && !P.CutsInvalidHuge(n, 4, 0, s, e, v);
    }
    if v: nat :| s <= v <= e && !P.Unmapped(n, 4, 0, v) && !P.CutsInvalidHuge(n, 4, 0, s, e, v) {
      assert P.LogAt(P.Unpopulate, n, 4, 0, s, e, log, v);
      assert P.Due(P.Unpopulate, P.Cover(n, 4, 0, v), s, e, v) && P.Hit(log, v);
    }
  }

  lemma {:induction false} VisitsIn(acts: seq<P.Act>, x: P.Visit)
    ensures x in P.VisitsOf(acts) <==> P.Called(x) in acts
  {
    if acts != [] {
      var n := |acts| - 1;
      VisitsIn(acts[..n], x);
      assert acts == acts[..n] + [acts[n]];
    }
  }

  /** Page v was mapped, as far behind `frame` as it is behind page lo. */
  ghost predicate MappedFrom(n: P.Node, lo: nat, frame: nat, v: nat)
  {
    var t := P.Tr(P.Cover(n, 4, 0, v), v);
    t.Some? && t.value.frame == frame + (v - lo)
  }

  /** Block p is the memory of k consecutive pages from lo, which were mapped and whose provider gives them up. */
  ghost predicate MemoryOf(n: P.Node, s: nat, e: nat, gives: nat -> bool, p: T.PageRef, lo: nat, k: nat)
  {
    && k > 0 && s <= lo && lo + k - 1 <= e && gives(lo) && p.size == k * P.PAGE && p.addr % P.PAGE == 0
    && forall v: nat :: lo <= v < lo + k ==> MappedFrom(n, lo, p.addr / P.PAGE, v)
  }

  /** What is freed is memory that was mapped in the range and given up; and every page that the walk clears belongs to
      a block that is freed as a whole if its provider gives it up. */
  ghost predicate FreesWhatWasMapped(n: P.Node, s: nat, e: nat, gives: nat -> bool, t: seq<T.Event>)
  {
    && (forall p: T.PageRef {:trigger T.Freed(p) in t} :: T.Freed(p) in t ==>
          exists lo: nat, k: nat :: MemoryOf(n, s, e, gives, p, lo, k))
    && (forall v: nat {:trigger Freeing(n, s, e, gives, t, v)} ::
          s <= v <= e && !P.Unmapped(n, 4, 0, v) && !P.CutsInvalidHuge(n, 4, 0, s, e, v) ==>
            Freeing(n, s, e, gives, t, v))
  }

  ghost predicate Freeing(n: P.Node, s: nat, e: nat, gives: nat -> bool, t: seq<T.Event>, v: nat)
  {
    exists p: T.PageRef, lo: nat, k: nat {:trigger Holding(n, s, e, gives, t, v, p, lo, k)} ::
      Holding(n, s, e, gives, t, v, p, lo, k)
  }

  ghost predicate Holding(n: P.Node, s: nat, e: nat, gives: nat -> bool, t: seq<T.Event>, v: nat, p: T.PageRef, lo: nat,
                          k: nat)
  {
    && lo <= v < lo + k
    && (gives(lo) ==> MemoryOf(n, s, e, gives, p, lo, k) && T.Freed(p) in t)
  }

  lemma Address(frame: nat)
    ensures frame * P.PAGE % P.PAGE == 0 && frame * P.PAGE / P.PAGE == frame
  {
  }

  lemma VisitAt(n: P.Node, s: nat, e: nat, log: seq<P.Visit>, i: nat, v: nat)
    requires P.Wf(n, 4) && s <= e < P.Span(4) && P.Logged(P.Unpopulate, n, 4, 0, s, e, log) && i < |log|
    requires log[i].lo <= v <= log[i].hi
    ensures log[i].en.pte.Leaf? && P.WholeVisit(log[i]) && MappedFrom(n, log[i].lo, log[i].en.pte.frame, v)
  {
    assert P.VisitOk(log[i]) && s <= v <= e && P.Hit(log, v);
    assert P.LogAt(P.Unpopulate, n, 4, 0, s, e, log, v);
  }

  /** A visit is the block of its entry. */
  lemma VisitIsBlock(n: P.Node, s: nat, e: nat, log: seq<P.Visit>, i: nat, gives: nat -> bool)
    requires P.Wf(n, 4) && s <= e < P.Span(4) && P.Logged(P.Unpopulate, n, 4, 0, s, e, log) && i < |log|
    ensures var x := log[i];
            && x.lo <= x.hi && x.en.pte.Leaf? && P.WholeVisit(x)
            && (gives(x.lo) ==>
                  MemoryOf(n, s, e, gives, T.PageRef(x.en.pte.frame * P.PAGE, P.Span(x.en.level) * P.PAGE), x.lo,
                           P.Span(x.en.level)))
  {
    var x := log[i];
    assert P.VisitOk(x) && s <= x.lo <= x.hi <= e;
    VisitAt(n, s, e, log, i, x.lo);
    Address(x.en.pte.frame);
    forall v: nat | x.lo <= v <= x.hi ensures MappedFrom(n, x.lo, x.en.pte.frame, v) { VisitAt(n, s, e, log, i, v); }
  }

  lemma FreesExactly(n: P.Node, s: nat, e: nat, log: seq<P.Visit>, acts: seq<P.Act>, gives: nat -> bool,
                     t: seq<T.Event>)
    requires P.Wf(n, 4) && s <= e < P.Span(4) && P.Logged(P.Unpopulate, n, 4, 0, s, e, log) && P.VisitsOf(acts) == log
    requires T.FreedOf(t) == T.Gives(StepsOf(acts, gives))
    ensures FreesWhatWasMapped(n, s, e, gives, t)
  {
    var steps := StepsOf(acts, gives);
    forall p: T.PageRef | T.Freed(p) in t
      ensures exists lo: nat, k: nat :: MemoryOf(n, s, e, gives, p, lo, k)
    {
      T.FreedIn(t, p);
      T.GivesIn(steps, p);
      var j: nat :| j < |steps| && steps[j] == T.Step.Leaf(p, true);
      VisitsIn(acts, acts[j].visit);
      var i: nat :| i < |log| && log[i] == acts[j].visit;
      VisitIsBlock(n, s, e, log, i, gives);
      assert MemoryOf(n, s, e, gives, p, log[i].lo, P.Span(log[i].en.level));
    }
    forall v: nat | s <= v <= e && !P.Unmapped(n, 4, 0, v) && !P.CutsInvalidHuge(n, 4, 0, s, e, v)
      ensures Freeing(n, s, e, gives, t, v)
    {
      VisitedPage(n, s, e, log, acts, gives, t, v);
    }
  }

  lemma VisitedPage(n: P.Node, s: nat, e: nat, log: seq<P.Visit>, acts: seq<P.Act>, gives: nat -> bool,
                    t: seq<T.Event>, v: nat)
    requires P.Wf(n, 4) && s <= e < P.Span(4) && P.Logged(P.Unpopulate, n, 4, 0, s, e, log) && P.VisitsOf(acts) == log
    requires T.FreedOf(t) == T.Gives(StepsOf(acts, gives))
    requires s <= v <= e && !P.Unmapped(n, 4, 0, v) && !P.CutsInvalidHuge(n, 4, 0, s, e, v)
    ensures Freeing(n, s, e, gives, t, v)
  {
    var steps := StepsOf(acts, gives);
    assert P.LogAt(P.Unpopulate, n, 4, 0, s, e, log, v);
    assert P.Due(P.Unpopulate, P.Cover(n, 4, 0, v), s, e, v) && P.Hit(log, v);
    var i: nat :| i < |log| && log[i].lo <= v <= log[i].hi;
    var x := log[i];
    VisitIsBlock(n, s, e, log, i, gives);
    var p := T.PageRef(x.en.pte.frame * P.PAGE, P.Span(x.en.level) * P.PAGE);
    if gives(x.lo) {
      VisitsIn(acts, x);
      var j: nat :| j < |acts| && acts[j] == P.Called(x);
      assert steps[j] == T.Step.Leaf(p, true);
      T.GivesIn(steps, p);
      T.FreedIn(t, p);
    }
    assert Holding(n, s, e, gives, t, v, p, x.lo, P.Span(x.en.level));
  }

  /** operate_range() with unpopulate: everything cleared is flushed before it returns exactly when the range holds no
      second-level table as a whole, or maps a page that the walk clears. */
  method UnmapRange(space: P.AddressSpace, u: T.Unpopulate, start: nat, size: nat, gives: nat -> bool)
    requires space.Valid() && P.LastPage(start, size) < P.Span(4)
    requires u.pages.Length == T.MAX_PAGES && u.nrPages == 0 && !u.doFlush && u.trace == []
    modifies space, u, u.pages
    ensures space.Valid() && T.FreesOk(u.trace)
    ensures var s, e := P.FirstPage(start), P.LastPage(start, size);
            && P.Done(P.Unpopulate, old(space.root), space.root, 4, 0, s, e)
            && FreesWhatWasMapped(old(space.root), s, e, gives, u.trace)
            && (T.AllFlushed(u.trace) <==> (HoldsTable(old(space.root), s, e) ==> ClearsPage(old(space.root), s, e)))
  {
    ghost var n, s, e := space.root, P.FirstPage(start), P.LastPage(start, size);
    var log, acts := space.OperateRange(P.Unpopulate, start, size);
    StepsAre(acts, gives);
    CallsWhenMapped(n, s, e, log);
    u.OperateRange(StepsOf(acts, gives));
    DroppedWhenHeld(n, s, e, log, acts);
    FreesExactly(n, s, e, log, acts, gives, u.trace);
  }

  lemma DroppedWhenHeld(n: P.Node, s: nat, e: nat, log: seq<P.Visit>, acts: seq<P.Act>)
    requires P.ActsOk(P.Unpopulate, n, 4, 0, s, e, log, acts)
    ensures (exists b: nat :: P.Dropped(b) in acts) <==> HoldsTable(n, s, e)
  {
    if b: nat :| P.Dropped(b) in acts { assert P.Drops(P.Unpopulate, n, 4, 0, s, e, b); }
    if b: nat :| P.Drops(P.Unpopulate, n, 4, 0, s, e, b) { assert P.Dropped(b) in acts; }
  }

  // ----------------------------------------------------------------------------------------
  // A table without pages
  // ----------------------------------------------------------------------------------------

  /** Tables down to the second level for the first 2 MB, and no page. */
  function Spine(level: nat): (n: P.Node)
  {
    if level == 0 then P.Empty
    else P.Table(seq(P.ENTRIES, i requires 0 <= i < P.ENTRIES => if i == 0 then Spine(level - 1) else P.Empty))
  }

  lemma {:induction false} SpineWf(level: nat)
    requires level <= 4
    ensures P.Wf(Spine(level), level)
  {
    if level > 0 { SpineWf(level - 1); }
  }

  lemma {:induction false} SpineIsEmpty(level: nat, v: nat)
    requires level <= 4
    ensures !P.Cover(Spine(level), level, 0, v).pte.Leaf?
  {
    if level > 0 {
      SpineIsEmpty(level - 1, v);
      EmptyBelow(Spine(level), level, v);
    }
  }

  /** The entry that decides about a page of a spine is below the first entry, or empty. */
  lemma EmptyBelow(n: P.Node, level: nat, v: nat)
    requires 0 < level <= 4 && n.Table? && |n.entries| == P.ENTRIES
    requires forall i: nat :: 0 < i < P.ENTRIES ==> n.entries[i].Empty?
    ensures P.Cover(n, level, 0, v).pte.Leaf? ==> P.Cover(n, level, 0, v) == P.Cover(n.entries[0], level - 1, 0, v)
  {
    var i := v / P.Span(level - 1);
    if i < P.ENTRIES {
      var b := P.ChildBase(0, level, i);
      assert P.Cover(n, level, 0, v) == P.Cover(n.entries[i], level - 1, b, v);
    }
  }

  lemma {:induction false} SpineHoldsTable(level: nat)
    requires 0 < level <= 4
    ensures P.SmallTable(Spine(level), level, 0, 0)
  {
    if level > 1 {
      SpineHoldsTable(level - 1);
      assert P.ChildBase(0, level, 0) == 0;
    }
  }

  /** Unmapping the first 2 MB then drops the second-level table and flushes nothing. */
  method TableDroppedUnflushed() returns (u: T.Unpopulate)
    ensures fresh(u) && !T.AllFlushed(u.trace)
  {
    var space := new P.AddressSpace();
    space.root := Spine(4);
    u := new T.Unpopulate();
    SpineWf(4);
    SpineHoldsTable(4);
    assert P.Drops(P.Unpopulate, Spine(4), 4, 0, 0, 511, 0);
    forall v: nat ensures P.Unmapped(Spine(4), 4, 0, v) { SpineIsEmpty(4, v); }
    UnmapRange(space, u, 0, P.ENTRIES * P.PAGE, _ => true);
  }
}
