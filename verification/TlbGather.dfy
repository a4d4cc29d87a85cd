/** unpopulate() and its tlb_gather (core/mmu.cc): pages are freed in batches, each after a flush of the TLB.

    The walk of the page table calls page() for the leaves it clears and intermediate_page_post() for the tables it
    drops, in any mix; the steps below are those calls.
  */
module TlbGather {

  const MAX_PAGES: nat := 20

  /** An address and the size of the page there. */
  datatype PageRef = PageRef(addr: nat, size: nat)

  /** Leaf: page() cleared an entry, and unmap() said whether the page is to be freed. Table: a table was dropped. */
  datatype Step = Leaf(page: PageRef, gives: bool) | Table(page: PageRef)

  /** What happens to the hardware and the allocator, in order. */
  datatype Event = Cleared(page: PageRef) | Dropped(page: PageRef) | Flushed | Freed(page: PageRef)

  // ----------------------------------------------------------------------------------------
  // What a trace must be like
  // ----------------------------------------------------------------------------------------

  /** Event j is a flush, the entry of p was cleared before it, and up to event k only frees follow. */
  ghost predicate FlushedFor(t: seq<Event>, j: nat, k: nat, p: PageRef)
  {
    j < k <= |t| && t[j].Flushed? && Cleared(p) in t[..j] && forall m: nat :: j < m < k ==> t[m].Freed?
  }

  /** The k-th event, if it frees a page, comes after a flush that follows the clearing of the page's entry. */
  ghost predicate FreeOk(t: seq<Event>, k: nat)
  {
    k < |t| && t[k].Freed? ==> exists j: nat :: FlushedFor(t, j, k, t[k].page)
  }

  ghost predicate FreesOk(t: seq<Event>)
  {
    forall k: nat {:trigger FreeOk(t, k)} :: FreeOk(t, k)
  }

  /** A flush follows event i. */
  ghost predicate FlushAfter(t: seq<Event>, i: nat)
  {
    exists j: nat :: i < j < |t| && t[j].Flushed?
  }

  /** Every cleared entry is followed by a flush. */
  ghost predicate AllFlushed(t: seq<Event>)
  {
    forall i: nat {:trigger FlushAfter(t, i)} :: i < |t| && (t[i].Cleared? || t[i].Dropped?) ==> FlushAfter(t, i)
  }

  /** The entries cleared, in order. */
  ghost function ClearsOf(t: seq<Event>): (c: seq<Event>)
  {
    if t == [] then []
    else
      var last := t[|t| - 1];
      ClearsOf(t[..|t| - 1]) + (if last.Cleared? || last.Dropped? then [last] else [])
  }

  ghost function FreedOf(t: seq<Event>): (m: multiset<PageRef>)
  {
    if t == [] then multiset{}
    else
      var last := t[|t| - 1];
      FreedOf(t[..|t| - 1]) + (if last.Freed? then multiset{last.page} else multiset{})
  }

  /** The entries the steps clear. */
  ghost function Clears(steps: seq<Step>): (c: seq<Event>)
  {
    if steps == [] then []
    else
      var last := steps[|steps| - 1];
      Clears(steps[..|steps| - 1]) + [if last.Leaf? then Cleared(last.page) else Dropped(last.page)]
  }

  /** The pages the steps give back. */
  ghost function Gives(steps: seq<Step>): (m: multiset<PageRef>)
  {
    if steps == [] then multiset{}
    else
      var last := steps[|steps| - 1];
      Gives(steps[..|steps| - 1]) + (if last.Leaf? && last.gives then multiset{last.page} else multiset{})
  }

  lemma {:induction false} FreedIn(t: seq<Event>, p: PageRef)
    ensures p in FreedOf(t) <==> Freed(p) in t
  {
    if t != [] {
      var n := |t| - 1;
      FreedIn(t[..n], p);
      assert t == t[..n] + [t[n]];
    }
  }

  lemma {:induction false} GivesIn(steps: seq<Step>, p: PageRef)
    ensures p in Gives(steps) <==> Step.Leaf(p, true) in steps
  {
    if steps != [] {
      var n := |steps| - 1;
      GivesIn(steps[..n], p);
      assert steps == steps[..n] + [steps[n]];
    }
  }

  ghost predicate AnyLeaf(steps: seq<Step>)
  {
    exists i: nat :: i < |steps| && steps[i].Leaf?
  }

  ghost predicate AnyTable(steps: seq<Step>)
  {
    exists i: nat :: i < |steps| && steps[i].Table?
  }

  // Adding one event

  lemma Add(t: seq<Event>, ev: Event)
    requires FreesOk(t) && !ev.Freed?
    ensures FreesOk(t + [ev])
    ensures ClearsOf(t + [ev]) == ClearsOf(t) + (if ev.Cleared? || ev.Dropped? then [ev] else [])
    ensures FreedOf(t + [ev]) == FreedOf(t)
  {
    var t' := t + [ev];
    assert t'[..|t|] == t;
    forall k: nat ensures FreeOk(t', k) { assert FreeOk(t, k); if k < |t| { Prefix(t, ev, k); } }
  }

  lemma Prefix(t: seq<Event>, ev: Event, k: nat)
    requires k < |t| && FreeOk(t, k)
    ensures FreeOk(t + [ev], k)
  {
    var t' := t + [ev];
    if t[k].Freed? {
      var j: nat :| FlushedFor(t, j, k, t[k].page);
      assert t'[..j] == t[..j];
      assert FlushedFor(t', j, k, t'[k].page);
    }
  }

  /** A free after a flush and other frees. */
  lemma AddFree(t: seq<Event>, j: nat, p: PageRef)
    requires FreesOk(t) && FlushedFor(t, j, |t|, p)
    ensures FreesOk(t + [Freed(p)])
    ensures ClearsOf(t + [Freed(p)]) == ClearsOf(t)
    ensures FreedOf(t + [Freed(p)]) == FreedOf(t) + multiset{p}
  {
    var t', n := t + [Freed(p)], |t|;
    assert t'[..n] == t && t'[..j] == t[..j];
    forall k: nat ensures FreeOk(t', k)
    {
      assert FreeOk(t, k);
      if k < n {
        Prefix(t, Freed(p), k);
      } else if k == n {
        assert FlushedFor(t', j, n, p);
      }
    }
  }

  /** A flush and the frees after it. */
  ghost function Batch(t: seq<Event>, ps: seq<PageRef>): (t': seq<Event>)
  {
    if ps == [] then t + [Flushed] else Batch(t, ps[..|ps| - 1]) + [Freed(ps[|ps| - 1])]
  }

  lemma {:induction false} BatchShape(t: seq<Event>, ps: seq<PageRef>)
    ensures |Batch(t, ps)| == |t| + 1 + |ps| && Batch(t, ps)[..|t|] == t && Batch(t, ps)[|t|] == Flushed
    ensures forall i: nat :: |t| < i < |Batch(t, ps)| ==> Batch(t, ps)[i].Freed?
  {
    if ps != [] {
      BatchShape(t, ps[..|ps| - 1]);
    }
  }

  lemma {:induction false} BatchOk(t: seq<Event>, ps: seq<PageRef>)
    requires FreesOk(t) && forall i: nat :: i < |ps| ==> Cleared(ps[i]) in t
    ensures FreesOk(Batch(t, ps)) && ClearsOf(Batch(t, ps)) == ClearsOf(t)
            && FreedOf(Batch(t, ps)) == FreedOf(t) + multiset(ps)
  {
    if ps == [] {
      Add(t, Flushed);
    } else {
      var n := |ps| - 1;
      var b := Batch(t, ps[..n]);
      BatchOk(t, ps[..n]);
      assert FlushedFor(b, |t|, |b|, ps[n]) by { BatchShape(t, ps[..n]); }
      AddFree(b, |t|, ps[n]);
      assert Batch(t, ps) == b + [Freed(ps[n])];
      assert multiset(ps) == multiset(ps[..n]) + multiset{ps[n]} by { assert ps == ps[..n] + [ps[n]]; }
    }
  }

  /** After a batch nothing cleared is left without a flush. */
  lemma BatchFlushes(t: seq<Event>, ps: seq<PageRef>)
    ensures AllFlushed(Batch(t, ps)) && Flushed in Batch(t, ps)
  {
    BatchShape(t, ps);
    var t' := Batch(t, ps);
    forall i: nat | i < |t'| && (t'[i].Cleared? || t'[i].Dropped?) ensures FlushAfter(t', i)
    {
      assert i < |t| < |t'|;
    }
  }

  /** One more step. */
  lemma AddStep(steps: seq<Step>, x: Step)
    ensures Clears(steps + [x]) == Clears(steps) + [if x.Leaf? then Cleared(x.page) else Dropped(x.page)]
    ensures Gives(steps + [x]) == Gives(steps) + (if x.Leaf? && x.gives then multiset{x.page} else multiset{})
    ensures AnyLeaf(steps + [x]) <==> AnyLeaf(steps) || x.Leaf?
  {
    var steps' := steps + [x];
    assert steps'[..|steps|] == steps && steps'[|steps|] == x;
    if i: nat :| i < |steps| && steps[i].Leaf? { assert steps'[i].Leaf?; }
    if i: nat :| i < |steps| && steps'[i].Leaf? { assert steps[i].Leaf?; }
  }

  /** The state after some steps: what was cleared and freed, which pages are gathered, whether a flush is due. */
  ghost predicate Reached(t: seq<Event>, gathered: seq<PageRef>, due: bool, steps: seq<Step>)
  {
    && FreesOk(t) && ClearsOf(t) == Clears(steps)
    && FreedOf(t) + multiset(gathered) == Gives(steps)
    && (forall i: nat :: i < |gathered| ==> Cleared(gathered[i]) in t)
    && (AnyLeaf(steps) <==> gathered != [] || due)
    && (Flushed in t ==> AnyLeaf(steps))
  }

  lemma Keep(t: seq<Event>, g: seq<PageRef>, due: bool, steps: seq<Step>, p: PageRef)
    requires Reached(t, g, due, steps)
    ensures Reached(t + [Cleared(p)], g, true, steps + [Leaf(p, false)])
    ensures Reached(t + [Dropped(p)], g, due, steps + [Table(p)])
  {
    AddStep(steps, Leaf(p, false));
    AddStep(steps, Table(p));
    Add(t, Cleared(p));
    Add(t, Dropped(p));
  }

  lemma Gather(t: seq<Event>, g: seq<PageRef>, due: bool, steps: seq<Step>, p: PageRef)
    requires Reached(t, g, due, steps)
    ensures Reached(t + [Cleared(p)], g + [p], true, steps + [Leaf(p, true)])
  {
    AddStep(steps, Leaf(p, true));
    Add(t, Cleared(p));
  }

  lemma Overflow(t: seq<Event>, g: seq<PageRef>, due: bool, steps: seq<Step>, p: PageRef)
    requires Reached(t, g, due, steps) && g != []
    ensures Reached(Batch(t + [Cleared(p)], g), [p], false, steps + [Leaf(p, true)])
  {
    AddStep(steps, Leaf(p, true));
    Add(t, Cleared(p));
    var t' := t + [Cleared(p)];
    assert t'[|t|] == Cleared(p);
    BatchOk(t', g);
    BatchShape(t', g);
    assert Batch(t', g)[|t|] == Cleared(p);
  }

  lemma {:induction false} ClearsIn(t: seq<Event>)
    ensures ClearsOf(t) == [] <==> forall i: nat :: i < |t| ==> !t[i].Cleared? && !t[i].Dropped?
  {
    if t != [] {
      var n := |t| - 1;
      ClearsIn(t[..n]);
      assert forall i: nat :: i < n ==> t[..n][i] == t[i];
    }
  }

  /** Without a flush, everything is flushed only if nothing was cleared. */
  lemma NoFlush(t: seq<Event>, steps: seq<Step>)
    requires ClearsOf(t) == Clears(steps) && Flushed !in t && !AnyLeaf(steps)
    ensures AllFlushed(t) <==> !AnyTable(steps)
  {
    ClearsIn(t);
    if steps == [] {
      assert AllFlushed(t);
    } else {
      assert steps[0].Table?;
      var i: nat :| i < |t| && (t[i].Cleared? || t[i].Dropped?);
      assert !FlushAfter(t, i);
    }
  }

  /** The end of operate_range(): the last batch, or the flush that is still due. */
  lemma Finish(t: seq<Event>, g: seq<PageRef>, due: bool, steps: seq<Step>)
    requires Reached(t, g, due, steps)
    ensures var t' := if g != [] then Batch(t, g) else if due then t + [Flushed] else t;
            && FreesOk(t') && ClearsOf(t') == Clears(steps) && FreedOf(t') == Gives(steps)
            && (AllFlushed(t') <==> (AnyTable(steps) ==> AnyLeaf(steps)))
  {
    if g == [] && !due {
      NoFlush(t, steps);
    } else {
      BatchOk(t, g);
      BatchFlushes(t, g);
      assert g == [] ==> Batch(t, g) == t + [Flushed];
    }
  }

  // ----------------------------------------------------------------------------------------
  // The operation
  // ----------------------------------------------------------------------------------------

  class Unpopulate {
    const pages: array<PageRef>
    var nrPages: nat
    var doFlush: bool
    ghost var trace: seq<Event>

    constructor ()
      ensures fresh(pages) && pages.Length == MAX_PAGES && trace == [] && nrPages == 0 && !doFlush
    {
      pages := new PageRef[MAX_PAGES](_ => PageRef(0, 0));
      nrPages, doFlush, trace := 0, false, [];
    }

    /** tlb_gather::flush(): one flush, then every gathered page is freed. */
    method Flush() returns (flushed: bool)
      requires nrPages <= pages.Length
      modifies `nrPages, `trace
      ensures nrPages == 0 && flushed == (old(nrPages) > 0)
      ensures trace == if flushed then Batch(old(trace), old(pages[..nrPages])) else old(trace)
    {
      if nrPages == 0 {
        return false;
      }
      ghost var t := trace;
      trace := trace + [Flushed];
      for i := 0 to nrPages
        invariant trace == Batch(t, pages[..i])
      {
        assert pages[..i + 1][..i] == pages[..i];
        trace := trace + [Freed(pages[i])];
      }
      nrPages := 0;
      return true;
    }

    /** tlb_gather::push(): whether it had to flush to make room. */
    method Push(p: PageRef) returns (flushed: bool)
      requires nrPages <= pages.Length == MAX_PAGES
      modifies `nrPages, `trace, pages
      ensures flushed == (old(nrPages) == MAX_PAGES)
      ensures 0 < nrPages <= MAX_PAGES
      ensures trace == if flushed then Batch(old(trace), old(pages[..nrPages])) else old(trace)
      ensures pages[..nrPages] == (if flushed then [] else old(pages[..nrPages])) + [p]
    {
      flushed := false;
      if nrPages == MAX_PAGES {
        var _ := Flush();
        flushed := true;
      }
      pages[nrPages] := p;
      nrPages := nrPages + 1;
    }

    ghost predicate After(steps: seq<Step>)
      reads this, pages
    {
      nrPages <= pages.Length == MAX_PAGES && Reached(trace, pages[..nrPages], doFlush, steps)
    }

    /** page() after unmap() has cleared the entry. */
    method Page(p: PageRef, gives: bool, ghost steps: seq<Step>)
      requires After(steps)
      modifies this, pages
      ensures After(steps + [Step.Leaf(p, gives)])
    {
      if gives {
        GatherPage(p, steps);
      } else {
        Keep(trace, pages[..nrPages], doFlush, steps, p);
        trace := trace + [Cleared(p)];
        doFlush := true;
      }
    }

    /** The page is to be freed: it goes to the gather, which may overflow. */
    method GatherPage(p: PageRef, ghost steps: seq<Step>)
      requires After(steps)
      modifies this, pages
      ensures After(steps + [Step.Leaf(p, true)])
    {
      ghost var t, g := trace + [Cleared(p)], pages[..nrPages];
      Gather(trace, g, doFlush, steps, p);
      if nrPages == MAX_PAGES {
        Overflow(trace, g, doFlush, steps, p);
      }
      trace := t;
      var flushed := Push(p);
      doFlush := !flushed;
      assert flushed ==> trace == Batch(t, g) && pages[..nrPages] == [p];
      assert !flushed ==> trace == t && pages[..nrPages] == g + [p];
    }

    /** intermediate_page_post(): the table goes to a deferred free, the entry is cleared, no flush is asked for. */
    method DropTable(p: PageRef, ghost steps: seq<Step>)
      requires After(steps)
      modifies `trace
      ensures After(steps + [Step.Table(p)])
    {
      Keep(trace, pages[..nrPages], doFlush, steps, p);
      trace := trace + [Dropped(p)];
    }

    /** The whole of operate_range(): every page given back is freed once, right after a flush that follows the
        clearing of its entry; every cleared entry is followed by a flush, unless only tables were dropped. */
    method OperateRange(steps: seq<Step>)
      requires pages.Length == MAX_PAGES && nrPages == 0 && !doFlush && trace == []
      modifies this, pages
      ensures FreesOk(trace) && ClearsOf(trace) == Clears(steps) && FreedOf(trace) == Gives(steps)
      ensures AllFlushed(trace) <==> (AnyTable(steps) ==> AnyLeaf(steps))
    {
      for i := 0 to |steps|
        invariant After(steps[..i])
      {
        assert steps[..i + 1] == steps[..i] + [steps[i]];
        match steps[i] {
          case Leaf(p, gives) => Page(p, gives, steps[..i]);
          case Table(p) => DropTable(p, steps[..i]);
        }
      }
      assert steps[..|steps|] == steps;
      Finish(trace, pages[..nrPages], doFlush, steps);
      var flushed := Flush();
      if !flushed && doFlush {
        trace := trace + [Flushed];
      }
    }
  }
}
