/** The page-range allocator of core/mempool.cc: a boundary-tag allocator with coalescing.

    Everything is counted in pages. A free range is a header in its first page (`size`), a back pointer in
    its last page (`footer`), a place in the list of its size, and a set bit in `bitmap` for its first and
    last page. The bits of other pages may be stale.
  */
module PageRanges {

  import opened Common

  const PAGE: nat := 4096

  /** page_range_allocator::max_order. */
  const MAX_ORDER: nat := 16

  // ----------------------------------------------------------------------------------------
  // Powers of two: include/osv/ilog2.hh
  // ----------------------------------------------------------------------------------------

  /** ilog2(n): the position of the highest set bit, 0 for n <= 1. */
  function ILog2(n: nat): (k: nat)
    ensures n >= 1 ==> Pow2(k) <= n < Pow2(k + 1)
  {
    if n <= 1 then 0 else 1 + ILog2(n / 2)
  }

  /** ilog2_roundup(n): the least k with n <= 2^k. */
  function ILog2RoundUp(n: nat): (k: nat)
    ensures n <= Pow2(k)
    ensures k > 0 ==> Pow2(k - 1) < n
  {
    if n <= 1 then 0 else ILog2(n - 1) + 1
  }

  lemma {:induction false} Pow2Monotone(i: nat, j: nat)
    requires i <= j
    ensures Pow2(i) <= Pow2(j)
  {
    if i < j { Pow2Monotone(i, j - 1); }
  }

  /** The list a range of n pages belongs to; MAX_ORDER stands for the tree of huge ranges. */
  function Bucket(n: nat): (k: nat)
    ensures k <= MAX_ORDER
  {
    if ILog2(n) >= MAX_ORDER then MAX_ORDER else ILog2(n)
  }

  // ----------------------------------------------------------------------------------------
  // Lists without repetition
  // ----------------------------------------------------------------------------------------

  /** The list with the element x erased. */
  function Without(s: seq<nat>, x: nat): (r: seq<nat>)
  {
    if s == [] then [] else if s[0] == x then Without(s[1..], x) else [s[0]] + Without(s[1..], x)
  }

  lemma {:induction false} WithoutMembers(s: seq<nat>, x: nat)
    ensures forall y: nat :: y in Without(s, x) <==> y in s && y != x
  {
    if s != [] {
      WithoutMembers(s[1..], x);
      assert s == [s[0]] + s[1..];
    }
  }

  lemma {:induction false} WithoutNoDup(s: seq<nat>, x: nat)
    requires NoDup(s)
    ensures NoDup(Without(s, x))
  {
    if s != [] {
      assert NoDup(s[1..]);
      WithoutNoDup(s[1..], x);
      WithoutMembers(s[1..], x);
      assert s[0] !in s[1..];
    }
  }

  // ----------------------------------------------------------------------------------------
  // The abstract heap
  // ----------------------------------------------------------------------------------------

  /** Free ranges, as first page -> number of pages. */
  type Ranges = map<nat, nat>

  ghost predicate InRange(b: Ranges, a: nat, p: int)
  {
    a in b && a <= p < a + b[a]
  }

  ghost predicate IsFree(b: Ranges, p: int)
  {
    exists a: nat :: InRange(b, a, p)
  }

  ghost function FreePages(b: Ranges, limit: nat): (r: set<int>)
  {
    set p: int | 0 <= p < limit && IsFree(b, p)
  }

  predicate Between(lo: int, p: int, hi: int) { lo <= p < hi }

  /** The integers from lo up to hi. */
  function Span(lo: int, hi: int): (r: set<int>)
    ensures forall p: int :: p in r <==> lo <= p < hi
  {
    set p: int | lo <= p < hi && Between(lo, p, hi)
  }

  /** Ranges are not empty, leave the first and the last page of memory alone, and no two touch. */
  ghost predicate Separate(b: Ranges, limit: nat)
  {
    && (forall a: nat :: a in b ==> b[a] > 0 && 1 <= a && a + b[a] < limit)
    && (forall a: nat, c: nat :: a in b && c in b && a < c ==> a + b[a] < c)
  }

  /** n pages from a are a maximal run of free pages. */
  ghost predicate MaximalRun(b: Ranges, a: nat, n: nat)
  {
    && n > 0 && !IsFree(b, a - 1) && !IsFree(b, a + n)
    && forall p: int :: a <= p < a + n ==> IsFree(b, p)
  }

  lemma RangeIsMaximalRun(b: Ranges, limit: nat, a: nat)
    requires Separate(b, limit) && a in b
    ensures MaximalRun(b, a, b[a])
  {
    forall p: int | a <= p < a + b[a] ensures IsFree(b, p) { assert InRange(b, a, p); }
    var before, after := a - 1, a + b[a];
    assert forall c: nat :: !InRange(b, c, before);
    assert forall c: nat :: !InRange(b, c, after);
  }

  /** The stored ranges are exactly the maximal runs of the set of free pages. */
  lemma RangesAreMaximalRuns(b: Ranges, limit: nat, a: nat, n: nat)
    requires Separate(b, limit)
    ensures MaximalRun(b, a, n) <==> a in b && b[a] == n
  {
    if MaximalRun(b, a, n) {
      assert IsFree(b, a);
      var c: nat :| InRange(b, c, a);
      assert !InRange(b, c, a - 1);
      assert !InRange(b, a, a + n);
      RangeIsMaximalRun(b, limit, a);
    } else if a in b {
      RangeIsMaximalRun(b, limit, a);
    }
  }

  /** What a client can see: the free pages, and the boundaries at which allocated memory may be given back. */
  datatype Heap = Heap(free: set<int>, cuts: set<int>)

  /** n pages from r are handed out: as one block, or with `fill` as n blocks of one page. */
  ghost function Take(h: Heap, r: int, n: nat, fill: bool): (h': Heap)
  {
    Heap(h.free - Span(r, r + n), h.cuts - Span(r + 1, r + n) + {r, r + n} + (if fill then Span(r + 1, r + n) else {}))
  }

  ghost function Give(h: Heap, a: int, n: nat): (h': Heap)
  {
    Heap(h.free + Span(a, a + n), h.cuts)
  }

  /** n pages from a are allocated and are one block or several whole ones. */
  ghost predicate MayFree(h: Heap, a: int, n: nat)
  {
    n > 0 && Span(a, a + n) !! h.free && a in h.cuts && a + n in h.cuts
  }

  lemma FreePagesInsert(b: Ranges, limit: nat, pr: nat, n: nat)
    requires pr !in b && pr + n <= limit
    ensures FreePages(b[pr := n], limit) == FreePages(b, limit) + Span(pr, pr + n)
  {
    var b' := b[pr := n];
    forall p: int ensures IsFree(b', p) <==> IsFree(b, p) || pr <= p < pr + n
    {
      if pr <= p < pr + n { assert InRange(b', pr, p); }
      if IsFree(b, p) { var a: nat :| InRange(b, a, p); assert InRange(b', a, p); }
      if IsFree(b', p) { var a: nat :| InRange(b', a, p); assert a == pr || InRange(b, a, p); }
    }
  }

  lemma FreePagesRemove(b: Ranges, limit: nat, pr: nat)
    requires Separate(b, limit) && pr in b
    ensures FreePages(b - {pr}, limit) == FreePages(b, limit) - Span(pr, pr + b[pr])
    ensures Span(pr, pr + b[pr]) <= FreePages(b, limit)
  {
    var b' := b - {pr};
    forall p: int ensures IsFree(b', p) <==> IsFree(b, p) && !(pr <= p < pr + b[pr])
    {
      if IsFree(b, p) { var a: nat :| InRange(b, a, p); assert a == pr || InRange(b', a, p); }
      if IsFree(b', p) { var a: nat :| InRange(b', a, p); assert InRange(b, a, p); }
    }
    forall p: int | p in Span(pr, pr + b[pr]) ensures p in FreePages(b, limit) { assert InRange(b, pr, p); }
  }

  /** The operations of the allocator, as the methods of PageRangeAllocator specify them. */
  datatype Op = OpTake(r: int, n: nat, fill: bool) | OpGive(a: int, n: nat)

  ghost predicate Legal(h: Heap, op: Op)
  {
    match op
    case OpTake(r, n, _) => n > 0 && Span(r, r + n) <= h.free
    case OpGive(a, n) => MayFree(h, a, n)
  }

  ghost function Apply(h: Heap, op: Op): (h': Heap)
  {
    match op
    case OpTake(r, n, fill) => Take(h, r, n, fill)
    case OpGive(a, n) => Give(h, a, n)
  }

  /** The heap after a sequence of operations, each legal where it happens; None when one is not. */
  ghost function Run(h: Heap, ops: seq<Op>): (r: Option<Heap>)
    decreases |ops|
  {
    if ops == [] then Some(h) else if !Legal(h, ops[0]) then None else Run(Apply(h, ops[0]), ops[1..])
  }

  ghost predicate GivesBack(op: Op, p: int)
  {
    op.OpGive? && op.a <= p < op.a + op.n
  }

  /** Blocks that are allocated and begin and end at a cut keep doing so until they are given back. */
  lemma {:induction false} RunKeepsBlock(h: Heap, ops: seq<Op>, a: int, k: nat)
    requires MayFree(h, a, k) && Run(h, ops).Some?
    requires forall i: nat, p: int :: i < |ops| && a <= p < a + k ==> !GivesBack(ops[i], p)
    ensures MayFree(Run(h, ops).value, a, k)
    decreases |ops|
  {
    if ops != [] {
      var op, h' := ops[0], Apply(h, ops[0]);
      assert a in Span(a, a + k) && a + k - 1 in Span(a, a + k);
      if op.OpTake? {
        assert a !in Span(op.r, op.r + op.n) && a + k - 1 !in Span(op.r, op.r + op.n);
      } else {
        var mine, theirs := Span(a, a + k), Span(op.a, op.a + op.n);
        forall p: int | p in mine ensures p !in theirs
        {
          assert !GivesBack(ops[0], p);
        }
      }
      assert MayFree(h', a, k);
      forall i: nat, p: int | i < |ops[1..]| && a <= p < a + k ensures !GivesBack(ops[1..][i], p)
      {
        assert ops[1..][i] == ops[i + 1];
      }
      RunKeepsBlock(h', ops[1..], a, k);
    }
  }

  /** A block taken with `fill` may be given back piece by piece, in any order and mixed with any other
      operations: whatever part of it has not been given back yet may be. */
  lemma FilledBlockFreesInPieces(h: Heap, r: int, n: nat, ops: seq<Op>, a: int, k: nat)
    requires Legal(h, OpTake(r, n, true)) && k > 0 && r <= a && a + k <= r + n
    requires Run(Take(h, r, n, true), ops).Some?
    requires forall i: nat, p: int :: i < |ops| && a <= p < a + k ==> !GivesBack(ops[i], p)
    ensures MayFree(Run(Take(h, r, n, true), ops).value, a, k)
  {
    var h' := Take(h, r, n, true);
    var part, block := Span(a, a + k), Span(r, r + n);
    assert part <= block;
    RunKeepsBlock(h', ops, a, k);
  }

  // ----------------------------------------------------------------------------------------
  // The concrete tables against the ranges
  // ----------------------------------------------------------------------------------------

  ghost predicate Sorted(huge: seq<nat>, b: Ranges)
  {
    forall i: nat, j: nat :: i < j < |huge| && huge[i] in b && huge[j] in b ==> b[huge[i]] <= b[huge[j]]
  }

  /** `list` holds the ranges of bucket k, each once, and `flag` says whether there is one. */
  ghost predicate ListOk(list: seq<nat>, b: Ranges, k: nat, flag: bool)
  {
    && NoDup(list) && (flag <==> list != [])
    && forall a: nat :: a in list <==> a in b && Bucket(b[a]) == k
  }

  function ListAt(free: seq<seq<nat>>, huge: seq<nat>, k: nat): (list: seq<nat>)
  {
    if k < |free| then free[k] else huge
  }

  /** The lists of the first k buckets are right. */
  ghost predicate ListsOk(free: seq<seq<nat>>, huge: seq<nat>, notEmpty: seq<bool>, b: Ranges, k: nat)
    requires k <= |notEmpty|
  {
    k == 0 || (ListsOk(free, huge, notEmpty, b, k - 1) && ListOk(ListAt(free, huge, k - 1), b, k - 1, notEmpty[k - 1])
               && (k - 1 == |free| ==> Sorted(huge, b)))
  }

  /** Every range is in the list of its size, once, and nothing else is; `notEmpty` is exact. */
  ghost predicate Listed(free: seq<seq<nat>>, huge: seq<nat>, notEmpty: seq<bool>, b: Ranges)
  {
    |free| == MAX_ORDER && |notEmpty| == MAX_ORDER + 1 && ListsOk(free, huge, notEmpty, b, MAX_ORDER + 1)
  }

  lemma {:induction false} ListedAt(free: seq<seq<nat>>, huge: seq<nat>, notEmpty: seq<bool>, b: Ranges, k: nat, j: nat)
    requires j < k <= |notEmpty| && ListsOk(free, huge, notEmpty, b, k)
    ensures ListOk(ListAt(free, huge, j), b, j, notEmpty[j]) && (j == |free| ==> Sorted(huge, b))
  {
    if j < k - 1 { ListedAt(free, huge, notEmpty, b, k - 1, j); }
  }

  lemma {:induction false} ListedFromAll(free: seq<seq<nat>>, huge: seq<nat>, notEmpty: seq<bool>, b: Ranges, k: nat)
    requires k <= |notEmpty| && Sorted(huge, b)
    requires forall j: nat :: j < k ==> ListOk(ListAt(free, huge, j), b, j, notEmpty[j])
    ensures ListsOk(free, huge, notEmpty, b, k)
  {
    if k > 0 { ListedFromAll(free, huge, notEmpty, b, k - 1); }
  }

  ghost predicate Sized(size: seq<nat>, b: Ranges)
  {
    forall a: nat :: a in b ==> a < |size| && size[a] == b[a]
  }

  /** Header, back pointer and edge bits of one range, which begins and ends at a cut and stays out of the
      hole [lo, hi). */
  ghost predicate RangeOk(bitmap: seq<bool>, size: seq<nat>, footer: seq<nat>, b: Ranges, cuts: set<int>, lo: int,
                          hi: int, a: nat)
  {
    a in b ==>
      && b[a] > 0 && 1 <= a && a + b[a] < |bitmap| == |size| == |footer|
      && size[a] == b[a] && footer[a + b[a] - 1] == a && bitmap[a] && bitmap[a + b[a] - 1]
      && a in cuts && a + b[a] in cuts && (a + b[a] <= lo || hi <= a)
  }

  /** Two ranges do not even touch. */
  ghost predicate Apart(b: Ranges, a: nat, c: nat)
  {
    a in b && c in b && a < c ==> a + b[a] < c
  }

  /** The bit of a page next to a cut is clear unless the page is free, or in the hole [lo, hi). */
  ghost predicate EdgeOk(bitmap: seq<bool>, b: Ranges, cuts: set<int>, lo: int, hi: int, p: int)
    requires 0 <= p < |bitmap|
  {
    bitmap[p] && (p in cuts || p + 1 in cuts) ==> IsFree(b, p) || lo <= p < hi
  }

  /** The tables are right about the ranges b. `cuts` are the page boundaries at which a block may begin or
      end; [lo, hi) is a hole: the block being worked on, whose bits may be wrong. */
  ghost predicate Tables(bitmap: seq<bool>, size: seq<nat>, footer: seq<nat>, b: Ranges, cuts: set<int>, lo: int,
                         hi: int)
  {
    && 2 <= |bitmap| == |size| == |footer|
    && (forall a: nat {:trigger RangeOk(bitmap, size, footer, b, cuts, lo, hi, a)} ::
          RangeOk(bitmap, size, footer, b, cuts, lo, hi, a))
    && (forall a: nat, c: nat {:trigger Apart(b, a, c)} :: Apart(b, a, c))
    && (forall p: int {:trigger EdgeOk(bitmap, b, cuts, lo, hi, p)} ::
          0 <= p < |bitmap| ==> EdgeOk(bitmap, b, cuts, lo, hi, p))
  }

  /** The hole lies inside memory, between two cuts. */
  predicate Bounded(bitmap: seq<bool>, cuts: set<int>, lo: int, hi: int)
  {
    1 <= lo < hi < |bitmap| && lo in cuts && hi in cuts
  }

  /** No range touches the hole from the left, or from the right. */
  ghost predicate NoneEndsAt(b: Ranges, lo: int)
  {
    forall a: nat :: a in b ==> a + b[a] != lo
  }

  lemma TablesAreSeparate(bitmap: seq<bool>, size: seq<nat>, footer: seq<nat>, b: Ranges, cuts: set<int>, lo: int,
                          hi: int)
    requires Tables(bitmap, size, footer, b, cuts, lo, hi)
    ensures Separate(b, |bitmap|) && Sized(size, b)
  {
    forall a: nat | a in b
      ensures b[a] > 0 && 1 <= a && a + b[a] < |bitmap| && a < |size| && size[a] == b[a]
    {
      assert RangeOk(bitmap, size, footer, b, cuts, lo, hi, a);
    }
    forall a: nat, c: nat | a in b && c in b && a < c
      ensures a + b[a] < c
    {
      assert Apart(b, a, c);
    }
  }

  /** The bit of the page before a hole is set exactly when a range ends there; its back pointer finds it. */
  lemma RangeBefore(bitmap: seq<bool>, size: seq<nat>, footer: seq<nat>, b: Ranges, cuts: set<int>, lo: int, hi: int)
    requires Tables(bitmap, size, footer, b, cuts, lo, hi) && Bounded(bitmap, cuts, lo, hi)
    ensures bitmap[lo - 1] ==> var c := footer[lo - 1]; c in b && c + b[c] == lo
    ensures !bitmap[lo - 1] ==> NoneEndsAt(b, lo)
  {
    var p := lo - 1;
    assert EdgeOk(bitmap, b, cuts, lo, hi, p);
    if bitmap[p] {
      var c: nat :| InRange(b, c, p);
      assert RangeOk(bitmap, size, footer, b, cuts, lo, hi, c);
    } else {
      forall a: nat | a in b ensures a + b[a] != lo { assert RangeOk(bitmap, size, footer, b, cuts, lo, hi, a); }
    }
  }

  lemma RangeAfter(bitmap: seq<bool>, size: seq<nat>, footer: seq<nat>, b: Ranges, cuts: set<int>, lo: int, hi: int)
    requires Tables(bitmap, size, footer, b, cuts, lo, hi) && Bounded(bitmap, cuts, lo, hi)
    ensures bitmap[hi] <==> hi in b
  {
    assert EdgeOk(bitmap, b, cuts, lo, hi, hi);
    assert RangeOk(bitmap, size, footer, b, cuts, lo, hi, hi);
    if bitmap[hi] {
      var c: nat :| InRange(b, c, hi);
      assert RangeOk(bitmap, size, footer, b, cuts, lo, hi, c);
    }
  }

  /** Removing a range that touches a hole, or any range when there is no hole, leaves a larger hole. */
  lemma HoleGrows(bitmap: seq<bool>, size: seq<nat>, footer: seq<nat>, b: Ranges, cuts: set<int>, lo: int, hi: int,
                  c: nat, lo': int, hi': int)
    requires Tables(bitmap, size, footer, b, cuts, lo, hi) && c in b && lo <= hi
    requires (lo == hi && lo' == c && hi' == c + b[c]) || (c + b[c] == lo && lo' == c && hi' == hi)
             || (c == hi && lo' == lo && hi' == hi + b[c])
    ensures Tables(bitmap, size, footer, b - {c}, cuts, lo', hi')
    ensures lo' == c ==> NoneEndsAt(b - {c}, c)
    ensures hi' == c + b[c] ==> hi' !in b
  {
    var b' := b - {c};
    assert RangeOk(bitmap, size, footer, b, cuts, lo, hi, c);
    forall a: nat ensures RangeOk(bitmap, size, footer, b', cuts, lo', hi', a)
    {
      assert RangeOk(bitmap, size, footer, b, cuts, lo, hi, a) && Apart(b, a, c) && Apart(b, c, a);
    }
    forall a: nat, d: nat ensures Apart(b', a, d) { assert Apart(b, a, d); }
    forall p: int | 0 <= p < |bitmap| ensures EdgeOk(bitmap, b', cuts, lo', hi', p)
    {
      assert EdgeOk(bitmap, b, cuts, lo, hi, p);
      if IsFree(b, p) {
        var a: nat :| InRange(b, a, p);
        assert a == c || InRange(b', a, p);
      }
    }
    forall a: nat | a in b' ensures a + b'[a] != c { assert Apart(b, a, c) && Apart(b, c, a); }
    assert hi' == c + b[c] ==> !(c < hi' && Apart(b, c, hi') && hi' in b);
  }

  /** Inside a hole the header word and the cuts are free to change. */
  lemma HoleIsFree(bitmap: seq<bool>, size: seq<nat>, footer: seq<nat>, b: Ranges, cuts: set<int>, lo: int, hi: int,
                   h: nat, n: nat, cuts': set<int>)
    requires Tables(bitmap, size, footer, b, cuts, lo, hi) && lo <= h < hi <= |size|
    requires forall c: int :: c <= lo || hi <= c ==> (c in cuts <==> c in cuts')
    ensures Tables(bitmap, size[h := n], footer, b, cuts', lo, hi)
  {
    var size' := size[h := n];
    forall a: nat ensures RangeOk(bitmap, size', footer, b, cuts', lo, hi, a)
    {
      assert RangeOk(bitmap, size, footer, b, cuts, lo, hi, a);
    }
    forall p: int | 0 <= p < |bitmap| ensures EdgeOk(bitmap, b, cuts', lo, hi, p)
    {
      assert EdgeOk(bitmap, b, cuts, lo, hi, p);
    }
  }

  /** insert() of a piece at either end of a hole. */
  lemma HoleShrinks(bitmap: seq<bool>, size: seq<nat>, footer: seq<nat>, b: Ranges, cuts: set<int>, lo: int, hi: int,
                    pr: nat, lo': int, hi': int)
    requires Tables(bitmap, size, footer, b, cuts, lo, hi) && 1 <= lo && hi < |bitmap|
    requires lo <= pr < |size| && size[pr] > 0 && pr + size[pr] <= hi
    requires pr in cuts && pr + size[pr] in cuts
    requires (pr == lo && lo' == pr + size[pr] && hi' == hi) || (pr + size[pr] == hi && lo' == lo && hi' == pr)
    requires pr == lo ==> NoneEndsAt(b, lo)
    requires pr + size[pr] == hi ==> hi !in b
    ensures Tables(Mark(bitmap, pr, size[pr], true, false), size, footer[pr + size[pr] - 1 := pr], b[pr := size[pr]],
                   cuts, lo', hi')
    ensures pr !in b
  {
    var n := size[pr];
    var b', bm, ft := b[pr := n], Mark(bitmap, pr, n, true, false), footer[pr + n - 1 := pr];
    assert RangeOk(bitmap, size, footer, b, cuts, lo, hi, pr);
    forall a: nat ensures RangeOk(bm, size, ft, b', cuts, lo', hi', a)
    {
      assert RangeOk(bitmap, size, footer, b, cuts, lo, hi, a);
    }
    forall a: nat, d: nat ensures Apart(b', a, d)
    {
      assert Apart(b, a, d);
      assert RangeOk(bitmap, size, footer, b, cuts, lo, hi, a) && RangeOk(bitmap, size, footer, b, cuts, lo, hi, d);
    }
    forall p: int | 0 <= p < |bm| ensures EdgeOk(bm, b', cuts, lo', hi', p)
    {
      assert EdgeOk(bitmap, b, cuts, lo, hi, p);
      if pr <= p < pr + n {
        assert InRange(b', pr, p);
      } else if IsFree(b, p) {
        var a: nat :| InRange(b, a, p);
        assert InRange(b', a, p);
      }
    }
  }

  /** set_bits(false) closes a hole that has no cuts inside, or that is cut at every page and filled. */
  lemma HoleCloses(bitmap: seq<bool>, size: seq<nat>, footer: seq<nat>, b: Ranges, cuts: set<int>, r: nat, n: nat,
                   fill: bool)
    requires Tables(bitmap, size, footer, b, cuts, r, r + n) && n > 0
    requires fill || forall c: int :: r < c < r + n ==> c !in cuts
    ensures Tables(Mark(bitmap, r, n, false, fill), size, footer, b, cuts, 0, 0)
  {
    var bm := Mark(bitmap, r, n, false, fill);
    forall a: nat ensures RangeOk(bm, size, footer, b, cuts, 0, 0, a)
    {
      assert RangeOk(bitmap, size, footer, b, cuts, r, r + n, a);
    }
    forall p: int | 0 <= p < |bm| ensures EdgeOk(bm, b, cuts, 0, 0, p)
    {
      assert EdgeOk(bitmap, b, cuts, r, r + n, p);
    }
  }

  lemma CutOut(f: set<int>, a: int, b: int, c: int, d: int)
    requires Span(a, d) <= f && a <= b <= c <= d
    ensures f - Span(a, d) + Span(c, d) + Span(a, b) == f - Span(b, c)
    ensures Span(b, c) <= f
  {
    assert forall x: int :: x in Span(b, c) ==> x in Span(a, d);
  }

  /** An empty hole may be anywhere. */
  lemma EmptyHole(bitmap: seq<bool>, size: seq<nat>, footer: seq<nat>, b: Ranges, cuts: set<int>, h: int)
    requires Tables(bitmap, size, footer, b, cuts, h, h)
    ensures Tables(bitmap, size, footer, b, cuts, 0, 0)
  {
    forall a: nat ensures RangeOk(bitmap, size, footer, b, cuts, 0, 0, a)
    {
      assert RangeOk(bitmap, size, footer, b, cuts, h, h, a);
    }
    forall p: int | 0 <= p < |bitmap| ensures EdgeOk(bitmap, b, cuts, 0, 0, p)
    {
      assert EdgeOk(bitmap, b, cuts, h, h, p);
    }
  }

  /** A block that a client may free is a hole. */
  lemma AllocatedIsHole(bitmap: seq<bool>, size: seq<nat>, footer: seq<nat>, b: Ranges, cuts: set<int>, a: nat, n: nat)
    requires Tables(bitmap, size, footer, b, cuts, 0, 0)
    requires 1 <= a && a + n < |bitmap| && MayFree(Heap(FreePages(b, |bitmap|), cuts), a, n)
    ensures Tables(bitmap, size, footer, b, cuts, a, a + n)
  {
    var end := a + n;
    forall c: nat ensures RangeOk(bitmap, size, footer, b, cuts, a, end, c)
    {
      assert RangeOk(bitmap, size, footer, b, cuts, 0, 0, c);
      if c in b {
        assert InRange(b, c, c) && (c <= a < c + b[c] ==> InRange(b, c, a));
        assert a in Span(a, a + n) && (a <= c < a + n ==> c in Span(a, a + n));
      }
    }
    forall p: int | 0 <= p < |bitmap| ensures EdgeOk(bitmap, b, cuts, a, end, p)
    {
      assert EdgeOk(bitmap, b, cuts, 0, 0, p);
    }
  }

  /** The bitmap with the edge bits, or with `fill` all the bits, of n pages from pr set to value. */
  function Mark(bitmap: seq<bool>, pr: nat, n: nat, value: bool, fill: bool): (r: seq<bool>)
  {
    seq(|bitmap|, i requires 0 <= i < |bitmap| =>
      if i == pr || i == pr + n - 1 || (fill && pr <= i < pr + n) then value else bitmap[i])
  }

  class PageRangeAllocator {
    var bitmap: seq<bool>
    var size: seq<nat>          // page_range::size, if a header is at this page
    var footer: seq<nat>        // the last word of the page, if a range ends here
    var free: seq<seq<nat>>     // _free[order]
    var huge: seq<nat>          // _free_huge, smallest first
    var notEmpty: seq<bool>     // _not_empty
    ghost var ranges: Ranges
    ghost var cuts: set<int>

    ghost predicate Valid()
      reads this
    {
      Listed(free, huge, notEmpty, ranges) && Tables(bitmap, size, footer, ranges, cuts, 0, 0)
    }

    ghost function Model(): (h: Heap)
      reads this
    {
      Heap(FreePages(ranges, |bitmap|), cuts)
    }

    /** No memory yet: every page counts as allocated and may be given with Free(). */
    constructor (pages: nat)
      requires pages >= 2
      ensures Valid() && ranges == map[] && |bitmap| == pages && cuts == Span(1, pages)
    {
      ListedFromAll(seq(MAX_ORDER, i => []), [], seq(MAX_ORDER + 1, i => false), map[], MAX_ORDER + 1);
      bitmap := seq(pages, i => false);
      size := seq(pages, i => 0);
      footer := seq(pages, i => 0);
      free := seq(MAX_ORDER, i => []);
      huge := [];
      notEmpty := seq(MAX_ORDER + 1, i => false);
      ranges := map[];
      cuts := Span(1, pages);
    }

    /** set_bits(). */
    method SetBits(pr: nat, n: nat, value: bool, fill: bool)
      requires n > 0 && pr + n <= |bitmap|
      modifies this`bitmap
      ensures bitmap == Mark(old(bitmap), pr, n, value, fill)
    {
      var end := n - 1;
      if fill {
        var idx := 0;
        while idx <= end
          invariant 0 <= idx <= n && |bitmap| == old(|bitmap|)
          invariant forall p: nat :: p < |bitmap| ==>
                      bitmap[p] == if pr <= p < pr + idx then value else old(bitmap)[p]
        {
          bitmap := bitmap[pr + idx := value];
          idx := idx + 1;
        }
      } else {
        bitmap := bitmap[pr := value];
        bitmap := bitmap[pr + end := value];
      }
    }

    /** The list half of insert(). */
    method Enlist(pr: nat)
      requires Listed(free, huge, notEmpty, ranges) && Sized(size, ranges) && pr < |size| && pr !in ranges
      modifies this`free, this`huge, this`notEmpty, this`ranges
      ensures ranges == old(ranges)[pr := size[pr]] && Listed(free, huge, notEmpty, ranges)
    {
      var order := ILog2(size[pr]);
      if order >= MAX_ORDER {
        ListedInsertHuge(free, huge, notEmpty, ranges, size, pr);
        huge := InsertSorted(huge, size, pr);
        notEmpty := notEmpty[MAX_ORDER := true];
      } else {
        ListedInsertSmall(free, huge, notEmpty, ranges, size, pr);
        free := free[order := [pr] + free[order]];
        notEmpty := notEmpty[order := true];
      }
      ranges := ranges[pr := size[pr]];
    }

    /** The other half: the back pointer in the last page, and the edge bits. */
    method Tag(pr: nat, ghost lo: int, ghost hi: int)
      requires pr < |size| == |footer| && size[pr] > 0 && pr + size[pr] <= |bitmap| == |footer|
      requires Tables(Mark(bitmap, pr, size[pr], true, false), size, footer[pr + size[pr] - 1 := pr], ranges, cuts,
                      lo, hi)
      modifies this`bitmap, this`footer
      ensures |bitmap| == old(|bitmap|) && Tables(bitmap, size, footer, ranges, cuts, lo, hi)
    {
      footer := footer[pr + size[pr] - 1 := pr];
      SetBits(pr, size[pr], true, false);
    }

    /** insert(), of a piece at either end of the hole [lo, hi), which shrinks to [lo', hi'). */
    method Insert(pr: nat, ghost lo: int, ghost hi: int, ghost lo': int, ghost hi': int)
      requires Listed(free, huge, notEmpty, ranges) && Tables(bitmap, size, footer, ranges, cuts, lo, hi)
      requires 1 <= lo <= pr < |size| && size[pr] > 0 && pr + size[pr] <= hi < |bitmap|
      requires pr in cuts && pr + size[pr] in cuts
      requires (pr == lo && lo' == pr + size[pr] && hi' == hi) || (pr + size[pr] == hi && lo' == lo && hi' == pr)
      requires pr == lo ==> NoneEndsAt(ranges, lo)
      requires pr + size[pr] == hi ==> hi !in ranges
      modifies this`bitmap, this`footer, this`free, this`huge, this`notEmpty, this`ranges
      ensures ranges == old(ranges)[pr := size[pr]] && |bitmap| == old(|bitmap|)
      ensures Listed(free, huge, notEmpty, ranges) && Tables(bitmap, size, footer, ranges, cuts, lo', hi')
    {
      TablesAreSeparate(bitmap, size, footer, ranges, cuts, lo, hi);
      HoleShrinks(bitmap, size, footer, ranges, cuts, lo, hi, pr, lo', hi');
      Enlist(pr);
      Tag(pr, lo', hi');
    }

    /** remove(), with remove_huge() and remove_list(). */
    method Remove(pr: nat)
      requires Listed(free, huge, notEmpty, ranges) && pr in ranges
      requires pr < |size| && size[pr] == ranges[pr]
      modifies this`free, this`huge, this`notEmpty, this`ranges
      ensures ranges == old(ranges) - {pr} && Listed(free, huge, notEmpty, ranges)
    {
      var order := ILog2(size[pr]);
      ListedRemove(free, huge, notEmpty, ranges, pr);
      if order >= MAX_ORDER {
        huge := Without(huge, pr);
        notEmpty := notEmpty[MAX_ORDER := huge != []];
      } else {
        free := free[order := Without(free[order], pr)];
        notEmpty := notEmpty[order := free[order] != []];
      }
      ranges := ranges - {pr};
    }

    /** The first half of free(): merge with the range that ends where the block begins. */
    method MergeBefore(a: nat) returns (pr: nat)
      requires Listed(free, huge, notEmpty, ranges) && a < |size| && Bounded(bitmap, cuts, a, a + size[a])
      requires Tables(bitmap, size, footer, ranges, cuts, a, a + size[a])
      modifies this`size, this`free, this`huge, this`notEmpty, this`ranges
      ensures Listed(free, huge, notEmpty, ranges) && pr < |size| && pr + size[pr] == a + old(size[a])
      ensures Bounded(bitmap, cuts, pr, pr + size[pr])
      ensures Tables(bitmap, size, footer, ranges, cuts, pr, pr + size[pr]) && NoneEndsAt(ranges, pr)
      ensures FreePages(ranges, |bitmap|) + Span(pr, pr + size[pr])
              == old(FreePages(ranges, |bitmap|)) + Span(a, pr + size[pr])
    {
      ghost var hi := a + size[a];
      pr := a;
      RangeBefore(bitmap, size, footer, ranges, cuts, a, hi);
      if bitmap[a - 1] {
        pr := footer[a - 1];
        assert RangeOk(bitmap, size, footer, ranges, cuts, a, hi, pr);
        TablesAreSeparate(bitmap, size, footer, ranges, cuts, a, hi);
        FreePagesRemove(ranges, |bitmap|, pr);
        HoleGrows(bitmap, size, footer, ranges, cuts, a, hi, pr, pr, hi);
        HoleIsFree(bitmap, size, footer, ranges - {pr}, cuts, pr, hi, pr, size[pr] + size[a], cuts);
        Remove(pr);
        size := size[pr := size[pr] + size[a]];
      }
    }

    /** The second half of free(): merge with the range that begins where the block ends. */
    method MergeAfter(pr: nat)
      requires Listed(free, huge, notEmpty, ranges) && pr < |size| && Bounded(bitmap, cuts, pr, pr + size[pr])
      requires Tables(bitmap, size, footer, ranges, cuts, pr, pr + size[pr]) && NoneEndsAt(ranges, pr)
      modifies this`size, this`free, this`huge, this`notEmpty, this`ranges
      ensures Listed(free, huge, notEmpty, ranges) && pr < |size| && Bounded(bitmap, cuts, pr, pr + size[pr])
      ensures Tables(bitmap, size, footer, ranges, cuts, pr, pr + size[pr])
      ensures pr + size[pr] !in ranges && NoneEndsAt(ranges, pr)
      ensures FreePages(ranges, |bitmap|) + Span(pr, pr + size[pr])
              == old(FreePages(ranges, |bitmap|)) + Span(pr, pr + old(size[pr]))
    {
      var end := pr + size[pr];
      RangeAfter(bitmap, size, footer, ranges, cuts, pr, end);
      if bitmap[end] {
        assert RangeOk(bitmap, size, footer, ranges, cuts, pr, end, end);
        TablesAreSeparate(bitmap, size, footer, ranges, cuts, pr, end);
        FreePagesRemove(ranges, |bitmap|, end);
        ghost var hi := end + ranges[end];
        HoleGrows(bitmap, size, footer, ranges, cuts, pr, end, end, pr, hi);
        HoleIsFree(bitmap, size, footer, ranges - {end}, cuts, pr, hi, pr, size[pr] + size[end], cuts);
        Remove(end);
        size := size[pr := size[pr] + size[end]];
        assert pr + size[pr] == hi;
      }
    }

    /** free(): gives n pages back and merges them with the free ranges on either side. */
    method Free(a: nat, n: nat)
      requires Valid() && 1 <= a && a + n < |bitmap| && MayFree(Model(), a, n)
      modifies this`bitmap, this`size, this`footer, this`free, this`huge, this`notEmpty, this`ranges
      ensures Valid() && |bitmap| == old(|bitmap|)
      ensures Model() == Give(old(Model()), a, n)
    {
      AllocatedIsHole(bitmap, size, footer, ranges, cuts, a, n);
      HoleIsFree(bitmap, size, footer, ranges, cuts, a, a + n, a, n, cuts);
      size := size[a := n];
      var pr := MergeBefore(a);
      MergeAfter(pr);
      ghost var hi := pr + size[pr];
      assert RangeOk(bitmap, size, footer, ranges, cuts, pr, hi, pr);
      FreePagesInsert(ranges, |bitmap|, pr, size[pr]);
      Insert(pr, pr, hi, hi, hi);
      EmptyHole(bitmap, size, footer, ranges, cuts, hi);
    }

    /** Take a range out of the lists, to hand out n of its pages from r. */
    method Unlink(pr: nat, ghost r: nat, ghost n: nat, ghost fill: bool)
      requires Valid() && pr in ranges && 0 < n && pr <= r && r + n <= pr + ranges[pr]
      modifies this`free, this`huge, this`notEmpty, this`ranges, this`cuts
      ensures var hi := pr + old(ranges)[pr];
              && Listed(free, huge, notEmpty, ranges) && Tables(bitmap, size, footer, ranges, cuts, pr, hi)
              && 1 <= pr && hi < |bitmap| && pr in cuts && hi in cuts && size[pr] == old(ranges)[pr]
              && NoneEndsAt(ranges, pr) && hi !in ranges
              && Span(pr, hi) <= old(Model()).free && FreePages(ranges, |bitmap|) == old(Model()).free - Span(pr, hi)
      ensures cuts == Take(old(Model()), r, n, fill).cuts
    {
      assert RangeOk(bitmap, size, footer, ranges, cuts, 0, 0, pr);
      TablesAreSeparate(bitmap, size, footer, ranges, cuts, 0, 0);
      FreePagesRemove(ranges, |bitmap|, pr);
      ghost var hi := pr + ranges[pr];
      HoleGrows(bitmap, size, footer, ranges, cuts, 0, 0, pr, pr, hi);
      ghost var recut := Take(Model(), r, n, fill).cuts;
      HoleIsFree(bitmap, size, footer, ranges - {pr}, cuts, pr, hi, pr, size[pr], recut);
      assert size[pr := size[pr]] == size;
      Remove(pr);
      cuts := recut;
    }

    /** A piece of the hole goes back as a range of its own. */
    method PutBack(pr: nat, n: nat, ghost lo: int, ghost hi: int, ghost lo': int, ghost hi': int)
      requires Listed(free, huge, notEmpty, ranges) && Tables(bitmap, size, footer, ranges, cuts, lo, hi)
      requires 1 <= lo <= pr && 0 < n && pr + n <= hi < |bitmap| && pr in cuts && pr + n in cuts
      requires (pr == lo && lo' == pr + n && hi' == hi) || (pr + n == hi && lo' == lo && hi' == pr)
      requires (pr == lo ==> NoneEndsAt(ranges, lo)) && (pr + n == hi ==> hi !in ranges)
      modifies this`bitmap, this`size, this`footer, this`free, this`huge, this`notEmpty, this`ranges
      ensures |bitmap| == old(|bitmap|) && ranges == old(ranges)[pr := n]
      ensures Listed(free, huge, notEmpty, ranges) && Tables(bitmap, size, footer, ranges, cuts, lo', hi')
      ensures FreePages(ranges, |bitmap|) == old(FreePages(ranges, |bitmap|)) + Span(pr, pr + n)
    {
      assert RangeOk(bitmap, size, footer, ranges, cuts, lo, hi, pr);
      FreePagesInsert(ranges, |bitmap|, pr, n);
      HoleIsFree(bitmap, size, footer, ranges, cuts, lo, hi, pr, n, cuts);
      size := size[pr := n];
      Insert(pr, lo, hi, lo', hi');
    }

    /** What a hole [pr, end) holds around the n pages from r goes back. */
    method PutBackEnds(pr: nat, r: nat, n: nat, end: nat)
      requires Listed(free, huge, notEmpty, ranges) && Tables(bitmap, size, footer, ranges, cuts, pr, end)
      requires 1 <= pr <= r && 0 < n && r + n <= end < |bitmap| && {pr, r, r + n, end} <= cuts
      requires NoneEndsAt(ranges, pr) && end !in ranges
      modifies this`bitmap, this`size, this`footer, this`free, this`huge, this`notEmpty, this`ranges
      ensures |bitmap| == old(|bitmap|)
      ensures Listed(free, huge, notEmpty, ranges) && Tables(bitmap, size, footer, ranges, cuts, r, r + n)
      ensures FreePages(ranges, |bitmap|) == old(FreePages(ranges, |bitmap|)) + Span(r + n, end) + Span(pr, r)
    {
      assert r + n == end ==> Span(r + n, end) == {};
      assert pr == r ==> Span(pr, r) == {};
      if r + n < end {
        PutBack(r + n, end - (r + n), pr, end, pr, r + n);
      }
      if pr < r {
        PutBack(pr, r - pr, pr, r + n, r, r + n);
      }
    }

    /** What is left of the hole becomes an allocated block. */
    method HandOut(r: nat, n: nat, fill: bool)
      requires Listed(free, huge, notEmpty, ranges) && Tables(bitmap, size, footer, ranges, cuts, r, r + n)
      requires 0 < n && r + n <= |bitmap| && (fill || forall c: int :: r < c < r + n ==> c !in cuts)
      modifies this`bitmap, this`size
      ensures Valid() && |bitmap| == old(|bitmap|)
    {
      HoleIsFree(bitmap, size, footer, ranges, cuts, r, r + n, r, n, cuts);
      size := size[r := n];
      HoleCloses(bitmap, size, footer, ranges, cuts, r, n, fill);
      SetBits(r, n, false, fill);
    }

    /** Hand out n pages from r, which lie inside the range pr; what is left on either side goes back. This is
        the end of alloc(), where nothing is left in front, and of alloc_aligned(). */
    method Carve(pr: nat, r: nat, n: nat, fill: bool)
      requires Valid() && pr in ranges && 0 < n && pr <= r && r + n <= pr + ranges[pr]
      modifies this
      ensures Valid() && |bitmap| == old(|bitmap|)
      ensures Span(r, r + n) <= old(Model()).free && Model() == Take(old(Model()), r, n, fill)
    {
      Unlink(pr, r, n, fill);
      CutOut(old(Model()).free, pr, r, r + n, pr + size[pr]);
      PutBackEnds(pr, r, n, pr + size[pr]);
      HandOut(r, n, fill);
    }

    /** alloc(). The search among the ranges of the next smaller order always gives up, as written. */
    method Alloc(n: nat) returns (r: Option<nat>)
      requires Valid() && 0 < n
      modifies this
      ensures Valid() && |bitmap| == old(|bitmap|)
      ensures r.Some? <==> exists a: nat :: Usable(old(ranges), a, n)
      ensures r.Some? ==>
                Span(r.value, r.value + n) <= old(Model()).free && Model() == Take(old(Model()), r.value, n, false)
      ensures r.None? ==> ranges == old(ranges) && cuts == old(cuts)
    {
      TablesAreSeparate(bitmap, size, footer, ranges, cuts, 0, 0);
      AllocChoice(free, huge, notEmpty, ranges, n);
      var order := FirstFrom(notEmpty, SearchOrder(n));
      if order.None? {
        return None;
      }
      var pr;
      if order.value == MAX_ORDER {
        pr := huge[|huge| - 1];
        if size[pr] < n {
          return None;
        }
      } else {
        pr := free[order.value][0];
      }
      assert Usable(ranges, pr, n);
      Carve(pr, pr, n, false);
      return Some(pr);
    }

    /** One list of for_each(), with the test of alloc_aligned(): the first range that fits. */
    method FirstFit(list: seq<nat>, n: nat, offset: nat, alignment: nat) returns (pr: Option<nat>)
      requires Sized(size, ranges) && alignment > 0 && forall a: nat :: a in list ==> a in ranges
      ensures pr.Some? ==> pr.value in list && Fits(ranges, pr.value, n, offset, alignment)
      ensures pr.None? ==> forall a: nat :: a in list ==> !Fits(ranges, a, n, offset, alignment)
    {
      var i := 0;
      while i < |list|
        invariant 0 <= i <= |list|
        invariant forall k: nat :: k < i ==> !Fits(ranges, list[k], n, offset, alignment)
      {
        var a := list[i];
        assert a in list;
        if size[a] >= n + Shift(a + size[a], n, offset, alignment) {
          return Some(a);
        }
        i := i + 1;
      }
      return None;
    }

    /** The walk of alloc_aligned(): huge ranges first, then the lists from the largest order down. */
    method FindAligned(n: nat, offset: nat, alignment: nat) returns (pr: Option<nat>)
      requires Listed(free, huge, notEmpty, ranges) && Sized(size, ranges) && 0 < n && alignment > 0
      requires forall a: nat :: a in ranges ==> ranges[a] > 0
      ensures pr.Some? ==> Fits(ranges, pr.value, n, offset, alignment)
      ensures pr.None? ==> forall a: nat :: !Fits(ranges, a, n, offset, alignment)
    {
      ListedAt(free, huge, notEmpty, ranges, MAX_ORDER + 1, MAX_ORDER);
      pr := FirstFit(huge, n, offset, alignment);
      var minOrder := (if ILog2(n) > 1 then ILog2(n) else 1) - 1;
      var order := MAX_ORDER;
      while pr.None? && order > minOrder
        invariant 0 <= order <= MAX_ORDER
        invariant pr.Some? ==> Fits(ranges, pr.value, n, offset, alignment)
        invariant pr.None? ==>
                    forall a: nat :: a in ranges && Bucket(ranges[a]) >= order
                      ==> !Fits(ranges, a, n, offset, alignment)
        decreases order
      {
        order := order - 1;
        ListedAt(free, huge, notEmpty, ranges, MAX_ORDER + 1, order);
        pr := FirstFit(free[order], n, offset, alignment);
      }
      forall a: nat | a in ranges && Bucket(ranges[a]) < order <= minOrder
        ensures !Fits(ranges, a, n, offset, alignment)
      {
        SmallDoesNotFit(ranges, a, n, offset, alignment);
      }
    }

    /** alloc_aligned(): n pages so that the address `offset` pages into them is a multiple of `alignment`. */
    method AllocAligned(n: nat, offset: nat, alignment: nat, fill: bool) returns (r: Option<nat>)
      requires Valid() && 0 < n && alignment > 0
      modifies this
      ensures Valid() && |bitmap| == old(|bitmap|)
      ensures r.Some? <==> exists a: nat :: Fits(old(ranges), a, n, offset, alignment)
      ensures r.Some? <==> exists q: int :: Place(old(Model()).free, q, n, offset, alignment)
      ensures r.Some? ==>
                && (r.value + offset) % alignment == 0
                && Span(r.value, r.value + n) <= old(Model()).free
                && Model() == Take(old(Model()), r.value, n, fill)
      ensures r.Some? ==> LastPlace(old(Model()).free, r.value, n, offset, alignment)
      ensures r.None? ==> ranges == old(ranges) && cuts == old(cuts)
    {
      TablesAreSeparate(bitmap, size, footer, ranges, cuts, 0, 0);
      FitsExactly(ranges, |bitmap|, n, offset, alignment);
      var pr := FindAligned(n, offset, alignment);
      if pr.None? {
        return None;
      }
      var shift := Shift(pr.value + size[pr.value], n, offset, alignment);
      var ret := pr.value + size[pr.value] - shift - n;
      AlignedInRange(ranges, |bitmap|, pr.value, ret, n, offset, alignment);
      Carve(pr.value, ret, n, fill);
      return Some(ret);
    }
  }

  /** The distance of the last possible place, n pages before `end`, from an aligned one. Memory begins at a
      multiple of every alignment in use, so page numbers are as good as addresses. */
  function Shift(end: int, n: nat, offset: nat, alignment: nat): (d: nat)
    requires alignment > 0
    ensures d < alignment
  {
    (end - n + offset) % alignment
  }

  lemma ShiftAligns(end: int, n: nat, offset: nat, alignment: nat)
    requires alignment > 0
    ensures (end - Shift(end, n, offset, alignment) - n + offset) % alignment == 0
  {
    var x := end - n + offset;
    ModSubtract(x, alignment);
  }

  /** The source counts in bytes. For an offset of whole pages and an alignment of whole pages its shift is this one,
      and for an alignment that divides a page there is no shift, as for an alignment of one page here. */
  lemma ShiftInBytes(end: int, n: nat, offset: nat, alignment: nat)
    requires alignment > 0
    ensures (PAGE * end - PAGE * n + PAGE * offset) % (PAGE * alignment) == PAGE * Shift(end, n, offset, alignment)
  {
    var x := end - n + offset;
    var q, d := x / alignment, Shift(end, n, offset, alignment);
    assert x == q * alignment + d && 0 <= PAGE * d < PAGE * alignment;
    assert PAGE * end - PAGE * n + PAGE * offset == q * (PAGE * alignment) + PAGE * d;
    RemainderIs(q, PAGE * alignment, PAGE * d);
  }

  lemma NoShiftInBytes(end: int, n: nat, offset: nat, alignment: nat, k: nat)
    requires alignment > 0 && PAGE == k * alignment
    ensures (PAGE * end - PAGE * n + PAGE * offset) % alignment == 0 == Shift(end, n, offset, 1)
  {
    var x := end - n + offset;
    assert PAGE * end - PAGE * n + PAGE * offset == (k * x) * alignment;
    MulMod(k * x, alignment);
  }

  lemma RemainderIs(q: int, m: nat, d: nat)
    requires d < m
    ensures (q * m + d) % m == d
  {
    var y := q * m + d;
    var j := y / m - q;
    assert y % m == d - j * m;
    assert j >= 1 ==> j * m >= m;
    assert j <= -1 ==> j * m + m <= 0;
  }

  lemma ModSubtract(x: int, m: nat)
    requires m > 0
    ensures (x - x % m) % m == 0
  {
    var q := x / m;
    assert x - x % m == q * m;
    MulMod(q, m);
  }

  /** The test of alloc_aligned(). */
  ghost predicate Fits(b: Ranges, a: nat, n: nat, offset: nat, alignment: nat)
    requires alignment > 0
  {
    a in b && n + Shift(a + b[a], n, offset, alignment) <= b[a]
  }

  /** n free pages from q on, so that the address `offset` pages into them is a multiple of `alignment`. */
  ghost predicate Place(free: set<int>, q: int, n: nat, offset: nat, alignment: nat)
    requires alignment > 0
  {
    (q + offset) % alignment == 0 && Span(q, q + n) <= free
  }

  /** No aligned place is later than the one at distance Shift from the end. */
  lemma ShiftIsLeast(end: int, n: nat, offset: nat, alignment: nat, q: int)
    requires alignment > 0 && q + n <= end && (q + offset) % alignment == 0
    ensures q <= end - n - Shift(end, n, offset, alignment)
  {
    var d := end - n - q;
    var k := (q + offset) / alignment;
    assert end - n + offset == k * alignment + d;
    if d < alignment {
      RemainderIs(k, alignment, d);
    }
  }

  /** Free pages that follow each other lie in one range. */
  lemma SpanInOneRange(b: Ranges, limit: nat, a: nat, q: int, n: nat)
    requires Separate(b, limit) && InRange(b, a, q) && Span(q, q + n) <= FreePages(b, limit)
    ensures q + n <= a + b[a]
  {
    var after := a + b[a];
    if after < q + n {
      assert after in Span(q, q + n);
      assert IsFree(b, after);
      RangeIsMaximalRun(b, limit, a);
    }
  }

  lemma FitIsPlace(b: Ranges, limit: nat, a: nat, n: nat, offset: nat, alignment: nat) returns (q: int)
    requires Separate(b, limit) && alignment > 0 && Fits(b, a, n, offset, alignment)
    ensures Place(FreePages(b, limit), q, n, offset, alignment)
  {
    var shift := Shift(a + b[a], n, offset, alignment);
    q := a + b[a] - shift - n;
    ShiftAligns(a + b[a], n, offset, alignment);
    FreePagesRemove(b, limit, a);
    assert Span(q, q + n) <= Span(a, a + b[a]);
  }

  lemma PlaceFits(b: Ranges, limit: nat, q: int, n: nat, offset: nat, alignment: nat) returns (a: nat)
    requires Separate(b, limit) && alignment > 0 && n > 0 && Place(FreePages(b, limit), q, n, offset, alignment)
    ensures Fits(b, a, n, offset, alignment)
  {
    assert q in Span(q, q + n);
    assert IsFree(b, q);
    a :| InRange(b, a, q);
    SpanInOneRange(b, limit, a, q, n);
    ShiftIsLeast(a + b[a], n, offset, alignment, q);
  }

  /** The test of alloc_aligned() finds a range exactly when some aligned place is free at all. */
  lemma FitsExactly(b: Ranges, limit: nat, n: nat, offset: nat, alignment: nat)
    requires Separate(b, limit) && alignment > 0 && n > 0
    ensures (exists a: nat :: Fits(b, a, n, offset, alignment))
        <==> exists q: int :: Place(FreePages(b, limit), q, n, offset, alignment)
  {
    if a: nat :| Fits(b, a, n, offset, alignment) {
      var q := FitIsPlace(b, limit, a, n, offset, alignment);
    }
    if q: int :| Place(FreePages(b, limit), q, n, offset, alignment) {
      var a := PlaceFits(b, limit, q, n, offset, alignment);
    }
  }

  /** No later place is in the same run of free pages as r. */
  ghost predicate LastPlace(free: set<int>, r: int, n: nat, offset: nat, alignment: nat)
    requires alignment > 0
  {
    forall q: int :: Place(free, q, n, offset, alignment) && r < q ==> !(Span(r, q) <= free)
  }

  lemma LastInRange(b: Ranges, limit: nat, a: nat, r: int, n: nat, offset: nat, alignment: nat)
    requires Separate(b, limit) && alignment > 0 && n > 0 && Fits(b, a, n, offset, alignment)
    requires r == a + b[a] - Shift(a + b[a], n, offset, alignment) - n
    ensures LastPlace(FreePages(b, limit), r, n, offset, alignment)
  {
    var free := FreePages(b, limit);
    forall q: int | Place(free, q, n, offset, alignment) && r < q ensures !(Span(r, q) <= free) {
      if Span(r, q) <= free {
        assert Span(r, q + n) == Span(r, q) + Span(q, q + n);
        assert InRange(b, a, r);
        SpanInOneRange(b, limit, a, r, q + n - r);
        ShiftIsLeast(a + b[a], n, offset, alignment, q);
      }
    }
  }

  /** The place that alloc_aligned() takes from a range that fits. */
  lemma AlignedInRange(b: Ranges, limit: nat, a: nat, r: int, n: nat, offset: nat, alignment: nat)
    requires Separate(b, limit) && alignment > 0 && n > 0 && Fits(b, a, n, offset, alignment)
    requires r == a + b[a] - Shift(a + b[a], n, offset, alignment) - n
    ensures a <= r && r + n <= a + b[a] && (r + offset) % alignment == 0
    ensures LastPlace(FreePages(b, limit), r, n, offset, alignment)
  {
    ShiftAligns(a + b[a], n, offset, alignment);
    LastInRange(b, limit, a, r, n, offset, alignment);
  }

  lemma SmallDoesNotFit(b: Ranges, a: nat, n: nat, offset: nat, alignment: nat)
    requires alignment > 0 && 0 < n && a in b && 0 < b[a] && Bucket(b[a]) < MAX_ORDER
    requires Bucket(b[a]) < ILog2(n)
    ensures !Fits(b, a, n, offset, alignment)
  {
    Pow2Monotone(Bucket(b[a]) + 1, ILog2(n));
  }

  /** count_trailing_zeros of the flags from k on. */
  function FirstFrom(flags: seq<bool>, k: nat): (r: Option<nat>)
    requires k <= |flags|
    ensures r.Some? ==> k <= r.value < |flags| && flags[r.value]
    ensures forall i: nat :: k <= i < (if r.Some? then r.value else |flags|) ==> !flags[i]
    decreases |flags| - k
  {
    if k == |flags| then None else if flags[k] then Some(k) else FirstFrom(flags, k + 1)
  }

  /** The first bucket alloc() looks at: every range in it, or in a later one below the last, is large enough. */
  function SearchOrder(n: nat): (k: nat)
    ensures k <= MAX_ORDER
  {
    if ILog2RoundUp(n) > MAX_ORDER then MAX_ORDER else ILog2RoundUp(n)
  }

  /** A range alloc() can find: large enough, and in a bucket that it looks at. */
  ghost predicate Usable(b: Ranges, a: nat, n: nat)
  {
    a in b && n <= b[a] && SearchOrder(n) <= Bucket(b[a])
  }

  /** A range is found exactly when it is as large as asked and as the power of two alloc() rounds up to. */
  lemma UsableExactly(b: Ranges, a: nat, n: nat)
    requires a in b && b[a] > 0 && n > 0
    ensures Usable(b, a, n) <==> n <= b[a] && Pow2(SearchOrder(n)) <= b[a]
  {
    var k := SearchOrder(n);
    if k <= Bucket(b[a]) {
      Pow2Monotone(k, ILog2(b[a]));
    } else {
      Pow2Monotone(ILog2(b[a]) + 1, k);
    }
  }

  /** So alloc() can fail although a free range is large enough: one free range of three pages, three asked. */
  lemma AllocMissesAFit()
    ensures var b: Ranges := map[1 := 3];
            Separate(b, 6) && 3 <= b[1] && forall a: nat :: !Usable(b, a, 3)
  {
    assert ILog2RoundUp(3) == 2 && ILog2(3) == 1;
  }

  lemma BigEnough(m: nat, n: nat)
    requires 1 <= m && SearchOrder(n) <= Bucket(m) < MAX_ORDER
    ensures n <= m
  {
    Pow2Monotone(ILog2RoundUp(n), ILog2(m));
  }

  /** A usable range is in or above the first non-empty bucket. */
  lemma UsableAbove(free: seq<seq<nat>>, huge: seq<nat>, notEmpty: seq<bool>, b: Ranges, n: nat, a: nat)
    requires Listed(free, huge, notEmpty, b) && Usable(b, a, n)
    ensures var order := FirstFrom(notEmpty, SearchOrder(n)); order.Some? && order.value <= Bucket(b[a])
  {
    ListedAt(free, huge, notEmpty, b, MAX_ORDER + 1, Bucket(b[a]));
    assert notEmpty[Bucket(b[a])];
  }

  lemma AllocFromList(free: seq<seq<nat>>, huge: seq<nat>, notEmpty: seq<bool>, b: Ranges, n: nat)
    requires Listed(free, huge, notEmpty, b)
    requires forall a: nat :: a in b ==> b[a] > 0
    ensures var order := FirstFrom(notEmpty, SearchOrder(n));
            order.Some? && order.value < MAX_ORDER ==>
              free[order.value] != [] && Usable(b, free[order.value][0], n)
  {
    var order := FirstFrom(notEmpty, SearchOrder(n));
    if order.Some? && order.value < MAX_ORDER {
      ListedAt(free, huge, notEmpty, b, MAX_ORDER + 1, order.value);
      var a := free[order.value][0];
      assert a in free[order.value];
      BigEnough(b[a], n);
    }
  }

  lemma AllocFromHuge(free: seq<seq<nat>>, huge: seq<nat>, notEmpty: seq<bool>, b: Ranges, n: nat)
    requires Listed(free, huge, notEmpty, b)
    ensures FirstFrom(notEmpty, SearchOrder(n)) == Some(MAX_ORDER) ==>
              && huge != [] && huge[|huge| - 1] in b
              && (n <= b[huge[|huge| - 1]] ==> Usable(b, huge[|huge| - 1], n))
              && (b[huge[|huge| - 1]] < n ==> forall a: nat :: !Usable(b, a, n))
  {
    if FirstFrom(notEmpty, SearchOrder(n)) == Some(MAX_ORDER) {
      ListedAt(free, huge, notEmpty, b, MAX_ORDER + 1, MAX_ORDER);
      var last := huge[|huge| - 1];
      assert last in huge;
      forall a: nat | Usable(b, a, n)
        ensures b[a] <= b[last]
      {
        UsableAbove(free, huge, notEmpty, b, n, a);
        assert a in huge;
      }
    }
  }

  /** What the first non-empty bucket says about the usable ranges. */
  lemma AllocChoice(free: seq<seq<nat>>, huge: seq<nat>, notEmpty: seq<bool>, b: Ranges, n: nat)
    requires Listed(free, huge, notEmpty, b)
    requires forall a: nat :: a in b ==> b[a] > 0
    ensures var order := FirstFrom(notEmpty, SearchOrder(n));
            && (order.None? ==> forall a: nat :: !Usable(b, a, n))
            && (order == Some(MAX_ORDER) ==>
                  && huge != [] && huge[|huge| - 1] in b
                  && (n <= b[huge[|huge| - 1]] ==> Usable(b, huge[|huge| - 1], n))
                  && (b[huge[|huge| - 1]] < n ==> forall a: nat :: !Usable(b, a, n)))
            && (order.Some? && order.value < MAX_ORDER ==>
                  free[order.value] != [] && Usable(b, free[order.value][0], n))
  {
    AllocFromList(free, huge, notEmpty, b, n);
    AllocFromHuge(free, huge, notEmpty, b, n);
    forall a: nat | Usable(b, a, n)
      ensures FirstFrom(notEmpty, SearchOrder(n)).Some?
    {
      UsableAbove(free, huge, notEmpty, b, n, a);
    }
  }

  lemma {:induction false} WithoutSorted(s: seq<nat>, x: nat, b: Ranges)
    requires Sorted(s, b)
    ensures Sorted(Without(s, x), b)
  {
    if s != [] {
      assert Sorted(s[1..], b);
      WithoutSorted(s[1..], x, b);
      WithoutMembers(s[1..], x);
      assert forall y: nat :: y in s[1..] && s[0] in b && y in b ==> b[s[0]] <= b[y];
    }
  }

  /** Insertion into a tree ordered by size: after every range that is not larger. */
  function InsertSorted(s: seq<nat>, size: seq<nat>, pr: nat): (r: seq<nat>)
    requires pr < |size| && forall i: nat :: i < |s| ==> s[i] < |size|
  {
    if s == [] || size[s[0]] > size[pr] then [pr] + s else [s[0]] + InsertSorted(s[1..], size, pr)
  }

  lemma {:induction false} InsertSortedMembers(s: seq<nat>, size: seq<nat>, pr: nat)
    requires pr < |size| && forall i: nat :: i < |s| ==> s[i] < |size|
    ensures forall a: nat :: a in InsertSorted(s, size, pr) <==> a in s || a == pr
  {
    if s != [] && size[s[0]] <= size[pr] {
      InsertSortedMembers(s[1..], size, pr);
      assert s == [s[0]] + s[1..];
    }
  }

  lemma SortedCons(x: nat, s: seq<nat>, b: Ranges)
    requires NoDup(s) && Sorted(s, b) && x in b && x !in s && forall a: nat :: a in s ==> a in b && b[x] <= b[a]
    ensures NoDup([x] + s) && Sorted([x] + s, b)
  {
    forall i: nat | i < |s| ensures s[i] in s { }
  }

  lemma {:induction false} InsertSortedOk(s: seq<nat>, size: seq<nat>, b: Ranges, pr: nat)
    requires pr < |size| && pr in b && b[pr] == size[pr] && pr !in s && NoDup(s) && Sorted(s, b)
    requires forall i: nat :: i < |s| ==> s[i] < |size| && s[i] in b && b[s[i]] == size[s[i]]
    ensures var r := InsertSorted(s, size, pr);
            NoDup(r) && Sorted(r, b) && forall a: nat :: a in r <==> a in s || a == pr
  {
    InsertSortedMembers(s, size, pr);
    if s != [] && size[s[0]] <= size[pr] {
      var rest := s[1..];
      assert NoDup(rest) && Sorted(rest, b);
      InsertSortedOk(rest, size, b, pr);
      assert s[0] !in rest;
      assert forall a: nat :: a in rest ==> a in b && b[s[0]] <= b[a];
      SortedCons(s[0], InsertSorted(rest, size, pr), b);
    } else {
      assert forall a: nat :: a in s ==> a in b && b[pr] <= b[a];
      SortedCons(pr, s, b);
    }
  }

  lemma HugeSized(free: seq<seq<nat>>, huge: seq<nat>, notEmpty: seq<bool>, b: Ranges, size: seq<nat>, pr: nat)
    requires Listed(free, huge, notEmpty, b) && pr !in b && pr < |size| && Sized(size, b)
    ensures NoDup(huge) && pr !in huge && Sorted(huge, b)
    ensures forall i: nat :: i < |huge| ==> huge[i] < |size| && huge[i] in b && b[huge[i]] == size[huge[i]]
  {
    ListedAt(free, huge, notEmpty, b, MAX_ORDER + 1, MAX_ORDER);
    forall i: nat | i < |huge| ensures huge[i] < |size| && huge[i] in b && b[huge[i]] == size[huge[i]]
    {
      assert huge[i] in huge;
    }
  }

  lemma SortedMore(s: seq<nat>, b: Ranges, pr: nat, n: nat)
    requires Sorted(s, b) && pr !in s
    ensures Sorted(s, b[pr := n])
  {
  }

  lemma ListedInsertHuge(free: seq<seq<nat>>, huge: seq<nat>, notEmpty: seq<bool>, b: Ranges, size: seq<nat>, pr: nat)
    requires Listed(free, huge, notEmpty, b) && pr !in b && pr < |size| && Sized(size, b)
             && Bucket(size[pr]) == MAX_ORDER
    ensures forall i: nat :: i < |huge| ==> huge[i] < |size|
    ensures Listed(free, InsertSorted(huge, size, pr), notEmpty[MAX_ORDER := true], b[pr := size[pr]])
  {
    var b' := b[pr := size[pr]];
    HugeSized(free, huge, notEmpty, b, size, pr);
    SortedMore(huge, b, pr, size[pr]);
    InsertSortedOk(huge, size, b', pr);
    var huge', flags := InsertSorted(huge, size, pr), notEmpty[MAX_ORDER := true];
    forall j: nat | j <= MAX_ORDER
      ensures ListOk(ListAt(free, huge', j), b', j, flags[j])
    {
      ListedAt(free, huge, notEmpty, b, MAX_ORDER + 1, j);
    }
    ListedFromAll(free, huge', flags, b', MAX_ORDER + 1);
  }

  lemma ListedInsertSmall(free: seq<seq<nat>>, huge: seq<nat>, notEmpty: seq<bool>, b: Ranges, size: seq<nat>, pr: nat)
    requires Listed(free, huge, notEmpty, b) && pr !in b && pr < |size| && Sized(size, b)
             && Bucket(size[pr]) < MAX_ORDER
    ensures var k := Bucket(size[pr]); Listed(free[k := [pr] + free[k]], huge, notEmpty[k := true], b[pr := size[pr]])
  {
    var b', k := b[pr := size[pr]], Bucket(size[pr]);
    HugeSized(free, huge, notEmpty, b, size, pr);
    SortedMore(huge, b, pr, size[pr]);
    var free', flags := free[k := [pr] + free[k]], notEmpty[k := true];
    forall j: nat | j <= MAX_ORDER
      ensures ListOk(ListAt(free', huge, j), b', j, flags[j])
    {
      ListedAt(free, huge, notEmpty, b, MAX_ORDER + 1, j);
    }
    ListedFromAll(free', huge, flags, b', MAX_ORDER + 1);
  }

  /** The lists after remove() of pr. */
  lemma ListedRemove(free: seq<seq<nat>>, huge: seq<nat>, notEmpty: seq<bool>, b: Ranges, pr: nat)
    requires Listed(free, huge, notEmpty, b) && pr in b
    ensures var k := Bucket(b[pr]);
            if k == MAX_ORDER then
              Listed(free, Without(huge, pr), notEmpty[k := Without(huge, pr) != []], b - {pr})
            else
              Listed(free[k := Without(free[k], pr)], huge, notEmpty[k := Without(free[k], pr) != []], b - {pr})
  {
    var b', k := b - {pr}, Bucket(b[pr]);
    ListedAt(free, huge, notEmpty, b, MAX_ORDER + 1, MAX_ORDER);
    var before := ListAt(free, huge, k);
    WithoutMembers(before, pr);
    ListedAt(free, huge, notEmpty, b, MAX_ORDER + 1, k);
    WithoutNoDup(before, pr);
    WithoutSorted(huge, pr, b);
    var huge' := if k == MAX_ORDER then Without(huge, pr) else huge;
    var free' := if k == MAX_ORDER then free else free[k := Without(free[k], pr)];
    var flags := notEmpty[k := Without(before, pr) != []];
    forall j: nat | j <= MAX_ORDER
      ensures ListOk(ListAt(free', huge', j), b', j, flags[j])
    {
      ListedAt(free, huge, notEmpty, b, MAX_ORDER + 1, j);
    }
    assert Sorted(huge', b');
    ListedFromAll(free', huge', flags, b', MAX_ORDER + 1);
  }
}
