/** The list of virtual memory areas of core/mmu.cc: lookups, splitting, evacuate(), protect(), find_hole(), allocate().

    The list is sorted by address and starts and ends with an empty marker area. It stands for a map from addresses to
    what is mapped there.
  */
module VmaList {

  import opened Common

  const PAGE: nat := 0x1000
  const HUGE: nat := 0x20_0000
  const TOP: nat := 0x8000_0000_0000
  const WORD: nat := 0x1_0000_0000_0000_0000

  /** What a mapping is made of; for a file, with the offset of its first byte. */
  datatype Backing = Anon | File(id: nat, offset: nat)

  datatype Vma = Vma(start: nat, end: nat, perm: nat, flags: nat, backing: Backing)

  /** What an address of a mapping shows: memory of its own, or one byte of a file. */
  datatype Content = Memory | FileByte(id: nat, pos: nat)

  /** What is mapped at one address. */
  datatype Info = Info(perm: nat, flags: nat, content: Content)

  function AlignDown(a: nat, n: nat): (r: nat)
    requires n > 0
    ensures r % n == 0 && r <= a < r + n
  {
    MulMod(a / n, n);
    a / n * n
  }

  function AlignUp(a: nat, n: nat): (r: nat)
    requires n > 0
    ensures r % n == 0 && a <= r < a + n
  {
    MulMod((a + n - 1) / n, n);
    (a + n - 1) / n * n
  }

  // ----------------------------------------------------------------------------------------
  // The list and the map it stands for
  // ----------------------------------------------------------------------------------------

  predicate Covers(v: Vma, a: nat)
  {
    v.start <= a < v.end
  }

  function InfoAt(v: Vma, a: nat): (i: Info)
    requires v.start <= a
  {
    Info(v.perm, v.flags,
         if v.backing.Anon? then Memory else FileByte(v.backing.id, v.backing.offset + (a - v.start)))
  }

  ghost predicate Sorted(l: seq<Vma>)
  {
    && (forall i: nat :: i < |l| ==> l[i].start <= l[i].end)
    && (forall i: nat, j: nat :: i < j < |l| ==> l[i].end <= l[j].start && l[i].start < l[j].start)
  }

  /** Area i is well formed and in order with the next one. */
  ghost predicate AreaOk(l: seq<Vma>, i: nat)
  {
    i < |l| ==>
      && l[i].start <= l[i].end && l[i].start % PAGE == 0 && l[i].end % PAGE == 0
      && (0 < i < |l| - 1 ==> l[i].start < l[i].end)
      && (i + 1 < |l| ==> l[i].end <= l[i + 1].start && l[i].start < l[i + 1].start)
  }

  /** Sorted, disjoint, page-aligned, with both markers in place. */
  ghost predicate ListOk(l: seq<Vma>)
  {
    && |l| >= 2
    && l[0].start == l[0].end == 0 && l[|l| - 1].start == l[|l| - 1].end == TOP
    && (forall i: nat {:trigger AreaOk(l, i)} :: AreaOk(l, i))
  }

  lemma {:induction false} InOrder(l: seq<Vma>, i: nat, j: nat)
    requires ListOk(l) && i < j < |l|
    ensures l[i].start <= l[i].end <= l[j].start && l[i].start < l[j].start
  {
    assert AreaOk(l, i) && AreaOk(l, j - 1);
    if i + 1 < j {
      InOrder(l, i, j - 1);
    }
  }

  lemma ListSorted(l: seq<Vma>)
    requires ListOk(l)
    ensures Sorted(l)
  {
    forall i: nat | i < |l| ensures l[i].start <= l[i].end { assert AreaOk(l, i); }
    forall i: nat, j: nat | i < j < |l| ensures l[i].end <= l[j].start && l[i].start < l[j].start { InOrder(l, i, j); }
  }

  /** What is mapped at address a. */
  ghost function Lookup(l: seq<Vma>, a: nat): (r: Option<Info>)
  {
    if exists i: nat :: i < |l| && Covers(l[i], a) then
      var i: nat :| i < |l| && Covers(l[i], a);
      Some(InfoAt(l[i], a))
    else None
  }

  lemma LookupAt(l: seq<Vma>, i: nat, a: nat)
    requires Sorted(l) && i < |l| && Covers(l[i], a)
    ensures Lookup(l, a) == Some(InfoAt(l[i], a))
  {
    var j: nat :| j < |l| && Covers(l[j], a) && Lookup(l, a) == Some(InfoAt(l[j], a));
  }

  /** The addresses of an area show it: with its permissions and flags, and for a file, byte by byte from its offset. */
  lemma AreaShows(l: seq<Vma>, i: nat, a: nat)
    requires ListOk(l) && i < |l| && l[i].start <= a < l[i].end
    ensures Lookup(l, a).Some? && Lookup(l, a).value.perm == l[i].perm && Lookup(l, a).value.flags == l[i].flags
    ensures l[i].backing.Anon? ==> Lookup(l, a).value.content.Memory?
    ensures forall id: nat, off: nat :: l[i].backing == File(id, off) ==>
              Lookup(l, a).value.content == FileByte(id, off + (a - l[i].start))
  {
    ListSorted(l);
    LookupAt(l, i, a);
  }

  // ----------------------------------------------------------------------------------------
  // Splitting and inserting
  // ----------------------------------------------------------------------------------------

  /** The first area that starts at or after a. */
  function LowerBound(l: seq<Vma>, a: nat): (k: nat)
    ensures k <= |l| && (forall i: nat :: i < k ==> l[i].start < a) && (k < |l| ==> l[k].start >= a)
  {
    if l == [] || l[0].start >= a then 0 else 1 + LowerBound(l[1..], a)
  }

  /** vma_list.insert(). */
  function Insert(l: seq<Vma>, v: Vma): (r: seq<Vma>)
  {
    var k := LowerBound(l, v.start);
    l[..k] + [v] + l[k..]
  }

  /** file_vma::offset(): the file offset of an address. */
  function Offset(v: Vma, a: nat): (off: nat)
    requires v.backing.File? && v.start <= a
  {
    v.backing.offset + (a - v.start)
  }

  /** The part of v from edge on; split() of an anonymous or a file mapping. */
  function Upper(v: Vma, edge: nat): (r: Vma)
    requires v.start <= edge
  {
    Vma(edge, v.end, v.perm, v.flags, if v.backing.File? then File(v.backing.id, Offset(v, edge)) else Anon)
  }

  /** Area i cut in two at edge, if edge is inside it. */
  function Split(l: seq<Vma>, i: nat, edge: nat): (r: seq<Vma>)
    requires i < |l|
  {
    var v := l[i];
    if edge <= v.start || edge >= v.end then l else l[..i] + [v.(end := edge), Upper(v, edge)] + l[i + 1..]
  }

  /** split() shrinks the area and inserts the rest, which lands right behind it. */
  lemma SplitInserts(l: seq<Vma>, i: nat, edge: nat)
    requires Sorted(l) && i < |l| && l[i].start < edge < l[i].end
    ensures Insert(l[i := l[i].(end := edge)], Upper(l[i], edge)) == Split(l, i, edge)
  {
    var v := l[i];
    var m := l[i := v.(end := edge)];
    var k := LowerBound(m, edge);
    assert m[i].start < edge && (i + 1 < |l| ==> m[i + 1].start >= l[i].end);
    assert k == i + 1;
    assert m[..k] == l[..i] + [v.(end := edge)] && m[k..] == l[i + 1..];
  }

  /** l' is l with area i cut in two at edge. */
  ghost predicate IsSplit(l: seq<Vma>, l': seq<Vma>, i: nat, edge: nat)
  {
    && i < |l| && |l'| == |l| + 1 && l[i].start < edge < l[i].end
    && l'[i] == l[i].(end := edge) && l'[i + 1] == Upper(l[i], edge)
    && (forall j: nat {:trigger l[j]} {:trigger l'[j]} :: j < i ==> l'[j] == l[j])
    && (forall j: nat {:trigger l'[j]} :: i + 1 < j < |l'| ==> l'[j] == l[j - 1])
  }

  lemma SplitIs(l: seq<Vma>, i: nat, edge: nat)
    requires i < |l| && l[i].start < edge < l[i].end
    ensures IsSplit(l, Split(l, i, edge), i, edge)
  {
  }

  lemma IsSplitSorted(l: seq<Vma>, l': seq<Vma>, i: nat, edge: nat)
    requires ListOk(l) && IsSplit(l, l', i, edge) && edge % PAGE == 0
    ensures ListOk(l')
  {
    assert AreaOk(l, i) && (i + 1 < |l| ==> AreaOk(l, i + 1));
    forall j: nat ensures AreaOk(l', j) { assert AreaOk(l, j); if j > 0 { assert AreaOk(l, j - 1); } }
    assert l'[|l'| - 1] == l[|l| - 1] || i == |l| - 1;
  }

  lemma IsSplitCovered(l: seq<Vma>, l': seq<Vma>, i: nat, edge: nat, j: nat, a: nat)
    requires Sorted(l) && Sorted(l') && IsSplit(l, l', i, edge) && j < |l| && Covers(l[j], a)
    ensures Lookup(l', a) == Lookup(l, a)
  {
    LookupAt(l, j, a);
    if j < i || (j == i && a < edge) {
      LookupAt(l', j, a);
    } else {
      assert l'[j + 1] == if j == i then Upper(l[i], edge) else l[j];
      LookupAt(l', j + 1, a);
    }
  }

  lemma IsSplitKeeps(l: seq<Vma>, l': seq<Vma>, i: nat, edge: nat, a: nat)
    requires Sorted(l) && Sorted(l') && IsSplit(l, l', i, edge)
    ensures Lookup(l', a) == Lookup(l, a)
  {
    if j: nat :| j < |l| && Covers(l[j], a) {
      IsSplitCovered(l, l', i, edge, j, a);
    } else {
      forall k: nat | k < |l'| ensures !Covers(l'[k], a) {
        assert !Covers(l[if k <= i then k else k - 1], a);
      }
    }
  }

  /** Splitting keeps the list in order and every address mapped as it was, file offsets included. */
  lemma SplitKeeps(l: seq<Vma>, i: nat, edge: nat)
    requires ListOk(l) && i < |l| && edge % PAGE == 0
    ensures ListOk(Split(l, i, edge))
    ensures forall a: nat {:trigger Lookup(Split(l, i, edge), a)} :: Lookup(Split(l, i, edge), a) == Lookup(l, a)
  {
    var l' := Split(l, i, edge);
    if l[i].start < edge < l[i].end {
      ListSorted(l);
      SplitIs(l, i, edge);
      IsSplitSorted(l, l', i, edge);
      ListSorted(l');
      forall a: nat ensures Lookup(l', a) == Lookup(l, a) { IsSplitKeeps(l, l', i, edge, a); }
    }
  }

  /** Area i is erased. */
  function Erase(l: seq<Vma>, i: nat): (r: seq<Vma>)
    requires i < |l|
  {
    l[..i] + l[i + 1..]
  }

  lemma EraseKeeps(l: seq<Vma>, i: nat)
    requires ListOk(l) && 0 < i < |l| - 1
    ensures ListOk(Erase(l, i))
    ensures forall a: nat {:trigger Lookup(Erase(l, i), a)} ::
              Lookup(Erase(l, i), a) == if Covers(l[i], a) then None else Lookup(l, a)
  {
    var l' := Erase(l, i);
    assert AreaOk(l, i);
    forall j: nat ensures AreaOk(l', j) { assert AreaOk(l, j) && AreaOk(l, j + 1); }
    ListSorted(l);
    ListSorted(l');
    forall a: nat ensures Lookup(l', a) == if Covers(l[i], a) then None else Lookup(l, a)
    {
      EraseAt(l, l', i, a);
    }
  }

  lemma EraseAt(l: seq<Vma>, l': seq<Vma>, i: nat, a: nat)
    requires Sorted(l) && i < |l| && Sorted(l') && l' == Erase(l, i)
    ensures Lookup(l', a) == if Covers(l[i], a) then None else Lookup(l, a)
  {
    if j: nat :| j < |l| && j != i && Covers(l[j], a) {
      LookupAt(l, j, a);
      assert Covers(l'[if j < i then j else j - 1], a);
      LookupAt(l', if j < i then j else j - 1, a);
    } else {
      forall k: nat | k < |l'| ensures !Covers(l'[k], a) {
        assert !Covers(l[if k < i then k else k + 1], a);
      }
    }
  }

  /** Nothing is mapped in [s, e). */
  ghost predicate Free(l: seq<Vma>, s: nat, e: nat)
  {
    forall i: nat :: i < |l| ==> l[i].end <= s || e <= l[i].start
  }

  /** Free means free: no address of the range is mapped; for a range between the markers also the other way round. */
  lemma FreeIsUnmapped(l: seq<Vma>, s: nat, e: nat)
    requires ListOk(l) && s < e
    ensures Free(l, s, e) ==> forall a: nat :: s <= a < e ==> Lookup(l, a).None?
    ensures 0 < s && e <= TOP && (forall a: nat :: s <= a < e ==> Lookup(l, a).None?) ==> Free(l, s, e)
  {
    ListSorted(l);
    if 0 < s && e <= TOP && forall a: nat :: s <= a < e ==> Lookup(l, a).None? {
      forall i: nat | i < |l| ensures l[i].end <= s || e <= l[i].start
      {
        assert AreaOk(l, i);
        var a := if l[i].start < s then s else l[i].start;
        if Covers(l[i], a) {
          LookupAt(l, i, a);
          assert !(s <= a < e);
        }
      }
    }
  }

  /** The addresses of v show v, and all others what they showed before. */
  ghost predicate Adds(l: seq<Vma>, l': seq<Vma>, v: Vma)
  {
    forall a: nat {:trigger Lookup(l', a)} ::
      Lookup(l', a) == if v.start <= a < v.end then Some(InfoAt(v, a)) else Lookup(l, a)
  }

  /** A new area in free space: the list stays in order and only the new addresses change. */
  lemma InsertKeeps(l: seq<Vma>, v: Vma)
    requires ListOk(l) && 0 < v.start < v.end <= TOP && v.start % PAGE == 0 && v.end % PAGE == 0
             && Free(l, v.start, v.end)
    ensures ListOk(Insert(l, v)) && Adds(l, Insert(l, v), v)
  {
    var l', k := Insert(l, v), LowerBound(l, v.start);
    ListSorted(l);
    assert 0 < k < |l| && AreaOk(l, k);
    assert v.end <= l[k].start && l[k - 1].end <= v.start;
    InsertSorted(l, l', k, v);
    ListSorted(l');
    InsertAdds(l, l', k, v);
  }

  lemma InsertAdds(l: seq<Vma>, l': seq<Vma>, k: nat, v: Vma)
    requires Sorted(l) && Sorted(l') && k <= |l| && l' == l[..k] + [v] + l[k..]
    ensures Adds(l, l', v)
  {
    forall a: nat ensures Lookup(l', a) == if v.start <= a < v.end then Some(InfoAt(v, a)) else Lookup(l, a)
    {
      InsertAt(l, l', k, v, a);
    }
  }

  lemma InsertSorted(l: seq<Vma>, l': seq<Vma>, k: nat, v: Vma)
    requires ListOk(l) && 0 < v.start < v.end <= TOP && v.start % PAGE == 0 && v.end % PAGE == 0
    requires 0 < k < |l| && l[k - 1].start < v.start && l[k - 1].end <= v.start && v.end <= l[k].start
    requires |l'| == |l| + 1 && l'[k] == v
    requires forall j: nat {:trigger l'[j]} :: j < |l'| && j != k ==> l'[j] == l[if j < k then j else j - 1]
    ensures ListOk(l')
  {
    assert AreaOk(l, k - 1) && AreaOk(l, k);
    forall j: nat ensures AreaOk(l', j)
    {
      assert AreaOk(l, j);
      if j > 0 { assert AreaOk(l, j - 1); }
    }
  }

  lemma InsertAt(l: seq<Vma>, l': seq<Vma>, k: nat, v: Vma, a: nat)
    requires Sorted(l) && Sorted(l') && k <= |l| && l' == l[..k] + [v] + l[k..]
    ensures Lookup(l', a) == if Covers(v, a) then Some(InfoAt(v, a)) else Lookup(l, a)
  {
    if Covers(v, a) {
      assert l'[k] == v;
      LookupAt(l', k, a);
    } else if j: nat :| j < |l| && Covers(l[j], a) {
      LookupAt(l, j, a);
      assert Covers(l'[if j < k then j else j + 1], a);
      LookupAt(l', if j < k then j else j + 1, a);
    } else {
      forall m: nat | m < |l'| ensures !Covers(l'[m], a) {
        assert m != k ==> !Covers(l[if m < k then m else m - 1], a);
      }
    }
  }

  // ----------------------------------------------------------------------------------------
  // Lookups
  // ----------------------------------------------------------------------------------------

  /** find_intersecting_vma(): the area that contains an address. */
  function FindVma(l: seq<Vma>, a: nat): (r: Option<nat>)
    requires ListOk(l) && a <= TOP
  {
    var k := LowerBound(l, a);
    if k < |l| && l[k].start == a then Some(k)
    else if k > 0 && k - 1 < |l| && l[k - 1].start <= a < l[k - 1].end then Some(k - 1)
    else None
  }

  /** It finds the area exactly when there is one, except at the two markers, which it returns as if they held their
      own address. */
  lemma FindsExactly(l: seq<Vma>, a: nat)
    requires ListOk(l) && a <= TOP
    ensures FindVma(l, a).Some? ==> FindVma(l, a).value < |l|
    ensures 0 < a < TOP ==>
              Lookup(l, a) ==
              match FindVma(l, a) {
                case Some(i) => if l[i].start <= a then Some(InfoAt(l[i], a)) else None
                case None => None
              }
    ensures a == 0 || a == TOP ==> FindVma(l, a).Some? && Lookup(l, a).None?
  {
    ListSorted(l);
    var k := LowerBound(l, a);
    assert AreaOk(l, 0) && AreaOk(l, |l| - 1) && AreaOk(l, k);
    match FindVma(l, a)
    case Some(i) =>
      if Covers(l[i], a) {
        LookupAt(l, i, a);
      }
    case None =>
  }

  /** The first area that ends after s or begins at it. */
  function FirstFrom(l: seq<Vma>, s: nat): (first: nat)
    requires ListOk(l) && s <= TOP
  {
    var k := LowerBound(l, s);
    if k > 0 && k < |l| && l[k].start > s && l[k - 1].end > s then k - 1 else k
  }

  lemma FirstFromMeets(l: seq<Vma>, s: nat)
    requires ListOk(l) && s <= TOP
    ensures FirstFrom(l, s) < |l|
    ensures forall i: nat :: i < FirstFrom(l, s) ==> l[i].end <= s
    ensures forall i: nat :: FirstFrom(l, s) <= i < |l| ==> l[i].end > s || l[i].start >= s
  {
    ListSorted(l);
    assert AreaOk(l, |l| - 1) && AreaOk(l, LowerBound(l, s));
  }

  /** find_intersecting_vmas(): the slice [first, second) of the areas that meet [s, e). */
  function FindVmas(l: seq<Vma>, s: nat, e: nat): (r: (nat, nat))
    requires ListOk(l) && s <= TOP
  {
    if e <= s then (|l|, |l|)
    else
      var first := FirstFrom(l, s);
      if first < |l| && l[first].start >= e then (|l|, |l|) else (first, LowerBound(l, e))
  }

  lemma FindVmasMeet(l: seq<Vma>, s: nat, e: nat)
    requires ListOk(l) && s <= TOP
    ensures var (first, second) := FindVmas(l, s, e);
            && first <= second <= |l|
            && (s < e ==> forall i: nat :: i < |l| && !(first <= i < second) ==> l[i].end <= s || e <= l[i].start)
            && (s < e && first < |l| ==>
                  forall i: nat :: first <= i < second ==> l[i].start < e && (l[i].end > s || l[i].start >= s))
            && (s < e && first < |l| ==> forall i: nat :: second <= i < |l| ==> e <= l[i].start)
            && (s < e && first < |l| ==> forall i: nat :: i < first ==> l[i].end <= s)
            && (first == |l| || first < second)
  {
    ListSorted(l);
    FirstFromMeets(l, s);
  }

  /** The slice leaves both markers out exactly when the range lies between them. Otherwise evacuate() would erase a
      marker, since a marker is always contained in a range that finds it. */
  lemma MarkersSpared(l: seq<Vma>, s: nat, e: nat)
    requires ListOk(l) && s < e && s <= TOP
    ensures var (first, second) := FindVmas(l, s, e);
            (first == |l| || (0 < first && second < |l|)) <==> (0 < s && e <= TOP)
  {
    FindVmasMeet(l, s, e);
    ListSorted(l);
  }

  // ----------------------------------------------------------------------------------------
  // evacuate()
  // ----------------------------------------------------------------------------------------

  /** Cutting area i at the end and at the start of a range. */
  function CutBoth(l: seq<Vma>, i: nat, s: nat, e: nat): (r: seq<Vma>)
    requires i < |l| && i < |Split(l, i, e)|
  {
    Split(Split(l, i, e), i, s)
  }

  /** l' has the areas of l before i and the last n areas of l. */
  ghost predicate Around(l: seq<Vma>, l': seq<Vma>, i: nat, n: nat)
  {
    && i + n <= |l| <= |l'|
    && (forall k: nat {:trigger l'[k]} :: k < i ==> l'[k] == l[k])
    && l'[|l'| - n..] == l[|l| - n..]
  }

  lemma AroundTwice(l: seq<Vma>, m: seq<Vma>, l': seq<Vma>, i: nat, n: nat)
    requires Around(l, m, i, n) && i + n < |l| && Around(m, l', i, |m| - i - 1)
    ensures Around(l, l', i, n)
  {
    var k := |m| - i - 1;
    assert l'[|l'| - n..] == l'[|l'| - k..][k - n..];
    assert m[|m| - n..] == m[|m| - k..][k - n..];
  }

  lemma SplitEdges(l: seq<Vma>, i: nat, edge: nat)
    requires ListOk(l) && i < |l|
    ensures var l' := Split(l, i, edge);
            && Around(l, l', i, |l| - i - 1)
            && l'[i] == (if l[i].start < edge < l[i].end then l[i].(end := edge) else l[i])
  {
  }

  function FileId(v: Vma): (id: Option<nat>)
  {
    if v.backing.File? then Some(v.backing.id) else None
  }

  /** Areas from..to-1 are parts of v: the same file and flags. */
  ghost predicate Pieces(l: seq<Vma>, from: nat, to: nat, v: Vma)
  {
    forall k: nat {:trigger l[k]} :: from <= k < to && k < |l| ==> FileId(l[k]) == FileId(v) && l[k].flags == v.flags
  }

  lemma SplitPieces(l: seq<Vma>, i: nat, edge: nat)
    requires ListOk(l) && i < |l|
    ensures var l' := Split(l, i, edge); |l'| >= |l| && Pieces(l', i, |l'| - (|l| - i - 1), l[i])
  {
  }

  lemma CutPieces(l: seq<Vma>, i: nat, s: nat, e: nat)
    requires ListOk(l) && i < |l| && s % PAGE == 0 && e % PAGE == 0
    ensures |Split(l, i, e)| > i
    ensures var l' := CutBoth(l, i, s, e); |l'| >= |l| && Pieces(l', i, |l'| - (|l| - i - 1), l[i])
  {
    var m := Split(l, i, e);
    SplitKeeps(l, i, e);
    SplitPieces(l, i, e);
    SplitPieces(m, i, s);
    SplitEdges(l, i, e);
    SplitEdges(m, i, s);
    var l', n := Split(m, i, s), |l| - i - 1;
    forall k: nat | i <= k < |l'| - n ensures FileId(l'[k]) == FileId(l[i]) && l'[k].flags == l[i].flags
    {
      var c := |m| - i - 1;
      if k >= |l'| - c {
        assert l'[|l'| - c..][k - (|l'| - c)] == m[|m| - c..][k - (|l'| - c)];
      }
    }
  }

  /** After both cuts, area i is inside the range or outside it; the areas before and after are untouched. */
  lemma CutEdges(l: seq<Vma>, i: nat, s: nat, e: nat)
    requires ListOk(l) && 0 < i < |l| - 1 && s % PAGE == 0 && e % PAGE == 0 && s < e
    ensures |Split(l, i, e)| > i
    ensures var l' := CutBoth(l, i, s, e);
            && Around(l, l', i, |l| - i - 1)
            && l'[i].start == l[i].start && l'[i].perm == l[i].perm
            && (l[i].start < s ==> l'[i].end <= s)
            && (s <= l[i].start < e ==> l'[i].end <= e)
  {
    var m := Split(l, i, e);
    SplitKeeps(l, i, e);
    SplitEdges(l, i, e);
    SplitEdges(m, i, s);
    AroundTwice(l, m, Split(m, i, s), i, |l| - i - 1);
  }

  lemma CutKeeps(l: seq<Vma>, i: nat, s: nat, e: nat)
    requires ListOk(l) && i < |l| && s % PAGE == 0 && e % PAGE == 0
    ensures |Split(l, i, e)| > i
    ensures var l' := CutBoth(l, i, s, e);
            ListOk(l') && forall a: nat {:trigger Lookup(l', a)} :: Lookup(l', a) == Lookup(l, a)
  {
    SplitKeeps(l, i, e);
    SplitEdges(l, i, e);
    SplitKeeps(Split(l, i, e), i, s);
  }

  /** One round of evacuate(): cut area i at both edges, then erase it if it is inside the range, else go on. */
  function EvacuateRound(l: seq<Vma>, i: nat, s: nat, e: nat): (r: (seq<Vma>, nat))
    requires i < |l| && i < |Split(l, i, e)| && i < |CutBoth(l, i, s, e)|
  {
    var m := CutBoth(l, i, s, e);
    if s <= m[i].start && m[i].end <= e then (Erase(m, i), i) else (m, i + 1)
  }

  /** A range that starts at 0 finds the first marker, and the round for it erases it. */
  lemma FirstMarkerErased(l: seq<Vma>, e: nat)
    requires ListOk(l) && 0 < e
    ensures FindVmas(l, 0, e).0 == 0 && EvacuateRound(l, 0, 0, e) == (l[1..], 0) && !ListOk(l[1..])
  {
    assert AreaOk(l, 0) && Erase(l, 0) == l[1..];
  }

  /** A range that ends above the top finds the last marker, and the round for it erases it. */
  lemma LastMarkerErased(l: seq<Vma>, s: nat, e: nat)
    requires ListOk(l) && s <= TOP < e
    ensures var n := |l| - 1;
            FindVmas(l, s, e).1 == n + 1 && EvacuateRound(l, n, s, e) == (l[..n], n) && !ListOk(l[..n])
  {
    var n := |l| - 1;
    ListSorted(l);
    FindVmasMeet(l, s, e);
    assert Erase(l, n) == l[..n] && AreaOk(l, n - 1);
  }

  /** With nothing mapped, evacuating the first page leaves the last marker alone. */
  lemma FirstPageErasesMarker()
    ensures var l := [Vma(0, 0, 0, 0, Anon), Vma(TOP, TOP, 0, 0, Anon)];
            FindVmas(l, 0, PAGE) == (0, 1) && EvacuateRound(l, 0, 0, PAGE) == ([Vma(TOP, TOP, 0, 0, Anon)], 0)
  {
    var l := [Vma(0, 0, 0, 0, Anon), Vma(TOP, TOP, 0, 0, Anon)];
    forall i: nat ensures AreaOk(l, i) {}
    FirstMarkerErased(l, PAGE);
    FindVmasMeet(l, 0, PAGE);
  }

  /** Areas before i are clear of [s, e), the last `rest` areas start beyond it, and nothing outside it has changed. */
  ghost predicate Evacuating(l0: seq<Vma>, l: seq<Vma>, i: nat, rest: nat, s: nat, e: nat)
  {
    && ListOk(l) && 0 < i <= |l| - rest < |l|
    && (forall k: nat :: k < i ==> l[k].end <= s || e <= l[k].start)
    && e <= l[|l| - rest].start
    && (forall a: nat {:trigger Lookup(l, a)} :: !(s <= a < e) ==> Lookup(l, a) == Lookup(l0, a))
  }

  lemma EvacuateErase(l0: seq<Vma>, l: seq<Vma>, i: nat, rest: nat, s: nat, e: nat)
    requires Evacuating(l0, l, i, rest, s, e) && i < |l| - rest && s <= l[i].start && l[i].end <= e
    ensures Evacuating(l0, Erase(l, i), i, rest, s, e) && l[i].start < Erase(l, i)[i].start
  {
    EraseKeeps(l, i);
    InOrder(l, i, i + 1);
  }

  lemma EvacuateCut(l0: seq<Vma>, l: seq<Vma>, i: nat, rest: nat, s: nat, e: nat)
    requires Evacuating(l0, l, i, rest, s, e) && i < |l| - rest && s % PAGE == 0 && e % PAGE == 0 && s < e
    ensures |Split(l, i, e)| > i
    ensures var l' := CutBoth(l, i, s, e);
            && i < |l'| - rest && Evacuating(l0, l', i, rest, s, e) && l'[i].start == l[i].start
            && (!(s <= l'[i].start && l'[i].end <= e) ==>
                  Evacuating(l0, l', i + 1, rest, s, e) && l[i].start < l'[i + 1].start)
  {
    CutEdges(l, i, s, e);
    CutKeeps(l, i, s, e);
    var l', n := CutBoth(l, i, s, e), |l| - i - 1;
    assert l'[|l'| - n..][n - rest] == l[|l| - n..][n - rest];
    InOrder(l', i, i + 1);
  }

  lemma EvacuateOnce(l0: seq<Vma>, l: seq<Vma>, i: nat, rest: nat, s: nat, e: nat)
    requires Evacuating(l0, l, i, rest, s, e) && i < |l| - rest && s % PAGE == 0 && e % PAGE == 0 && s < e
    ensures i < |Split(l, i, e)| && i < |CutBoth(l, i, s, e)|
    ensures var (l', j) := EvacuateRound(l, i, s, e);
            Evacuating(l0, l', j, rest, s, e) && l[i].start < l'[j].start
  {
    EvacuateCut(l0, l, i, rest, s, e);
    var m := CutBoth(l, i, s, e);
    if s <= m[i].start && m[i].end <= e { EvacuateErase(l0, m, i, rest, s, e); }
  }

  lemma BelowTop(l: seq<Vma>, i: nat)
    requires ListOk(l) && i < |l|
    ensures l[i].start <= TOP
  {
    if i < |l| - 1 { InOrder(l, i, |l| - 1); }
  }

  /** When only the last areas remain, the range is free and nothing else has changed. */
  lemma EvacuateEnd(l0: seq<Vma>, l: seq<Vma>, i: nat, rest: nat, s: nat, e: nat)
    requires Evacuating(l0, l, i, rest, s, e) && i == |l| - rest && s < e
    ensures Free(l, s, e)
    ensures forall a: nat {:trigger Lookup(l, a)} :: Lookup(l, a) == if s <= a < e then None else Lookup(l0, a)
  {
    forall k: nat | k < |l| ensures l[k].end <= s || e <= l[k].start
    {
      if k > i { InOrder(l, i, k); }
    }
    FreeIsUnmapped(l, s, e);
  }

  // ----------------------------------------------------------------------------------------
  // protect()
  // ----------------------------------------------------------------------------------------

  function Changed(i: Option<Info>, perm: nat): (r: Option<Info>)
  {
    if i.Some? then Some(i.value.(perm := perm)) else None
  }

  /** Below `bound`, the addresses of [s, e) have the new permission; everything else is as it was. */
  ghost predicate Protected(l0: seq<Vma>, l: seq<Vma>, bound: nat, s: nat, e: nat, perm: nat)
  {
    forall a: nat {:trigger Lookup(l, a)} ::
      Lookup(l, a) == if s <= a < e && a < bound then Changed(Lookup(l0, a), perm) else Lookup(l0, a)
  }

  lemma PermKeeps(l: seq<Vma>, i: nat, perm: nat)
    requires ListOk(l) && i < |l|
    ensures var l' := l[i := l[i].(perm := perm)];
            && ListOk(l')
            && forall a: nat {:trigger Lookup(l', a)} ::
                 Lookup(l', a) == if Covers(l[i], a) then Changed(Lookup(l, a), perm) else Lookup(l, a)
  {
    var l' := l[i := l[i].(perm := perm)];
    forall j: nat ensures AreaOk(l', j) { assert AreaOk(l, j); }
    ListSorted(l);
    ListSorted(l');
    forall a: nat ensures Lookup(l', a) == if Covers(l[i], a) then Changed(Lookup(l, a), perm) else Lookup(l, a)
    {
      if j: nat :| j < |l| && Covers(l[j], a) {
        LookupAt(l, j, a);
        assert Covers(l'[j], a);
        LookupAt(l', j, a);
      } else {
        forall k: nat | k < |l'| ensures !Covers(l'[k], a) { assert !Covers(l[k], a); }
      }
    }
  }

  /** One area further: if area i is outside the range or has the permission, the bound moves to the next area. */
  lemma ProtectNext(l0: seq<Vma>, l: seq<Vma>, i: nat, s: nat, e: nat, perm: nat)
    requires ListOk(l) && i + 1 < |l| && Protected(l0, l, l[i].start, s, e, perm)
    requires l[i].perm == perm || l[i].end <= s || e <= l[i].start
    ensures Protected(l0, l, l[i + 1].start, s, e, perm) && l[i].start < l[i + 1].start
  {
    ListSorted(l);
    InOrder(l, i, i + 1);
    forall a: nat
      ensures Lookup(l, a) == if s <= a < e && a < l[i + 1].start then Changed(Lookup(l0, a), perm) else Lookup(l0, a)
    {
      assert Lookup(l, a) == if s <= a < e && a < l[i].start then Changed(Lookup(l0, a), perm) else Lookup(l0, a);
      if l[i].start <= a < l[i + 1].start && Lookup(l, a).Some? {
        var j: nat :| j < |l| && Covers(l[j], a);
        assert j == i;
        LookupAt(l, i, a);
      }
    }
  }

  /** The areas that protect() is going to visit start where the range is first mapped. */
  lemma ProtectStart(l: seq<Vma>, first: nat, s: nat, e: nat, perm: nat)
    requires ListOk(l) && first < |l| && forall i: nat :: i < first ==> l[i].end <= s
    ensures Protected(l, l, l[first].start, s, e, perm)
  {
    ListSorted(l);
    forall a: nat | s <= a < l[first].start ensures Lookup(l, a).None? {}
  }

  lemma ProtectCut(l0: seq<Vma>, l: seq<Vma>, i: nat, rest: nat, s: nat, e: nat, perm: nat)
    requires ListOk(l) && 0 < i < |l| - rest < |l| && s % PAGE == 0 && e % PAGE == 0 && s < e
    requires e <= l[|l| - rest].start && Protected(l0, l, l[i].start, s, e, perm)
    ensures |Split(l, i, e)| > i
    ensures var l' := CutBoth(l, i, s, e);
            && ListOk(l') && 0 < i < |l'| - rest < |l'| && e <= l'[|l'| - rest].start
            && Protected(l0, l', l'[i].start, s, e, perm) && l'[i].start == l[i].start
            && ((s <= l'[i].start && l'[i].end <= e) || l'[i].end <= s || e <= l'[i].start)
  {
    CutEdges(l, i, s, e);
    CutKeeps(l, i, s, e);
    var l', n := CutBoth(l, i, s, e), |l| - i - 1;
    assert l'[|l'| - n..][n - rest] == l[|l| - n..][n - rest];
  }

  /** Areas from..to-1 meet the range or would not refuse the permission. */
  ghost predicate Checked(l: seq<Vma>, from: nat, to: nat, s: nat, e: nat, perm: nat,
                          validate: (Option<nat>, nat, nat) -> nat)
  {
    forall k: nat {:trigger l[k]} :: from <= k < to && k < |l| ==>
      (l[k].start < e && s < l[k].end) || validate(FileId(l[k]), l[k].flags, perm) == 0
  }

  lemma CheckedCut(l: seq<Vma>, i: nat, rest: nat, s: nat, e: nat, perm: nat, validate: (Option<nat>, nat, nat) -> nat)
    requires ListOk(l) && 0 < i < |l| - rest < |l| && s % PAGE == 0 && e % PAGE == 0 && s < e
    requires Checked(l, i, |l| - rest, s, e, perm, validate) && validate(FileId(l[i]), l[i].flags, perm) == 0
    ensures |Split(l, i, e)| > i
    ensures var l' := CutBoth(l, i, s, e); |l'| >= |l| && Checked(l', i, |l'| - rest, s, e, perm, validate)
  {
    CutEdges(l, i, s, e);
    CutPieces(l, i, s, e);
    var l', n := CutBoth(l, i, s, e), |l| - i - 1;
    forall k: nat | i <= k < |l'| - rest
      ensures (l'[k].start < e && s < l'[k].end) || validate(FileId(l'[k]), l'[k].flags, perm) == 0
    {
      if k >= |l'| - n {
        assert l'[|l'| - n..][k - (|l'| - n)] == l[|l| - n..][k - (|l'| - n)];
        assert l'[k] == l[k - |l'| + |l|];
      }
    }
  }

  lemma ProtectSet(l0: seq<Vma>, l: seq<Vma>, i: nat, s: nat, e: nat, perm: nat)
    requires ListOk(l) && i + 1 < |l| && s <= l[i].start && l[i].end <= e && Protected(l0, l, l[i].start, s, e, perm)
    ensures var l' := l[i := l[i].(perm := perm)];
            ListOk(l') && Protected(l0, l', l'[i + 1].start, s, e, perm) && l[i].start < l'[i + 1].start
  {
    PermKeeps(l, i, perm);
    InOrder(l, i, i + 1);
    ListSorted(l);
    var l' := l[i := l[i].(perm := perm)];
    forall a: nat
      ensures Lookup(l', a) == if s <= a < e && a < l'[i + 1].start then Changed(Lookup(l0, a), perm) else Lookup(l0, a)
    {
      assert Lookup(l, a) == if s <= a < e && a < l[i].start then Changed(Lookup(l0, a), perm) else Lookup(l0, a);
      if l[i].start <= a < l[i + 1].start && Lookup(l, a).Some? {
        var j: nat :| j < |l| && Covers(l[j], a);
        assert j == i;
      }
    }
  }

  /** protect() has come to area i. */
  ghost predicate Protecting(l0: seq<Vma>, l: seq<Vma>, i: nat, rest: nat, s: nat, e: nat, perm: nat,
                             validate: (Option<nat>, nat, nat) -> nat)
  {
    && ListOk(l) && 0 < i <= |l| - rest < |l| && e <= l[|l| - rest].start
    && Protected(l0, l, l[i].start, s, e, perm)
    && Checked(l, i, |l| - rest, s, e, perm, validate)
  }

  /** The permission is set if the area is inside the range. */
  function SetInside(m: seq<Vma>, i: nat, s: nat, e: nat, perm: nat): (r: seq<Vma>)
    requires i < |m|
  {
    if s <= m[i].start && m[i].end <= e then m[i := m[i].(perm := perm)] else m
  }

  /** One round of protect(): cut, and set the permission if the area is inside the range. */
  lemma ProtectStep(l0: seq<Vma>, l: seq<Vma>, i: nat, rest: nat, s: nat, e: nat, perm: nat,
                    validate: (Option<nat>, nat, nat) -> nat)
    requires Protecting(l0, l, i, rest, s, e, perm, validate) && i < |l| - rest && s % PAGE == 0 && e % PAGE == 0
             && s < e
    requires validate(FileId(l[i]), l[i].flags, perm) == 0
    ensures |Split(l, i, e)| > i && |CutBoth(l, i, s, e)| > i + 1
    ensures var m := CutBoth(l, i, s, e);
            && l[i].start < m[i + 1].start
            && Protecting(l0, SetInside(m, i, s, e, perm), i + 1, rest, s, e, perm, validate)
  {
    ProtectCut(l0, l, i, rest, s, e, perm);
    CheckedCut(l, i, rest, s, e, perm, validate);
    ProtectPass(l0, CutBoth(l, i, s, e), i, rest, s, e, perm, validate);
  }

  lemma ProtectPass(l0: seq<Vma>, m: seq<Vma>, i: nat, rest: nat, s: nat, e: nat, perm: nat,
                    validate: (Option<nat>, nat, nat) -> nat)
    requires Protecting(l0, m, i, rest, s, e, perm, validate) && i < |m| - rest
    requires (s <= m[i].start && m[i].end <= e) || m[i].end <= s || e <= m[i].start
    ensures m[i].start < m[i + 1].start
    ensures Protecting(l0, SetInside(m, i, s, e, perm), i + 1, rest, s, e, perm, validate)
  {
    if s <= m[i].start && m[i].end <= e {
      ProtectSet(l0, m, i, s, e, perm);
    } else {
      ProtectNext(l0, m, i, s, e, perm);
    }
  }

  // ----------------------------------------------------------------------------------------
  // find_hole()
  // ----------------------------------------------------------------------------------------

  /** A mapping of this size fits at q. */
  ghost predicate Fits(l: seq<Vma>, q: nat, size: nat)
  {
    q + size <= TOP && Free(l, q, q + size)
  }

  lemma GapIsFree(l: seq<Vma>, k: nat, q: nat, size: nat)
    requires ListOk(l) && k + 1 < |l| && l[k].end <= q && q + size <= l[k + 1].start
    ensures Fits(l, q, size)
  {
    ListSorted(l);
  }

  /** The place lies in one gap. */
  lemma FitIn(l: seq<Vma>, q: nat, size: nat) returns (k: nat)
    requires ListOk(l) && Fits(l, q, size)
    ensures k + 1 < |l| && l[k].end <= q && q + size <= l[k + 1].start
  {
    ListSorted(l);
    var j := LowerBound(l, q + size);
    assert j < |l|;
    k := if j == 0 then 0 else j - 1;
    assert l[k].end <= q;
  }

  /** A place for a huge mapping that starts on a huge page. */
  ghost predicate FitsHuge(l: seq<Vma>, q: nat, size: nat)
  {
    q % HUGE == 0 && Fits(l, q, size)
  }

  /** The place that find_hole() chooses: `start` itself if it fits there. Else the lowest place above; for a size of
      2 MB or more, the lowest on a huge page, and if there is none, the lowest of the highest hole. */
  ghost predicate Chosen(l: seq<Vma>, start: nat, size: nat, q: nat)
  {
    && q >= start && Fits(l, q, size) && (Fits(l, start, size) ==> q == start)
    && (size < HUGE ==> forall p: nat :: start <= p < q ==> !Fits(l, p, size))
    && (size >= HUGE && q != start ==>
          if FitsHuge(l, q, size) then forall p: nat :: start <= p < q ==> !FitsHuge(l, p, size)
          else
            && (forall p: nat :: start <= p ==> !FitsHuge(l, p, size))
            && (exists i: nat :: i < |l| && l[i].end == q)
            && (forall p: nat :: q < p && Fits(l, p, size) ==> Free(l, q, p + size)))
  }

  /** Gap k holds a place at or above start: at start itself, or at its own beginning. */
  predicate AtStart(l: seq<Vma>, k: nat, start: nat, size: nat)
    requires k + 1 < |l|
  {
    l[k].end <= start && start + size <= l[k + 1].start
  }

  predicate AtEnd(l: seq<Vma>, k: nat, start: nat, size: nat)
    requires k + 1 < |l|
  {
    start <= l[k].end && l[k].end + size <= l[k + 1].start
  }

  /** The loop has passed the gaps below p: none has room at start, and at its own beginning only gaps without room on a
      huge page, if the size asks for one; g is the last of these. */
  ghost predicate Searched(l: seq<Vma>, p: nat, start: nat, size: nat, g: Option<nat>)
  {
    && p < |l|
    && (forall k: nat {:trigger AtStart(l, k, start, size)} :: k < p ==> !AtStart(l, k, start, size))
    && (forall k: nat {:trigger AtEnd(l, k, start, size)} :: k < p && AtEnd(l, k, start, size) ==>
          size >= HUGE && AlignUp(l[k].end, HUGE) + size > l[k + 1].start && g.Some? && k <= g.value)
    && (g.Some? ==> g.value < p && AtEnd(l, g.value, start, size))
  }

  lemma SearchedNext(l: seq<Vma>, p: nat, start: nat, size: nat, g: Option<nat>)
    requires Searched(l, p, start, size, g) && p + 1 < |l| && !AtStart(l, p, start, size)
    ensures !AtEnd(l, p, start, size) ==> Searched(l, p + 1, start, size, g)
    ensures AtEnd(l, p, start, size) && size >= HUGE && AlignUp(l[p].end, HUGE) + size > l[p + 1].start ==>
              Searched(l, p + 1, start, size, Some(p))
  {
  }

  /** The next place on a huge page. */
  lemma LeastHuge(p: nat, x: nat)
    requires p % HUGE == 0 && x <= p
    ensures AlignUp(x, HUGE) <= p
  {
    var u := AlignUp(x, HUGE);
    assert u == u / HUGE * HUGE && p == p / HUGE * HUGE;
  }

  /** No place of gaps below p is as good as one further up. */
  lemma PassedBy(l: seq<Vma>, p: nat, start: nat, size: nat, g: Option<nat>, q: nat, k: nat)
    requires ListOk(l) && Searched(l, p, start, size, g) && start <= q && Fits(l, q, size)
    requires k < p && l[k].end <= q && q + size <= l[k + 1].start
    ensures size >= HUGE && !FitsHuge(l, q, size) && g.Some? && k <= g.value
  {
    assert AtStart(l, k, start, size) || AtEnd(l, k, start, size);
    if q % HUGE == 0 { LeastHuge(q, l[k].end); }
  }

  /** Nothing fits at start when no gap up to p has room there and gap p begins above it. */
  lemma NotAtStart(l: seq<Vma>, p: nat, start: nat, size: nat, g: Option<nat>)
    requires ListOk(l) && Searched(l, p, start, size, g) && p + 1 < |l| && !AtStart(l, p, start, size)
    requires start <= l[p].end && l[p].end + size <= l[p + 1].start
    ensures !Fits(l, start, size)
  {
    if Fits(l, start, size) {
      var k := FitIn(l, start, size);
      assert AtStart(l, k, start, size);
      if p < k { InNext(l, p, k); }
    }
  }

  lemma ChosenSmall(l: seq<Vma>, p: nat, start: nat, size: nat, g: Option<nat>)
    requires ListOk(l) && Searched(l, p, start, size, g) && p + 1 < |l| && !AtStart(l, p, start, size)
    requires AtEnd(l, p, start, size) && size < HUGE
    ensures Chosen(l, start, size, l[p].end)
  {
    var q := l[p].end;
    GapIsFree(l, p, q, size);
    NotAtStart(l, p, start, size, g);
    forall x: nat | start <= x < q ensures !Fits(l, x, size)
    {
      if Fits(l, x, size) {
        var k := FitIn(l, x, size);
        if k < p { PassedBy(l, p, start, size, g, x, k); } else if p < k { InNext(l, p, k); }
      }
    }
  }

  lemma ChosenHuge(l: seq<Vma>, p: nat, start: nat, size: nat, g: Option<nat>)
    requires ListOk(l) && Searched(l, p, start, size, g) && p + 1 < |l| && !AtStart(l, p, start, size)
    requires AtEnd(l, p, start, size) && size >= HUGE && AlignUp(l[p].end, HUGE) + size <= l[p + 1].start
    ensures Chosen(l, start, size, AlignUp(l[p].end, HUGE))
  {
    var q := AlignUp(l[p].end, HUGE);
    GapIsFree(l, p, q, size);
    NotAtStart(l, p, start, size, g);
    forall x: nat | start <= x < q ensures !FitsHuge(l, x, size)
    {
      if FitsHuge(l, x, size) {
        var k := FitIn(l, x, size);
        if k < p {
          PassedBy(l, p, start, size, g, x, k);
        } else if k == p {
          LeastHuge(x, l[p].end);
        } else {
          InNext(l, p, k);
        }
      }
    }
  }

  lemma InNext(l: seq<Vma>, p: nat, k: nat)
    requires ListOk(l) && p < k < |l|
    ensures l[p + 1].start <= l[k].end
  {
    assert AreaOk(l, k);
    if p + 1 < k { InOrder(l, p + 1, k); }
  }

  /** A gap with room at its beginning ends in the address space, and does not begin at 0 unless start does. */
  lemma Fitting(l: seq<Vma>, p: nat, start: nat, size: nat)
    requires ListOk(l) && p + 1 < |l| && start <= l[p].end && l[p].end + size <= l[p + 1].start
    requires !AtStart(l, p, start, size)
    ensures start + size < WORD && l[p].end > 0
  {
    InNext(l, p, |l| - 1);
    assert AreaOk(l, p);
  }

  /** At the end of the list only the last gap with room, if any, is left. */
  lemma ChosenLast(l: seq<Vma>, start: nat, size: nat, g: Option<nat>)
    requires ListOk(l) && Searched(l, |l| - 1, start, size, g)
    ensures g.None? ==> forall q: nat :: q >= start ==> !Fits(l, q, size)
    ensures g.Some? ==> Chosen(l, start, size, l[g.value].end)
  {
    forall q: nat | q >= start && Fits(l, q, size)
      ensures g.Some? && size >= HUGE && !FitsHuge(l, q, size)
    {
      var k := FitIn(l, q, size);
      PassedBy(l, |l| - 1, start, size, g, q, k);
    }
    if g.Some? {
      var q := l[g.value].end;
      GapIsFree(l, g.value, q, size);
      assert !Fits(l, start, size) by {
        if Fits(l, start, size) {
          var k := FitIn(l, start, size);
          assert AtStart(l, k, start, size);
        }
      }
      forall x: nat | q < x && Fits(l, x, size) ensures Free(l, q, x + size)
      {
        var k := FitIn(l, x, size);
        PassedBy(l, |l| - 1, start, size, g, x, k);
        ListSorted(l);
        if k < g.value { InNext(l, k, g.value); }
      }
    }
  }

  /** The 64-bit sum start + size wraps to a value that still passes the first test of the loop. */
  ghost predicate WrapHits(l: seq<Vma>, start: nat, size: nat)
  {
    start + size >= WORD && exists k: nat :: k + 1 < |l| && WrapHitsAt(l, k, start, size)
  }

  predicate WrapHitsAt(l: seq<Vma>, k: nat, start: nat, size: nat)
    requires k + 1 < |l|
  {
    l[k].end <= start && start + size - WORD <= l[k + 1].start
  }

  /** The loop of find_hole() stands before gap p. */
  ghost predicate Looking(l: seq<Vma>, p: nat, start: nat, size: nat, good: nat, g: Option<nat>)
  {
    && p < |l|
    && (start + size < WORD ==> Searched(l, p, start, size, g))
    && (if g.Some? then start + size < WORD && g.value < |l| && good == l[g.value].end > 0 else good == 0)
    && (start + size >= WORD ==> forall k: nat :: k < p ==> !WrapHitsAt(l, k, start, size))
  }

  /** Free space between page-aligned areas stays free when widened to whole pages. */
  lemma FreePages(l: seq<Vma>, q: nat, size: nat)
    requires ListOk(l) && Free(l, q, q + size) && size > 0
    ensures Free(l, AlignDown(q, PAGE), AlignUp(q + size, PAGE))
  {
    forall i: nat | i < |l| ensures l[i].end <= AlignDown(q, PAGE) || AlignUp(q + size, PAGE) <= l[i].start
    {
      assert AreaOk(l, i);
    }
  }

  /** Without a hint allocate() searches from a fixed address on. */
  function SearchFrom(hint: nat): (start: nat) { if hint == 0 then 0x2000_0000_0000 else hint }

  // ----------------------------------------------------------------------------------------
  // The operations
  // ----------------------------------------------------------------------------------------

  class AddressSpace {
    var list: seq<Vma>

    ghost predicate Valid()
      reads this
    {
      ListOk(list)
    }

    constructor ()
      ensures Valid() && list == [Vma(0, 0, 0, 0, Anon), Vma(TOP, TOP, 0, 0, Anon)]
      ensures forall a: nat :: Lookup(list, a).None?
    {
      list := [Vma(0, 0, 0, 0, Anon), Vma(TOP, TOP, 0, 0, Anon)];
      new;
      forall i: nat ensures AreaOk(list, i) {}
    }

    /** split() of an anonymous or a file mapping. */
    method SplitArea(i: nat, edge: nat)
      requires Valid() && i < |list|
      modifies this
      ensures list == Split(old(list), i, edge)
      ensures old(list)[i].start < edge < old(list)[i].end ==>
                var v := old(list)[i];
                && |list| == |old(list)| + 1
                && list[i].start == v.start && list[i].end == edge && list[i].backing == v.backing
                && list[i + 1].start == edge && list[i + 1].end == v.end
                && list[i + 1].perm == v.perm && list[i + 1].flags == v.flags
                && list[i + 1].backing.File? == v.backing.File?
                && (v.backing.File? ==>
                      && list[i + 1].backing.id == v.backing.id
                      && list[i + 1].backing.offset == v.backing.offset + (edge - v.start))
    {
      var v := list[i];
      if edge <= v.start || edge >= v.end {
        return;
      }
      ListSorted(list);
      SplitInserts(list, i, edge);
      list := list[i := v.(end := edge)];
      list := Insert(list, Upper(v, edge));
    }

    /** Both cuts that evacuate() and protect() make in an area. */
    method CutArea(i: nat, s: nat, e: nat)
      requires Valid() && i < |list| && s % PAGE == 0 && e % PAGE == 0
      modifies this
      ensures |Split(old(list), i, e)| > i && list == CutBoth(old(list), i, s, e)
    {
      SplitKeeps(list, i, e);
      SplitArea(i, e);
      SplitArea(i, s);
    }

    /** evacuate(): unmaps exactly [s, e). */
    method Evacuate(s: nat, e: nat)
      requires Valid() && s % PAGE == 0 && e % PAGE == 0 && 0 < s <= TOP && e <= TOP
      modifies this
      ensures Valid() && (s < e ==> Free(list, s, e))
      ensures forall a: nat {:trigger Lookup(list, a)} ::
              Lookup(list, a) == if s <= a < e then None else Lookup(old(list), a)
    {
      FindVmasMeet(list, s, e);
      var (i, second) := FindVmas(list, s, e);
      if i == |list| {
        return;
      }
      var rest := |list| - second;
      while i != |list| - rest
        invariant Evacuating(old(list), list, i, rest, s, e)
        decreases TOP - list[i].start
      {
        BelowTop(list, i);
        EvacuateOnce(old(list), list, i, rest, s, e);
        i := EvacuateOne(i, s, e);
      }
      EvacuateEnd(old(list), list, i, rest, s, e);
    }

    /** One round of evacuate(), for any area. */
    method EvacuateOne(i: nat, s: nat, e: nat) returns (j: nat)
      requires Valid() && i < |list| && s % PAGE == 0 && e % PAGE == 0
      modifies this
      ensures i < |Split(old(list), i, e)| && i < |CutBoth(old(list), i, s, e)|
      ensures (list, j) == EvacuateRound(old(list), i, s, e)
    {
      CutPieces(list, i, s, e);
      CutArea(i, s, e);
      if s <= list[i].start && list[i].end <= e {
        list := Erase(list, i);
        return i;
      }
      return i + 1;
    }

    /** protect(): new permissions for exactly the mapped addresses of [s, e), or an error and the areas below the one
        that refuses. */
    method Protect(s: nat, e: nat, perm: nat, validate: (Option<nat>, nat, nat) -> nat)
      returns (err: nat, ghost refused: Vma)
      requires Valid() && s % PAGE == 0 && e % PAGE == 0 && 0 < s <= TOP && e <= TOP
      modifies this
      ensures Valid()
      ensures err == 0 ==> Protected(old(list), list, e, s, e, perm)
      ensures err != 0 ==>
                && refused in list && refused.start < e && s < refused.end && refused.perm != perm
                && validate(FileId(refused), refused.flags, perm) == err
                && Protected(old(list), list, refused.start, s, e, perm)
    {
      FindVmasMeet(list, s, e);
      var (i, second) := FindVmas(list, s, e);
      err, refused := 0, list[0];
      if i == |list| {
        NothingToProtect(list, s, e, perm);
        return;
      }
      ProtectStart(list, i, s, e, perm);
      CheckedStart(list, i, second, s, e, perm, validate);
      var rest := |list| - second;
      while i != |list| - rest
        invariant Protecting(old(list), list, i, rest, s, e, perm, validate)
        decreases TOP - list[i].start
      {
        InOrder(list, i, |list| - 1);
        if list[i].perm == perm {
          ProtectNext(old(list), list, i, s, e, perm);
        } else {
          err := validate(FileId(list[i]), list[i].flags, perm);
          if err != 0 {
            refused := list[i];
            return;
          }
          ProtectOne(i, rest, s, e, perm, validate, old(list));
        }
        i := i + 1;
      }
    }

    /** The rest of one round of protect(), for an area that accepts the permission. */
    method ProtectOne(i: nat, ghost rest: nat, s: nat, e: nat, perm: nat,
                      ghost validate: (Option<nat>, nat, nat) -> nat, ghost l0: seq<Vma>)
      requires Protecting(l0, list, i, rest, s, e, perm, validate) && i < |list| - rest
      requires s % PAGE == 0 && e % PAGE == 0 && s < e && validate(FileId(list[i]), list[i].flags, perm) == 0
      modifies this
      ensures Protecting(l0, list, i + 1, rest, s, e, perm, validate) && old(list[i].start) < list[i + 1].start
    {
      ProtectStep(l0, list, i, rest, s, e, perm, validate);
      CutArea(i, s, e);
      list := SetInside(list, i, s, e, perm);
    }

    /** find_hole(): the chosen place at or above start, or None when there is none. */
    method FindHole(start: nat, size: nat) returns (r: Option<nat>)
      requires Valid() && start < WORD && size < WORD
      ensures start + size < WORD ==>
                match r {
                  case Some(q) => Chosen(list, start, size, q)
                  case None => forall q: nat :: q >= start ==> !Fits(list, q, size)
                }
      ensures start + size >= WORD ==> r == if WrapHits(list, start, size) then Some(start) else None
    {
      var good, p, n := 0, 0, 1;
      ghost var g: Option<nat> := None;
      while n < |list|
        invariant n == p + 1 <= |list| && Looking(list, p, start, size, good, g)
      {
        r, good, g := TryGap(p, start, size, good, g);
        if r.Some? {
          return;
        }
        p, n := n, n + 1;
      }
      if start + size < WORD {
        ChosenLast(list, start, size, g);
      }
      if good != 0 {
        return Some(good);
      }
      return None;
    }

    /** One round of its loop, for the gap behind area p. */
    method TryGap(p: nat, start: nat, size: nat, good: nat, ghost g: Option<nat>)
      returns (r: Option<nat>, good': nat, ghost g': Option<nat>)
      requires Valid() && p + 1 < |list| && start < WORD && size < WORD && Looking(list, p, start, size, good, g)
      ensures r.Some? ==> if start + size < WORD then Chosen(list, start, size, r.value)
                          else r.value == start && WrapHits(list, start, size)
      ensures r.None? ==> Looking(list, p + 1, start, size, good', g')
    {
      var n := p + 1;
      r, good', g' := None, good, g;
      if start >= list[p].end && (start + size) % WORD <= list[n].start {
        if start + size < WORD {
          GapIsFree(list, p, start, size);
        } else {
          assert WrapHitsAt(list, p, start, size);
        }
        return Some(start), good, g;
      }
      InOrder(list, p, n);
      if start + size < WORD {
        SearchedNext(list, p, start, size, g);
      }
      if list[p].end >= start && list[n].start - list[p].end >= size {
        Fitting(list, p, start, size);
        good', g' := list[p].end, Some(p);
        if size < HUGE {
          ChosenSmall(list, p, start, size, g);
          return Some(good'), good', g';
        }
        assert AlignUp(good', HUGE) <= list[n].start;
        if list[n].start - AlignUp(good', HUGE) >= size {
          ChosenHuge(list, p, start, size, g);
          return Some(AlignUp(good', HUGE)), good', g';
        }
      }
    }

    /** allocate(): places v, in free space or over what was at the given address; None stands for ENOMEM. */
    method Allocate(v: Vma, start: nat, size: nat, search: bool) returns (r: Option<nat>)
      requires Valid() && size > 0
      requires search ==> (start == 0 || start >= PAGE) && SearchFrom(start) + size < WORD
      requires !search ==> start % PAGE == 0 && 0 < start && start + AlignUp(size, PAGE) <= TOP && size % PAGE == 0
      modifies this
      ensures Valid()
      ensures r.None? ==>
                search && list == old(list) && forall q: nat :: q >= SearchFrom(start) ==> !Fits(list, q, size)
      ensures r.Some? && search ==> Chosen(old(list), SearchFrom(start), size, r.value)
      ensures r.Some? ==>
                var s, e := AlignDown(r.value, PAGE), AlignUp(r.value + size, PAGE);
                && (if search then Free(old(list), s, e) else r.value == start)
                && Adds(old(list), list, v.(start := s, end := e))
    {
      var at := start;
      if search {
        if at == 0 {
          at := 0x2000_0000_0000;
        }
        r := FindHole(at, size);
        if r.None? {
          return;
        }
        at := r.value;
        FreePages(list, at, size);
      } else {
        Evacuate(at, at + size);
        r := Some(at);
      }
      WholePages(at, size);
      var v' := v.(start := AlignDown(at, PAGE), end := AlignUp(at + size, PAGE));
      InsertKeeps(list, v');
      assert Adds(old(list), Insert(list, v'), v');
      list := Insert(list, v');
    }

    /** ismapped(): whether a non-empty range is mapped throughout. */
    method IsMapped(addr: nat, size: nat) returns (r: bool)
      requires Valid() && addr <= TOP
      ensures r <==> size > 0 && MappedFrom(list, addr, addr + size)
    {
      var start, end := addr, addr + size;
      FindVmasMeet(list, start, end);
      var (p, second) := FindVmas(list, start, end);
      ghost var some := p < |list|;
      while p != second
        invariant p <= second <= |list| && addr <= start
        invariant some ==> start < end && forall i: nat :: i < p ==> list[i].end <= start
        invariant !some ==> p == second && start == addr
        invariant MappedFrom(list, addr, start)
        decreases second - p
      {
        if list[p].start > start {
          Uncovered(list, p, start);
          return false;
        }
        MappedMore(list, p, addr, start);
        start := list[p].end;
        if start >= end {
          return true;
        }
        p := p + 1;
      }
      if start < end {
        NotCovered(list, start);
      }
      return false;
    }
  }

  /** Everything from lo up to hi is mapped. */
  ghost predicate MappedFrom(l: seq<Vma>, lo: nat, hi: nat)
  {
    forall a: nat :: lo <= a < hi ==> Lookup(l, a).Some?
  }

  lemma MappedMore(l: seq<Vma>, p: nat, lo: nat, hi: nat)
    requires ListOk(l) && MappedFrom(l, lo, hi) && p < |l| && l[p].start <= hi
    ensures MappedFrom(l, lo, l[p].end) && l[p].start <= l[p].end
    ensures (forall i: nat :: i < p ==> l[i].end <= hi) ==>
              forall i: nat :: i < p + 1 && p + 1 <= |l| ==> l[i].end <= l[p].end
  {
    ListSorted(l);
    forall a: nat | lo <= a < l[p].end ensures Lookup(l, a).Some?
    {
      if a >= hi { LookupAt(l, p, a); }
    }
  }

  /** [AlignDown(q), AlignUp(q + size)) are the pages of a range. */
  lemma WholePages(q: nat, size: nat)
    requires size > 0
    ensures AlignDown(q, PAGE) <= q && q + size <= AlignUp(q + size, PAGE)
            && AlignDown(q, PAGE) < AlignUp(q + size, PAGE)
    ensures AlignDown(q, PAGE) % PAGE == 0 && AlignUp(q + size, PAGE) % PAGE == 0
    ensures q >= PAGE ==> AlignDown(q, PAGE) > 0
    ensures q + size <= TOP ==> AlignUp(q + size, PAGE) <= TOP
    ensures q % PAGE == 0 ==> AlignDown(q, PAGE) == q
    ensures q % PAGE == 0 && size % PAGE == 0 ==> AlignUp(q + size, PAGE) == q + size
  {
  }

  lemma CheckedStart(l: seq<Vma>, first: nat, second: nat, s: nat, e: nat, perm: nat,
                     validate: (Option<nat>, nat, nat) -> nat)
    requires ListOk(l) && 0 < s < e <= TOP && FindVmas(l, s, e) == (first, second) && first < |l|
    ensures 0 < first < second < |l| && Checked(l, first, second, s, e, perm, validate)
  {
    FindVmasMeet(l, s, e);
    forall k: nat | first <= k < second ensures l[k].start < e && s < l[k].end { assert AreaOk(l, k); }
  }

  lemma NotCovered(l: seq<Vma>, a: nat)
    requires forall i: nat :: i < |l| ==> !Covers(l[i], a)
    ensures Lookup(l, a).None?
  {
  }

  lemma NothingToProtect(l: seq<Vma>, s: nat, e: nat, perm: nat)
    requires ListOk(l) && (s < e ==> Free(l, s, e))
    ensures Protected(l, l, e, s, e, perm)
  {
    if s < e {
      FreeIsUnmapped(l, s, e);
    }
  }

  lemma Uncovered(l: seq<Vma>, p: nat, a: nat)
    requires ListOk(l) && p < |l| && a < l[p].start && forall i: nat :: i < p ==> l[i].end <= a
    ensures Lookup(l, a).None?
  {
    ListSorted(l);
  }

  /** A sum that wraps to 0 passes the test of find_hole(): with nothing mapped it returns a place for a mapping that is
      larger than the whole address space. */
  method WrapFindsNoFit() returns (size: nat, r: Option<nat>)
    ensures r == Some(0x2000_0000_0000) && forall l: seq<Vma>, q: nat :: !Fits(l, q, size)
  {
    var space := new AddressSpace();
    var start := 0x2000_0000_0000;
    size := WORD - start;
    assert WrapHitsAt(space.list, 0, start, size);
    r := space.FindHole(start, size);
  }
}
