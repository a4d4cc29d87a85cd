/** The page-table walker of core/mmu.cc: map_level and the operations that run on it.

    Addresses are counted in 4 KB pages. A table entry at level L covers 512^L pages; only levels 0 and 1 hold
    leaves. The four-level tree is a value that the walk rebuilds.
  */
module PageTable {

  import opened Common

  /** Flag bits of a leaf. `denied` is the reserved bit that blocks every access. */
  datatype Attr = Attr(valid: bool, write: bool, exec: bool, denied: bool, cow: bool, dirty: bool)

  datatype Perm = Perm(read: bool, write: bool, exec: bool)

  /** What an entry of a table holds. A leaf at level 1 is a 2 MB page. */
  datatype Node = Empty | Leaf(frame: nat, attr: Attr) | Table(entries: seq<Node>)

  /** Where a page is. */
  datatype Mapping = Mapping(frame: nat, attr: Attr)

  /** A page-table operation. `small` and `huge` are what the page provider would return for a page. */
  datatype Op =
    | Protect(perm: Perm)
    | Unpopulate
    | Clean
    | Split
    | Translate
    | Cleanup
    | Populate(perm: Perm, forWrite: bool, mapDirty: bool, onlySmall: bool,
               small: nat -> Option<nat>, huge: nat -> Option<nat>)

  const ENTRIES: nat := 512

  function Span(level: nat): (n: nat)
    requires level <= 4
  {
    if level == 0 then 1
    else if level == 1 then 0x200
    else if level == 2 then 0x4_0000
    else if level == 3 then 0x800_0000
    else 0x10_0000_0000
  }

  function PtIndex(v: nat, level: nat): (i: nat)
    requires level <= 3
  {
    v / Span(level) % ENTRIES
  }

  ghost predicate Wf(n: Node, level: nat)
    requires level <= 4
    decreases level
  {
    match n
    case Empty => true
    case Leaf(f, _) => level <= 1 && f % Span(level) == 0
    case Table(es) => level > 0 && |es| == ENTRIES && forall i: nat :: i < ENTRIES ==> Wf(es[i], level - 1)
  }

  /** The first page of the i-th child. */
  function ChildBase(base: nat, level: nat, i: nat): (b: nat)
    requires 0 < level <= 4
  {
    base + i * Span(level - 1)
  }

  /** An entry that is not a table, with its place. */
  datatype Entry = Entry(pte: Node, level: nat, base: nat)

  /** The entry that decides about page v. */
  ghost function Cover(n: Node, level: nat, base: nat, v: nat): (en: Entry)
    requires level <= 4
    decreases level
  {
    if n.Table? && level > 0 && |n.entries| == ENTRIES && base <= v && (v - base) / Span(level - 1) < ENTRIES then
      var i := (v - base) / Span(level - 1);
      Cover(n.entries[i], level - 1, ChildBase(base, level, i), v)
    else Entry(n, level, base)
  }

  /** The translation of page v by its entry. */
  ghost function Tr(en: Entry, v: nat): (t: Option<Mapping>)
  {
    if en.pte.Leaf? && en.base <= v then Some(Mapping(en.pte.frame + (v - en.base), en.pte.attr)) else None
  }

  // ----------------------------------------------------------------------------------------
  // Addresses
  // ----------------------------------------------------------------------------------------

  /** [base, base + Span(level)) is the region of one entry. */
  ghost predicate Region(base: nat, level: nat)
  {
    level <= 4 && base % Span(level) == 0
  }

  lemma SpanStep(level: nat)
    requires 0 < level <= 4
    ensures Span(level) == ENTRIES * Span(level - 1)
  {
    if level == 1 {} else if level == 2 {} else if level == 3 {} else {}
  }

  lemma ChildRegion(base: nat, level: nat, i: nat)
    requires 0 < level && Region(base, level) && i < ENTRIES
    ensures Region(ChildBase(base, level, i), level - 1)
    ensures base <= ChildBase(base, level, i)
    ensures ChildBase(base, level, i) + Span(level - 1) <= base + Span(level)
    ensures ChildBase(base, level, i) + Span(level - 1) == ChildBase(base, level, i + 1)
  {
    SpanStep(level);
    var q, st := base / Span(level), Span(level - 1);
    assert base == q * (ENTRIES * st) == q * ENTRIES * st;
    assert ChildBase(base, level, i) == (q * ENTRIES + i) * st;
    MulMod(q * ENTRIES + i, st);
    assert (ENTRIES - 1 - i) * st >= 0;
  }

  lemma ChildOf(base: nat, level: nat, v: nat)
    requires 0 < level && Region(base, level) && base <= v < base + Span(level)
    ensures var i := (v - base) / Span(level - 1);
            && i < ENTRIES
            && Region(ChildBase(base, level, i), level - 1)
            && ChildBase(base, level, i) <= v < ChildBase(base, level, i) + Span(level - 1)
  {
    var x := v - base;
    var i := x / Span(level - 1);
    assert i < ENTRIES && i * Span(level - 1) <= x < i * Span(level - 1) + Span(level - 1) by {
      if level == 1 {} else if level == 2 {} else if level == 3 {} else {}
    }
    ChildRegion(base, level, i);
  }

  lemma DivShift(m: nat, x: nat, n: nat)
    requires n > 0
    ensures (m * n + x) / n == m + x / n
  {
    var y := m * n + x;
    var d := y / n - (m + x / n);
    assert d * n == x % n - y % n;
    assert d >= 1 ==> d * n >= n;
    assert d <= -1 ==> d * n + n <= 0;
  }

  /** The hardware index of a page is the number of the child that covers it. */
  lemma IndexIsChild(base: nat, level: nat, v: nat)
    requires 0 < level && Region(base, level) && base <= v < base + Span(level)
    ensures PtIndex(v, level - 1) == (v - base) / Span(level - 1) < ENTRIES
  {
    ChildOf(base, level, v);
    SpanStep(level);
    var q, st := base / Span(level), Span(level - 1);
    assert base == q * (ENTRIES * st) == q * ENTRIES * st;
    DivShift(q * ENTRIES, v - base, st);
    LowBits(q, (v - base) / st);
  }

  lemma LowBits(q: nat, i: nat)
    requires i < ENTRIES
    ensures (q * ENTRIES + i) % ENTRIES == i
  {
  }

  lemma ChildIs(base: nat, level: nat, i: nat, v: nat)
    requires 0 < level && Region(base, level) && i < ENTRIES
    requires ChildBase(base, level, i) <= v < ChildBase(base, level, i) + Span(level - 1)
    ensures base <= v && (v - base) / Span(level - 1) == i
  {
    if level == 1 {} else if level == 2 {} else if level == 3 {} else {}
  }

  /** The entry of a page lies inside the region searched and contains the page. */
  lemma {:induction false} CoverIn(n: Node, level: nat, base: nat, v: nat)
    requires Region(base, level) && Wf(n, level) && base <= v < base + Span(level)
    ensures var en := Cover(n, level, base, v);
            && en.level <= level && !en.pte.Table? && Wf(en.pte, en.level)
            && base <= en.base <= v < en.base + Span(en.level) <= base + Span(level)
    decreases level
  {
    if n.Table? {
      var i := (v - base) / Span(level - 1);
      ChildOf(base, level, v);
      ChildRegion(base, level, i);
      CoverIn(n.entries[i], level - 1, ChildBase(base, level, i), v);
    }
  }

  // ----------------------------------------------------------------------------------------
  // The operations
  // ----------------------------------------------------------------------------------------

  predicate Allocates(op: Op) { op.Populate? }

  predicate SkipsEmpty(op: Op) { !op.Populate? }

  predicate SplitsLarge(op: Op) { !op.Translate? && !op.Cleanup? }

  predicate SmallOnly(op: Op) { op.Split? || (op.Populate? && op.onlySmall) }

  /** change_perm(): the new flags. */
  function ChangePerm(a: Attr, perm: Perm): (r: Attr)
  {
    var write := perm.write && !a.cow;
    a.(valid := true, write := write, exec := perm.exec, denied := !(perm.read || write || perm.exec))
  }

  /** The flags populate() gives to a new page. */
  function NewAttr(op: Op): (a: Attr)
    requires op.Populate?
  {
    Attr(op.perm != Perm(false, false, false), op.perm.write, op.perm.exec, false, false, op.mapDirty || op.forWrite)
  }

  /** What the provider of an anonymous mapping returns for the page of the given level at b. */
  function Provided(op: Op, level: nat, b: nat): (f: Option<nat>)
    requires op.Populate?
  {
    if level == 0 then op.small(b) else op.huge(b)
  }

  /** Huge pages come aligned. */
  ghost predicate OpOk(op: Op)
  {
    op.Populate? ==> forall b: nat :: op.huge(b).Some? ==> op.huge(b).value % ENTRIES == 0
  }

  /** page(): the new entry, and whether the page was handled at this level. */
  function Page(op: Op, pte: Node, level: nat, b: nat): (r: (Node, bool))
    requires !pte.Table?
  {
    match op
    case Protect(perm) => (if pte.Leaf? then Leaf(pte.frame, ChangePerm(pte.attr, perm)) else pte, true)
    case Unpopulate => (Empty, true)
    case Clean => (if pte.Leaf? then Leaf(pte.frame, pte.attr.(dirty := false)) else pte, true)
    case Split => (pte, true)
    case Translate => (pte, true)
    case Cleanup => (pte, true)
    case Populate(_, _, _, _, _, _) =>
      var f := Provided(op, level, b);
      if pte.Leaf? then (pte, !op.forWrite || pte.attr.write || f.Some?)
      else if f.Some? then (Leaf(f.value, NewAttr(op)), true)
      else (pte, false)
  }

  // ----------------------------------------------------------------------------------------
  // What an operation must do to one page
  // ----------------------------------------------------------------------------------------

  /** The operation leaves no huge page in its range. */
  predicate BreaksUp(op: Op) { op.Split? || (op.Populate? && op.onlySmall) }

  /** A huge page whose valid bit is off, and that the walk tries to enter: it is taken for a missing table. */
  ghost predicate Blocked(op: Op, en: Entry, s: nat, e: nat)
  {
    && en.level == 1 && en.pte.Leaf? && !en.pte.attr.valid
    && (s > en.base || e < en.base + ENTRIES - 1 || BreaksUp(op) || !Page(op, en.pte, 1, en.base).1)
  }

  /** The same page, with the flags that mprotect() asks for: a copy-on-write page stays read-only, and a page that is
      left without any permission is denied by its reserved bit. */
  predicate Protected(m: Mapping, m': Mapping, perm: Perm)
  {
    && m'.frame == m.frame && m'.attr.cow == m.attr.cow && m'.attr.dirty == m.attr.dirty
    && m'.attr.valid
    && (m'.attr.write <==> perm.write && !m.attr.cow)
    && (m'.attr.exec <==> perm.exec)
    && (m'.attr.denied <==> !perm.read && !m'.attr.write && !m'.attr.exec)
  }

  /** The flags of a page that populate() has put in: valid unless the mapping has no permission at all, and dirty when
      the fault was a write or the mapping asks for it. */
  predicate Fresh(a: Attr, perm: Perm, dirty: bool)
  {
    && (a.valid <==> perm.read || perm.write || perm.exec)
    && (a.write <==> perm.write) && (a.exec <==> perm.exec) && !a.denied && !a.cow && (a.dirty <==> dirty)
  }

  /** The meaning of the operation for page v. */
  ghost predicate Meaning(op: Op, t: Option<Mapping>, t': Option<Mapping>, v: nat)
  {
    match op
    case Protect(perm) => (t.Some? <==> t'.Some?) && (t.Some? ==> Protected(t.value, t'.value, perm))
    case Unpopulate => t'.None?
    case Clean => t' == if t.Some? then Some(t.value.(attr := t.value.attr.(dirty := false))) else None
    case Split => t' == t
    case Translate => t' == t
    case Cleanup => t' == t
    case Populate(perm, forWrite, mapDirty, _, small, huge) =>
      if t.Some? then t' == t
      else if t'.None? then small(v).None?
      else
        && Fresh(t'.value.attr, perm, forWrite || mapDirty)
        && (small(v) == Some(t'.value.frame)
            || (!op.onlySmall && huge(v - v % ENTRIES) == Some(t'.value.frame - v % ENTRIES)))
  }

  ghost predicate At(op: Op, en: Entry, en': Entry, s: nat, e: nat, v: nat)
  {
    if s <= v <= e && !Blocked(op, en, s, e) then
      Meaning(op, Tr(en, v), Tr(en', v), v) && (BreaksUp(op) && Tr(en', v).Some? ==> en'.level == 0)
    else Tr(en', v) == Tr(en, v)
  }

  ghost predicate AtNode(op: Op, n: Node, n': Node, level: nat, base: nat, s: nat, e: nat, v: nat)
    requires level <= 4
  {
    At(op, Cover(n, level, base, v), Cover(n', level, base, v), s, e, v)
  }

  /** n' is what the operation on pages s..e makes of n. */
  ghost predicate Done(op: Op, n: Node, n': Node, level: nat, base: nat, s: nat, e: nat)
    requires level <= 4
  {
    && Wf(n', level)
    && forall v: nat {:trigger AtNode(op, n, n', level, base, s, e, v)} ::
         base <= v < base + Span(level) ==> AtNode(op, n, n', level, base, s, e, v)
  }

  // ----------------------------------------------------------------------------------------
  // Calls of page()
  // ----------------------------------------------------------------------------------------

  /** page() ran for pages lo..hi and found this entry. */
  datatype Visit = Visit(lo: nat, hi: nat, en: Entry)

  ghost predicate Hit(log: seq<Visit>, v: nat)
  {
    exists i: nat :: i < |log| && log[i].lo <= v <= log[i].hi
  }

  /** The pages visited belong to the entry found. */
  ghost predicate VisitOk(x: Visit)
  {
    x.en.level <= 1 && Region(x.en.base, x.en.level) && x.en.base <= x.lo <= x.hi < x.en.base + Span(x.en.level)
  }

  /** All pages of the entry are visited at once. */
  ghost predicate WholeVisit(x: Visit)
  {
    x.en.level <= 1 && x.lo == x.en.base && x.hi == x.en.base + Span(x.en.level) - 1
  }

  /** The visits lie in lo..hi, in order and apart. */
  ghost predicate Ordered(log: seq<Visit>, lo: nat, hi: nat)
  {
    && (forall i: nat :: i < |log| ==> VisitOk(log[i]) && lo <= log[i].lo && log[i].hi <= hi)
    && (forall i: nat, j: nat :: i < j < |log| ==> log[i].hi < log[j].lo)
  }

  /** Page v is visited exactly when the operation has something to do there. */
  ghost predicate Due(op: Op, en: Entry, s: nat, e: nat, v: nat)
  {
    && s <= v <= e && !Blocked(op, en, s, e) && (Tr(en, v).Some? || op.Populate?)
    && (op.Cleanup? && en.level == 1 ==> s <= en.base && en.base + ENTRIES - 1 <= e)
  }

  ghost predicate LogAt(op: Op, n: Node, level: nat, base: nat, s: nat, e: nat, log: seq<Visit>, v: nat)
    requires level <= 4
  {
    && (Hit(log, v) <==> Due(op, Cover(n, level, base, v), s, e, v))
    && forall i: nat :: i < |log| && log[i].lo <= v <= log[i].hi ==>
         Tr(log[i].en, v) == Tr(Cover(n, level, base, v), v) && (!op.Translate? ==> WholeVisit(log[i]))
  }

  ghost predicate Logged(op: Op, n: Node, level: nat, base: nat, s: nat, e: nat, log: seq<Visit>)
    requires level <= 4
  {
    && Ordered(log, s, e)
    && forall v: nat {:trigger LogAt(op, n, level, base, s, e, log, v)} ::
         base <= v < base + Span(level) ==> LogAt(op, n, level, base, s, e, log, v)
  }

  /** populate() must not enter a huge page whose valid bit is off: it would assert. */
  ghost predicate Clear(op: Op, n: Node, level: nat, base: nat, s: nat, e: nat)
    requires level <= 4
  {
    op.Populate? ==> forall v: nat {:trigger Cover(n, level, base, v)} ::
      s <= v <= e && base <= v < base + Span(level) ==> !Blocked(op, Cover(n, level, base, v), s, e)
  }

  // ----------------------------------------------------------------------------------------
  // Splitting and entering
  // ----------------------------------------------------------------------------------------

  /** split_large_page(): 512 small pages in place of a huge one, with the same flags. */
  function SplitLarge(frame: nat, attr: Attr): (es: seq<Node>)
  {
    seq(ENTRIES, i requires 0 <= i < ENTRIES => Leaf(frame + i, attr))
  }

  /** Splitting a huge page leaves every translation as it was. */
  lemma SplitKeepsTranslation(frame: nat, attr: Attr, base: nat, v: nat)
    requires Region(base, 1) && base <= v < base + ENTRIES
    ensures Tr(Cover(Table(SplitLarge(frame, attr)), 1, base, v), v) == Tr(Entry(Leaf(frame, attr), 1, base), v)
  {
    ChildOf(base, 1, v);
  }

  /** Both tables translate page v alike and let the operation through. */
  ghost predicate Alike(op: Op, n: Node, n': Node, level: nat, base: nat, s: nat, e: nat, v: nat)
    requires level <= 4
  {
    var en, en' := Cover(n, level, base, v), Cover(n', level, base, v);
    Tr(en, v) == Tr(en', v) && !Blocked(op, en, s, e) && !Blocked(op, en', s, e)
    && (op.Cleanup? ==> (en.level == en'.level && en.base == en'.base) || en.pte.Empty?)
  }

  /** A table that can take the place of a missing table or of a huge page. */
  ghost predicate Opened(op: Op, n: Node, es: seq<Node>, level: nat, base: nat, s: nat, e: nat)
    requires 0 < level <= 4
  {
    && Wf(Table(es), level)
    && (Table(es) == n
        || forall v: nat {:trigger Alike(op, n, Table(es), level, base, s, e, v)} ::
             base <= v < base + Span(level) ==> Alike(op, n, Table(es), level, base, s, e, v))
  }

  lemma OpenEmpty(op: Op, level: nat, base: nat, s: nat, e: nat)
    requires 0 < level && Region(base, level)
    ensures Opened(op, Empty, seq(ENTRIES, i requires 0 <= i < ENTRIES => Empty), level, base, s, e)
  {
    var es := seq(ENTRIES, i requires 0 <= i < ENTRIES => Empty);
    forall v: nat | base <= v < base + Span(level)
      ensures Alike(op, Empty, Table(es), level, base, s, e, v)
    {
      ChildOf(base, level, v);
    }
  }

  lemma OpenLarge(op: Op, frame: nat, attr: Attr, base: nat, s: nat, e: nat)
    requires Region(base, 1) && attr.valid && !op.Cleanup?
    ensures Opened(op, Leaf(frame, attr), SplitLarge(frame, attr), 1, base, s, e)
  {
    var es := SplitLarge(frame, attr);
    forall v: nat | base <= v < base + Span(1)
      ensures Alike(op, Leaf(frame, attr), Table(es), 1, base, s, e, v)
    {
      ChildOf(base, 1, v);
    }
  }

  lemma OpenedDone(op: Op, n: Node, es: seq<Node>, n': Node, level: nat, base: nat, s: nat, e: nat)
    requires 0 < level <= 4 && Opened(op, n, es, level, base, s, e)
    requires Done(op, Table(es), n', level, base, s, e)
    ensures Done(op, n, n', level, base, s, e)
  {
    if Table(es) != n {
      forall v: nat | base <= v < base + Span(level)
        ensures AtNode(op, n, n', level, base, s, e, v)
      {
        assert Alike(op, n, Table(es), level, base, s, e, v);
        assert AtNode(op, Table(es), n', level, base, s, e, v);
      }
    }
  }

  /** An entry and the one that takes its place are due alike. */
  lemma DueAlike(op: Op, en: Entry, en': Entry, s: nat, e: nat, v: nat)
    requires Tr(en, v) == Tr(en', v) && !Blocked(op, en, s, e) && !Blocked(op, en', s, e)
    requires op.Cleanup? ==> (en.level == en'.level && en.base == en'.base) || en.pte.Empty?
    ensures Due(op, en, s, e, v) <==> Due(op, en', s, e, v)
  {
  }

  lemma OpenedLogAt(op: Op, n: Node, n': Node, level: nat, base: nat, s: nat, e: nat, log: seq<Visit>, v: nat)
    requires 0 < level <= 4 && Alike(op, n, n', level, base, s, e, v) && LogAt(op, n', level, base, s, e, log, v)
    ensures LogAt(op, n, level, base, s, e, log, v)
  {
    DueAlike(op, Cover(n, level, base, v), Cover(n', level, base, v), s, e, v);
  }

  lemma OpenedLogged(op: Op, n: Node, es: seq<Node>, level: nat, base: nat, s: nat, e: nat, log: seq<Visit>)
    requires 0 < level <= 4 && Opened(op, n, es, level, base, s, e)
    requires Logged(op, Table(es), level, base, s, e, log)
    ensures Logged(op, n, level, base, s, e, log)
  {
    if Table(es) != n {
      forall v: nat | base <= v < base + Span(level)
        ensures LogAt(op, n, level, base, s, e, log, v)
      {
        assert Alike(op, n, Table(es), level, base, s, e, v);
        OpenedLogAt(op, n, Table(es), level, base, s, e, log, v);
      }
    }
  }

  // ----------------------------------------------------------------------------------------
  // From children to tables
  // ----------------------------------------------------------------------------------------

  function Max(a: nat, b: nat): nat { if a < b then b else a }

  function Min(a: nat, b: nat): nat { if a < b then a else b }

  /** A child sees only its part of the range. */
  lemma ClampedAt(op: Op, n: Node, level: nat, base: nat, s: nat, e: nat, v: nat)
    requires Region(base, level) && Wf(n, level) && s <= e && s < base + Span(level) && base <= e
    requires base <= v < base + Span(level)
    ensures var s1, e1, en := Max(s, base), Min(e, base + Span(level) - 1), Cover(n, level, base, v);
            && (s1 <= v <= e1 <==> s <= v <= e)
            && (Blocked(op, en, s1, e1) <==> Blocked(op, en, s, e))
            && (Due(op, en, s1, e1, v) <==> Due(op, en, s, e, v))
  {
    CoverIn(n, level, base, v);
  }

  lemma ClampedDone(op: Op, n: Node, n': Node, level: nat, base: nat, s: nat, e: nat)
    requires Region(base, level) && Wf(n, level) && s <= e && s < base + Span(level) && base <= e
    requires Done(op, n, n', level, base, Max(s, base), Min(e, base + Span(level) - 1))
    ensures Done(op, n, n', level, base, s, e)
  {
    var s1, e1 := Max(s, base), Min(e, base + Span(level) - 1);
    forall v: nat | base <= v < base + Span(level)
      ensures AtNode(op, n, n', level, base, s, e, v)
    {
      ClampedAt(op, n, level, base, s, e, v);
      assert AtNode(op, n, n', level, base, s1, e1, v);
    }
  }

  lemma ClampedLogged(op: Op, n: Node, level: nat, base: nat, s: nat, e: nat, log: seq<Visit>)
    requires Region(base, level) && Wf(n, level) && s <= e && s < base + Span(level) && base <= e
    requires Logged(op, n, level, base, Max(s, base), Min(e, base + Span(level) - 1), log)
    ensures Logged(op, n, level, base, s, e, log)
  {
    var s1, e1 := Max(s, base), Min(e, base + Span(level) - 1);
    forall v: nat | base <= v < base + Span(level)
      ensures LogAt(op, n, level, base, s, e, log, v)
    {
      ClampedAt(op, n, level, base, s, e, v);
      assert LogAt(op, n, level, base, s1, e1, log, v);
    }
  }

  /** The children from..to-1 are done, the others as they were. */
  ghost predicate Progress(op: Op, es: seq<Node>, es': seq<Node>, level: nat, base: nat, s: nat, e: nat, from: nat,
                           to: nat)
    requires 0 < level <= 4
  {
    && |es| == |es'| == ENTRIES
    && forall i: nat {:trigger es'[i]} :: i < ENTRIES ==>
         if from <= i < to then
           && Done(op, es[i], es'[i], level - 1, ChildBase(base, level, i), s, e)
           && TablesOk(op, es[i], es'[i], level - 1, ChildBase(base, level, i), s, e)
         else es'[i] == es[i]
  }

  lemma TableAt(op: Op, es: seq<Node>, es': seq<Node>, level: nat, base: nat, s: nat, e: nat, v: nat)
    requires 0 < level && Region(base, level) && |es| == |es'| == ENTRIES && base <= v < base + Span(level)
    requires var i := (v - base) / Span(level - 1);
             i < ENTRIES && AtNode(op, es[i], es'[i], level - 1, ChildBase(base, level, i), s, e, v)
    ensures AtNode(op, Table(es), Table(es'), level, base, s, e, v)
  {
  }

  lemma TableDone(op: Op, es: seq<Node>, es': seq<Node>, level: nat, base: nat, s: nat, e: nat, from: nat, to: nat)
    requires 0 < level && Region(base, level) && Wf(Table(es), level) && base <= s <= e < base + Span(level)
    requires from == (s - base) / Span(level - 1) && to == (e - base) / Span(level - 1) + 1
    requires Progress(op, es, es', level, base, s, e, from, to)
    ensures Done(op, Table(es), Table(es'), level, base, s, e)
  {
    forall v: nat | base <= v < base + Span(level)
      ensures AtNode(op, Table(es), Table(es'), level, base, s, e, v)
    {
      var i := (v - base) / Span(level - 1);
      ChildOf(base, level, v);
      var b := ChildBase(base, level, i);
      assert AtNode(op, es[i], es'[i], level - 1, b, s, e, v) by {
        if from <= i < to {
          assert Done(op, es[i], es'[i], level - 1, b, s, e);
        } else {
          OutOfRange(base, level, s, e, v);
        }
      }
      TableAt(op, es, es', level, base, s, e, v);
    }
  }

  lemma OutOfRange(base: nat, level: nat, s: nat, e: nat, v: nat)
    requires 0 < level && Region(base, level) && base <= s <= e < base + Span(level) && base <= v < base + Span(level)
    ensures s <= v <= e ==> (s - base) / Span(level - 1) <= (v - base) / Span(level - 1) <= (e - base) / Span(level - 1)
  {
    if level == 1 {} else if level == 2 {} else if level == 3 {} else {}
  }

  // ----------------------------------------------------------------------------------------
  // One entry
  // ----------------------------------------------------------------------------------------

  ghost predicate Whole(level: nat, base: nat, s: nat, e: nat)
    requires level <= 4
  {
    s <= base && base + Span(level) - 1 <= e
  }

  lemma PageAt(op: Op, pte: Node, level: nat, base: nat, s: nat, e: nat, v: nat)
    requires level <= 1 && Region(base, level) && !pte.Table? && OpOk(op) && Whole(level, base, s, e)
    requires level == 1 ==> !SmallOnly(op) && Page(op, pte, level, base).1
    requires SkipsEmpty(op) ==> pte.Leaf?
    requires base <= v < base + Span(level)
    ensures At(op, Entry(pte, level, base), Entry(Page(op, pte, level, base).0, level, base), s, e, v)
  {
    if op.Populate? {
      assert level == 1 ==> v - v % ENTRIES == base;
    }
  }

  lemma PageWf(op: Op, pte: Node, level: nat, base: nat)
    requires level <= 1 && Wf(pte, level) && !pte.Table? && OpOk(op)
    ensures Wf(Page(op, pte, level, base).0, level) && !Page(op, pte, level, base).0.Table?
  {
  }

  /** page() on an entry whose whole region is in the range. */
  lemma PageDone(op: Op, pte: Node, level: nat, base: nat, s: nat, e: nat)
    requires level <= 1 && Region(base, level) && Wf(pte, level) && !pte.Table? && OpOk(op) && Whole(level, base, s, e)
    requires level == 1 ==> !SmallOnly(op) && Page(op, pte, level, base).1
    requires SkipsEmpty(op) ==> pte.Leaf?
    ensures Done(op, pte, Page(op, pte, level, base).0, level, base, s, e)
  {
    PageWf(op, pte, level, base);
    var pte' := Page(op, pte, level, base).0;
    forall v: nat | base <= v < base + Span(level)
      ensures AtNode(op, pte, pte', level, base, s, e, v)
    {
      PageAt(op, pte, level, base, s, e, v);
    }
  }

  lemma PageLogged(op: Op, pte: Node, level: nat, base: nat, s: nat, e: nat)
    requires level <= 1 && Region(base, level) && !pte.Table? && Whole(level, base, s, e)
    requires level == 1 ==> !SmallOnly(op) && Page(op, pte, level, base).1
    requires SkipsEmpty(op) ==> pte.Leaf?
    ensures Logged(op, pte, level, base, s, e, [Visit(base, base + Span(level) - 1, Entry(pte, level, base))])
  {
    var log := [Visit(base, base + Span(level) - 1, Entry(pte, level, base))];
    assert log[0] == Visit(base, base + Span(level) - 1, Entry(pte, level, base));
    forall v: nat | base <= v < base + Span(level)
      ensures LogAt(op, pte, level, base, s, e, log, v)
    {
    }
  }

  lemma SkipDone(op: Op, level: nat, base: nat, s: nat, e: nat)
    requires level <= 4 && SkipsEmpty(op)
    ensures Done(op, Empty, Empty, level, base, s, e) && Logged(op, Empty, level, base, s, e, [])
  {
    forall v: nat | base <= v < base + Span(level)
      ensures AtNode(op, Empty, Empty, level, base, s, e, v) && LogAt(op, Empty, level, base, s, e, [], v)
    {
    }
  }

  /** intermediate_page_post(): unpopulate() drops the small table, cleanup drops it if it saw no page. */
  predicate Discards(op: Op, log: seq<Visit>) { op.Unpopulate? || (op.Cleanup? && log == []) }

  function Post(op: Op, n: Node, log: seq<Visit>): (n': Node)
  {
    if Discards(op, log) then Empty else n
  }

  /** A table that is dropped held nothing. */
  lemma PostDone(op: Op, n: Node, n': Node, base: nat, s: nat, e: nat, log: seq<Visit>)
    requires Region(base, 1) && Wf(n, 1) && n.Table? && Whole(1, base, s, e)
    requires Done(op, n, n', 1, base, s, e) && Logged(op, n, 1, base, s, e, log)
    ensures Done(op, n, Post(op, n', log), 1, base, s, e)
    ensures Post(op, n', log) != n' ==>
              forall v: nat :: base <= v < base + ENTRIES ==> Tr(Cover(n', 1, base, v), v).None?
  {
    var n2 := Post(op, n', log);
    if n2 != n' {
      forall v: nat | base <= v < base + Span(1)
        ensures Tr(Cover(n', 1, base, v), v).None? && AtNode(op, n, n2, 1, base, s, e, v)
      {
        ChildOf(base, 1, v);
        CoverIn(n, 1, base, v);
        assert AtNode(op, n, n', 1, base, s, e, v);
        assert LogAt(op, n, 1, base, s, e, log, v);
      }
    }
  }

  // ----------------------------------------------------------------------------------------
  // The log of a table
  // ----------------------------------------------------------------------------------------

  /** The visits of children from..to-1. */
  ghost predicate LogProgress(op: Op, es: seq<Node>, level: nat, base: nat, s: nat, e: nat, from: nat, to: nat,
                              log: seq<Visit>)
    requires 0 < level <= 4
  {
    && Ordered(log, s, e)
    && (forall i: nat :: i < |log| ==> log[i].hi < ChildBase(base, level, to))
    && (forall v: nat {:trigger LogAt(op, Table(es), level, base, s, e, log, v)} ::
          ChildBase(base, level, from) <= v < ChildBase(base, level, to) ==>
            LogAt(op, Table(es), level, base, s, e, log, v))
  }

  lemma HitAdd(a: seq<Visit>, b: seq<Visit>, v: nat)
    ensures Hit(a + b, v) <==> Hit(a, v) || Hit(b, v)
  {
    var c := a + b;
    if i: nat :| i < |a| && a[i].lo <= v <= a[i].hi { assert c[i] == a[i]; }
    if i: nat :| i < |b| && b[i].lo <= v <= b[i].hi { assert c[|a| + i] == b[i]; }
    if i: nat :| i < |c| && c[i].lo <= v <= c[i].hi {
      if i < |a| { assert a[i] == c[i]; } else { assert b[i - |a|] == c[i]; }
    }
  }

  lemma LogStep(op: Op, es: seq<Node>, level: nat, base: nat, s: nat, e: nat, from: nat, to: nat, log: seq<Visit>,
                more: seq<Visit>)
    requires 0 < level && Region(base, level) && |es| == ENTRIES && from <= to < ENTRIES
    requires LogProgress(op, es, level, base, s, e, from, to, log)
    requires Logged(op, es[to], level - 1, ChildBase(base, level, to), s, e, more)
    requires Ordered(more, ChildBase(base, level, to), ChildBase(base, level, to + 1) - 1)
    ensures LogProgress(op, es, level, base, s, e, from, to + 1, log + more)
  {
    var b, log' := ChildBase(base, level, to), log + more;
    ChildRegion(base, level, to);
    forall v: nat | ChildBase(base, level, from) <= v < b + Span(level - 1)
      ensures LogAt(op, Table(es), level, base, s, e, log', v)
    {
      HitAdd(log, more, v);
      if v < b {
        assert LogAt(op, Table(es), level, base, s, e, log, v);
      } else {
        ChildIs(base, level, to, v);
        assert LogAt(op, es[to], level - 1, b, s, e, more, v);
      }
    }
  }

  lemma LogDone(op: Op, es: seq<Node>, level: nat, base: nat, s: nat, e: nat, from: nat, to: nat, log: seq<Visit>)
    requires 0 < level && Region(base, level) && |es| == ENTRIES && base <= s <= e < base + Span(level)
    requires from == (s - base) / Span(level - 1) && to == (e - base) / Span(level - 1) + 1
    requires LogProgress(op, es, level, base, s, e, from, to, log)
    ensures Logged(op, Table(es), level, base, s, e, log)
  {
    ChildOf(base, level, s);
    ChildOf(base, level, e);
    ChildRegion(base, level, to - 1);
    forall v: nat | base <= v < base + Span(level)
      ensures LogAt(op, Table(es), level, base, s, e, log, v)
    {
    }
  }

  // ----------------------------------------------------------------------------------------
  // The walk
  // ----------------------------------------------------------------------------------------

  lemma ClearChild(op: Op, es: seq<Node>, level: nat, base: nat, s: nat, e: nat, i: nat)
    requires 0 < level && Region(base, level) && |es| == ENTRIES && i < ENTRIES
    requires Clear(op, Table(es), level, base, s, e)
    ensures Clear(op, es[i], level - 1, ChildBase(base, level, i), s, e)
  {
    var child, l, b := es[i], level - 1, ChildBase(base, level, i);
    ChildRegion(base, level, i);
    if op.Populate? {
      forall v: nat | s <= v <= e && b <= v < b + Span(l)
        ensures !Blocked(op, Cover(child, l, b, v), s, e)
      {
        ChildIs(base, level, i, v);
        assert !Blocked(op, Cover(Table(es), level, base, v), s, e);
      }
    }
  }

  lemma ClearOpened(op: Op, n: Node, es: seq<Node>, level: nat, base: nat, s: nat, e: nat)
    requires 0 < level <= 4 && Opened(op, n, es, level, base, s, e) && Clear(op, n, level, base, s, e)
    ensures Clear(op, Table(es), level, base, s, e)
  {
    if op.Populate? && Table(es) != n {
      forall v: nat | s <= v <= e && base <= v < base + Span(level)
        ensures !Blocked(op, Cover(Table(es), level, base, v), s, e)
      {
        assert Alike(op, n, Table(es), level, base, s, e, v);
      }
    }
  }

  lemma ClearClamped(op: Op, n: Node, level: nat, base: nat, s: nat, e: nat)
    requires Region(base, level) && Wf(n, level) && s <= e && s < base + Span(level) && base <= e
    requires Clear(op, n, level, base, s, e)
    ensures Clear(op, n, level, base, Max(s, base), Min(e, base + Span(level) - 1))
  {
    if op.Populate? {
      forall v: nat | base <= v < base + Span(level)
        ensures Blocked(op, Cover(n, level, base, v), Max(s, base), Min(e, base + Span(level) - 1))
                <==> Blocked(op, Cover(n, level, base, v), s, e)
      {
        ClampedAt(op, n, level, base, s, e, v);
      }
    }
  }

  // ----------------------------------------------------------------------------------------
  // Dropped tables
  // ----------------------------------------------------------------------------------------

  /** What a walk does, in order: page() for some pages, and the dropping of the second-level table at a page. */
  datatype Act = Called(visit: Visit) | Dropped(b: nat)

  ghost function VisitsOf(acts: seq<Act>): (log: seq<Visit>)
  {
    if acts == [] then []
    else
      var last := acts[|acts| - 1];
      VisitsOf(acts[..|acts| - 1]) + (if last.Called? then [last.visit] else [])
  }

  lemma {:induction false} VisitsAdd(a: seq<Act>, b: seq<Act>)
    ensures VisitsOf(a + b) == VisitsOf(a) + VisitsOf(b)
    decreases |b|
  {
    if b == [] {
      assert a + b == a;
    } else {
      var n := |b| - 1;
      VisitsAdd(a, b[..n]);
      assert (a + b)[..|a + b| - 1] == a + b[..n];
    }
  }

  /** A walk down to page b meets a second-level table. */
  ghost predicate SmallTable(n: Node, level: nat, base: nat, b: nat)
    requires level <= 4
    decreases level
  {
    && level > 0 && n.Table?
    && (level > 1 ==>
          && |n.entries| == ENTRIES && base <= b && (b - base) / Span(level - 1) < ENTRIES
          && var i := (b - base) / Span(level - 1);
             SmallTable(n.entries[i], level - 1, ChildBase(base, level, i), b))
  }

  /** No page of the 2 MB region that starts at b is mapped. */
  ghost predicate NoneMapped(n: Node, level: nat, base: nat, b: nat)
    requires level <= 4
  {
    forall v: nat {:trigger Cover(n, level, base, v)} ::
      b <= v < b + ENTRIES ==> Tr(Cover(n, level, base, v), v).None?
  }

  /** The second-level table of the 2 MB region that starts at b is to be dropped: by unpopulate() of all its pages, and
      by a cleanup of all its pages that finds none mapped. */
  ghost predicate Drops(op: Op, n: Node, level: nat, base: nat, s: nat, e: nat, b: nat)
    requires level <= 4
  {
    && base <= b < base + Span(level) && b % ENTRIES == 0 && Whole(1, b, s, e) && SmallTable(n, level, base, b)
    && (op.Unpopulate? || (op.Cleanup? && NoneMapped(n, level, base, b)))
  }

  /** A table that is dropped is gone, and every other one is still there. */
  ghost predicate TableOk(op: Op, n: Node, n': Node, level: nat, base: nat, s: nat, e: nat, b: nat)
    requires level <= 4
  {
    if Drops(op, n, level, base, s, e, b) then !SmallTable(n', level, base, b)
    else SmallTable(n, level, base, b) ==> SmallTable(n', level, base, b)
  }

  ghost predicate TablesOk(op: Op, n: Node, n': Node, level: nat, base: nat, s: nat, e: nat)
    requires level <= 4
  {
    forall b: nat {:trigger TableOk(op, n, n', level, base, s, e, b)} ::
      base <= b < base + Span(level) && b % ENTRIES == 0 ==> TableOk(op, n, n', level, base, s, e, b)
  }

  /** The walk below an entry, which does not drop the table of that entry itself. */
  ghost predicate TablesBelow(op: Op, n: Node, n': Node, level: nat, base: nat, s: nat, e: nat)
    requires level <= 4
  {
    if level <= 1 then n.Table? ==> n'.Table? else TablesOk(op, n, n', level, base, s, e)
  }

  /** The tables dropped from lo up to hi are exactly those below n that are to be dropped. */
  ghost predicate DropsIn(op: Op, n: Node, level: nat, base: nat, s: nat, e: nat, lo: nat, hi: nat, acts: seq<Act>)
    requires level <= 4
  {
    forall b: nat {:trigger Dropped(b) in acts} ::
      Dropped(b) in acts <==> lo <= b < hi && Drops(op, n, level, base, s, e, b)
  }

  /** The acts below an entry: the visits are those of the log, the dropped tables those that are to be dropped. */
  ghost predicate ActsOk(op: Op, n: Node, level: nat, base: nat, s: nat, e: nat, log: seq<Visit>, acts: seq<Act>)
    requires level <= 4
  {
    && VisitsOf(acts) == log
    && DropsIn(op, n, level, base, s, e, base, if level == 1 then base else base + Span(level), acts)
  }

  /** A child sees only its part of the range. */
  lemma ClampedDrops(op: Op, n: Node, level: nat, base: nat, s: nat, e: nat, lo: nat, hi: nat, acts: seq<Act>)
    requires level <= 4 && Region(base, level) && base <= lo && hi <= base + Span(level)
    requires DropsIn(op, n, level, base, Max(s, base), Min(e, base + Span(level) - 1), lo, hi, acts)
    ensures DropsIn(op, n, level, base, s, e, lo, hi, acts)
  {
    forall b: nat | base <= b < base + Span(level)
      ensures Drops(op, n, level, base, s, e, b)
              <==> Drops(op, n, level, base, Max(s, base), Min(e, base + Span(level) - 1), b)
    {
      DropsClamped(op, n, level, base, s, e, b);
    }
  }

  lemma DropsClamped(op: Op, n: Node, level: nat, base: nat, s: nat, e: nat, b: nat)
    requires Region(base, level) && base <= b < base + Span(level)
    ensures Drops(op, n, level, base, s, e, b)
            <==> Drops(op, n, level, base, Max(s, base), Min(e, base + Span(level) - 1), b)
  {
    if level > 0 && b % ENTRIES == 0 { RegionFits(base, level, b); }
  }

  lemma ClampedTables(op: Op, n: Node, n': Node, level: nat, base: nat, s: nat, e: nat)
    requires Region(base, level)
    requires TablesOk(op, n, n', level, base, Max(s, base), Min(e, base + Span(level) - 1))
    ensures TablesOk(op, n, n', level, base, s, e)
  {
    var s1, e1 := Max(s, base), Min(e, base + Span(level) - 1);
    forall b: nat | base <= b < base + Span(level) && b % ENTRIES == 0
      ensures TableOk(op, n, n', level, base, s, e, b)
    {
      DropsClamped(op, n, level, base, s, e, b);
      assert TableOk(op, n, n', level, base, s1, e1, b);
    }
  }

  lemma RegionFits(base: nat, level: nat, b: nat)
    requires 0 < level && Region(base, level) && base <= b < base + Span(level) && b % ENTRIES == 0
    ensures b + ENTRIES <= base + Span(level)
  {
    if level == 1 {} else if level == 2 {} else if level == 3 {} else {}
  }

  /** The drops below child i are those of the table in the region of the child. */
  lemma DropsBelow(op: Op, es: seq<Node>, level: nat, base: nat, s: nat, e: nat, i: nat, b: nat)
    requires 1 < level && Region(base, level) && |es| == ENTRIES && i < ENTRIES
    requires ChildBase(base, level, i) <= b < ChildBase(base, level, i) + Span(level - 1)
    ensures Drops(op, es[i], level - 1, ChildBase(base, level, i), s, e, b)
            <==> Drops(op, Table(es), level, base, s, e, b)
    ensures SmallTable(es[i], level - 1, ChildBase(base, level, i), b) <==> SmallTable(Table(es), level, base, b)
  {
    ChildIs(base, level, i, b);
    ChildRegion(base, level, i);
    if b % ENTRIES == 0 { MappedBelow(es, level, base, i, b); }
  }

  lemma MappedBelow(es: seq<Node>, level: nat, base: nat, i: nat, b: nat)
    requires 1 < level && Region(base, level) && |es| == ENTRIES && i < ENTRIES && b % ENTRIES == 0
    requires ChildBase(base, level, i) <= b < ChildBase(base, level, i) + Span(level - 1)
    ensures NoneMapped(es[i], level - 1, ChildBase(base, level, i), b) <==> NoneMapped(Table(es), level, base, b)
  {
    ChildRegion(base, level, i);
    RegionFits(ChildBase(base, level, i), level - 1, b);
    var n, l, c := es[i], level - 1, ChildBase(base, level, i);
    forall v: nat | b <= v < b + ENTRIES ensures Cover(n, l, c, v) == Cover(Table(es), level, base, v)
    {
      ChildIs(base, level, i, v);
    }
    if NoneMapped(n, l, c, b) {
      forall v: nat | b <= v < b + ENTRIES ensures Tr(Cover(Table(es), level, base, v), v).None?
      {
        assert Tr(Cover(n, l, c, v), v).None?;
      }
    }
  }

  /** The tables below the children that the loop has done, and below the others. */
  lemma TablesDone(op: Op, es: seq<Node>, es': seq<Node>, level: nat, base: nat, s: nat, e: nat, from: nat, to: nat)
    requires 1 < level && Region(base, level) && |es| == |es'| == ENTRIES && base <= s <= e < base + Span(level)
    requires from == (s - base) / Span(level - 1) && to == (e - base) / Span(level - 1) + 1
    requires Progress(op, es, es', level, base, s, e, from, to)
    ensures TablesOk(op, Table(es), Table(es'), level, base, s, e)
  {
    forall b: nat | base <= b < base + Span(level) && b % ENTRIES == 0
      ensures TableOk(op, Table(es), Table(es'), level, base, s, e, b)
    {
      var i := (b - base) / Span(level - 1);
      ChildOf(base, level, b);
      DropsBelow(op, es, level, base, s, e, i, b);
      DropsBelow(op, es', level, base, s, e, i, b);
      if from <= i < to {
        assert TableOk(op, es[i], es'[i], level - 1, ChildBase(base, level, i), s, e, b);
      } else {
        OutOfRange(base, level, s, e, b);
      }
    }
  }

  lemma DropsStep(op: Op, es: seq<Node>, level: nat, base: nat, s: nat, e: nat, from: nat, to: nat,
                  acts: seq<Act>, more: seq<Act>)
    requires 1 < level && Region(base, level) && |es| == ENTRIES && from <= to < ENTRIES
    requires DropsIn(op, Table(es), level, base, s, e, ChildBase(base, level, from), ChildBase(base, level, to), acts)
    requires DropsIn(op, es[to], level - 1, ChildBase(base, level, to), s, e, ChildBase(base, level, to),
                     ChildBase(base, level, to + 1), more)
    ensures DropsIn(op, Table(es), level, base, s, e, ChildBase(base, level, from), ChildBase(base, level, to + 1),
                    acts + more)
  {
    var lo, mid, hi := ChildBase(base, level, from), ChildBase(base, level, to), ChildBase(base, level, to + 1);
    ChildRegion(base, level, to);
    assert lo <= mid by { if level == 2 {} else if level == 3 {} else {} }
    forall b: nat
      ensures Dropped(b) in acts + more <==> lo <= b < hi && Drops(op, Table(es), level, base, s, e, b)
    {
      if mid <= b < hi { DropsBelow(op, es, level, base, s, e, to, b); }
    }
  }

  /** No table outside the entries that meet the range is dropped. */
  lemma DropsEnd(op: Op, es: seq<Node>, level: nat, base: nat, s: nat, e: nat, from: nat, to: nat, acts: seq<Act>)
    requires 1 < level && Region(base, level) && |es| == ENTRIES && base <= s <= e < base + Span(level)
    requires from == (s - base) / Span(level - 1) && to == (e - base) / Span(level - 1) + 1
    requires DropsIn(op, Table(es), level, base, s, e, ChildBase(base, level, from), ChildBase(base, level, to), acts)
    ensures DropsIn(op, Table(es), level, base, s, e, base, base + Span(level), acts)
  {
    ChildOf(base, level, s);
    ChildOf(base, level, e);
    ChildRegion(base, level, to - 1);
    assert ChildBase(base, level, from) <= s && e < ChildBase(base, level, to) <= base + Span(level);
  }

  /** A child of a table has been done, as far as it lies in pages s..e. */
  ghost predicate ChildDone(op: Op, n: Node, n': Node, level: nat, base: nat, s: nat, e: nat, log: seq<Visit>,
                            acts: seq<Act>)
    requires level <= 4
  {
    && Done(op, n, n', level, base, s, e) && Logged(op, n, level, base, s, e, log)
    && Ordered(log, base, base + Span(level) - 1)
    && VisitsOf(acts) == log && DropsIn(op, n, level, base, s, e, base, base + Span(level), acts)
    && TablesOk(op, n, n', level, base, s, e)
  }

  /** The body of the loop: one child of a table. */
  method MapChild(op: Op, child: Node, level: nat, base: nat, s: nat, e: nat)
    returns (child': Node, log: seq<Visit>, acts: seq<Act>)
    requires level <= 3 && Region(base, level) && Wf(child, level) && OpOk(op)
    requires s <= e && s < base + Span(level) && base <= e && Clear(op, child, level, base, s, e)
    ensures ChildDone(op, child, child', level, base, s, e, log, acts)
    decreases level, 4
  {
    var s1, e1 := Max(s, base), Min(e, base + Span(level) - 1);
    ClearClamped(op, child, level, base, s, e);
    if level < (if SmallOnly(op) then 1 else 2) && s1 == base && e1 == base + Span(level) - 1 {
      child', log, acts := MapWhole(op, child, level, base);
    } else {
      child', log, acts := MapLevel(op, child, level, base, s1, e1);
      NoneWhole(op, child, child', level, base, s1, e1, acts);
    }
    ClampedDone(op, child, child', level, base, s, e);
    ClampedLogged(op, child, level, base, s, e, log);
    ClampedDrops(op, child, level, base, s, e, base, base + Span(level), acts);
    ClampedTables(op, child, child', level, base, s, e);
  }

  /** The table of an entry that is not to be dropped is kept. */
  lemma NoneWhole(op: Op, n: Node, n': Node, level: nat, base: nat, s: nat, e: nat, acts: seq<Act>)
    requires level <= 4 && Region(base, level) && (level <= 1 ==> !Drops(op, n, level, base, s, e, base))
    requires DropsIn(op, n, level, base, s, e, base, if level == 1 then base else base + Span(level), acts)
    requires TablesBelow(op, n, n', level, base, s, e)
    ensures DropsIn(op, n, level, base, s, e, base, base + Span(level), acts)
    ensures TablesOk(op, n, n', level, base, s, e)
  {
    if level == 1 {
      forall b: nat | base <= b < base + ENTRIES && b % ENTRIES == 0 ensures b == base {}
    }
  }

  /** The table of a region is dropped exactly when the walk below it asks for it. */
  lemma DiscardsExactly(op: Op, n: Node, base: nat, log: seq<Visit>)
    requires Region(base, 1) && Wf(n, 1) && n.Table? && Logged(op, n, 1, base, base, base + ENTRIES - 1, log)
    ensures Discards(op, log) <==> Drops(op, n, 1, base, base, base + ENTRIES - 1, base)
  {
    var e := base + ENTRIES - 1;
    if op.Cleanup? {
      if log != [] {
        assert VisitOk(log[0]) && LogAt(op, n, 1, base, base, e, log, log[0].lo) && Hit(log, log[0].lo);
      }
      forall v: nat | base <= v < base + ENTRIES
        ensures log == [] ==> Tr(Cover(n, 1, base, v), v).None?
      {
        CoverIn(n, 1, base, v);
        ChildOf(base, 1, v);
        assert LogAt(op, n, 1, base, base, e, log, v);
      }
    }
  }

  lemma TableDropped(op: Op, n: Node, base: nat, log: seq<Visit>, acts: seq<Act>)
    requires Region(base, 1) && n.Table? && ActsOk(op, n, 1, base, base, base + ENTRIES - 1, log, acts)
    requires Drops(op, n, 1, base, base, base + ENTRIES - 1, base)
    ensures VisitsOf(acts + [Dropped(base)]) == log
    ensures DropsIn(op, n, 1, base, base, base + ENTRIES - 1, base, base + ENTRIES, acts + [Dropped(base)])
    ensures TablesOk(op, n, Empty, 1, base, base, base + ENTRIES - 1)
  {
    var acts', e := acts + [Dropped(base)], base + ENTRIES - 1;
    assert acts'[..|acts|] == acts;
    forall b: nat | base <= b < base + ENTRIES && b % ENTRIES == 0 ensures b == base {}
    forall b: nat ensures Dropped(b) in acts' <==> base <= b < base + ENTRIES && Drops(op, n, 1, base, base, e, b)
    {
      assert Dropped(b) in acts' <==> Dropped(b) in acts || b == base;
      assert Dropped(b) !in acts;
    }
  }

  /** An entry whose whole region is in the range has been done. */
  ghost predicate WholeDone(op: Op, n: Node, n': Node, level: nat, base: nat, log: seq<Visit>, acts: seq<Act>)
    requires level <= 4
  {
    var e := base + Span(level) - 1;
    && Done(op, n, n', level, base, base, e) && Logged(op, n, level, base, base, e, log)
    && VisitsOf(acts) == log && DropsIn(op, n, level, base, base, e, base, base + Span(level), acts)
    && TablesOk(op, n, n', level, base, base, e)
  }

  lemma SkipWhole(op: Op, level: nat, base: nat)
    requires level <= 4 && SkipsEmpty(op)
    ensures WholeDone(op, Empty, Empty, level, base, [], [])
  {
    SkipDone(op, level, base, base, base + Span(level) - 1);
  }

  lemma PageWhole(op: Op, pte: Node, level: nat, base: nat)
    requires level <= 1 && Region(base, level) && Wf(pte, level) && !pte.Table? && OpOk(op)
    requires level == 1 ==> !SmallOnly(op) && Page(op, pte, level, base).1
    requires SkipsEmpty(op) ==> pte.Leaf?
    ensures var x := Visit(base, base + Span(level) - 1, Entry(pte, level, base));
            WholeDone(op, pte, Page(op, pte, level, base).0, level, base, [x], [Called(x)])
  {
    var e := base + Span(level) - 1;
    var acts := [Called(Visit(base, e, Entry(pte, level, base)))];
    PageDone(op, pte, level, base, base, e);
    PageLogged(op, pte, level, base, base, e);
    NoTables(op, pte, Page(op, pte, level, base).0, level, base, base, e, acts);
    assert acts[..0] == [];
  }

  /** Where there is no table none is dropped. */
  lemma NoTables(op: Op, n: Node, n': Node, level: nat, base: nat, s: nat, e: nat, acts: seq<Act>)
    requires level <= 4 && !n.Table? && forall b: nat :: Dropped(b) !in acts
    ensures DropsIn(op, n, level, base, s, e, base, base + Span(level), acts) && TablesOk(op, n, n', level, base, s, e)
  {
  }

  lemma EnteredWhole(op: Op, n: Node, n': Node, level: nat, base: nat, log: seq<Visit>, acts: seq<Act>)
    requires 0 < level <= 1 && Region(base, level)
    requires var e := base + Span(level) - 1;
             && !Drops(op, n, level, base, base, e, base)
             && Done(op, n, n', level, base, base, e) && Logged(op, n, level, base, base, e, log)
             && ActsOk(op, n, level, base, base, e, log, acts) && TablesBelow(op, n, n', level, base, base, e)
    ensures WholeDone(op, n, n', level, base, log, acts)
  {
    NoneWhole(op, n, n', level, base, base, base + Span(level) - 1, acts);
  }

  /** A second-level table with its region in the range: the walk below it, then intermediate_page_post(). */
  method MapTable(op: Op, child: Node, base: nat) returns (child': Node, log: seq<Visit>, acts: seq<Act>)
    requires !SmallOnly(op) && Region(base, 1) && Wf(child, 1) && child.Table? && OpOk(op)
    requires Clear(op, child, 1, base, base, base + ENTRIES - 1)
    ensures WholeDone(op, child, child', 1, base, log, acts)
    decreases 1, 2
  {
    ghost var e := base + ENTRIES - 1;
    child', log, acts := MapLevel(op, child, 1, base, base, base + ENTRIES - 1);
    PostDone(op, child, child', base, base, e, log);
    DiscardsExactly(op, child, base, log);
    if Discards(op, log) {
      TableDropped(op, child, base, log, acts);
      acts := acts + [Dropped(base)];
    } else {
      EnteredWhole(op, child, child', 1, base, log, acts);
    }
    child' := Post(op, child', log);
  }

  /** An entry of a size that the operation may handle at once, with its region in the range. */
  method MapWhole(op: Op, child: Node, level: nat, base: nat) returns (child': Node, log: seq<Visit>, acts: seq<Act>)
    requires level < (if SmallOnly(op) then 1 else 2) && Region(base, level) && Wf(child, level) && OpOk(op)
    requires Clear(op, child, level, base, base, base + Span(level) - 1)
    ensures WholeDone(op, child, child', level, base, log, acts)
    decreases level, 3
  {
    var e := base + Span(level) - 1;
    if SkipsEmpty(op) && child.Empty? {
      child', log, acts := child, [], [];
      SkipWhole(op, level, base);
    } else if child.Table? {
      child', log, acts := MapTable(op, child, base);
    } else {
      var (pte, handled) := Page(op, child, level, base);
      if level == 0 || handled {
        PageWhole(op, child, level, base);
        child', log := pte, [Visit(base, e, Entry(child, level, base))];
        acts := [Called(log[0])];
      } else {
        child', log, acts := MapLevel(op, child, level, base, base, e);
        EnteredWhole(op, child, child', level, base, log, acts);
      }
    }
  }

  /** The table under a valid entry; for a missing table or a huge page, a new one that takes its place. */
  method Open(op: Op, parent: Node, level: nat, base: nat, ghost s: nat, ghost e: nat) returns (es: seq<Node>)
    requires 0 < level && Region(base, level) && Wf(parent, level)
    requires parent.Empty? ==> Allocates(op)
    requires parent.Leaf? ==> parent.attr.valid && SplitsLarge(op)
    ensures Opened(op, parent, es, level, base, s, e) && (parent.Table? ==> es == parent.entries)
  {
    match parent
    case Empty =>
      es := seq(ENTRIES, i requires 0 <= i < ENTRIES => Empty);
      OpenEmpty(op, level, base, s, e);
    case Leaf(frame, attr) =>
      es := SplitLarge(frame, attr);
      OpenLarge(op, frame, attr, base, s, e);
    case Table(entries) =>
      es := entries;
  }

  /** map_level: the operation on pages s..e under one entry. */
  method MapLevel(op: Op, parent: Node, level: nat, base: nat, s: nat, e: nat)
    returns (parent': Node, log: seq<Visit>, acts: seq<Act>)
    requires 0 < level && Region(base, level) && Wf(parent, level) && OpOk(op)
    requires base <= s <= e < base + Span(level) && Clear(op, parent, level, base, s, e)
    requires parent.Leaf? && !parent.attr.valid ==> Blocked(op, Entry(parent, level, base), s, e)
    requires parent.Leaf? && op.Cleanup? ==> !Whole(level, base, s, e)
    ensures Done(op, parent, parent', level, base, s, e) && Logged(op, parent, level, base, s, e, log)
    ensures ActsOk(op, parent, level, base, s, e, log, acts)
    ensures TablesBelow(op, parent, parent', level, base, s, e)
    decreases level, 1
  {
    if (parent.Empty? && !Allocates(op)) || (parent.Leaf? && !(parent.attr.valid && SplitsLarge(op))) {
      parent' := parent;
      log, acts := [], [];
      if parent.Leaf? && parent.attr.valid && op.Translate? {
        log := [Visit(s, e, Entry(parent, level, base))];
        acts := [Called(log[0])];
        assert VisitsOf(acts) == log by { assert acts[..0] == []; }
      }
      LeftAlone(op, parent, level, base, s, e);
      return;
    }
    var es := Open(op, parent, level, base, s, e);
    ClearOpened(op, parent, es, level, base, s, e);
    var es';
    es', log, acts := WalkTable(op, es, level, base, s, e);
    parent' := Table(es');
    OpenedDone(op, parent, es, parent', level, base, s, e);
    OpenedLogged(op, parent, es, level, base, s, e, log);
    OpenedTables(op, parent, es, parent', level, base, s, e, acts);
  }

  /** A new table adds nothing to drop. */
  lemma OpenedTables(op: Op, n: Node, es: seq<Node>, n': Node, level: nat, base: nat, s: nat, e: nat, acts: seq<Act>)
    requires 0 < level <= 4 && n'.Table? && (n.Table? ==> es == n.entries) && (n.Empty? ==> Allocates(op))
    requires n.Leaf? ==> level <= 1
    requires TablesBelow(op, Table(es), n', level, base, s, e)
    requires DropsIn(op, Table(es), level, base, s, e, base, if level == 1 then base else base + Span(level), acts)
    ensures TablesBelow(op, n, n', level, base, s, e)
    ensures DropsIn(op, n, level, base, s, e, base, if level == 1 then base else base + Span(level), acts)
  {
  }

  /** The entries of a table that meet the range. */
  method WalkTable(op: Op, es: seq<Node>, level: nat, base: nat, s: nat, e: nat)
    returns (es': seq<Node>, log: seq<Visit>, acts: seq<Act>)
    requires 0 < level && Region(base, level) && Wf(Table(es), level) && OpOk(op)
    requires base <= s <= e < base + Span(level) && Clear(op, Table(es), level, base, s, e)
    ensures Done(op, Table(es), Table(es'), level, base, s, e) && Logged(op, Table(es), level, base, s, e, log)
    ensures ActsOk(op, Table(es), level, base, s, e, log, acts)
    ensures TablesBelow(op, Table(es), Table(es'), level, base, s, e)
    decreases level, 0
  {
    var idx, eidx := Indices(base, level, s, e);
    es', log, acts := WalkEntries(op, es, level, base, s, e, idx, eidx);
    WalkEnds(op, es, es', level, base, s, e, idx, eidx + 1, log, acts);
  }

  /** The loop of map_level. */
  method WalkEntries(op: Op, es: seq<Node>, level: nat, base: nat, s: nat, e: nat, idx: nat, eidx: nat)
    returns (es': seq<Node>, log: seq<Visit>, acts: seq<Act>)
    requires 0 < level && Region(base, level) && Wf(Table(es), level) && OpOk(op)
    requires base <= s <= e < base + Span(level) && Clear(op, Table(es), level, base, s, e)
    requires idx == (s - base) / Span(level - 1) <= eidx == (e - base) / Span(level - 1)
    ensures Walked(op, es, es', level, base, s, e, idx, eidx + 1, log, acts)
    decreases level - 1, 6
  {
    es', log, acts := es, [], [];
    WalkStarts(op, es, level, base, s, e, idx);
    for i := idx to eidx + 1
      invariant Walked(op, es, es', level, base, s, e, idx, i, log, acts)
    {
      es', log, acts := WalkEntry(op, es, es', level, base, s, e, idx, i, log, acts);
    }
  }

  /** The acts of children from..to-1. */
  ghost predicate DropProgress(op: Op, es: seq<Node>, level: nat, base: nat, s: nat, e: nat, from: nat, to: nat,
                               log: seq<Visit>, acts: seq<Act>)
    requires 0 < level <= 4
  {
    && VisitsOf(acts) == log
    && (if level == 1 then DropsIn(op, Table(es), level, base, s, e, base, base, acts)
        else DropsIn(op, Table(es), level, base, s, e, ChildBase(base, level, from), ChildBase(base, level, to), acts))
  }

  lemma DropProgressStep(op: Op, es: seq<Node>, level: nat, base: nat, s: nat, e: nat, from: nat, to: nat,
                         log: seq<Visit>, acts: seq<Act>, log1: seq<Visit>, more: seq<Act>)
    requires 0 < level && Region(base, level) && |es| == ENTRIES && from <= to < ENTRIES
    requires DropProgress(op, es, level, base, s, e, from, to, log, acts) && VisitsOf(more) == log1
    requires DropsIn(op, es[to], level - 1, ChildBase(base, level, to), s, e, ChildBase(base, level, to),
                     ChildBase(base, level, to) + Span(level - 1), more)
    ensures DropProgress(op, es, level, base, s, e, from, to + 1, log + log1, acts + more)
  {
    VisitsAdd(acts, more);
    ChildRegion(base, level, to);
    if level > 1 { DropsStep(op, es, level, base, s, e, from, to, acts, more); }
  }

  /** The first and the last entry that meet the range, by the index bits of its ends. */
  method Indices(base: nat, level: nat, s: nat, e: nat) returns (idx: nat, eidx: nat)
    requires 0 < level && Region(base, level) && base <= s <= e < base + Span(level)
    ensures idx == (s - base) / Span(level - 1) <= eidx == (e - base) / Span(level - 1) < ENTRIES
  {
    IndexIsChild(base, level, s);
    IndexIsChild(base, level, e);
    OutOfRange(base, level, s, e, s);
    idx, eidx := PtIndex(s, level - 1), PtIndex(e, level - 1);
  }

  /** The loop has done the entries from..to-1. */
  ghost predicate Walked(op: Op, es: seq<Node>, es': seq<Node>, level: nat, base: nat, s: nat, e: nat, from: nat,
                         to: nat, log: seq<Visit>, acts: seq<Act>)
    requires 0 < level <= 4
  {
    && Progress(op, es, es', level, base, s, e, from, to) && LogProgress(op, es, level, base, s, e, from, to, log)
    && DropProgress(op, es, level, base, s, e, from, to, log, acts)
  }

  lemma WalkStarts(op: Op, es: seq<Node>, level: nat, base: nat, s: nat, e: nat, from: nat)
    requires 0 < level <= 4 && |es| == ENTRIES
    ensures Walked(op, es, es, level, base, s, e, from, from, [], [])
  {
  }

  lemma WalkEnds(op: Op, es: seq<Node>, es': seq<Node>, level: nat, base: nat, s: nat, e: nat, from: nat, to: nat,
                 log: seq<Visit>, acts: seq<Act>)
    requires 0 < level && Region(base, level) && Wf(Table(es), level) && base <= s <= e < base + Span(level)
    requires from == (s - base) / Span(level - 1) && to == (e - base) / Span(level - 1) + 1
    requires Walked(op, es, es', level, base, s, e, from, to, log, acts)
    ensures Done(op, Table(es), Table(es'), level, base, s, e) && Logged(op, Table(es), level, base, s, e, log)
    ensures ActsOk(op, Table(es), level, base, s, e, log, acts)
    ensures TablesBelow(op, Table(es), Table(es'), level, base, s, e)
  {
    TableDone(op, es, es', level, base, s, e, from, to);
    LogDone(op, es, level, base, s, e, from, to, log);
    if level > 1 {
      DropsEnd(op, es, level, base, s, e, from, to, acts);
      TablesDone(op, es, es', level, base, s, e, from, to);
    }
  }

  /** One round of that loop. */
  method WalkEntry(op: Op, ghost es: seq<Node>, es1: seq<Node>, level: nat, base: nat, s: nat, e: nat,
                   ghost from: nat, idx: nat, log1: seq<Visit>, acts1: seq<Act>)
    returns (es': seq<Node>, log: seq<Visit>, acts: seq<Act>)
    requires 0 < level && Region(base, level) && Wf(Table(es), level) && OpOk(op)
    requires base <= s <= e < base + Span(level) && Clear(op, Table(es), level, base, s, e)
    requires (s - base) / Span(level - 1) == from <= idx <= (e - base) / Span(level - 1)
    requires Walked(op, es, es1, level, base, s, e, from, idx, log1, acts1)
    ensures Walked(op, es, es', level, base, s, e, from, idx + 1, log, acts)
    decreases level - 1, 5
  {
    Meets(base, level, s, e, idx);
    ClearChild(op, es, level, base, s, e, idx);
    assert es1[idx] == es[idx];
    var child, more, moreActs := MapChild(op, es1[idx], level - 1, ChildBase(base, level, idx), s, e);
    EntryStep(op, es, es1, level, base, s, e, from, idx, log1, acts1, child, more, moreActs);
    es', log, acts := es1[idx := child], log1 + more, acts1 + moreActs;
  }

  lemma EntryStep(op: Op, es: seq<Node>, es1: seq<Node>, level: nat, base: nat, s: nat, e: nat, from: nat, idx: nat,
                  log: seq<Visit>, acts: seq<Act>, child: Node, more: seq<Visit>, moreActs: seq<Act>)
    requires 0 < level && Region(base, level) && |es| == ENTRIES && from <= idx < ENTRIES
    requires Walked(op, es, es1, level, base, s, e, from, idx, log, acts)
    requires ChildDone(op, es[idx], child, level - 1, ChildBase(base, level, idx), s, e, more, moreActs)
    ensures Walked(op, es, es1[idx := child], level, base, s, e, from, idx + 1, log + more, acts + moreActs)
  {
    ChildRegion(base, level, idx);
    ProgressStep(op, es, es1, level, base, s, e, from, idx, child);
    LogStep(op, es, level, base, s, e, from, idx, log, more);
    DropProgressStep(op, es, level, base, s, e, from, idx, log, acts, more, moreActs);
  }

  lemma ProgressStep(op: Op, es: seq<Node>, es1: seq<Node>, level: nat, base: nat, s: nat, e: nat, from: nat, idx: nat,
                     child: Node)
    requires 0 < level <= 4 && from <= idx < ENTRIES && Progress(op, es, es1, level, base, s, e, from, idx)
    requires Done(op, es[idx], child, level - 1, ChildBase(base, level, idx), s, e)
    requires TablesOk(op, es[idx], child, level - 1, ChildBase(base, level, idx), s, e)
    ensures Progress(op, es, es1[idx := child], level, base, s, e, from, idx + 1)
  {
  }

  /** The entries of the loop are those that meet the range. */
  lemma Meets(base: nat, level: nat, s: nat, e: nat, i: nat)
    requires 0 < level && Region(base, level) && base <= s <= e < base + Span(level)
    requires (s - base) / Span(level - 1) <= i <= (e - base) / Span(level - 1)
    ensures i < ENTRIES && Region(ChildBase(base, level, i), level - 1)
    ensures s < ChildBase(base, level, i) + Span(level - 1) && ChildBase(base, level, i) <= e
    ensures ChildBase(base, level, i) + Span(level - 1) == ChildBase(base, level, i + 1)
  {
    ChildOf(base, level, s);
    ChildOf(base, level, e);
    ChildRegion(base, level, i);
    if level == 1 {} else if level == 2 {} else if level == 3 {} else {}
  }

  /** An entry the walk does not enter keeps its translations. */
  lemma LeftAlone(op: Op, n: Node, level: nat, base: nat, s: nat, e: nat)
    requires 0 < level && Region(base, level) && Wf(n, level) && !n.Table? && base <= s <= e < base + Span(level)
    requires n.Empty? ==> !Allocates(op)
    requires n.Leaf? && !n.attr.valid ==> Blocked(op, Entry(n, level, base), s, e)
    requires n.Leaf? && n.attr.valid ==> op.Translate? || (op.Cleanup? && !Whole(level, base, s, e))
    ensures Done(op, n, n, level, base, s, e)
    ensures Logged(op, n, level, base, s, e,
                   if n.Leaf? && n.attr.valid && op.Translate? then [Visit(s, e, Entry(n, level, base))] else [])
  {
    var log := if n.Leaf? && n.attr.valid && op.Translate? then [Visit(s, e, Entry(n, level, base))] else [];
    assert log != [] ==> log[0] == Visit(s, e, Entry(n, level, base));
    forall v: nat | base <= v < base + Span(level)
      ensures AtNode(op, n, n, level, base, s, e, v) && LogAt(op, n, level, base, s, e, log, v)
    {
    }
  }

  // ----------------------------------------------------------------------------------------
  // What a walk means
  // ----------------------------------------------------------------------------------------

  /** Every page the operation is due at is visited exactly once, in ascending order, and no other page is. */
  lemma VisitedOnce(op: Op, n: Node, level: nat, base: nat, s: nat, e: nat, log: seq<Visit>, v: nat)
    requires level <= 4 && Logged(op, n, level, base, s, e, log) && base <= v < base + Span(level)
    ensures forall i: nat, j: nat ::
              i < |log| && j < |log| && log[i].lo <= v <= log[i].hi && log[j].lo <= v <= log[j].hi ==> i == j
    ensures Hit(log, v) <==> Due(op, Cover(n, level, base, v), s, e, v)
  {
    assert LogAt(op, n, level, base, s, e, log, v);
  }

  ghost predicate Unmapped(n: Node, level: nat, base: nat, v: nat)
    requires level <= 4
  {
    Tr(Cover(n, level, base, v), v).None?
  }

  lemma UnpopulatesAt(n: Node, n': Node, level: nat, base: nat, s: nat, e: nat, v: nat)
    requires Region(base, level) && Wf(n, level) && base <= v < base + Span(level)
    requires Done(Unpopulate, n, n', level, base, s, e)
    ensures s <= v <= e ==> (Unmapped(n', level, base, v) <==> !CutsInvalidHuge(n, level, base, s, e, v))
    ensures !(s <= v <= e) ==> Tr(Cover(n', level, base, v), v) == Tr(Cover(n, level, base, v), v)
  {
    CoverIn(n, level, base, v);
    assert AtNode(Unpopulate, n, n', level, base, s, e, v);
  }

  /** unpopulate() leaves nothing mapped in its range exactly when it cuts no huge page whose valid bit is off. */
  lemma UnpopulatesExactly(n: Node, n': Node, level: nat, base: nat, s: nat, e: nat)
    requires Region(base, level) && Wf(n, level) && base <= s <= e < base + Span(level)
    requires Done(Unpopulate, n, n', level, base, s, e)
    ensures (forall v: nat :: s <= v <= e ==> Unmapped(n', level, base, v))
            <==> (forall v: nat :: s <= v <= e ==> !CutsInvalidHuge(n, level, base, s, e, v))
  {
    forall v: nat | s <= v <= e
      ensures Unmapped(n', level, base, v) <==> !CutsInvalidHuge(n, level, base, s, e, v)
    {
      UnpopulatesAt(n, n', level, base, s, e, v);
    }
  }

  /** protect(): a mapped page of the range has the flags asked for, unless it is in a huge page with its valid bit off
      that the range cuts; all other pages keep their mapping. */
  lemma ProtectsExactly(perm: Perm, n: Node, n': Node, level: nat, base: nat, s: nat, e: nat, v: nat)
    requires Region(base, level) && Wf(n, level) && base <= v < base + Span(level)
    requires Done(Protect(perm), n, n', level, base, s, e)
    ensures var t, t' := Tr(Cover(n, level, base, v), v), Tr(Cover(n', level, base, v), v);
            if s <= v <= e && t.Some? && !CutsInvalidHuge(n, level, base, s, e, v)
            then t'.Some? && Protected(t.value, t'.value, perm)
            else t' == t
  {
    CoverIn(n, level, base, v);
    assert AtNode(Protect(perm), n, n', level, base, s, e, v);
  }

  /** populate(): a page of the range that was not mapped has the permissions asked for and memory that the provider
      gave for it, or the provider gave no small page; all other pages keep their mapping. */
  lemma PopulatesExactly(op: Op, n: Node, n': Node, level: nat, base: nat, s: nat, e: nat, v: nat)
    requires op.Populate? && Region(base, level) && Wf(n, level) && base <= v < base + Span(level)
    requires Clear(op, n, level, base, s, e) && Done(op, n, n', level, base, s, e)
    ensures var t, t' := Tr(Cover(n, level, base, v), v), Tr(Cover(n', level, base, v), v);
            if t.Some? || !(s <= v <= e) then t' == t
            else if t'.None? then op.small(v).None?
            else
              && Fresh(t'.value.attr, op.perm, op.forWrite || op.mapDirty)
              && (op.small(v) == Some(t'.value.frame)
                  || (!op.onlySmall && op.huge(v - v % ENTRIES) == Some(t'.value.frame - v % ENTRIES)))
  {
    assert AtNode(op, n, n', level, base, s, e, v);
    var en := Cover(n, level, base, v);
    assert s <= v <= e ==> !Blocked(op, en, s, e);
  }

  /** splithugepages(): every mapped page of the range ends as a small page with its old frame and flags, except in huge
      pages with their valid bit off, which stay. */
  lemma SplitsExactly(n: Node, n': Node, level: nat, base: nat, s: nat, e: nat, v: nat)
    requires Region(base, level) && Wf(n, level) && base <= v < base + Span(level)
    requires Done(Split, n, n', level, base, s, e)
    ensures var en, en' := Cover(n, level, base, v), Cover(n', level, base, v);
            && Tr(en', v) == Tr(en, v)
            && (s <= v <= e && en.pte.Leaf? && (en.level == 0 || en.pte.attr.valid) ==> en'.level == 0)
  {
    CoverIn(n, level, base, v);
    assert AtNode(Split, n, n', level, base, s, e, v);
  }

  /** Page v belongs to a huge page that is not valid and not wholly in s..e. */
  ghost predicate CutsInvalidHuge(n: Node, level: nat, base: nat, s: nat, e: nat, v: nat)
    requires level <= 4
  {
    var en := Cover(n, level, base, v);
    && en.level == 1 && en.pte.Leaf? && !en.pte.attr.valid
    && (s > en.base || e < en.base + ENTRIES - 1)
  }

  /** Such pages exist: populating a huge page of a mapping without permissions makes one, and unmapping its first
      small page leaves all of it in place. */
  lemma PartialUnmapMissed(frame: nat, op: Op, n: Node, n': Node)
    requires op.Populate? && op.perm == Perm(false, false, false) && !op.onlySmall && op.huge(0) == Some(frame)
    requires n == Page(op, Empty, 1, 0).0 && Done(Unpopulate, n, n', 1, 0, 0, 0)
    ensures Tr(Cover(n', 1, 0, 0), 0) == Some(Mapping(frame, NewAttr(op)))
  {
    assert n == Leaf(frame, NewAttr(op)) && Cover(n, 1, 0, 0) == Entry(n, 1, 0);
    assert AtNode(Unpopulate, n, n', 1, 0, 0, 0, 0);
  }

  // ----------------------------------------------------------------------------------------
  // The address space
  // ----------------------------------------------------------------------------------------

  const PAGE: nat := 4096

  function CeilPages(size: nat): (n: nat)
  {
    (size + PAGE - 1) / PAGE
  }

  /** The first and the last page operate_range() works on: it aligns start and size one by one. */
  function FirstPage(start: nat): (s: nat) { start / PAGE }

  function LastPage(start: nat, size: nat): (e: nat)
  {
    start / PAGE + Max(CeilPages(size), 1) - 1
  }

  /** Page of every byte asked for. */
  ghost predicate Reaches(start: nat, size: nat)
  {
    forall a: nat {:trigger a / PAGE} :: start <= a < start + size
      ==> FirstPage(start) <= a / PAGE <= LastPage(start, size)
  }

  /** So it reaches all bytes asked for exactly when the start is aligned, or the two remainders fit in one page. */
  lemma RangeReachesAll(start: nat, size: nat)
    requires size > 0
    ensures Reaches(start, size)
            <==> (start % PAGE == 0 || (size % PAGE != 0 && start % PAGE + size % PAGE <= PAGE))
  {
    var last := start + size - 1;
    assert LastPage(start, size) == start / PAGE + CeilPages(size) - 1;
    assert Reaches(start, size) ==> last / PAGE <= LastPage(start, size);
    assert last / PAGE <= LastPage(start, size) ==> Reaches(start, size);
    LastByte(start, size);
  }

  lemma LastByte(start: nat, size: nat)
    requires size > 0
    ensures (start + size - 1) / PAGE <= start / PAGE + CeilPages(size) - 1
            <==> (start % PAGE == 0 || (size % PAGE != 0 && start % PAGE + size % PAGE <= PAGE))
  {
  }

  /** An operation on the 4096 bytes from address 1 leaves the page of the last one, byte 4096, as it was. */
  lemma LastByteMissed(op: Op, n: Node, n': Node)
    requires Done(op, n, n', 4, 0, FirstPage(1), LastPage(1, PAGE))
    ensures 1 <= PAGE < 1 + PAGE && !Reaches(1, PAGE)
    ensures Tr(Cover(n', 4, 0, PAGE / PAGE), 1) == Tr(Cover(n, 4, 0, PAGE / PAGE), 1)
  {
    RangeReachesAll(1, PAGE);
    assert AtNode(op, n, n', 4, 0, 0, 0, 1);
  }

  /** The address bits below the entry's span are the page's distance from its base and the offset in the page. */
  lemma OffsetInPage(addr: nat, en: Entry)
    requires en.level <= 1 && Region(en.base, en.level) && en.base <= addr / PAGE < en.base + Span(en.level)
    ensures addr % (Span(en.level) * PAGE) == (addr / PAGE - en.base) * PAGE + addr % PAGE
  {
  }

  /** The walk of virt_to_phys_pt() visits the page, unless it is not mapped or is in a huge page with its valid bit
      off. */
  lemma Translated(n: Node, addr: nat, log: seq<Visit>)
    requires Wf(n, 4) && addr / PAGE < Span(4)
    requires Logged(Translate, n, 4, 0, addr / PAGE, addr / PAGE, log)
    ensures var v := addr / PAGE;
            var en := Cover(n, 4, 0, v);
            if Tr(en, v).Some? && !(en.level == 1 && !Tr(en, v).value.attr.valid) then
              && log != [] && log[0].en.level <= 1 && log[0].en.pte.Leaf?
              && log[0].en.pte.frame * PAGE + addr % (Span(log[0].en.level) * PAGE)
                 == Tr(en, v).value.frame * PAGE + addr % PAGE
            else log == []
  {
    var v := addr / PAGE;
    CoverIn(n, 4, 0, v);
    assert LogAt(Translate, n, 4, 0, v, v, log, v);
    if log != [] {
      assert VisitOk(log[0]) && log[0].lo <= v <= log[0].hi;
      OffsetInPage(addr, log[0].en);
    }
  }

  class AddressSpace {
    /** The entry above the four levels. */
    var root: Node

    ghost predicate Valid()
      reads this
    {
      Wf(root, 4)
    }

    /** The translation of a page of the 48-bit address space. */
    ghost function Entries(v: nat): (en: Entry)
      reads this
    {
      Cover(root, 4, 0, v)
    }

    constructor ()
      ensures Valid() && forall v: nat :: v < Span(4) ==> Tr(Entries(v), v).None?
    {
      root := Empty;
    }

    /** operate_range() without the flush: the operation on the pages of [start, start + size). */
    method OperateRange(op: Op, start: nat, size: nat) returns (log: seq<Visit>, acts: seq<Act>)
      requires Valid() && OpOk(op) && LastPage(start, size) < Span(4)
      requires Clear(op, root, 4, 0, FirstPage(start), LastPage(start, size))
      modifies this
      ensures Valid()
      ensures var s, e := FirstPage(start), LastPage(start, size);
              && Done(op, old(root), root, 4, 0, s, e) && Logged(op, old(root), 4, 0, s, e, log)
              && ActsOk(op, old(root), 4, 0, s, e, log, acts) && TablesOk(op, old(root), root, 4, 0, s, e)
    {
      root, log, acts := MapLevel(op, root, 4, 0, FirstPage(start), LastPage(start, size));
    }

    /** virt_to_phys_pt(): the physical address, or None where the source's assertion fails. */
    method VirtToPhys(addr: nat) returns (r: Option<nat>)
      requires Valid() && addr / PAGE < Span(4)
      ensures var v := addr / PAGE;
              var t := Tr(Entries(v), v);
              if t.Some? && !(Entries(v).level == 1 && !t.value.attr.valid)
              then r == Some(t.value.frame * PAGE + addr % PAGE)
              else r.None?
    {
      var v := addr / PAGE;
      var _, log, _ := MapLevel(Translate, root, 4, 0, v, v);
      Translated(root, addr, log);
      if log == [] {
        r := None;
      } else {
        var en := log[0].en;
        r := Some(en.pte.frame * PAGE + addr % (Span(en.level) * PAGE));
      }
    }
  }
}
