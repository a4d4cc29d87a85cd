/** The wait queue of a condition variable: core/condvar.cc.

    Wait records live on the stacks of the waiting threads and are linked through their `next` fields; here a record is
    an index into arrays. The queue is changed under the condition variable's own mutex. wake_all() releases that mutex
    once it has taken the queue; CondvarRace interleaves its loop with everything else.
  */
module Condvar {

  import opened Common

  // ----------------------------------------------------------------------------------------
  // Lists of records
  // ----------------------------------------------------------------------------------------

  /** The record after position i of a list. */
  function After(l: seq<nat>, i: nat): (r: Option<nat>)
  {
    if i < |l| then Some(l[i]) else None
  }

  /** `next` links the records of l in this order and ends the list. */
  ghost predicate Linked(next: seq<Option<nat>>, l: seq<nat>)
  {
    && NoDup(l)
    && (forall i: nat :: i < |l| ==> l[i] < |next| && next[l[i]] == After(l, i + 1))
  }

  function Remove(l: seq<nat>, r: nat): (l': seq<nat>)
  {
    if l == [] then [] else if l[0] == r then l[1..] else [l[0]] + Remove(l[1..], r)
  }

  lemma {:induction false} RemoveAt(l: seq<nat>, k: nat)
    requires NoDup(l) && k < |l|
    ensures Remove(l, l[k]) == l[..k] + l[k + 1..]
  {
    if k > 0 {
      RemoveAt(l[1..], k - 1);
      assert l[1..][..k - 1] == l[1..k] && l[1..][k..] == l[k + 1..];
      assert [l[0]] + l[1..k] == l[..k];
    }
  }

  lemma {:induction false} RemoveAbsent(l: seq<nat>, r: nat)
    requires r !in l
    ensures Remove(l, r) == l
  {
    if l != [] {
      RemoveAbsent(l[1..], r);
    }
  }

  /** Unlinking the record at position k > 0 takes one write. */
  lemma Unlink(next: seq<Option<nat>>, l: seq<nat>, k: nat)
    requires Linked(next, l) && 0 < k < |l|
    ensures Linked(next[l[k - 1] := next[l[k]]], l[..k] + l[k + 1..])
  {
    var l', next' := l[..k] + l[k + 1..], next[l[k - 1] := next[l[k]]];
    forall i: nat | i < |l'| ensures l'[i] < |next'| && next'[l'[i]] == After(l', i + 1)
    {
      assert l'[i] == l[if i < k then i else i + 1];
    }
  }

  lemma LinkedTail(next: seq<Option<nat>>, l: seq<nat>)
    requires Linked(next, l) && l != []
    ensures Linked(next, l[1..])
  {
    forall i: nat | i < |l[1..]| ensures l[1..][i] < |next| && next[l[1..][i]] == After(l[1..], i + 1) {}
  }

  // ----------------------------------------------------------------------------------------
  // The order in which wake_all() sends the lock
  // ----------------------------------------------------------------------------------------

  function On(cpu: seq<nat>, r: nat): (c: nat)
  {
    if r < |cpu| then cpu[r] else 0
  }

  /** The records on CPU c, or those on other CPUs, in order. */
  function Pick(cpu: seq<nat>, l: seq<nat>, c: nat, same: bool): (r: seq<nat>)
    ensures |r| <= |l|
  {
    if l == [] then []
    else if (On(cpu, l[0]) == c) == same then [l[0]] + Pick(cpu, l[1..], c, same)
    else Pick(cpu, l[1..], c, same)
  }

  /** The first record, then all others of its CPU, then the rest likewise. */
  function Regrouped(cpu: seq<nat>, l: seq<nat>): (r: seq<nat>)
    decreases |l|
  {
    if l == [] then []
    else
      var c := On(cpu, l[0]);
      [l[0]] + Pick(cpu, l[1..], c, true) + Regrouped(cpu, Pick(cpu, l[1..], c, false))
  }

  lemma {:induction false} PickSplits(cpu: seq<nat>, l: seq<nat>, c: nat)
    ensures multiset(Pick(cpu, l, c, true)) + multiset(Pick(cpu, l, c, false)) == multiset(l)
  {
    if l != [] {
      PickSplits(cpu, l[1..], c);
      assert l == [l[0]] + l[1..];
    }
  }

  /** The lock is sent to every record exactly once. */
  lemma {:induction false} RegroupedOnce(cpu: seq<nat>, l: seq<nat>)
    ensures multiset(Regrouped(cpu, l)) == multiset(l)
    decreases |l|
  {
    if l != [] {
      var c := On(cpu, l[0]);
      PickSplits(cpu, l[1..], c);
      RegroupedOnce(cpu, Pick(cpu, l[1..], c, false));
      assert l == [l[0]] + l[1..];
    }
  }

  lemma {:induction false} PickAdd(cpu: seq<nat>, a: seq<nat>, b: seq<nat>, c: nat, same: bool)
    ensures Pick(cpu, a + b, c, same) == Pick(cpu, a, c, same) + Pick(cpu, b, c, same)
  {
    if a == [] {
      assert a + b == b;
    } else {
      var ab, t := a + b, a[1..];
      assert ab[0] == a[0] && ab[1..] == t + b;
      PickAdd(cpu, t, b, c, same);
      var p, q := Pick(cpu, t, c, same), Pick(cpu, b, c, same);
      assert [a[0]] + (p + q) == ([a[0]] + p) + q;
    }
  }

  /** Picking again by the same CPU keeps all or nothing. */
  lemma {:induction false} PickAgain(cpu: seq<nat>, l: seq<nat>, c: nat, same: bool)
    ensures Pick(cpu, Pick(cpu, l, c, same), c, true) == if same then Pick(cpu, l, c, true) else []
  {
    if l != [] {
      PickAgain(cpu, l[1..], c, same);
      var t := Pick(cpu, l[1..], c, same);
      if (On(cpu, l[0]) == c) == same { assert ([l[0]] + t)[1..] == t; }
    }
  }

  /** Picking by one CPU and then by another. */
  lemma {:induction false} PickOther(cpu: seq<nat>, l: seq<nat>, c: nat, d: nat, same: bool)
    requires c != d
    ensures Pick(cpu, Pick(cpu, l, c, same), d, true) == if same then [] else Pick(cpu, l, d, true)
  {
    if l != [] {
      PickOther(cpu, l[1..], c, d, same);
      var t := Pick(cpu, l[1..], c, same);
      if (On(cpu, l[0]) == c) == same { assert ([l[0]] + t)[1..] == t; }
    }
  }

  /** Threads of one CPU get the lock in the order in which they came to wait. */
  lemma {:induction false} RegroupedFifoPerCpu(cpu: seq<nat>, l: seq<nat>, d: nat)
    ensures Pick(cpu, Regrouped(cpu, l), d, true) == Pick(cpu, l, d, true)
    decreases |l|
  {
    if l != [] {
      var c, t := On(cpu, l[0]), l[1..];
      var rest := Pick(cpu, t, c, false);
      RegroupedFifoPerCpu(cpu, rest, d);
      PickAdd(cpu, [l[0]] + Pick(cpu, t, c, true), Regrouped(cpu, rest), d, true);
      PickAdd(cpu, [l[0]], Pick(cpu, t, c, true), d, true);
      assert Pick(cpu, [l[0]], d, true) == if c == d then [l[0]] else [];
      if c == d {
        PickAgain(cpu, t, c, true);
        PickAgain(cpu, t, c, false);
      } else {
        PickOther(cpu, t, c, d, true);
        PickOther(cpu, t, c, d, false);
      }
    }
  }

  lemma {:induction false} PickAll(cpu: seq<nat>, l: seq<nat>, c: nat, same: bool)
    requires forall i: nat :: i < |l| ==> (On(cpu, l[i]) == c) == same
    ensures Pick(cpu, l, c, same) == l && Pick(cpu, l, c, !same) == []
  {
    if l != [] {
      assert forall i: nat :: i < |l[1..]| ==> l[1..][i] == l[i + 1];
      PickAll(cpu, l[1..], c, same);
      assert l == [l[0]] + l[1..];
    }
  }

  /** The parts of the order: the first record, the others of its CPU, and then none of its CPU. */
  lemma RegroupedParts(cpu: seq<nat>, l: seq<nat>)
    requires l != []
    ensures var c := On(cpu, l[0]);
            var same, rest := Pick(cpu, l[1..], c, true), Regrouped(cpu, Pick(cpu, l[1..], c, false));
            && Regrouped(cpu, l) == [l[0]] + same + rest
            && (forall i: nat :: i < |same| ==> On(cpu, same[i]) == c)
            && (forall i: nat :: i < |rest| ==> On(cpu, rest[i]) != c)
  {
    var c := On(cpu, l[0]);
    var same, others := Pick(cpu, l[1..], c, true), Pick(cpu, l[1..], c, false);
    forall i: nat | i < |same| ensures On(cpu, same[i]) == c { PickIn(cpu, l[1..], c, true, same[i]); }
    var rest := Regrouped(cpu, others);
    RegroupedOnce(cpu, others);
    forall i: nat | i < |rest| ensures On(cpu, rest[i]) != c
    {
      assert rest[i] in multiset(rest);
      PickIn(cpu, l[1..], c, false, rest[i]);
    }
  }

  /** Same-CPU records are sent one after another: between two records of one CPU there is none of another. */
  lemma {:induction false} RegroupedTogether(cpu: seq<nat>, l: seq<nat>, i: nat, j: nat, k: nat)
    requires i < j < k < |Regrouped(cpu, l)| && On(cpu, Regrouped(cpu, l)[i]) == On(cpu, Regrouped(cpu, l)[k])
    ensures On(cpu, Regrouped(cpu, l)[j]) == On(cpu, Regrouped(cpu, l)[i])
    decreases |l|
  {
    var c := On(cpu, l[0]);
    var same, others := Pick(cpu, l[1..], c, true), Pick(cpu, l[1..], c, false);
    RegroupedParts(cpu, l);
    var n := 1 + |same|;
    if i >= n { RegroupedTogether(cpu, others, i - n, j - n, k - n); }
  }

  /** The first record of each CPU, in the order in which they came. */
  function Heads(cpu: seq<nat>, l: seq<nat>): (h: seq<nat>)
    decreases |l|
  {
    if l == [] then [] else [l[0]] + Heads(cpu, Pick(cpu, l[1..], On(cpu, l[0]), false))
  }

  /** The CPUs come in the order of their first waiter. */
  lemma {:induction false} RegroupedByFirst(cpu: seq<nat>, l: seq<nat>)
    ensures Heads(cpu, Regrouped(cpu, l)) == Heads(cpu, l)
    decreases |l|
  {
    if l != [] {
      var c := On(cpu, l[0]);
      var same, others := Pick(cpu, l[1..], c, true), Pick(cpu, l[1..], c, false);
      var rest, r := Regrouped(cpu, others), Regrouped(cpu, l);
      RegroupedParts(cpu, l);
      assert r[0] == l[0] && r[1..] == same + rest;
      PickAdd(cpu, same, rest, c, false);
      PickAll(cpu, same, c, true);
      PickAll(cpu, rest, c, false);
      assert Pick(cpu, r[1..], c, false) == rest;
      RegroupedByFirst(cpu, others);
    }
  }

  /** What one more record adds. */
  lemma PickNext(cpu: seq<nat>, l: seq<nat>, k: nat, c: nat, same: bool)
    requires k < |l|
    ensures Pick(cpu, l[..k + 1], c, same) == Pick(cpu, l[..k], c, same)
            + (if (On(cpu, l[k]) == c) == same then [l[k]] else [])
  {
    assert l[..k + 1] == l[..k] + [l[k]];
    PickAdd(cpu, l[..k], [l[k]], c, same);
  }

  function Last(l: seq<nat>): (r: Option<nat>)
  {
    if l == [] then None else Some(l[|l| - 1])
  }

  /** The inner loop of wake_all() has kept some records and has others to visit; prev is the last one kept. */
  ghost predicate Scan(next: seq<Option<nat>>, kept: seq<nat>, todo: seq<nat>, head: Option<nat>, prev: Option<nat>)
  {
    Linked(next, kept + todo) && head == After(kept + todo, 0) && prev == Last(kept)
  }

  lemma ScanAt(next: seq<Option<nat>>, kept: seq<nat>, todo: seq<nat>, head: Option<nat>, prev: Option<nat>)
    requires Scan(next, kept, todo, head, prev) && todo != []
    ensures todo[0] < |next| && next[todo[0]] == After(todo, 1)
    ensures head == Some(todo[0]) <==> kept == []
  {
    var rest, m := kept + todo, |kept|;
    assert rest[m] == todo[0] && (1 < |todo| ==> rest[m + 1] == todo[1]);
    assert m > 0 ==> rest[0] != rest[m];
  }

  lemma ScanKeep(next: seq<Option<nat>>, kept: seq<nat>, todo: seq<nat>, head: Option<nat>, prev: Option<nat>)
    requires Scan(next, kept, todo, head, prev) && todo != []
    ensures Scan(next, kept + [todo[0]], todo[1..], head, Some(todo[0]))
  {
    assert (kept + [todo[0]]) + todo[1..] == kept + todo;
  }

  lemma ScanDropFirst(next: seq<Option<nat>>, todo: seq<nat>, head: Option<nat>, prev: Option<nat>)
    requires Scan(next, [], todo, head, prev) && todo != []
    ensures Scan(next, [], todo[1..], After(todo, 1), None)
  {
    assert [] + todo == todo && [] + todo[1..] == todo[1..];
    LinkedTail(next, todo);
  }

  lemma ScanDrop(next: seq<Option<nat>>, kept: seq<nat>, todo: seq<nat>, head: Option<nat>, prev: nat)
    requires Scan(next, kept, todo, head, Some(prev)) && kept != [] && todo != []
    ensures prev < |next| && todo[0] < |next| && Scan(next[prev := next[todo[0]]], kept, todo[1..], head, Some(prev))
  {
    var rest, m := kept + todo, |kept|;
    assert rest[m] == todo[0] && rest[m - 1] == prev;
    Unlink(next, rest, m);
    assert rest[..m] + rest[m + 1..] == kept + todo[1..];
  }

  /** A list is still linked after writes to other records. */
  lemma LinkedFrame(next: seq<Option<nat>>, next': seq<Option<nat>>, l: seq<nat>)
    requires Linked(next, l) && |next'| == |next| && forall i: nat :: i < |l| ==> next'[l[i]] == next[l[i]]
    ensures Linked(next', l)
  {
  }

  /** The record that was visited may be overwritten once it is out of the list. */
  lemma ScanFrame(next: seq<Option<nat>>, kept: seq<nat>, todo: seq<nat>, head: Option<nat>, prev: Option<nat>,
                  r: nat, v: Option<nat>)
    requires Scan(next, kept, todo, head, prev) && r < |next| && r !in kept && r !in todo
    ensures Scan(next[r := v], kept, todo, head, prev)
  {
    LinkedFrame(next, next[r := v], kept + todo);
  }

  lemma ScanApart(next: seq<Option<nat>>, kept: seq<nat>, todo: seq<nat>, head: Option<nat>, prev: Option<nat>)
    requires Scan(next, kept, todo, head, prev) && todo != []
    ensures todo[0] !in kept && todo[0] !in todo[1..]
  {
    var rest, m := kept + todo, |kept|;
    assert rest[m] == todo[0];
    forall i: nat | i < |rest| && i != m ensures rest[i] != todo[0] {}
    forall i: nat | i < |kept| ensures kept[i] != todo[0] { assert rest[i] == kept[i]; }
    forall i: nat | i < |todo[1..]| ensures todo[1..][i] != todo[0] { assert rest[m + 1 + i] == todo[1..][i]; }
  }

  /** One round of the inner loop of wake_all(): the record is sent the lock and unlinked, or kept. A record that was
      sent the lock belongs to the mutex, which links it as it likes: link(r) stands for what it writes. */
  method VisitRecord(next: array<Option<nat>>, same: bool, r: nat, head: Option<nat>, prev: Option<nat>,
                     link: nat -> Option<nat>, ghost kept: seq<nat>, ghost todo: seq<nat>)
    returns (nextr: Option<nat>, head': Option<nat>, prev': Option<nat>)
    requires Scan(next[..], kept, todo, head, prev) && todo != [] && r == todo[0]
    modifies next
    ensures nextr == After(todo, 1)
    ensures Scan(next[..], if same then kept else kept + [r], todo[1..], head', prev')
    ensures r < next.Length && next[r] == if same then link(r) else old(next[r])
    ensures forall x: nat {:trigger next[x]} :: x < next.Length && x !in kept && x != r ==> next[x] == old(next[x])
  {
    ScanAt(next[..], kept, todo, head, prev);
    ScanApart(next[..], kept, todo, head, prev);
    nextr, head', prev' := next[r], head, prev;
    ghost var n := next[..];
    if same {
      next[r] := link(r);
      assert next[..] == n[r := link(r)];
      if head == Some(r) {
        ScanDropFirst(n, todo, head, prev);
        head', prev' := nextr, None;
        ScanFrame(n, [], todo[1..], head', prev', r, link(r));
      } else {
        ScanDrop(n, kept, todo, head, prev.value);
        ScanFrame(n[prev.value := n[r]], kept, todo[1..], head, prev, r, link(r));
        next[prev.value] := nextr;
        assert next[..] == n[prev.value := n[r]][r := link(r)];
      }
    } else {
      ScanKeep(n, kept, todo, head, prev);
      prev' := Some(r);
    }
  }

  /** What the loops leave in memory: the records sent the lock as the mutex wrote them, the records outside the list
      as they were. */
  ghost predicate Handed(next: seq<Option<nat>>, next': seq<Option<nat>>, l: seq<nat>, sent: seq<nat>,
                         link: nat -> Option<nat>)
  {
    && |next'| == |next|
    && (forall x: nat {:trigger next'[x]} :: x < |next| && x in sent ==> next'[x] == link(x))
    && (forall x: nat {:trigger next'[x]} :: x < |next| && x !in l ==> next'[x] == next[x])
  }

  lemma HandedVisit(n0: seq<Option<nat>>, n1: seq<Option<nat>>, n2: seq<Option<nat>>, l: seq<nat>, sent: seq<nat>,
                    kept: seq<nat>, r: nat, same: bool, link: nat -> Option<nat>)
    requires Handed(n0, n1, l, sent, link) && |n2| == |n1| && r in l && r !in sent && r < |n2|
    requires forall x: nat :: x in kept ==> x in l && x !in sent
    requires n2[r] == if same then link(r) else n1[r]
    requires forall x: nat {:trigger n2[x]} :: x < |n2| && x !in kept && x != r ==> n2[x] == n1[x]
    ensures Handed(n0, n2, l, if same then sent + [r] else sent, link)
  {
  }

  /** The inner loop has visited the first k records of l. */
  ghost predicate Passed(n0: seq<Option<nat>>, n: seq<Option<nat>>, cpu: seq<nat>, l: seq<nat>, k: nat, c: nat,
                         sent: seq<nat>, kept: seq<nat>, link: nat -> Option<nat>)
  {
    Picked(cpu, l, k, c, sent, kept) && Handed(n0, n, l, sent, link)
  }

  lemma PassedNext(n0: seq<Option<nat>>, n1: seq<Option<nat>>, n2: seq<Option<nat>>, cpu: seq<nat>, l: seq<nat>, k: nat,
                   c: nat, sent: seq<nat>, kept: seq<nat>, link: nat -> Option<nat>)
    requires Passed(n0, n1, cpu, l, k, c, sent, kept, link) && NoDup(l) && k < |l| && l[k] < |n2| == |n1|
    requires n2[l[k]] == if On(cpu, l[k]) == c then link(l[k]) else n1[l[k]]
    requires forall x: nat {:trigger n2[x]} :: x < |n2| && x !in kept && x != l[k] ==> n2[x] == n1[x]
    ensures On(cpu, l[k]) == c ==> Passed(n0, n2, cpu, l, k + 1, c, sent + [l[k]], kept, link)
    ensures On(cpu, l[k]) != c ==> Passed(n0, n2, cpu, l, k + 1, c, sent, kept + [l[k]], link)
  {
    StillAlive(cpu, l, k, c, sent, kept);
    PickedNext(cpu, l, k, c, sent, kept);
    HandedVisit(n0, n1, n2, l, sent, kept, l[k], On(cpu, l[k]) == c, link);
  }

  /** The round of the inner loop for record k of l. */
  method VisitNext(next: array<Option<nat>>, cpu: seq<nat>, c: nat, r: nat, head: Option<nat>, prev: Option<nat>,
                   link: nat -> Option<nat>, sent: seq<nat>,
                   ghost n0: seq<Option<nat>>, ghost l: seq<nat>, ghost k: nat, ghost kept: seq<nat>)
    returns (nextr: Option<nat>, head': Option<nat>, prev': Option<nat>, sent': seq<nat>, ghost kept': seq<nat>)
    requires k < |l| && r == l[k] && NoDup(l) && next.Length == |cpu| && Scan(next[..], kept, l[k..], head, prev)
    requires Passed(n0, next[..], cpu, l, k, c, sent, kept, link)
    modifies next
    ensures nextr == After(l, k + 1) && Scan(next[..], kept', l[k + 1..], head', prev')
    ensures Passed(n0, next[..], cpu, l, k + 1, c, sent', kept', link)
  {
    Shorter(l, k);
    ScanAt(next[..], kept, l[k..], head, prev);
    var same := cpu[r] == c;
    ghost var n := next[..];
    nextr, head', prev' := VisitRecord(next, same, r, head, prev, link, kept, l[k..]);
    PassedNext(n0, n, next[..], cpu, l, k, c, sent, kept, link);
    sent' := if same then sent + [r] else sent;
    kept' := if same then kept else kept + [r];
  }

  /** The inner loop of wake_all(): sends the lock to all records of CPU c and unlinks them. It neither reads nor writes
      a record that was sent the lock: its result does not depend on `link`, and what the mutex wrote stays. */
  method SendSameCpu(next: array<Option<nat>>, cpu: seq<nat>, c: nat, head: Option<nat>, link: nat -> Option<nat>,
                     ghost l: seq<nat>)
    returns (head': Option<nat>, sent: seq<nat>)
    requires Linked(next[..], l) && head == After(l, 0) && next.Length == |cpu|
    modifies next
    ensures sent == Pick(cpu, l, c, true)
    ensures Linked(next[..], Pick(cpu, l, c, false)) && head' == After(Pick(cpu, l, c, false), 0)
    ensures Handed(old(next[..]), next[..], l, sent, link)
  {
    head', sent := head, [];
    var r, prev: Option<nat> := head, None;
    ghost var k: nat, kept: seq<nat> := 0, [];
    assert l[..0] == [] && [] + l[0..] == l;
    while r.Some?
      invariant k <= |l| && r == After(l, k) && Scan(next[..], kept, l[k..], head', prev)
      invariant Passed(old(next[..]), next[..], cpu, l, k, c, sent, kept, link)
      decreases |l| - k
    {
      r, head', prev, sent, kept := VisitNext(next, cpu, c, r.value, head', prev, link, sent, old(next[..]), l, k,
                                              kept);
      k := k + 1;
    }
    PickedAll(cpu, l, c, sent, kept);
    assert Linked(next[..], Pick(cpu, l, c, false));
  }

  lemma Shorter(l: seq<nat>, k: nat)
    requires k < |l|
    ensures l[k..] != [] && l[k..][0] == l[k] && l[k..][1..] == l[k + 1..] && After(l[k..], 1) == After(l, k + 1)
  {
  }

  lemma PickedAll(cpu: seq<nat>, l: seq<nat>, c: nat, sent: seq<nat>, kept: seq<nat>)
    requires Picked(cpu, l, |l|, c, sent, kept)
    ensures sent == Pick(cpu, l, c, true) && kept == Pick(cpu, l, c, false) && kept + l[|l|..] == kept
  {
    assert l[..|l|] == l;
  }

  ghost predicate Picked(cpu: seq<nat>, l: seq<nat>, k: nat, c: nat, sent: seq<nat>, kept: seq<nat>)
  {
    k <= |l| && sent == Pick(cpu, l[..k], c, true) && kept == Pick(cpu, l[..k], c, false)
  }

  lemma PickedNext(cpu: seq<nat>, l: seq<nat>, k: nat, c: nat, sent: seq<nat>, kept: seq<nat>)
    requires Picked(cpu, l, k, c, sent, kept) && k < |l|
    ensures On(cpu, l[k]) == c ==> Picked(cpu, l, k + 1, c, sent + [l[k]], kept)
    ensures On(cpu, l[k]) != c ==> Picked(cpu, l, k + 1, c, sent, kept + [l[k]])
  {
    PickNext(cpu, l, k, c, true);
    PickNext(cpu, l, k, c, false);
  }

  /** Neither a record not yet visited nor one that was kept was sent the lock. */
  lemma StillAlive(cpu: seq<nat>, l: seq<nat>, k: nat, c: nat, sent: seq<nat>, kept: seq<nat>)
    requires NoDup(l) && k < |l| && Picked(cpu, l, k, c, sent, kept)
    ensures l[k] !in sent && forall x: nat :: x in kept ==> x in l && x !in sent
  {
    if l[k] in sent {
      PickIn(cpu, l[..k], c, true, l[k]);
    }
    forall x: nat | x in kept ensures x in l && x !in sent
    {
      PickIn(cpu, l[..k], c, false, x);
      if x in sent { PickIn(cpu, l[..k], c, true, x); }
    }
  }

  lemma {:induction false} PickIn(cpu: seq<nat>, l: seq<nat>, c: nat, same: bool, x: nat)
    requires x in Pick(cpu, l, c, same)
    ensures x in l && (On(cpu, x) == c) == same
  {
    if (On(cpu, l[0]) == c) == same && x == l[0] {
    } else {
      PickIn(cpu, l[1..], c, same, x);
    }
  }

  /** What one round of wake_all() sends and what it leaves. */
  lemma RoundApart(cpu: seq<nat>, rest: seq<nat>, l: seq<nat>, sent: seq<nat>)
    requires rest != [] && NoDup(rest) && SplitOf(l, sent, rest)
    ensures var t, c := rest[1..], On(cpu, rest[0]);
            SplitOf(l, sent + [rest[0]] + Pick(cpu, t, c, true), Pick(cpu, t, c, false))
    ensures rest[0] !in rest[1..] && forall x: nat :: x in sent ==> x !in rest[1..]
  {
    var t, c := rest[1..], On(cpu, rest[0]);
    assert rest == [rest[0]] + t;
    var s, q := Pick(cpu, t, c, true), Pick(cpu, t, c, false);
    forall x: nat ensures x in t <==> x in s || x in q { PickSplits(cpu, t, c); assert x in multiset(t) <==> x in t; }
    forall x: nat
      ensures !(x in s && x in q)
    {
      if x in s && x in q { PickIn(cpu, t, c, true, x); PickIn(cpu, t, c, false, x); }
    }
  }

  /** The records of l are those sent the lock and those left over. */
  ghost predicate SplitOf(l: seq<nat>, sent: seq<nat>, rest: seq<nat>)
  {
    && (forall x: nat :: x in l <==> x in sent || x in rest)
    && (forall x: nat :: x in sent ==> x !in rest)
  }

  /** Two rounds leave in memory what both leave. */
  lemma HandedTwice(n0: seq<Option<nat>>, n1: seq<Option<nat>>, n2: seq<Option<nat>>, l: seq<nat>, sent: seq<nat>,
                    l1: seq<nat>, more: seq<nat>, link: nat -> Option<nat>)
    requires Handed(n0, n1, l, sent, link) && Handed(n1, n2, l1, more, link)
    requires (forall x: nat :: x in l1 ==> x in l) && (forall x: nat :: x in sent ==> x !in l1)
    ensures Handed(n0, n2, l, sent + more, link)
  {
  }

  /** One round of wake_all(): the first record and all others of its CPU. */
  method SendRound(next: array<Option<nat>>, cpu: seq<nat>, wr: nat, link: nat -> Option<nat>, ghost rest: seq<nat>)
    returns (nextWr: Option<nat>, sent: seq<nat>)
    requires Linked(next[..], rest) && rest != [] && wr == rest[0] && next.Length == |cpu|
    modifies next
    ensures var t, c := rest[1..], On(cpu, rest[0]);
            && sent == [rest[0]] + Pick(cpu, t, c, true)
            && Linked(next[..], Pick(cpu, t, c, false)) && nextWr == After(Pick(cpu, t, c, false), 0)
    ensures Handed(old(next[..]), next[..], rest, sent, link)
  {
    ghost var t, n := rest[1..], next[..];
    LinkedTail(n, rest);
    assert rest == [rest[0]] + t && rest[0] !in t;
    nextWr := next[wr];
    var c := cpu[wr];
    next[wr] := link(wr);
    LinkedFrame(n, next[..], t);
    var more;
    nextWr, more := SendSameCpu(next, cpu, c, nextWr, link, t);
    sent := [wr] + more;
    forall x: nat | x in more ensures x in t { PickIn(cpu, t, c, true, x); }
  }

  /** wake_all() has sent the lock to some records and has the others still to do. */
  ghost predicate Sending(n0: seq<Option<nat>>, n: seq<Option<nat>>, cpu: seq<nat>, l: seq<nat>, sent: seq<nat>,
                          rest: seq<nat>, link: nat -> Option<nat>)
  {
    SplitOf(l, sent, rest) && sent + Regrouped(cpu, rest) == Regrouped(cpu, l) && Handed(n0, n, l, sent, link)
  }

  lemma SendingNext(n0: seq<Option<nat>>, n1: seq<Option<nat>>, n2: seq<Option<nat>>, cpu: seq<nat>, l: seq<nat>,
                    sent: seq<nat>, rest: seq<nat>, more: seq<nat>, link: nat -> Option<nat>)
    requires Sending(n0, n1, cpu, l, sent, rest, link) && rest != [] && NoDup(rest)
    requires more == [rest[0]] + Pick(cpu, rest[1..], On(cpu, rest[0]), true) && Handed(n1, n2, rest, more, link)
    ensures Sending(n0, n2, cpu, l, sent + more, Pick(cpu, rest[1..], On(cpu, rest[0]), false), link)
  {
    RoundApart(cpu, rest, l, sent);
    HandedTwice(n0, n1, n2, l, sent, rest, more, link);
    var t, c := rest[1..], On(cpu, rest[0]);
    assert sent + more == sent + [rest[0]] + Pick(cpu, t, c, true);
    assert Regrouped(cpu, rest) == more + Regrouped(cpu, Pick(cpu, t, c, false));
    assert sent + Regrouped(cpu, rest) == sent + more + Regrouped(cpu, Pick(cpu, t, c, false));
  }

  /** wake_all() after it has taken the list: sends the lock to every record, grouped by CPU, without touching a record
      afterwards or any record outside the list. */
  method SendAll(next: array<Option<nat>>, cpu: seq<nat>, first: Option<nat>, link: nat -> Option<nat>,
                 ghost l: seq<nat>)
    returns (sent: seq<nat>)
    requires Linked(next[..], l) && first == After(l, 0) && next.Length == |cpu|
    modifies next
    ensures sent == Regrouped(cpu, l)
    ensures Handed(old(next[..]), next[..], l, l, link)
  {
    sent := [];
    var wr := first;
    ghost var rest := l;
    while wr.Some?
      invariant wr == After(rest, 0) && Linked(next[..], rest)
      invariant Sending(old(next[..]), next[..], cpu, l, sent, rest, link)
      decreases |rest|
    {
      var more;
      ghost var n := next[..];
      wr, more := SendRound(next, cpu, wr.value, link, rest);
      SendingNext(old(next[..]), n, next[..], cpu, l, sent, rest, more, link);
      sent := sent + more;
      rest := Pick(cpu, rest[1..], On(cpu, rest[0]), false);
    }
  }

  // ----------------------------------------------------------------------------------------
  // The condition variable
  // ----------------------------------------------------------------------------------------

  lemma {:induction false} RemoveMembers(l: seq<nat>, r: nat, x: nat)
    requires NoDup(l)
    ensures x in Remove(l, r) <==> x in l && x != r
  {
    if l != [] {
      assert l == [l[0]] + l[1..];
      RemoveMembers(l[1..], r, x);
    }
  }

  lemma {:induction false} RemoveKeepsNoDup(l: seq<nat>, r: nat)
    requires NoDup(l)
    ensures NoDup(Remove(l, r))
  {
    if l != [] && l[0] != r {
      var t := l[1..];
      RemoveKeepsNoDup(t, r);
      forall i: nat | i < |Remove(t, r)| ensures Remove(t, r)[i] != l[0]
      {
        RemoveMembers(t, r, Remove(t, r)[i]);
      }
    }
  }

  /** The links after a record has joined list l. */
  ghost function Joined(next: seq<Option<nat>>, l: seq<nat>, r: nat): (next': seq<Option<nat>>)
    requires Linked(next, l) && r < |next|
  {
    if l == [] then next[r := None] else next[r := None][l[|l| - 1] := Some(r)]
  }

  /** The position of a record in a list. */
  function Index(l: seq<nat>, r: nat): (k: nat)
    ensures k <= |l| && (k < |l| <==> r in l) && (k < |l| ==> l[k] == r)
  {
    if l == [] || l[0] == r then 0 else 1 + Index(l[1..], r)
  }

  /** The links after a record has been taken out of list l. */
  ghost function Parted(next: seq<Option<nat>>, l: seq<nat>, r: nat): (next': seq<Option<nat>>)
    requires Linked(next, l)
  {
    var k := Index(l, r);
    if 0 < k < |l| then next[l[k - 1] := next[r]] else next
  }

  /** A new record goes behind the last one. */
  lemma Append(next: seq<Option<nat>>, l: seq<nat>, r: nat)
    requires Linked(next, l) && r < |next| && r !in l
    ensures Linked(Joined(next, l, r), l + [r])
  {
    var l' := l + [r];
    var next' := Joined(next, l, r);
    forall i: nat | i < |l'| ensures l'[i] < |next'| && next'[l'[i]] == After(l', i + 1)
    {
      assert i < |l| ==> l'[i] == l[i];
    }
  }

  /** Taking out the first record moves the head, and clears the tail when it was the only one. */
  lemma RemoveFirst(next: seq<Option<nat>>, l: seq<nat>)
    requires Linked(next, l) && l != []
    ensures l[0] < |next| && Linked(next, Remove(l, l[0])) && Remove(l, l[0]) == l[1..]
    ensures next[l[0]] == After(Remove(l, l[0]), 0) && (if next[l[0]].None? then None else Last(l))
            == Last(Remove(l, l[0]))
  {
    RemoveAt(l, 0);
    LinkedTail(next, l);
  }

  /** Taking out a later record keeps the head, and moves the tail when it was the last one. */
  lemma RemoveBehind(next: seq<Option<nat>>, l: seq<nat>, k: nat)
    requires Linked(next, l) && k + 1 < |l|
    ensures l[k] < |next| && l[k + 1] < |next|
    ensures Linked(next[l[k] := next[l[k + 1]]], Remove(l, l[k + 1])) && After(Remove(l, l[k + 1]), 0) == After(l, 0)
    ensures (if next[l[k + 1]].None? then Some(l[k]) else Last(l)) == Last(Remove(l, l[k + 1]))
  {
    RemoveAt(l, k + 1);
    Unlink(next, l, k + 1);
    EndsAfter(l, k);
    assert next[l[k + 1]] == After(l, k + 2);
  }

  lemma EndsAfter(l: seq<nat>, k: nat)
    requires k + 1 < |l|
    ensures var l' := l[..k + 1] + l[k + 2..];
            && After(l', 0) == After(l, 0)
            && Last(l') == if k + 2 < |l| then Last(l) else Some(l[k])
  {
  }

  /** What happened to the queue: a thread came to wait with a mutex, a record left by its timeout, records were
      woken. */
  datatype Event = Came(r: nat, mutex: nat) | Expired(r: nat) | Woke(rs: seq<nat>)

  /** The queue as its callers see it: the records waiting, in order; those that ever waited, were woken, timed out; and
      what happened so far. */
  datatype Queue = Queue(fifo: seq<nat>, waited: set<nat>, woken: set<nat>, timedOut: set<nat>, events: seq<Event>)

  const NOBODY := Queue([], {}, {}, {}, [])

  function Members(l: seq<nat>): (m: set<nat>)
  {
    set r: nat | r in l
  }

  function Join(q: Queue, r: nat, mutex: nat): (q': Queue)
  {
    q.(fifo := q.fifo + [r], waited := q.waited + {r}, events := q.events + [Came(r, mutex)])
  }

  function TimesOut(q: Queue, r: nat): (q': Queue)
  {
    if r !in q.fifo then q
    else q.(fifo := Remove(q.fifo, r), timedOut := q.timedOut + {r}, events := q.events + [Expired(r)])
  }

  function WakeFirst(q: Queue): (q': Queue)
  {
    if q.fifo == [] then q
    else q.(fifo := q.fifo[1..], woken := q.woken + {q.fifo[0]}, events := q.events + [Woke([q.fifo[0]])])
  }

  function WakeEvery(q: Queue): (q': Queue)
  {
    q.(fifo := [], woken := q.woken + Members(q.fifo), events := q.events + [Woke(q.fifo)])
  }

  /** Every record that ever waited is in the queue, or was woken, or timed out: exactly one of the three. */
  ghost predicate Accounted(q: Queue, r: nat)
  {
    && (r in q.waited <==> r in q.fifo || r in q.woken || r in q.timedOut)
    && !(r in q.fifo && r in q.woken) && !(r in q.fifo && r in q.timedOut) && !(r in q.woken && r in q.timedOut)
  }

  ghost predicate Ledger(q: Queue)
  {
    NoDup(q.fifo) && forall r: nat {:trigger Accounted(q, r)} :: Accounted(q, r)
  }

  lemma LedgerWait(q: Queue, r: nat, mutex: nat)
    requires Ledger(q) && r !in q.waited
    ensures r !in q.fifo && Ledger(Join(q, r, mutex))
  {
    assert Accounted(q, r);
    forall x: nat ensures Accounted(Join(q, r, mutex), x) { assert Accounted(q, x); }
  }

  /** A record leaves the queue by its own timeout. */
  lemma LedgerTimeOut(q: Queue, r: nat)
    requires Ledger(q)
    ensures Ledger(TimesOut(q, r))
  {
    if r in q.fifo {
      var q' := TimesOut(q, r);
      RemoveKeepsNoDup(q.fifo, r);
      forall x: nat ensures Accounted(q', x) { assert Accounted(q, x); RemoveMembers(q.fifo, r, x); }
    }
  }

  /** The first record leaves the queue because it is woken. */
  lemma LedgerWake(q: Queue)
    requires Ledger(q)
    ensures Ledger(WakeFirst(q))
  {
    if q.fifo != [] {
      var q' := WakeFirst(q);
      RemoveKeepsNoDup(q.fifo, q.fifo[0]);
      forall x: nat ensures Accounted(q', x) { assert Accounted(q, x); RemoveMembers(q.fifo, q.fifo[0], x); }
    }
  }

  lemma LedgerWakeAll(q: Queue)
    requires Ledger(q)
    ensures Ledger(WakeEvery(q))
  {
    forall x: nat ensures Accounted(WakeEvery(q), x) { assert Accounted(q, x); }
  }

  // ----------------------------------------------------------------------------------------
  // The remembered mutex
  // ----------------------------------------------------------------------------------------

  /** The mutex of the thread that came last. */
  function LastMutex(events: seq<Event>): (m: Option<nat>)
  {
    if events == [] then None
    else
      var e := events[|events| - 1];
      if e.Came? then Some(e.mutex) else LastMutex(events[..|events| - 1])
  }

  /** Nobody waits, and the last to find or leave it so was a wake-up. */
  predicate EmptiedByWake(q: Queue)
  {
    q.fifo == [] && q.events != [] && q.events[|q.events| - 1].Woke?
  }

  /** Nobody waits, a timeout emptied the queue, and no wake-up has found it so since. */
  predicate EmptiedByTimeout(q: Queue)
  {
    q.fifo == [] && q.events != [] && q.events[|q.events| - 1].Expired?
  }

  /** The mutex that wait() asserts to be its own: forgotten only by a wake-up that leaves nobody waiting. */
  function Remembered(q: Queue): (m: Option<nat>)
  {
    if EmptiedByWake(q) then None else LastMutex(q.events)
  }

  /** The events tell what the queue is like: somebody waits only after somebody came, and an empty queue that was ever
      joined was emptied by a wake-up or by a timeout. */
  predicate Told(q: Queue)
  {
    && (q.fifo != [] ==> LastMutex(q.events).Some?)
    && (q.fifo == [] ==> q.events == [] || EmptiedByWake(q) || EmptiedByTimeout(q))
  }

  lemma CameTells(q: Queue, r: nat, mutex: nat)
    requires Told(q)
    ensures Told(Join(q, r, mutex)) && Remembered(Join(q, r, mutex)) == Some(mutex)
  {
  }

  /** A timeout forgets nothing. */
  lemma ExpiredTells(q: Queue, r: nat)
    requires Told(q)
    ensures Told(TimesOut(q, r)) && Remembered(TimesOut(q, r)) == Remembered(q)
  {
    assert (q.events + [Expired(r)])[..|q.events|] == q.events;
  }

  lemma WokeTells(q: Queue)
    requires Told(q) && q.fifo != []
    ensures Told(WakeFirst(q)) && Remembered(WakeFirst(q)) == if |q.fifo| == 1 then None else Remembered(q)
  {
    assert (q.events + [Woke([q.fifo[0]])])[..|q.events|] == q.events;
  }

  lemma WokeAllTells(q: Queue)
    requires Told(q)
    ensures Told(WakeEvery(q)) && Remembered(WakeEvery(q)) == None
  {
  }

  /** The thread that came last had another mutex, and somebody is still waiting or a timeout emptied the queue. */
  predicate LeftBehind(q: Queue, mutex: nat)
  {
    LastMutex(q.events).Some? && LastMutex(q.events).value != mutex && (q.fifo != [] || EmptiedByTimeout(q))
  }

  /** That is exactly when the remembered mutex is there and is another one. */
  lemma LeftBehindExactly(q: Queue, mutex: nat)
    requires Told(q)
    ensures LeftBehind(q, mutex) <==> Remembered(q).Some? && Remembered(q).value != mutex
  {
  }

  /** The pointers of the queue and the links of its records give the list l. */
  ghost predicate Shaped(next: seq<Option<nat>>, oldest: Option<nat>, newest: Option<nat>, l: seq<nat>)
  {
    Linked(next, l) && oldest == After(l, 0) && newest == Last(l)
  }

  class WaitQueue {
    const next: array<Option<nat>>
    const cpu: seq<nat>
    var oldest: Option<nat>
    var newest: Option<nat>
    var userMutex: Option<nat>
    ghost var q: Queue

    ghost predicate Valid()
      reads this, next
    {
      && next.Length == |cpu| && Shaped(next[..], oldest, newest, q.fifo) && Ledger(q)
      && Told(q) && userMutex == Remembered(q)
    }

    constructor (cpus: seq<nat>)
      ensures Valid() && fresh(next) && cpu == cpus && q == NOBODY
    {
      cpu := cpus;
      next := new Option<nat>[|cpus|](_ => None);
      oldest, newest, userMutex, q := None, None, None, NOBODY;
    }

    /** The record goes behind the last one. */
    method Enqueue(r: nat)
      requires Shaped(next[..], oldest, newest, q.fifo) && r < next.Length && r !in q.fifo
      modifies `oldest, `newest, next
      ensures Shaped(next[..], oldest, newest, q.fifo + [r]) && next[..] == Joined(old(next[..]), q.fifo, r)
    {
      ghost var n, l := next[..], q.fifo;
      Append(n, l, r);
      next[r] := None;
      if oldest.None? {
        oldest := Some(r);
      } else {
        next[newest.value] := Some(r);
      }
      assert next[..] == Joined(n, l, r);
      newest := Some(r);
    }

    /** The queueing part of wait(); ok is its assertion about the mutex. It fails also for a thread that waits alone,
        when a timeout emptied the queue before. */
    method Wait(r: nat, mutex: nat) returns (ok: bool)
      requires Valid() && r < |cpu| && r !in q.waited
      modifies this, next
      ensures Valid() && q == Join(old(q), r, mutex)
      ensures !ok <==> LeftBehind(old(q), mutex)
      ensures next[..] == Joined(old(next[..]), old(q).fifo, r)
    {
      LedgerWait(q, r, mutex);
      CameTells(q, r, mutex);
      LeftBehindExactly(q, mutex);
      Enqueue(r);
      ok := userMutex.None? || userMutex == Some(mutex);
      userMutex := Some(mutex);
      q := Join(q, r, mutex);
    }

    /** The removal of a record whose wait timed out: whether it was still in the queue. The mutex stays remembered. */
    method TimeOut(r: nat) returns (removed: bool)
      requires Valid() && r in q.waited
      modifies this, next
      ensures Valid() && removed == (r in old(q).fifo) && q == TimesOut(old(q), r)
      ensures next[..] == Parted(old(next[..]), old(q).fifo, r)
    {
      LedgerTimeOut(q, r);
      ExpiredTells(q, r);
      ghost var q' := TimesOut(q, r);
      removed := Dequeue(r);
      q := q';
    }

    /** The search for the record in wait(), and its removal. */
    method Dequeue(r: nat) returns (removed: bool)
      requires Shaped(next[..], oldest, newest, q.fifo)
      modifies `oldest, `newest, next
      ensures removed == (r in q.fifo) && Shaped(next[..], oldest, newest, TimesOut(q, r).fifo)
      ensures next[..] == Parted(old(next[..]), q.fifo, r)
    {
      if oldest == Some(r) {
        UnqueueFirst();
        return true;
      }
      removed := Unqueue(r);
    }

    /** The removal of the first record. */
    method UnqueueFirst()
      requires Shaped(next[..], oldest, newest, q.fifo) && q.fifo != []
      modifies `oldest, `newest
      ensures Shaped(next[..], oldest, newest, q.fifo[1..]) && Remove(q.fifo, q.fifo[0]) == q.fifo[1..]
    {
      RemoveFirst(next[..], q.fifo);
      oldest := next[oldest.value];
      if oldest.None? {
        newest := None;
      }
    }

    /** The search for the record before r, which is not the first one. */
    method Predecessor(r: nat) returns (p: Option<nat>, ghost k: nat)
      requires Linked(next[..], q.fifo) && oldest == After(q.fifo, 0) && oldest != Some(r)
      ensures p.Some? ==> k + 1 < |q.fifo| && q.fifo[k] == p.value && q.fifo[k + 1] == r
      ensures p.None? ==> r !in q.fifo
    {
      p, k := oldest, 0;
      while p.Some? && next[p.value] != Some(r)
        invariant k <= |q.fifo| && p == After(q.fifo, k)
        invariant forall i: nat :: i <= k && i < |q.fifo| ==> q.fifo[i] != r
        decreases |q.fifo| - k
      {
        p := next[p.value];
        k := k + 1;
      }
    }

    /** The removal of a record behind the first one. */
    method Unqueue(r: nat) returns (removed: bool)
      requires Shaped(next[..], oldest, newest, q.fifo) && oldest != Some(r)
      modifies `newest, next
      ensures removed == (r in q.fifo)
      ensures Shaped(next[..], oldest, newest, if removed then Remove(q.fifo, r) else q.fifo)
      ensures next[..] == Parted(old(next[..]), q.fifo, r)
    {
      var p;
      ghost var k;
      p, k := Predecessor(r);
      if p.None? {
        return false;
      }
      RemoveBehind(next[..], q.fifo, k);
      ghost var n := next[..];
      next[p.value] := next[r];
      assert next[..] == n[p.value := n[r]];
      if next[p.value].None? {
        newest := p;
      }
      return true;
    }

    /** The lock is sent to the first record, which is not in the queue any more. */
    method SendLock(r: nat, link: Option<nat>)
      requires q.fifo != [] && NoDup(q.fifo) && r == q.fifo[0] < next.Length
      requires Shaped(next[..], oldest, newest, q.fifo[1..])
      modifies next
      ensures next[..] == old(next[..])[r := link] && Shaped(next[..], oldest, newest, q.fifo[1..])
    {
      ghost var n, l := next[..], q.fifo;
      assert l == [l[0]] + l[1..] && l[0] !in l[1..];
      next[r] := link;
      LinkedFrame(n, next[..], l[1..]);
    }

    /** wake_one(): the lock is sent to the record that has waited longest; `link` is what the mutex writes to it.
        `seen`: whether its check outside the mutex saw a record, which may be out of date. */
    method WakeOne(seen: bool, link: Option<nat>) returns (r: Option<nat>)
      requires Valid()
      modifies this, next
      ensures Valid() && (if seen then r == After(old(q).fifo, 0) && q == WakeFirst(old(q)) else r.None? && q == old(q))
      ensures forall x: nat :: x < next.Length && Some(x) != r ==> next[x] == old(next[x])
      ensures r.Some? ==> r.value < next.Length && next[r.value] == link
    {
      if !seen {
        return None;
      }
      LedgerWake(q);
      r := oldest;
      if r.Some? {
        WokeTells(q);
        UnqueueFirst();
        SendLock(r.value, link);
        if oldest.None? {
          userMutex := None;
        }
      }
      q := WakeFirst(q);
    }

    /** wake_all(): the whole queue is taken, and every record in it is sent the lock once. Past its check it forgets
        the mutex even when a timeout has emptied the queue meanwhile. */
    method WakeAll(seen: bool, link: nat -> Option<nat>) returns (sent: seq<nat>)
      requires Valid()
      modifies this, next
      ensures Valid() && q == (if seen then WakeEvery(old(q)) else old(q))
      ensures sent == if seen then Regrouped(cpu, old(q).fifo) else []
      ensures Handed(old(next[..]), next[..], old(q).fifo, if seen then old(q).fifo else [], link)
    {
      sent := [];
      if !seen {
        return;
      }
      LedgerWakeAll(q);
      WokeAllTells(q);
      var wr := oldest;
      userMutex, oldest, newest := None, None, None;
      ghost var l := q.fifo;
      q := WakeEvery(q);
      sent := SendAll(next, cpu, wr, link, l);
    }
  }

  /** A timeout leaves its mutex behind: a thread that then waits alone with another one fails the assertion. */
  method TimeoutLeavesMutex() returns (first: bool, second: bool)
    ensures first && !second
  {
    var w := new WaitQueue([0, 0]);
    first := w.Wait(0, 7);
    var _ := w.TimeOut(0);
    assert w.q.fifo == [];
    second := w.Wait(1, 8);
  }

  /** A wake-up does not: the same threads pass when the first one was woken. */
  method WakeForgetsMutex() returns (first: bool, second: bool)
    ensures first && second
  {
    var w := new WaitQueue([0, 0]);
    first := w.Wait(0, 7);
    var _ := w.WakeOne(true, None);
    second := w.Wait(1, 8);
  }
}
