/** What several modules share: optional values, lists without repetition, powers of two and remainders. */
module Common {

  datatype Option<T> = None | Some(value: T)

  ghost predicate NoDup(l: seq<nat>)
  {
    forall i: nat, j: nat :: i < j < |l| ==> l[i] != l[j]
  }

  function Pow2(k: nat): (r: nat)
    ensures r >= 1
  {
    if k == 0 then 1 else 2 * Pow2(k - 1)
  }

  /** Two numbers less than n apart have different remainders. */
  lemma ModDistinct(a: nat, b: nat, n: nat)
    requires n > 0 && a < b < a + n
    ensures a % n != b % n
  {
    var k := b / n - a / n;
    assert b - a == k * n + (b % n - a % n);
    assert k >= 1 ==> k * n >= n;
    assert k <= 0 ==> k * n <= 0;
  }

  lemma MulMod(q: int, m: nat)
    requires m > 0
    ensures (q * m) % m == 0
  {
    var d, r := (q * m) / m, (q * m) % m;
    var k := q - d;
    assert k * m == r;
    assert k >= 1 ==> k * m >= m;
    assert k <= -1 ==> k * m + m <= 0;
  }
}
