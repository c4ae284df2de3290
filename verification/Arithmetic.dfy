/**
 Products, quotients, remainders and sums that the solver does not settle by itself.
*/
module Arithmetic {

  lemma MulMono(a: int, b: int, n: nat)
    requires a <= b
    ensures a * n <= b * n
    ensures 0 <= a ==> 0 <= a * n
  {
    assert b * n - a * n == (b - a) * n;
  }

  lemma DivUnique(x: nat, n: nat, q: nat, r: nat)
    requires r < n && x == q * n + r
    ensures x / n == q && x % n == r
  {
    var q', r' := x / n, x % n;
    assert x == q' * n + r';
    if q' < q {
      MulMono(q' + 1, q, n);
    } else if q < q' {
      MulMono(q + 1, q', n);
    }
  }

  lemma MultiplePlus(x: nat, n: nat, i: nat)
    requires n > 0 && x % n == 0 && i < n
    ensures (x + i) % n == i && (x + n) % n == 0
  {
    assert x == (x / n) * n;
    DivUnique(x + i, n, x / n, i);
    DivUnique(x + n, n, x / n + 1, 0);
  }

  lemma SumOfMultiples(a: nat, b: nat, m: nat)
    requires m > 0 && a % m == 0 && b % m == 0
    ensures (a + b) % m == 0
  {
    assert a == (a / m) * m && b == (b / m) * m;
    DivUnique(a + b, m, a / m + b / m, 0);
  }

  lemma DifferenceOfMultiples(a: nat, b: nat, m: nat)
    requires m > 0 && a % m == 0 && b % m == 0 && b <= a
    ensures (a - b) % m == 0
  {
    assert a == (a / m) * m && b == (b / m) * m;
    if a / m < b / m {
      MulMono(a / m + 1, b / m, m);
    }
    DivUnique(a - b, m, a / m - b / m, 0);
  }

  lemma RoundUp(x: nat, n: nat)
    requires n > 0
    ensures (x + (n - x % n)) % n == 0
  {
    assert x == (x / n) * n + x % n;
    DivUnique(x + (n - x % n), n, x / n + 1, 0);
  }

  // ---------- even parts ----------

  function Ceil(a: nat, b: nat): nat
    requires b > 0
  {
    (a + b - 1) / b
  }

  lemma CeilBounds(a: nat, b: nat)
    requires b > 0
    ensures a <= Ceil(a, b) * b < a + b
  {
    var x := a + b - 1;
    assert x == (x / b) * b + x % b;
  }

  lemma CeilPositive(a: nat, b: nat)
    requires b > 0 && a > 0
    ensures Ceil(a, b) > 0
  {
    CeilBounds(a, b);
  }

  lemma CeilIs(n: nat, size: nat, c: nat)
    requires size > 0 && (c - 1) * size < n <= c * size
    ensures Ceil(n, size) == c
  {
    CeilBounds(n, size);
    var d := Ceil(n, size);
    if d < c {
      MulMono(d, c - 1, size);
    } else if c < d {
      MulMono(c, d - 1, size);
    }
  }

  lemma CeilLess(n: nat, size: nat)
    requires 0 < size < n
    ensures Ceil(n, size) == Ceil(n - size, size) + 1
  {
    var c := Ceil(n - size, size);
    CeilBounds(n - size, size);
    assert (c + 1 - 1) * size == (c - 1) * size + size && (c + 1) * size == c * size + size;
    CeilIs(n, size, c + 1);
  }

  /** `np.array_split`: where part i starts. The first len % n parts have one more than the others. */
  function PartStart(len: nat, n: nat, i: nat): nat
    requires n > 0
  {
    i * (len / n) + if i < len % n then i else len % n
  }

  lemma PartStartEnds(len: nat, n: nat)
    requires n > 0
    ensures PartStart(len, n, 0) == 0 && PartStart(len, n, n) == len
  {
    assert len == n * (len / n) + len % n;
  }

  lemma PartStartStep(len: nat, n: nat, i: nat)
    requires n > 0 && i < n
    ensures PartStart(len, n, i + 1) == PartStart(len, n, i) + len / n + if i < len % n then 1 else 0
  {
    assert (i + 1) * (len / n) == i * (len / n) + len / n;
  }

  lemma {:induction false} PartStartMono(len: nat, n: nat, i: nat, j: nat)
    requires n > 0 && i <= j <= n
    ensures PartStart(len, n, i) <= PartStart(len, n, j)
    decreases j
  {
    hide PartStart;
    if i < j {
      PartStartMono(len, n, i, j - 1);
      PartStartStep(len, n, j - 1);
      QuotientNatural(len, n);
    }
  }

  lemma QuotientNatural(len: nat, n: nat)
    requires n > 0
    ensures len / n >= 0
  {
  }

  lemma PartBounds(len: nat, n: nat, i: nat)
    requires n > 0 && i < n
    ensures PartStart(len, n, i) <= PartStart(len, n, i + 1) <= len
  {
    PartStartStep(len, n, i);
    PartStartMono(len, n, i + 1, n);
    PartStartEnds(len, n);
  }

  // ---------- sums ----------

  function Sum(s: seq<nat>): nat {
    if s == [] then 0 else Sum(s[..|s| - 1]) + s[|s| - 1]
  }

  lemma SumStep(s: seq<nat>, i: nat)
    requires i < |s|
    ensures Sum(s[..i + 1]) == Sum(s[..i]) + s[i]
  {
    assert s[..i + 1][..i] == s[..i];
  }

  lemma {:induction false} SumMono(s: seq<nat>, i: nat, j: nat)
    requires i <= j <= |s|
    ensures Sum(s[..i]) <= Sum(s[..j])
    decreases j
  {
    if i < j {
      SumStep(s, j - 1);
      SumMono(s, i, j - 1);
    }
  }
}
