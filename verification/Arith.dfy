/** Facts about products, quotients and multiples. */
module Arith {

  lemma TimesMonotone(c: nat, a: nat, b: nat)
    requires a <= b
    ensures c * a <= c * b
  {
  }

  lemma QuotientTimes(d: nat, n: nat)
    requires d > 0
    ensures d * (n / d) <= n
  {
  }

  lemma QuotientBound(n: nat, b: nat, m: nat)
    requires b > 0
    ensures n * b <= m <==> n <= m / b
  {
    var q, r := m / b, m % b;
    assert m == q * b + r;
    if n <= q {
      assert n * b <= q * b;
    } else {
      assert n * b >= (q + 1) * b == q * b + b;
    }
  }

  lemma DivideMonotone(a: nat, b: nat, d: nat)
    requires a <= b && d > 0
    ensures a / d <= b / d
  {
    QuotientBound(a / d, d, b);
    assert a / d * d <= a;
  }

  lemma RemainderLaws(n: nat, d: nat)
    requires d > 0
    ensures n % d <= n && n % d < d
    ensures (n % d) % d == n % d
  {
    assert n == (n / d) * d + n % d;
  }

  /** A multiple of `u`. */
  predicate Whole(u: nat, n: nat)
    requires u > 0
  {
    n % u == 0
  }

  lemma WholeTrivial(u: nat, n: nat)
    requires u > 0
    ensures Whole(1, n) && Whole(u, 0)
  {
  }

  lemma DivUnique(n: int, d: nat, q: int, r: nat)
    requires r < d && n == q * d + r
    ensures n % d == r
  {
    var p, s := n / d, n % d;
    assert n == p * d + s;
    if q < p {
      TimesMonotone(d, 1, p - q);
    } else if p < q {
      TimesMonotone(d, 1, q - p);
    }
  }

  lemma WholeSum(u: nat, a: nat, b: nat)
    requires u > 0 && Whole(u, a) && Whole(u, b)
    ensures Whole(u, a + b)
    ensures b <= a ==> Whole(u, a - b)
  {
    var i, j := a / u, b / u;
    assert a == i * u && b == j * u;
    assert (i + j) * u == i * u + j * u && (i - j) * u == i * u - j * u;
    DivUnique(a + b, u, i + j, 0);
    DivUnique(a - b, u, i - j, 0);
  }

  /** What a remainder leaves is a multiple. */
  lemma WholeRounded(u: nat, n: nat)
    requires u > 0
    ensures n % u <= n && Whole(u, n - n % u)
  {
    var q := n / u;
    assert n == q * u + n % u;
    RemainderLaws(n, u);
    DivUnique(n - n % u, u, q, 0);
  }
}
