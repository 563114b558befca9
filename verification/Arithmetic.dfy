// Facts about products and quotients that the counting arguments use.
module Arithmetic {
  lemma {:induction false} Times(a: int, d: int)
    requires a >= 1 && d >= 1
    ensures a * d >= d
  {
    assert (a - 1) * d >= 0;
  }

  lemma {:induction false} Product(a: int, b: int)
    requires a >= 0 && b >= 0
    ensures a * b >= 0
  {}

  lemma {:induction false} Quotient(n: int, d: int, q: int, r: int)
    requires d >= 1 && 0 <= r < d && n == q * d + r
    ensures n / d == q && n % d == r
  {
    var q', r' := n / d, n % d;
    assert n == q' * d + r' && 0 <= r' < d;
    assert (q' - q) * d == r - r';
    if q' > q { Times(q' - q, d); }
    if q' < q { assert (q - q') * d == r' - r; Times(q - q', d); }
  }

  lemma {:induction false} NextQuotient(n: nat, d: int)
    requires d >= 1
    ensures n % d < d - 1 ==> (n + 1) / d == n / d && (n + 1) % d == n % d + 1
    ensures n % d == d - 1 ==> (n + 1) / d == n / d + 1 && (n + 1) % d == 0
  {
    var q, r := n / d, n % d;
    assert n == q * d + r;
    if r < d - 1 {
      Quotient(n + 1, d, q, r + 1);
    } else {
      assert n + 1 == (q + 1) * d;
      Quotient(n + 1, d, q + 1, 0);
    }
  }

  lemma {:induction false} Regroup(q: int, d: int, m: int, r: int)
    ensures (q * d + m) * r == q * (r * d) + m * r
  {
    assert (q * d) * r == q * (d * r) == q * (r * d);
  }

  lemma {:induction false} RemainderBound(m: int, d: int, r: int)
    requires 0 <= m < d && r >= 1
    ensures 0 <= m * r && m * r + r <= r * d
  {
    Product(m, r);
    Product(d - m - 1, r);
    assert (d - m - 1) * r == d * r - m * r - r;
  }

  lemma {:induction false} DivDiv(n: nat, r: int, d: int)
    requires r >= 1 && d >= 1 && r * d >= 1
    ensures (n / r) / d == n / (r * d)
  {
    var a := n / r;
    var q, m := a / d, a % d;
    assert n == a * r + n % r && a == q * d + m;
    Regroup(q, d, m, r);
    RemainderBound(m, d, r);
    Quotient(n, r * d, q, m * r + n % r);
  }

  lemma {:induction false} Products(a: nat, b: nat, c: nat)
    ensures a * (b * c) == (a * b) * c
    ensures a >= 1 ==> a * b == b + (a - 1) * b
  {}

  lemma {:induction false} Positive(a: nat, b: nat)
    requires a * b >= 1
    ensures a >= 1 && b >= 1
  {}

  lemma {:induction false} OneLess(i: nat, n: nat)
    requires n >= 1
    ensures i < n ==> i / n == 0 && i % n == i
    ensures i >= n ==> i / n == (i - n) / n + 1 && i % n == (i - n) % n
  {
    if i < n {
      Quotient(i, n, 0, i);
    } else {
      var q, r := (i - n) / n, (i - n) % n;
      assert i - n == q * n + r && i == (q + 1) * n + r;
      Quotient(i, n, q + 1, r);
    }
  }

  lemma {:induction false} Monotone(a: nat, b: nat, c: nat)
    requires a <= b
    ensures a * c <= b * c
  {
    Product(b - a, c);
    assert (b - a) * c == b * c - a * c;
  }

  lemma {:induction false} QuotientBelow(i: nat, rows: nat, times: nat)
    requires times >= 1 && i < rows * times
    ensures i / times < rows
  {
    var q := i / times;
    assert i == q * times + i % times;
    if q >= rows { Monotone(rows, q, times); }
  }
}
