/** Facts about products, quotients and rounding up. */
module Arithmetic {

  function Min(a: int, b: int): int {
    if a < b then a else b
  }

  lemma NextProduct(k: int, d: int)
    ensures (k + 1) * d == k * d + d
  {
  }

  lemma {:induction false} Monotone(a: int, b: int, d: nat)
    requires a <= b
    ensures a * d <= b * d
    decreases b - a
  {
    if a < b {
      Monotone(a, b - 1, d);
      NextProduct(b - 1, d);
    }
  }

  lemma DivUnique(a: int, r: int, b: int, s: int, d: nat)
    requires a * d + r == b * d + s && 0 <= r < d && 0 <= s < d
    ensures a == b && r == s
  {
    if a > b {
      Monotone(b + 1, a, d);
      NextProduct(b, d);
    } else if a < b {
      Monotone(a + 1, b, d);
      NextProduct(a, d);
    }
  }

  // The quotient is the number of whole d's below x.
  lemma Bracket(q: nat, d: nat, x: nat)
    requires d > 0 && q * d <= x < q * d + d
    ensures x / d == q && x % d == x - q * d
  {
    DivUnique(x / d, x % d, q, x - q * d, d);
  }

  lemma SmallQuotient(x: nat, d: nat)
    requires x < d
    ensures x / d == 0 && x % d == x
  {
  }

  // Adding whole d's changes the quotient only.
  lemma AddMultiple(q: nat, d: nat, r: nat)
    requires r < d
    ensures (q * d + r) / d == q && (q * d + r) % d == r
  {
    Bracket(q, d, q * d + r);
  }

  // math.ceil(n / d)
  function CeilDiv(n: nat, d: nat): nat
    requires d > 0
  {
    (n + d - 1) / d
  }

  lemma CeilBracket(n: nat, d: nat)
    requires d > 0
    ensures n <= CeilDiv(n, d) * d < n + d
  {
    var m := n + d - 1;
    assert m == m / d * d + m % d;
  }

  lemma CeilUnique(q: nat, n: nat, d: nat)
    requires d > 0 && n <= q * d < n + d
    ensures CeilDiv(n, d) == q
  {
    Bracket(q, d, n + d - 1);
  }

  // The least q with n <= q * d.
  lemma CeilAtMost(q: nat, n: nat, d: nat)
    requires d > 0
    ensures CeilDiv(n, d) <= q <==> n <= q * d
  {
    CeilBracket(n, d);
    var k := CeilDiv(n, d);
    if k <= q {
      Monotone(k, q, d);
    } else {
      Monotone(q + 1, k, d);
      NextProduct(q, d);
    }
  }

  // Counting one further.
  lemma Successor(n: nat, d: nat)
    requires d > 0
    ensures var q, r := n / d, n % d;
      if r + 1 < d then (n + 1) / d == q && (n + 1) % d == r + 1 else (n + 1) / d == q + 1 && (n + 1) % d == 0
  {
    var q, r := n / d, n % d;
    assert n == q * d + r;
    NextProduct(q, d);
    if r + 1 < d {
      Bracket(q, d, n + 1);
    } else {
      Bracket(q + 1, d, n + 1);
    }
  }

  lemma Distribute(a: int, b: int, c: int)
    ensures (a + b) * c == a * c + b * c
  {
  }

  lemma ShiftQuotient(j: nat, m: nat, n: nat)
    requires n > 0
    ensures 0 <= m * n && (m * n + j) / n == m + j / n && (m * n + j) % n == j % n
  {
    Monotone(0, m, n);
    var q, r := j / n, j % n;
    assert j == q * n + r;
    Distribute(m, q, n);
    Monotone(0, m + q, n);
    DivUnique((m * n + j) / n, (m * n + j) % n, m + q, r, n);
  }

  // Positions of blocks of size n.
  lemma QuotientBelow(i: nat, m: nat, n: nat)
    requires n > 0 && i < m * n
    ensures i / n < m && i == i / n * n + i % n
  {
    assert i == i / n * n + i % n;
    if i / n >= m {
      Monotone(m, i / n, n);
    }
  }

  // ---- The product as a function, for proofs that need no more of it than these laws ----

  function Mul(a: nat, b: nat): nat {
    Monotone(0, a, b);
    a * b
  }

  lemma MulUnits(a: nat)
    ensures Mul(0, a) == Mul(a, 0) == 0 && Mul(1, a) == Mul(a, 1) == a
  {
  }

  lemma MulNext(a: nat, b: nat)
    ensures Mul(a + 1, b) == Mul(a, b) + b
  {
  }

  lemma MulMonotone(a: nat, b: nat, c: nat)
    requires a <= b
    ensures Mul(a, c) <= Mul(b, c)
  {
    Monotone(a, b, c);
  }

  lemma MulAdd(a: nat, b: nat, c: nat)
    ensures Mul(a + b, c) == Mul(a, c) + Mul(b, c)
  {
  }

  lemma MulCommutes(a: nat, b: nat)
    ensures Mul(a, b) == Mul(b, a)
  {
  }

  lemma MulAssociates(a: nat, b: nat, c: nat)
    ensures Mul(a, Mul(b, c)) == Mul(Mul(a, b), c)
  {
  }

  lemma MulDivMod(q: nat, d: nat, r: nat)
    requires r < d
    ensures (Mul(q, d) + r) / d == q && (Mul(q, d) + r) % d == r
  {
    AddMultiple(q, d, r);
  }

  lemma DivModMul(x: nat, d: nat)
    requires d > 0
    ensures x == Mul(x / d, d) + x % d && x % d < d
  {
  }

  lemma CeilMul(q: nat, n: nat, d: nat)
    requires d > 0
    ensures CeilDiv(n, d) <= q <==> n <= Mul(q, d)
    ensures n <= Mul(CeilDiv(n, d), d) < n + d
  {
    CeilAtMost(q, n, d);
    CeilBracket(n, d);
  }

  lemma CeilOfMul(q: nat, d: nat)
    requires d > 0
    ensures CeilDiv(Mul(q, d), d) == q
  {
    CeilUnique(q, Mul(q, d), d);
  }
}
