// Products, quotients and remainders of integers. Each lemma states one step with its products given
// by name, so that its callers need no non-linear reasoning of their own.

module Arithmetic {
  lemma SumTimes(x: int, u: int, v: int, y: int)
    requires x == u + v
    ensures x * y == u * y + v * y
  {
  }

  lemma SwapFactors(a: int, b: int, c: int)
    ensures (a * b) * c == (a * c) * b
  {
  }

  lemma Doubled(a: int, b: int)
    ensures (2 * a) * b == 2 * (a * b)
  {
  }

  lemma FactorKeepsOrder(a: int, b: int, n: int)
    requires n > 0
    ensures a >= b ==> a * n >= b * n
    ensures a > b ==> a * n >= b * n + n
  {
    var d := a - b;
    SumTimes(a, b, d, n);
    if d > 0 {
      SumTimes(d, d - 1, 1, n);
      ProductIsNatural(d - 1, n);
    }
  }

  lemma ProductIsNatural(a: int, b: int)
    requires a >= 0 && b >= 0
    ensures a * b >= 0
  {
  }

  lemma LessByFactor(a: int, b: int, n: int)
    requires n > 0 && a * n < b * n
    ensures a < b
  {
    FactorKeepsOrder(a, b, n);
  }

  // Two ways to write a number as a multiple of m and a remainder are the same way.
  lemma OneQuotient(q: int, r: int, q': int, r': int, m: int)
    requires m > 0 && 0 <= r < m && 0 <= r' < m && q * m + r == q' * m + r'
    ensures q == q' && r == r'
  {
    FactorKeepsOrder(q, q', m);
    FactorKeepsOrder(q', q, m);
  }

  lemma QuotientIs(x: int, m: int)
    requires m > 0
    ensures x == (x / m) * m + x % m && 0 <= x % m < m
  {
  }

  lemma DivModUnique(x: int, m: int, q: int, r: int)
    requires m > 0 && x == q * m + r && 0 <= r < m
    ensures x / m == q && x % m == r
  {
    OneQuotient(x / m, x % m, q, r, m);
  }

  lemma SmallMod(x: int, m: int)
    requires 0 <= x < m
    ensures x % m == x && x / m == 0
  {
    DivModUnique(x, m, 0, x);
  }

  lemma ModHalves(a: int, p: int)
    requires p > 0
    ensures (a % (2 * p)) / 2 == (a / 2) % p
    ensures (a % (2 * p)) % 2 == a % 2
    ensures a % (2 * p) == 2 * ((a / 2) % p) + a % 2
  {
    var q, r := (a / 2) / p, (a / 2) % p;
    SwapFactors(2, q, p);
    assert a == 2 * (q * p + r) + a % 2;
    DivModUnique(a, 2 * p, q, 2 * r + a % 2);
  }

  // ----- reduction modulo m -----

  // Numbers a multiple of m apart leave the same remainder.
  lemma ModOfShift(x: int, y: int, k: int, m: int)
    requires m > 0 && y == x + k * m
    ensures y % m == x % m
  {
    var q, r := x / m, x % m;
    SumTimes(q + k, q, k, m);
    DivModUnique(y, m, q + k, r);
  }

  lemma ModOfSum(x: int, y: int, m: int)
    requires m > 0
    ensures (x + y) % m == (x % m + y % m) % m
  {
    var p, q := x / m, y / m;
    SumTimes(p + q, p, q, m);
    ModOfShift(x % m + y % m, x + y, p + q, m);
  }

  lemma ModOfProduct(x: int, y: int, m: int)
    requires m > 0
    ensures (x * y) % m == ((x % m) * (y % m)) % m
  {
    ProductOfShifts(x, y, x % m, y % m, x / m, y / m, m);
  }

  lemma ProductOfShifts(x: int, y: int, a: int, b: int, p: int, q: int, m: int)
    requires m > 0 && x == p * m + a && y == q * m + b
    ensures (x * y) % m == (a * b) % m
  {
    SumTimes(x, p * m, a, y);
    SumTimes(y, q * m, b, a);
    SwapFactors(p, m, y);
    SwapFactors(q, m, a);
    SumTimes(p * y + q * a, p * y, q * a, m);
    assert x * y == a * b + (p * y + q * a) * m by {
      assert a * y == y * a && a * b == b * a;
    }
    ModOfShift(a * b, x * y, p * y + q * a, m);
  }

  // Two numbers leave the same remainder exactly when m divides their difference.
  lemma SameRemainderIff(x: int, y: int, m: int)
    requires m > 0
    ensures x % m == y % m <==> (y - x) % m == 0
  {
    if x % m == y % m {
      SumTimes(y / m, x / m, y / m - x / m, m);
      DivModUnique(y - x, m, y / m - x / m, 0);
    } else if (y - x) % m == 0 {
      ModOfShift(x, y, (y - x) / m, m);
    }
  }

  lemma MultipleOfMultiple(d: int, c: int, m: int)
    requires m > 0 && d % m == 0
    ensures (d * c) % m == 0
  {
    SwapFactors(d / m, m, c);
    DivModUnique(d * c, m, (d / m) * c, 0);
  }

  // If c has an inverse modulo m, multiplying with the inverse and then with c changes a number by a
  // multiple of m only.
  lemma UndoFactor(h: int, c: int, inverse: int, cofactor: int, m: int) returns (k: int)
    requires m > 0 && inverse * c == cofactor * m + 1
    ensures ((h * inverse) % m) * c == h + k * m
  {
    var p := h * inverse;
    var q, x := p / m, p % m;
    k := cofactor * h - q * c;
    SumTimes(p, x, q * m, c);
    SwapFactors(q, m, c);
    Associate(h, inverse, c);
    SumTimes(cofactor * m + 1, cofactor * m, 1, h);
    SwapFactors(cofactor, m, h);
    SumTimes(cofactor * h, k, q * c, m);
  }

  lemma Associate(a: int, b: int, c: int)
    ensures (a * b) * c == a * (b * c)
  {
  }

  lemma QuotientFits(x: int, p: int)
    requires x >= 0 && p > 0
    ensures 0 <= x / p <= x
  {
    var q := x / p;
    FactorKeepsOrder(-1, q, p);
    FactorKeepsOrder(p, 1, q + 1);
    SumTimes(p, p - 1, 1, q);
    if q >= 0 {
      ProductIsNatural(p - 1, q);
    }
  }

  lemma FractionFits(x: int, m: int)
    requires 0 <= x < m
    ensures 0.0 <= x as real / m as real < 1.0
  {
  }
}
