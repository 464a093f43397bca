// Machine words over unbounded integers: wrap-around in a signed and an unsigned reading, and the
// bitwise operators on two's complement. No fixed-width type is used, so the facts below hold for
// words of any width.

module Words {
  import opened Arithmetic

  function Pow2(k: nat): (p: int)
    ensures p > 0
  {
    if k == 0 then 1 else 2 * Pow2(k - 1)
  }

  lemma {:induction false} Pow2Adds(i: nat, j: nat)
    ensures Pow2(i + j) == Pow2(i) * Pow2(j)
  {
    if i > 0 {
      Pow2Adds(i - 1, j);
      assert Pow2(i) * Pow2(j) == 2 * (Pow2(i - 1) * Pow2(j));
    }
  }

  lemma WordSizes()
    ensures Pow2(32) == 0x1_0000_0000
    ensures Pow2(64) == 0x1_0000_0000_0000_0000
  {
    var a, b := Pow2(8), Pow2(16);
    assert Pow2(4) == 16;
    Pow2Adds(4, 4);
    Pow2Adds(8, 8);
    Pow2Adds(16, 16);
    Pow2Adds(32, 32);
    assert a == 256 && b == 65536;
  }

  // The two bitwise operators that the ports use.
  datatype Gate = Xor | Or

  function Bit(gate: Gate, a: int, b: int): (c: int)
    requires 0 <= a <= 1 && 0 <= b <= 1
    ensures 0 <= c <= 1
  {
    match gate
    case Xor => if a == b then 0 else 1
    case Or => if a == 0 && b == 0 then 0 else 1
  }

  ghost function Size(a: int): nat {
    if a < 0 then -a else a
  }

  // Two's complement of unlimited width: -1 is all ones, and halving rounds down.
  function Bitwise(gate: Gate, a: int, b: int): int
    decreases Size(a) + Size(b)
  {
    if -1 <= a <= 0 && -1 <= b <= 0 then -Bit(gate, -a, -b)
    else 2 * Bitwise(gate, a / 2, b / 2) + Bit(gate, a % 2, b % 2)
  }

  lemma BitwiseUnfolds(gate: Gate, a: int, b: int)
    ensures Bitwise(gate, a, b) == 2 * Bitwise(gate, a / 2, b / 2) + Bit(gate, a % 2, b % 2)
  {
    if -1 <= a <= 0 && -1 <= b <= 0 {
      assert a / 2 == a && b / 2 == b && a % 2 == -a && b % 2 == -b;
    }
  }

  lemma BitwiseHalves(gate: Gate, a: int, b: int)
    ensures Bitwise(gate, a, b) / 2 == Bitwise(gate, a / 2, b / 2)
    ensures Bitwise(gate, a, b) % 2 == Bit(gate, a % 2, b % 2)
  {
    BitwiseUnfolds(gate, a, b);
  }

  // A word is put together from its upper bits and its lowest bit.
  lemma BitwiseJoins(gate: Gate, x: int, y: int, x0: int, y0: int, x1: int, y1: int)
    requires 0 <= x0 <= 1 && 0 <= y0 <= 1 && x == 2 * x1 + x0 && y == 2 * y1 + y0
    ensures Bitwise(gate, x, y) == 2 * Bitwise(gate, x1, y1) + Bit(gate, x0, y0)
  {
    BitwiseUnfolds(gate, x, y);
    DivModUnique(x, 2, x1, x0);
    DivModUnique(y, 2, y1, y0);
  }

  lemma BitwiseLocalStep(gate: Gate, a: int, b: int, p: int)
    requires p > 0
    requires Bitwise(gate, a / 2, b / 2) % p == Bitwise(gate, (a / 2) % p, (b / 2) % p)
    ensures Bitwise(gate, a, b) % (2 * p) == Bitwise(gate, a % (2 * p), b % (2 * p))
  {
    var r := Bitwise(gate, a, b);
    ModHalves(a, p);
    ModHalves(b, p);
    ModHalves(r, p);
    BitwiseHalves(gate, a, b);
    BitwiseJoins(gate, a % (2 * p), b % (2 * p), a % 2, b % 2, (a / 2) % p, (b / 2) % p);
  }

  // The low k bits of a result depend on the low k bits of the operands only.
  lemma {:induction false} BitwiseIsLocal(gate: Gate, a: int, b: int, k: nat)
    ensures Bitwise(gate, a, b) % Pow2(k) == Bitwise(gate, a % Pow2(k), b % Pow2(k))
    decreases k
  {
    if k > 0 {
      BitwiseIsLocal(gate, a / 2, b / 2, k - 1);
      BitwiseLocalStep(gate, a, b, Pow2(k - 1));
    }
  }

  lemma BitwiseFits(gate: Gate, a: int, b: int, k: nat)
    requires 0 <= a < Pow2(k) && 0 <= b < Pow2(k)
    ensures 0 <= Bitwise(gate, a, b) < Pow2(k)
  {
    BitwiseIsLocal(gate, a, b, k);
    SmallMod(a, Pow2(k));
    SmallMod(b, Pow2(k));
  }

  lemma {:induction false} BitwiseFitsSigned(gate: Gate, a: int, b: int, k: nat)
    requires -Pow2(k) <= a < Pow2(k) && -Pow2(k) <= b < Pow2(k)
    ensures -Pow2(k) <= Bitwise(gate, a, b) < Pow2(k)
    decreases k
  {
    if k > 0 {
      BitwiseUnfolds(gate, a, b);
      BitwiseFitsSigned(gate, a / 2, b / 2, k - 1);
    }
  }

  // ----- digits: a result hexadecimal digit by digit -----

  // The bit of weight p, and the number without it.
  function Top(c: int, p: int): int {
    if c >= p then 1 else 0
  }

  function Low(c: int, p: int): int {
    if c >= p then c - p else c
  }

  function Digit(gate: Gate, c: int, d: int): int
    requires 0 <= c < 16 && 0 <= d < 16
  {
    var c2, d2 := Low(c, 8), Low(d, 8);
    var c1, d1 := Low(c2, 4), Low(d2, 4);
    8 * Bit(gate, Top(c, 8), Top(d, 8)) + 4 * Bit(gate, Top(c2, 4), Top(d2, 4))
    + 2 * Bit(gate, Top(c1, 2), Top(d1, 2)) + Bit(gate, Low(c1, 2), Low(d1, 2))
  }

  lemma TwoBits(gate: Gate, x: int, y: int, a: int, b: int, c1: int, c0: int, d1: int, d0: int)
    requires 0 <= c1 <= 1 && 0 <= c0 <= 1 && 0 <= d1 <= 1 && 0 <= d0 <= 1
    requires x == 4 * a + 2 * c1 + c0 && y == 4 * b + 2 * d1 + d0
    ensures Bitwise(gate, x, y) == 4 * Bitwise(gate, a, b) + 2 * Bit(gate, c1, d1) + Bit(gate, c0, d0)
  {
    var m, n := 2 * a + c1, 2 * b + d1;
    BitwiseJoins(gate, m, n, c1, d1, a, b);
    BitwiseJoins(gate, x, y, c0, d0, m, n);
  }

  lemma FourBits(gate: Gate, x: int, y: int, a: int, b: int, c: int, d: int,
                 c3: int, c2: int, c1: int, c0: int, d3: int, d2: int, d1: int, d0: int)
    requires 0 <= c3 <= 1 && 0 <= c2 <= 1 && 0 <= c1 <= 1 && 0 <= c0 <= 1 && c == 8 * c3 + 4 * c2 + 2 * c1 + c0
    requires 0 <= d3 <= 1 && 0 <= d2 <= 1 && 0 <= d1 <= 1 && 0 <= d0 <= 1 && d == 8 * d3 + 4 * d2 + 2 * d1 + d0
    requires x == 16 * a + c && y == 16 * b + d
    ensures Bitwise(gate, x, y) == 16 * Bitwise(gate, a, b)
              + 8 * Bit(gate, c3, d3) + 4 * Bit(gate, c2, d2) + 2 * Bit(gate, c1, d1) + Bit(gate, c0, d0)
  {
    var m, n := 4 * a + 2 * c3 + c2, 4 * b + 2 * d3 + d2;
    TwoBits(gate, m, n, a, b, c3, c2, d3, d2);
    TwoBits(gate, x, y, m, n, c1, c0, d1, d0);
  }

  lemma DigitStep(gate: Gate, x: int, y: int, a: int, b: int, c: int, d: int)
    requires 0 <= c < 16 && 0 <= d < 16 && x == 16 * a + c && y == 16 * b + d
    ensures Bitwise(gate, x, y) == 16 * Bitwise(gate, a, b) + Digit(gate, c, d)
  {
    var c2, d2 := Low(c, 8), Low(d, 8);
    var c1, d1 := Low(c2, 4), Low(d2, 4);
    FourBits(gate, x, y, a, b, c, d, Top(c, 8), Top(c2, 4), Top(c1, 2), Low(c1, 2),
             Top(d, 8), Top(d2, 4), Top(d1, 2), Low(d1, 2));
  }

  predicate AreDigits(x: seq<int>) {
    forall i :: 0 <= i < |x| ==> 0 <= x[i] < 16
  }

  function FromDigits(x: seq<int>): int {
    if x == [] then 0 else 16 * FromDigits(x[..|x| - 1]) + x[|x| - 1]
  }

  function Digitwise(gate: Gate, x: seq<int>, y: seq<int>): seq<int>
    requires |x| == |y| && AreDigits(x) && AreDigits(y)
  {
    seq(|x|, i requires 0 <= i < |x| => Digit(gate, x[i], y[i]))
  }

  lemma {:induction false} BitwiseIsDigitwise(gate: Gate, x: seq<int>, y: seq<int>)
    requires |x| == |y| && AreDigits(x) && AreDigits(y)
    ensures Bitwise(gate, FromDigits(x), FromDigits(y)) == FromDigits(Digitwise(gate, x, y))
  {
    if x != [] {
      var n := |x| - 1;
      BitwiseIsDigitwise(gate, x[..n], y[..n]);
      DigitStep(gate, FromDigits(x), FromDigits(y), FromDigits(x[..n]), FromDigits(y[..n]), x[n], y[n]);
      assert Digitwise(gate, x, y)[..n] == Digitwise(gate, x[..n], y[..n]);
    }
  }

  // Eight digits at once.
  function Hex(d7: int, d6: int, d5: int, d4: int, d3: int, d2: int, d1: int, d0: int): int {
    0x10000000 * d7 + 0x1000000 * d6 + 0x100000 * d5 + 0x10000 * d4 + 0x1000 * d3 + 0x100 * d2 + 0x10 * d1 + d0
  }

  lemma EightDigits(x: seq<int>)
    requires |x| == 8
    ensures FromDigits(x) == Hex(x[0], x[1], x[2], x[3], x[4], x[5], x[6], x[7])
  {
    FewerDigits(x, 1);
    FewerDigits(x, 2);
    FewerDigits(x, 3);
    FewerDigits(x, 4);
    FewerDigits(x, 5);
    FewerDigits(x, 6);
    FewerDigits(x, 7);
    FewerDigits(x, 8);
  }

  lemma FewerDigits(x: seq<int>, n: nat)
    requires 0 < n <= |x|
    ensures FromDigits(x[..n]) == 16 * FromDigits(x[..n - 1]) + x[n - 1]
    ensures n == |x| ==> x[..n] == x
  {
    assert x[..n][..n - 1] == x[..n - 1];
  }

  // Applying the same mask twice gives the first word back, so a fixed mask loses nothing.
  lemma {:induction false} XorUndoesItself(a: int, mask: int)
    ensures Bitwise(Xor, Bitwise(Xor, a, mask), mask) == a
    decreases Size(a) + Size(mask)
  {
    if !(-1 <= a <= 0 && -1 <= mask <= 0) {
      BitwiseHalves(Xor, a, mask);
      BitwiseUnfolds(Xor, Bitwise(Xor, a, mask), mask);
      XorUndoesItself(a / 2, mask / 2);
    }
  }

  // A power of two that divides d times an odd number divides d.
  lemma {:induction false} OddFactorCancels(k: nat, c: int, d: int)
    requires c % 2 == 1
    requires (d * c) % Pow2(k) == 0
    ensures d % Pow2(k) == 0
  {
    if k > 0 {
      var p := Pow2(k - 1);
      var q := (d * c) / (2 * p);
      SwapFactors(2, p, q);
      OddProduct(c, d, p * q);
      DivModUnique((d / 2) * c, p, q, 0);
      OddFactorCancels(k - 1, c, d / 2);
      ModHalves(d, p);
    }
  }

  lemma OddProduct(c: int, d: int, e: int)
    requires c % 2 == 1 && d * c == 2 * e
    ensures d % 2 == 0 && (d / 2) * c == e
  {
    var b := c / 2;
    SumTimes(c, 2 * b, 1, d);
    Doubled(b, d);
    DivModUnique(d, 2, e - b * d, 0);
    Doubled(d / 2, c);
  }

  // ----- the signed reading of a word -----

  // Kotlin's Int and Long: the value congruent to x in [-2^(k-1), 2^(k-1)).
  function Wrap(x: int, k: nat): int
    requires k > 0
  {
    (x + Pow2(k - 1)) % Pow2(k) - Pow2(k - 1)
  }

  lemma WrapFits(x: int, k: nat)
    requires k > 0
    ensures -Pow2(k - 1) <= Wrap(x, k) < Pow2(k - 1)
    ensures Wrap(x, k) % Pow2(k) == x % Pow2(k)
  {
    var m, half := Pow2(k), Pow2(k - 1);
    var q := (x + half) / m;
    SumTimes(0, q, -q, m);
    ModOfShift(x, Wrap(x, k), -q, m);
  }
}
