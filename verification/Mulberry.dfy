// The pet's random generator, written twice: over signed Int in Kotlin and over UInt32 in Swift.
// Both run on words of w bits here, so that nothing depends on the size of a literal; the classes
// at the end are the 32-bit generators.

module Mulberry {
  import opened Arithmetic
  import opened Words

  const INCREMENT: int := 0x6D2B79F5

  // A word divided by the number of words.
  function UnitFraction(word: int, w: nat): real {
    word as real / Pow2(w) as real
  }

  // ----- Kotlin: every result is wrapped into [-2^(w-1), 2^(w-1)) -----

  function IntPlus(x: int, y: int, w: nat): int
    requires w > 0
  {
    Wrap(x + y, w)
  }

  function IntTimes(x: int, y: int, w: nat): int
    requires w > 0
  {
    Wrap(x * y, w)
  }

  // ushr: shifts the unsigned reading, so the sign bit is not copied.
  function IntUshr(x: int, n: nat, w: nat): int
    requires w > 0
  {
    Wrap((x % Pow2(w)) / Pow2(n), w)
  }

  function IntScramble(state: int, w: nat): int
    requires w > 0
  {
    var t := IntTimes(Bitwise(Xor, state, IntUshr(state, 15, w)), Bitwise(Or, state, 1), w);
    Bitwise(Xor, t, IntPlus(t, IntTimes(Bitwise(Xor, t, IntUshr(t, 7, w)), Bitwise(Or, t, 61), w), w))
  }

  function IntOutput(state: int, w: nat): real
    requires w > 0
  {
    var t := IntScramble(state, w);
    UnitFraction(Bitwise(Xor, t, IntUshr(t, 14, w)) % Pow2(w), w)
  }

  // ----- Swift: every result is reduced into [0, 2^w) -----

  function UIntPlus(x: int, y: int, w: nat): int {
    (x + y) % Pow2(w)
  }

  function UIntTimes(x: int, y: int, w: nat): int {
    (x * y) % Pow2(w)
  }

  function UIntShift(x: int, n: nat): int {
    x / Pow2(n)
  }

  function UIntScramble(state: int, w: nat): int {
    var t := UIntTimes(Bitwise(Xor, state, UIntShift(state, 15)), Bitwise(Or, state, 1), w);
    Bitwise(Xor, t, UIntPlus(t, UIntTimes(Bitwise(Xor, t, UIntShift(t, 7)), Bitwise(Or, t, 61), w), w))
  }

  function UIntOutput(state: int, w: nat): real {
    var t := UIntScramble(state, w);
    UnitFraction(Bitwise(Xor, t, UIntShift(t, 14)), w)
  }

  // ----- the two readings of one word -----

  // u is the unsigned reading of s.
  ghost predicate Reads(s: int, u: int, w: nat) {
    u == s % Pow2(w)
  }

  lemma ReadsPlus(s: int, u: int, s': int, u': int, w: nat)
    requires w > 0 && Reads(s, u, w) && Reads(s', u', w)
    ensures Reads(IntPlus(s, s', w), UIntPlus(u, u', w), w)
  {
    WrapFits(s + s', w);
    ModOfSum(s, s', Pow2(w));
  }

  lemma ReadsTimes(s: int, u: int, s': int, u': int, w: nat)
    requires w > 0 && Reads(s, u, w) && Reads(s', u', w)
    ensures Reads(IntTimes(s, s', w), UIntTimes(u, u', w), w)
  {
    WrapFits(s * s', w);
    ModOfProduct(s, s', Pow2(w));
  }

  lemma ReadsGate(gate: Gate, s: int, u: int, s': int, u': int, w: nat)
    requires Reads(s, u, w) && Reads(s', u', w)
    ensures Reads(Bitwise(gate, s, s'), Bitwise(gate, u, u'), w)
  {
    BitwiseIsLocal(gate, s, s', w);
  }

  lemma ShiftFits(u: int, n: nat, w: nat)
    requires 0 <= u < Pow2(w)
    ensures 0 <= UIntShift(u, n) < Pow2(w)
  {
    QuotientFits(u, Pow2(n));
  }

  lemma ReadsShift(s: int, u: int, n: nat, w: nat)
    requires w > 0 && Reads(s, u, w)
    ensures Reads(IntUshr(s, n, w), UIntShift(u, n), w)
  {
    var q := UIntShift(u, n);
    WrapFits(q, w);
    ShiftFits(u, n, w);
    DivModUnique(q, Pow2(w), 0, q);
  }

  lemma ReadsSmall(c: nat, w: nat)
    requires c < Pow2(w)
    ensures Reads(c, c, w)
  {
    DivModUnique(c, Pow2(w), 0, c);
  }

  lemma ReadsScramble(s: int, u: int, w: nat)
    requires w > 0 && 61 < Pow2(w) && Reads(s, u, w)
    ensures Reads(IntScramble(s, w), UIntScramble(u, w), w)
  {
    ReadsSmall(1, w);
    ReadsSmall(61, w);
    var s0, u0 := IntUshr(s, 15, w), UIntShift(u, 15);
    ReadsShift(s, u, 15, w);
    ReadsGate(Xor, s, u, s0, u0, w);
    ReadsGate(Or, s, u, 1, 1, w);
    var s1 := IntTimes(Bitwise(Xor, s, s0), Bitwise(Or, s, 1), w);
    var u1 := UIntTimes(Bitwise(Xor, u, u0), Bitwise(Or, u, 1), w);
    ReadsTimes(Bitwise(Xor, s, s0), Bitwise(Xor, u, u0), Bitwise(Or, s, 1), Bitwise(Or, u, 1), w);
    ReadsSecondRound(s1, u1, w);
  }

  lemma ReadsSecondRound(s: int, u: int, w: nat)
    requires w > 0 && 61 < Pow2(w) && Reads(s, u, w)
    ensures Reads(Bitwise(Xor, s, IntPlus(s, IntTimes(Bitwise(Xor, s, IntUshr(s, 7, w)), Bitwise(Or, s, 61), w), w)),
                  Bitwise(Xor, u, UIntPlus(u, UIntTimes(Bitwise(Xor, u, UIntShift(u, 7)), Bitwise(Or, u, 61), w), w)),
                      w)
  {
    ReadsSmall(61, w);
    var s0, u0 := IntUshr(s, 7, w), UIntShift(u, 7);
    ReadsShift(s, u, 7, w);
    ReadsGate(Xor, s, u, s0, u0, w);
    ReadsGate(Or, s, u, 61, 61, w);
    var x, y := Bitwise(Xor, s, s0), Bitwise(Or, s, 61);
    var x', y' := Bitwise(Xor, u, u0), Bitwise(Or, u, 61);
    ReadsTimes(x, x', y, y', w);
    ReadsPlus(s, u, IntTimes(x, y, w), UIntTimes(x', y', w), w);
    ReadsGate(Xor, s, u, IntPlus(s, IntTimes(x, y, w), w), UIntPlus(u, UIntTimes(x', y', w), w), w);
  }

  lemma OutputsAgree(s: int, u: int, w: nat)
    requires w > 0 && 61 < Pow2(w) && Reads(s, u, w)
    ensures IntOutput(s, w) == UIntOutput(u, w)
    ensures 0.0 <= UIntOutput(u, w) < 1.0
  {
    ReadsScramble(s, u, w);
    LastRoundsAgree(IntScramble(s, w), UIntScramble(u, w), w);
  }

  lemma LastRoundsAgree(t: int, t': int, w: nat)
    requires w > 0 && Reads(t, t', w)
    ensures Bitwise(Xor, t, IntUshr(t, 14, w)) % Pow2(w) == Bitwise(Xor, t', UIntShift(t', 14))
    ensures 0.0 <= UnitFraction(Bitwise(Xor, t', UIntShift(t', 14)), w) < 1.0
  {
    ReadsShift(t, t', 14, w);
    ReadsGate(Xor, t, t', IntUshr(t, 14, w), UIntShift(t', 14), w);
    ShiftFits(t', 14, w);
    BitwiseFits(Xor, t', UIntShift(t', 14), w);
    FractionFits(Bitwise(Xor, t', UIntShift(t', 14)), Pow2(w));
  }

  // ----- runs -----

  function IntState(seed: int, draws: nat, w: nat): int
    requires w > 0
  {
    if draws == 0 then seed else IntPlus(IntState(seed, draws - 1, w), INCREMENT, w)
  }

  function UIntState(seed: int, draws: nat, w: nat): int {
    if draws == 0 then seed else UIntPlus(UIntState(seed, draws - 1, w), INCREMENT, w)
  }

  lemma {:induction false} StatesAgree(seed: int, draws: nat, w: nat)
    requires w > 0 && 0 <= seed < Pow2(w) && INCREMENT < Pow2(w)
    ensures Reads(IntState(Wrap(seed, w), draws, w), UIntState(seed, draws, w), w)
  {
    if draws == 0 {
      WrapFits(seed, w);
      ReadsSmall(seed, w);
    } else {
      StatesAgree(seed, draws - 1, w);
      ReadsSmall(INCREMENT, w);
      ReadsPlus(IntState(Wrap(seed, w), draws - 1, w), UIntState(seed, draws - 1, w), INCREMENT, INCREMENT, w);
    }
  }

  lemma PortsAgreeAt(seed: int, draws: nat, w: nat)
    requires w > 0 && 0 <= seed < Pow2(w) && INCREMENT < Pow2(w)
    ensures IntOutput(IntState(Wrap(seed, w), draws, w), w) == UIntOutput(UIntState(seed, draws, w), w)
    ensures 0.0 <= UIntOutput(UIntState(seed, draws, w), w) < 1.0
  {
    StatesAgree(seed, draws, w);
    OutputsAgree(IntState(Wrap(seed, w), draws, w), UIntState(seed, draws, w), w);
  }

  // ----- the period -----

  lemma {:induction false} StateIsLinear(seed: int, draws: nat, w: nat)
    requires 0 <= seed < Pow2(w)
    ensures UIntState(seed, draws, w) == (seed + draws * INCREMENT) % Pow2(w)
  {
    if draws == 0 {
      ReadsSmall(seed, w);
    } else {
      StateIsLinear(seed, draws - 1, w);
      NextResidue(seed + (draws - 1) * INCREMENT, Pow2(w));
      NextMultiple(draws, INCREMENT);
    }
  }

  lemma NextMultiple(n: int, c: int)
    ensures n * c == (n - 1) * c + c
  {
    SumTimes(n, n - 1, 1, c);
  }

  lemma NextResidue(x: int, m: int)
    requires m > 0
    ensures (x % m + INCREMENT) % m == (x + INCREMENT) % m
  {
    ModOfShift(x % m + INCREMENT, x + INCREMENT, x / m, m);
  }

  // Two points of one run hold the same state exactly when the distance between them is a multiple
  // of 2^w: an odd increment loses no bit.
  lemma StateRepeatsIff(seed: int, i: nat, j: nat, w: nat)
    requires 0 <= seed < Pow2(w)
    ensures UIntState(seed, i, w) == UIntState(seed, j, w) <==> (j - i) % Pow2(w) == 0
  {
    StateIsLinear(seed, i, w);
    StateIsLinear(seed, j, w);
    SameRemainderIff(seed + i * INCREMENT, seed + j * INCREMENT, Pow2(w));
    var d := j - i;
    assert seed + j * INCREMENT - (seed + i * INCREMENT) == d * INCREMENT;
    if (d * INCREMENT) % Pow2(w) == 0 {
      OddFactorCancels(w, INCREMENT, d);
    } else if d % Pow2(w) == 0 {
      MultipleOfMultiple(d, INCREMENT, Pow2(w));
    }
  }

  // The w-bit state takes 2^w distinct values and then returns to where it was.
  lemma PeriodIsFull(seed: int, i: nat, j: nat, w: nat)
    requires 0 <= seed < Pow2(w) && i < j
    ensures j < i + Pow2(w) ==> UIntState(seed, i, w) != UIntState(seed, j, w)
    ensures j == i + Pow2(w) ==> UIntState(seed, i, w) == UIntState(seed, j, w)
  {
    StateRepeatsIff(seed, i, j, w);
    if j < i + Pow2(w) {
      ReadsSmall(j - i, w);
    } else if j == i + Pow2(w) {
      DivModUnique(j - i, Pow2(w), 1, 0);
    }
  }

  // For every seed, given to Kotlin as the Int with the same bits, and every number of draws, the
  // two 32-bit ports return the same value, and it lies in [0, 1).
  lemma PortsAgree(seed: int, draws: nat)
    requires 0 <= seed < Pow2(32)
    ensures IntOutput(IntState(Wrap(seed, 32), draws, 32), 32) == UIntOutput(UIntState(seed, draws, 32), 32)
    ensures 0.0 <= UIntOutput(UIntState(seed, draws, 32), 32) < 1.0
  {
    WordSizes();
    PortsAgreeAt(seed, draws, 32);
  }

  // INCREMENT times INVERSE is one more than COFACTOR times 2^32.
  const INVERSE: int := 3696798301
  const COFACTOR: int := 1576479847

  // Every word is reached from every seed, within 2^32 draws.
  lemma EveryStateIsReached(seed: int, target: int) returns (draws: nat)
    requires 0 <= seed < Pow2(32) && 0 <= target < Pow2(32)
    ensures draws < Pow2(32) && UIntState(seed, draws, 32) == target
  {
    WordSizes();
    draws := Reach(seed, target, INVERSE, COFACTOR, 32);
  }

  lemma Reach(seed: int, target: int, inverse: int, cofactor: int, w: nat) returns (draws: nat)
    requires 0 <= seed < Pow2(w) && 0 <= target < Pow2(w)
    requires inverse * INCREMENT == cofactor * Pow2(w) + 1
    ensures draws < Pow2(w) && UIntState(seed, draws, w) == target
  {
    var m, d := Pow2(w), target - seed;
    draws := (d * inverse) % m;
    StateIsLinear(seed, draws, w);
    var k := UndoFactor(d, INCREMENT, inverse, cofactor, m);
    ModOfShift(target, seed + draws * INCREMENT, k, m);
    ReadsSmall(target, w);
  }

  // ----- one draw, worked out -----

  lemma OnDigits(gate: Gate, a: int, b: int, r: int, x: seq<int>, y: seq<int>, z: seq<int>)
    requires |x| == |y| == |z| == 8 && AreDigits(x) && AreDigits(y)
    requires a == Hex(x[0], x[1], x[2], x[3], x[4], x[5], x[6], x[7])
    requires b == Hex(y[0], y[1], y[2], y[3], y[4], y[5], y[6], y[7])
    requires r == Hex(z[0], z[1], z[2], z[3], z[4], z[5], z[6], z[7])
    requires forall i :: 0 <= i < 8 ==> z[i] == Digit(gate, x[i], y[i])
    ensures Bitwise(gate, a, b) == r
  {
    BitwiseIsDigitwise(gate, x, y);
    assert Digitwise(gate, x, y) == z;
    EightDigits(x);
    EightDigits(y);
    EightDigits(z);
  }

  lemma XorBy15(a: int, b: int)
    requires a == 0x6d2b7a00 && b == 0x0000da56
    ensures Bitwise(Xor, a, b) == 0x6d2ba056
  {
    OnDigits(Xor, a, b, 0x6d2ba056, [6, 13, 2, 11, 7, 10, 0, 0], [0, 0, 0, 0, 13, 10, 5, 6],
        [6, 13, 2, 11, 10, 0, 5, 6]);
  }

  lemma OrOne(a: int, b: int)
    requires a == 0x6d2b7a00 && b == 0x00000001
    ensures Bitwise(Or, a, b) == 0x6d2b7a01
  {
    OnDigits(Or, a, b, 0x6d2b7a01, [6, 13, 2, 11, 7, 10, 0, 0], [0, 0, 0, 0, 0, 0, 0, 1], [6, 13, 2, 11, 7, 10, 0, 1]);
  }

  lemma XorBy7(a: int, b: int)
    requires a == 0xc4069c56 && b == 0x01880d38
    ensures Bitwise(Xor, a, b) == 0xc58e916e
  {
    OnDigits(Xor, a, b, 0xc58e916e, [12, 4, 0, 6, 9, 12, 5, 6], [0, 1, 8, 8, 0, 13, 3, 8], [12, 5, 8, 14, 9, 1, 6, 14]);
  }

  lemma Or61(a: int, b: int)
    requires a == 0xc4069c56 && b == 0x0000003d
    ensures Bitwise(Or, a, b) == 0xc4069c7f
  {
    OnDigits(Or, a, b, 0xc4069c7f, [12, 4, 0, 6, 9, 12, 5, 6], [0, 0, 0, 0, 0, 0, 3, 13], [12, 4, 0, 6, 9, 12, 7, 15]);
  }

  lemma XorSum(a: int, b: int)
    requires a == 0xc4069c56 && b == 0x46f3c9e8
    ensures Bitwise(Xor, a, b) == 0x82f555be
  {
    OnDigits(Xor, a, b, 0x82f555be, [12, 4, 0, 6, 9, 12, 5, 6], [4, 6, 15, 3, 12, 9, 14, 8],
        [8, 2, 15, 5, 5, 5, 11, 14]);
  }

  lemma XorBy14(a: int, b: int)
    requires a == 0x82f555be && b == 0x00020bd5
    ensures Bitwise(Xor, a, b) == 0x82f75e6b
  {
    OnDigits(Xor, a, b, 0x82f75e6b, [8, 2, 15, 5, 5, 5, 11, 14], [0, 0, 0, 2, 0, 11, 13, 5],
        [8, 2, 15, 7, 5, 14, 6, 11]);
  }

  lemma FirstProduct(x: int, y: int, m: int)
    requires x == 0x6d2ba056 && y == 0x6d2b7a01 && m == 0x1_0000_0000
    ensures (x * y) % m == 0xc4069c56
  {
    assert x * y == 0x2e8e1d9fc4069c56;
    DivModUnique(x * y, m, 0x2e8e1d9f, 0xc4069c56);
  }

  lemma SecondProduct(x: int, y: int, m: int)
    requires x == 0xc58e916e && y == 0xc4069c7f && m == 0x1_0000_0000
    ensures (x * y) % m == 0x82ed2d92
  {
    assert x * y == 0x9746417482ed2d92;
    DivModUnique(x * y, m, 0x97464174, 0x82ed2d92);
  }

  lemma SumOf(t: int, p: int, m: int)
    requires t == 0xc4069c56 && p == 0x82ed2d92 && m == 0x1_0000_0000
    ensures (t + p) % m == 0x46f3c9e8
  {
  }

  // The rounds of one draw, by their intermediate values.
  lemma ScrambleIs(a: int, x: int, y: int, t: int, x': int, y': int, p: int, sum: int, w: nat)
    requires x == Bitwise(Xor, a, UIntShift(a, 15)) && y == Bitwise(Or, a, 1) && t == UIntTimes(x, y, w)
    requires x' == Bitwise(Xor, t, UIntShift(t, 7)) && y' == Bitwise(Or, t, 61) && p == UIntTimes(x', y', w)
    requires sum == UIntPlus(t, p, w)
    ensures UIntScramble(a, w) == Bitwise(Xor, t, sum)
  {
  }

  lemma ShiftIs(a: int, s: int, k: nat, p: int)
    requires p == Pow2(k) && s == a / p
    ensures UIntShift(a, k) == s
  {
  }

  lemma FirstRound(a: int, w: nat)
    requires a == 0x6d2b7a00 && w == 32
    ensures UIntTimes(Bitwise(Xor, a, UIntShift(a, 15)), Bitwise(Or, a, 1), w) == 0xc4069c56
  {
    WordSizes();
    assert Pow2(15) == 32768;
    ShiftIs(a, 0x0000da56, 15, 32768);
    XorBy15(a, UIntShift(a, 15));
    OrOne(a, 1);
    FirstProduct(0x6d2ba056, 0x6d2b7a01, Pow2(w));
  }

  lemma SecondRound(t: int, w: nat)
    requires t == 0xc4069c56 && w == 32
    ensures UIntTimes(Bitwise(Xor, t, UIntShift(t, 7)), Bitwise(Or, t, 61), w) == 0x82ed2d92
  {
    WordSizes();
    assert Pow2(7) == 128;
    ShiftIs(t, 0x01880d38, 7, 128);
    XorBy7(t, UIntShift(t, 7));
    Or61(t, 61);
    SecondProduct(0xc58e916e, 0xc4069c7f, Pow2(w));
  }

  lemma Rounds(a: int, t: int, w: nat)
    requires a == 0x6d2b7a00 && t == 0xc4069c56 && w == 32
    ensures UIntScramble(a, w) == 0x82f555be
  {
    WordSizes();
    FirstRound(a, w);
    SecondRound(t, w);
    SumOf(t, 0x82ed2d92, Pow2(w));
    ScrambleIs(a, Bitwise(Xor, a, UIntShift(a, 15)), Bitwise(Or, a, 1), t, Bitwise(Xor, t, UIntShift(t, 7)),
               Bitwise(Or, t, 61), 0x82ed2d92, 0x46f3c9e8, w);
    XorSum(t, 0x46f3c9e8);
  }

  lemma OutputIs(a: int, t: int, w: nat)
    requires a == 0x6d2b7a00 && t == 0x82f555be && w == 32
    ensures UIntOutput(a, w) == UnitFraction(0x82f75e6b, w)
  {
    Rounds(a, 0xc4069c56, w);
    assert Pow2(14) == 16384;
    ShiftIs(t, 0x00020bd5, 14, 16384);
    XorBy14(t, UIntShift(t, 14));
  }

  lemma FirstState(seed: int, w: nat)
    requires seed == 11 && w == 32
    ensures UIntState(seed, 1, w) == 0x6d2b7a00
  {
    WordSizes();
    assert UIntState(seed, 0, w) == 11;
  }

  // The first draw for seed 11, in both ports.
  lemma FirstDrawOf11(seed: int, w: nat)
    requires seed == 11 && w == 32
    ensures UIntOutput(UIntState(seed, 1, w), w) == UnitFraction(0x82f75e6b, w)
    ensures IntOutput(IntState(Wrap(seed, w), 1, w), w) == UnitFraction(0x82f75e6b, w)
  {
    WordSizes();
    FirstState(seed, w);
    OutputIs(UIntState(seed, 1, w), 0x82f555be, w);
    PortsAgree(seed, 1);
  }

  // ----- the generators -----

  method IntFinish(state: int, w: nat) returns (draw: real)
    requires w > 0
    ensures draw == IntOutput(state, w)
  {
    var t := state;
    t := IntTimes(Bitwise(Xor, t, IntUshr(t, 15, w)), Bitwise(Or, t, 1), w);
    t := Bitwise(Xor, t, IntPlus(t, IntTimes(Bitwise(Xor, t, IntUshr(t, 7, w)), Bitwise(Or, t, 61), w), w));
    draw := UnitFraction(Bitwise(Xor, t, IntUshr(t, 14, w)) % Pow2(w), w);
  }

  method UIntFinish(state: int, w: nat) returns (draw: real)
    ensures draw == UIntOutput(state, w)
  {
    var t := state;
    t := UIntTimes(Bitwise(Xor, t, UIntShift(t, 15)), Bitwise(Or, t, 1), w);
    t := Bitwise(Xor, t, UIntPlus(t, UIntTimes(Bitwise(Xor, t, UIntShift(t, 7)), Bitwise(Or, t, 61), w), w));
    draw := UnitFraction(Bitwise(Xor, t, UIntShift(t, 14)), w);
  }

  // What the n-th call of next() returns, counted from one.
  ghost function IntDraws(seed: int, w: nat): nat -> real
    requires w > 0
  {
    (n: nat) => IntOutput(IntState(seed, n, w), w)
  }

  ghost function UIntDraws(seed: int, w: nat): nat -> real {
    (n: nat) => UIntOutput(UIntState(seed, n, w), w)
  }

  lemma IntStateGrows(seed: int, draws: nat, w: nat)
    requires w > 0
    ensures IntState(seed, draws + 1, w) == IntPlus(IntState(seed, draws, w), INCREMENT, w)
    ensures IntDraws(seed, w)(draws + 1) == IntOutput(IntState(seed, draws + 1, w), w)
  {
  }

  // The word size is 32. The seed, the sequence of its draws and the number of draws so far are
  // ghosts: they say which point of which run the state is.
  class KotlinMulberry32 {
    const w: nat
    var a: int
    ghost const seed: int
    ghost const sequence: nat -> real
    ghost var draws: nat

    ghost predicate Valid()
      reads this
    {
      w > 0 && a == IntState(seed, draws, w) && sequence == IntDraws(seed, w)
    }

    constructor (seed: int)
      ensures Valid() && w == 32 && this.seed == seed && draws == 0 && sequence == IntDraws(seed, 32)
    {
      w, a := 32, seed;
      this.seed, draws, sequence := seed, 0, IntDraws(seed, 32);
    }

    method Next() returns (draw: real)
      requires Valid()
      modifies this
      ensures Valid() && draws == old(draws) + 1
      ensures draw == sequence(draws)
    {
      IntStateGrows(seed, draws, w);
      a := IntPlus(a, INCREMENT, w);
      draws := draws + 1;
      draw := IntFinish(a, w);
    }
  }

  class SwiftMulberry32 {
    const w: nat
    var a: int
    ghost const seed: int
    ghost const sequence: nat -> real
    ghost var draws: nat

    ghost predicate Valid()
      reads this
    {
      w > 0 && a == UIntState(seed, draws, w) && sequence == UIntDraws(seed, w)
    }

    constructor (seed: int)
      ensures Valid() && w == 32 && this.seed == seed && draws == 0 && sequence == UIntDraws(seed, 32)
    {
      w, a := 32, seed;
      this.seed, draws, sequence := seed, 0, UIntDraws(seed, 32);
    }

    method Next() returns (draw: real)
      requires Valid()
      modifies this
      ensures Valid() && draws == old(draws) + 1
      ensures draw == sequence(draws)
    {
      a := UIntPlus(a, INCREMENT, w);
      draws := draws + 1;
      draw := UIntFinish(a, w);
    }
  }
}
