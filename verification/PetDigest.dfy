// The conformance digest of the pet: a 64 by 32 grid of saturating counts and five bytes of the
// frame, hashed with 64-bit FNV-1a and printed as sixteen hexadecimal digits. The Kotlin port hashes
// in a signed Long, the Swift port in a UInt64.

module PetDigest {
  import opened Arithmetic
  import opened Common
  import opened Words

  const WIDTH: nat := 64
  const CELLS: nat := 2048

  datatype Point = Point(x: real, y: real)
  datatype Shade = Shade(r: real, g: real, b: real, alpha: real, hollow: bool)

  // ----- the grid -----

  function Cell(p: Point): (cell: Option<nat>)
    ensures cell.Some? ==> cell.value < CELLS
  {
    var x, y := ((p.x + 0.66) / 1.32 * 64.0).Floor, ((p.y + 0.66) / 1.32 * 32.0).Floor;
    if 0 <= x <= 63 && 0 <= y <= 31 then Some(y * WIDTH + x) else None
  }

  // The cells are the 64 by 32 equal parts of the square from -0.66 to 0.66, row by row; what
  // lies outside is not counted.
  lemma CellIff(p: Point, row: nat, column: nat)
    requires row < 32 && column < 64
    ensures Cell(p) == Some(64 * row + column)
       <==> && 1.32 * column as real <= 64.0 * (p.x + 0.66) < 1.32 * (column + 1) as real
            && 1.32 * row as real <= 32.0 * (p.y + 0.66) < 1.32 * (row + 1) as real
  {
    FloorIff((p.x + 0.66) / 1.32 * 64.0, column);
    FloorIff((p.y + 0.66) / 1.32 * 32.0, row);
  }

  lemma FloorIff(v: real, n: int)
    ensures v.Floor == n <==> n as real <= v < (n + 1) as real
  {
  }

  lemma CellIsSome(p: Point)
    ensures Cell(p).Some? <==> -0.66 <= p.x < 0.66 && -0.66 <= p.y < 0.66
  {
  }

  function Count(points: seq<Point>, cell: nat): nat {
    if points == [] then 0
    else Count(points[..|points| - 1], cell) + (if Cell(points[|points| - 1]) == Some(cell) then 1 else 0)
  }

  function Saturated(n: nat): nat {
    if n < 255 then n else 255
  }

  function Grid(points: seq<Point>): seq<nat> {
    seq(CELLS, cell requires 0 <= cell < CELLS => Saturated(Count(points, cell)))
  }

  lemma {:induction false} CountWithout(points: seq<Point>, k: nat, cell: nat)
    requires k < |points|
    ensures Count(points, cell)
         == Count(points[..k] + points[k + 1..], cell) + (if Cell(points[k]) == Some(cell) then 1 else 0)
  {
    var n := |points| - 1;
    var rest := points[..k] + points[k + 1..];
    if k == n {
      assert rest == points[..n];
    } else {
      CountWithout(points[..n], k, cell);
      assert rest[..|rest| - 1] == points[..n][..k] + points[..n][k + 1..];
      assert rest[|rest| - 1] == points[n];
    }
  }

  lemma MultisetWithout(points: seq<Point>, k: nat)
    requires k < |points|
    ensures multiset(points) == multiset(points[..k] + points[k + 1..]) + multiset{points[k]}
  {
    assert points == points[..k] + [points[k]] + points[k + 1..];
  }

  lemma FindInMultiset(points: seq<Point>, p: Point) returns (k: nat)
    requires p in multiset(points)
    ensures k < |points| && points[k] == p
  {
    k :| k < |points| && points[k] == p;
  }

  lemma SameRemainder(a: multiset<Point>, b: multiset<Point>, p: Point)
    requires a + multiset{p} == b + multiset{p}
    ensures a == b
  {
    assert (a + multiset{p}) - multiset{p} == a;
  }

  lemma {:induction false} CountIgnoresOrder(points: seq<Point>, others: seq<Point>, cell: nat)
    requires multiset(points) == multiset(others)
    ensures Count(points, cell) == Count(others, cell)
    decreases |points|
  {
    if points == [] {
      assert |multiset(others)| == |others|;
    } else {
      var n := |points| - 1;
      assert points[n] in multiset(points);
      var k := FindInMultiset(others, points[n]);
      MultisetWithout(others, k);
      assert points == points[..n] + [points[n]];
      SameRemainder(multiset(points[..n]), multiset(others[..k] + others[k + 1..]), points[n]);
      CountWithout(others, k, cell);
      CountIgnoresOrder(points[..n], others[..k] + others[k + 1..], cell);
    }
  }

  // ----- the byte stream -----

  // Kotlin's roundToInt: half goes up.
  function RoundHalfUp(v: real): int {
    (v + 0.5).Floor
  }

  // Swift's rounded(): half goes away from zero.
  function RoundHalfAway(v: real): int {
    if v >= 0.0 then (v + 0.5).Floor else -((0.5 - v).Floor)
  }

  function Roundings(shade: Shade): seq<int> {
    [RoundHalfUp(shade.r), RoundHalfUp(shade.g), RoundHalfUp(shade.b), RoundHalfUp(shade.alpha * 255.0),
     if shade.hollow then 1 else 0]
  }

  // The low eight bits of every value that is mixed in.
  function Masked(values: seq<int>): (bytes: seq<nat>)
    ensures |bytes| == |values| && AreBytes(bytes)
  {
    seq(|values|, i requires 0 <= i < |values| => values[i] % 256)
  }

  function Bytes(points: seq<Point>, shade: Shade): (bytes: seq<nat>)
    ensures |bytes| == CELLS + 5 && AreBytes(bytes)
  {
    Masked(Grid(points) + Roundings(shade))
  }

  // The stream is the grid, cell by cell, then red, green, blue, the opacity on the scale of a byte, each
  // rounded to a nearest whole number, and a last byte for a hollow pet.
  lemma StreamIs(points: seq<Point>, shade: Shade)
    ensures forall cell: nat :: cell < CELLS ==> Bytes(points, shade)[cell] == Saturated(Count(points, cell))
    ensures forall k: nat :: k < 3 ==> 0.0 <= Tones(shade)[k] <= 255.0 ==>
              IsNearest(Bytes(points, shade)[CELLS + k], Tones(shade)[k])
    ensures 0.0 <= shade.alpha <= 1.0 ==> IsNearest(Bytes(points, shade)[CELLS + 3], shade.alpha * 255.0)
    ensures Bytes(points, shade)[CELLS + 4] == if shade.hollow then 1 else 0
  {
    var values := Grid(points) + Roundings(shade);
    forall cell: nat | cell < CELLS ensures Bytes(points, shade)[cell] == Saturated(Count(points, cell)) {
      assert values[cell] == Grid(points)[cell];
    }
    forall k: nat | k < 5 ensures values[CELLS + k] == Roundings(shade)[k] {}
    RoundsToByte(shade.r);
    RoundsToByte(shade.g);
    RoundsToByte(shade.b);
    RoundsToByte(shade.alpha * 255.0);
  }

  function Tones(shade: Shade): seq<real> {
    [shade.r, shade.g, shade.b]
  }

  predicate IsNearest(n: int, v: real) {
    v - 0.5 <= n as real <= v + 0.5
  }

  lemma RoundsToByte(v: real)
    ensures 0.0 <= v <= 255.0 ==> IsNearest(RoundHalfUp(v) % 256, v)
  {
    if 0.0 <= v <= 255.0 {
      assert 0 <= RoundHalfUp(v) <= 255;
    }
  }

  predicate AreBytes(bytes: seq<nat>) {
    forall i :: 0 <= i < |bytes| ==> bytes[i] < 256
  }

  // ----- FNV-1a on words of w bits -----

  const BASIS: nat := 0xcbf29ce484222325
  const PRIME: nat := 0x100000001b3

  function Mix(h: int, byte: nat, w: nat): int {
    (Bitwise(Xor, h, byte) * PRIME) % Pow2(w)
  }

  lemma {:induction false} XorNothing(a: nat)
    ensures Bitwise(Xor, a, 0) == a
  {
    if a > 0 {
      XorNothing(a / 2);
      BitwiseUnfolds(Xor, a, 0);
    }
  }

  lemma XorLowDigits(h: nat, high: nat, byte: int, x: int)
    requires h == 256 * high + 0x25 && byte == 0x61 && x == 256 * high + 0x44
    ensures Bitwise(Xor, h, byte) == x
  {
    DigitStep(Xor, h, byte, 16 * high + 2, 6, 5, 1);
    DigitStep(Xor, 16 * high + 2, 6, high, 0, 2, 6);
    XorNothing(high);
  }

  // The published FNV-1a hash of the text "a".
  lemma HashOfA(byte: nat, w: nat)
    requires byte == 0x61 && w == 64
    ensures Mix(BASIS, byte, w) == 0xaf63dc4c8601ec8c
  {
    WordSizes();
    XorLowDigits(BASIS, 0xcbf29ce4842223, byte, 0xcbf29ce484222344);
    DivModUnique(0xcbf29ce484222344 * PRIME, Pow2(w), 0xcbf29ce5de, 0xaf63dc4c8601ec8c);
  }

  function Hash(h: int, bytes: seq<nat>, w: nat): int {
    if bytes == [] then h else Mix(Hash(h, bytes[..|bytes| - 1], w), bytes[|bytes| - 1], w)
  }

  // The signed port keeps its state in [-2^(w-1), 2^(w-1)).
  function SignedMix(h: int, byte: nat, w: nat): int
    requires w > 0
  {
    Wrap(Bitwise(Xor, h, byte) * PRIME, w)
  }

  function SignedHash(h: int, bytes: seq<nat>, w: nat): int
    requires w > 0
  {
    if bytes == [] then h else SignedMix(SignedHash(h, bytes[..|bytes| - 1], w), bytes[|bytes| - 1], w)
  }

  lemma SignedMixReads(s: int, u: int, byte: nat, w: nat)
    requires w > 0 && byte < Pow2(w) && u == s % Pow2(w)
    ensures Mix(u, byte, w) == SignedMix(s, byte, w) % Pow2(w)
  {
    var m := Pow2(w);
    var x, y := Bitwise(Xor, s, byte), Bitwise(Xor, u, byte);
    BitwiseIsLocal(Xor, s, byte, w);
    SmallMod(byte, m);
    assert y == x % m;
    WrapFits(x * PRIME, w);
    ModOfProduct(x, PRIME, m);
    ModOfProduct(y, PRIME, m);
    BitwiseIsLocal(Xor, u, byte, w);
    SmallMod(u, m);
  }

  // Both ports hold the same 64 bits after every byte.
  lemma {:induction false} PortsHashAlike(s: int, u: int, bytes: seq<nat>, w: nat)
    requires w > 0 && 256 <= Pow2(w) && AreBytes(bytes) && u == s % Pow2(w)
    ensures Hash(u, bytes, w) == SignedHash(s, bytes, w) % Pow2(w)
    decreases |bytes|
  {
    if bytes != [] {
      var n := |bytes| - 1;
      PortsHashAlike(s, u, bytes[..n], w);
      SignedMixReads(SignedHash(s, bytes[..n], w), Hash(u, bytes[..n], w), bytes[n], w);
    }
  }

  // ----- no byte is lost -----

  lemma TimesPrimeIsInjective(x: int, y: int, w: nat)
    requires 0 <= x < Pow2(w) && 0 <= y < Pow2(w)
    requires (x * PRIME) % Pow2(w) == (y * PRIME) % Pow2(w)
    ensures x == y
  {
    var m := Pow2(w);
    SameRemainderIff(x * PRIME, y * PRIME, m);
    SumTimes(y, x, y - x, PRIME);
    OddFactorCancels(w, PRIME, y - x);
    SameRemainderIff(x, y, m);
    SmallMod(x, m);
    SmallMod(y, m);
  }

  lemma XorCommutes(a: int, b: int)
    ensures Bitwise(Xor, a, b) == Bitwise(Xor, b, a)
    decreases Size(a) + Size(b)
  {
    if !(-1 <= a <= 0 && -1 <= b <= 0) {
      XorCommutes(a / 2, b / 2);
    }
  }

  // One step loses nothing: neither the state, for a known byte, nor the byte, for a known state.
  lemma MixIsInjective(h: int, byte: nat, h': int, byte': nat, w: nat)
    requires 0 <= h < Pow2(w) && 0 <= h' < Pow2(w) && byte < Pow2(w) && byte' < Pow2(w)
    requires Mix(h, byte, w) == Mix(h', byte', w)
    ensures h == h' <==> byte == byte'
  {
    BitwiseFits(Xor, h, byte, w);
    BitwiseFits(Xor, h', byte', w);
    TimesPrimeIsInjective(Bitwise(Xor, h, byte), Bitwise(Xor, h', byte'), w);
    if byte == byte' {
      XorUndoesItself(h, byte);
      XorUndoesItself(h', byte);
    } else if h == h' {
      XorCommutes(h, byte);
      XorCommutes(h, byte');
      XorUndoesItself(byte, h);
      XorUndoesItself(byte', h);
    }
  }

  // The inverse of one step: undo the multiplication with the inverse of the prime, then the mask.
  const INVERSE: nat := 14886173955864302971
  const COFACTOR: nat := 887285111055

  function Unmix(h: int, byte: nat, w: nat): int {
    Bitwise(Xor, (h * INVERSE) % Pow2(w), byte)
  }

  lemma MixHitsEverything(h: int, byte: nat, w: nat)
    requires 0 <= h < Pow2(w) && byte < Pow2(w)
    requires INVERSE * PRIME == COFACTOR * Pow2(w) + 1
    ensures 0 <= Unmix(h, byte, w) < Pow2(w) && Mix(Unmix(h, byte, w), byte, w) == h
  {
    var m := Pow2(w);
    var x := (h * INVERSE) % m;
    BitwiseFits(Xor, x, byte, w);
    XorUndoesItself(x, byte);
    var k := UndoFactor(h, PRIME, INVERSE, COFACTOR, m);
    ModOfShift(h, x * PRIME, k, m);
    SmallMod(h, m);
  }

  // Every FNV-1a step on 64 bits is a bijection of the states.
  lemma StepIsBijection(h: int, h': int, byte: nat)
    requires 0 <= h < Pow2(64) && 0 <= h' < Pow2(64) && byte < 256
    ensures Mix(h, byte, 64) == Mix(h', byte, 64) ==> h == h'
    ensures 0 <= Unmix(h, byte, 64) < Pow2(64) && Mix(Unmix(h, byte, 64), byte, 64) == h
  {
    WordSizes();
    MixHitsEverything(h, byte, 64);
    if Mix(h, byte, 64) == Mix(h', byte, 64) {
      MixIsInjective(h, byte, h', byte, 64);
    }
  }

  ghost predicate DifferOnlyAt(s: seq<nat>, t: seq<nat>, i: nat) {
    |s| == |t| && i < |s| && s[i] != t[i] && forall k :: 0 <= k < |s| && k != i ==> s[k] == t[k]
  }

  // Two streams that differ in exactly one byte never share a hash.
  lemma {:induction false} OneByteShows(h: int, s: seq<nat>, t: seq<nat>, i: nat, w: nat)
    requires 0 <= h < Pow2(w) && 256 <= Pow2(w) && AreBytes(s) && AreBytes(t)
    requires DifferOnlyAt(s, t, i)
    ensures Hash(h, s, w) != Hash(h, t, w)
    decreases |s|
  {
    var n := |s| - 1;
    var x, y := Hash(h, s[..n], w), Hash(h, t[..n], w);
    if i == n {
      assert s[..n] == t[..n];
    } else {
      OneByteShows(h, s[..n], t[..n], i, w);
    }
    if Hash(h, s, w) == Hash(h, t, w) {
      MixIsInjective(x, s[n], y, t[n], w);
    }
  }

  // ----- the printed digest -----

  function Digit(d: nat): (c: char)
    requires d < 16
    ensures Undigit(c) == d
  {
    if d < 10 then '0' + d as char else 'a' + (d - 10) as char
  }

  function Undigit(c: char): int {
    if '0' <= c <= '9' then c as int - '0' as int else c as int - 'a' as int + 10
  }

  // toString(16): no leading zeros.
  function ToString16(v: nat): string {
    if v < 16 then [Digit(v)] else ToString16(v / 16) + [Digit(v % 16)]
  }

  function PadStart(s: string, n: nat): string {
    if |s| >= n then s else seq(n - |s|, _ => '0') + s
  }

  // %016llx: the given number of digits, most significant first.
  function Hex(v: nat, digits: nat): (s: string)
    ensures |s| == digits
  {
    if digits == 0 then "" else Hex(v / 16, digits - 1) + [Digit(v % 16)]
  }

  function Unhex(s: string): int {
    if s == "" then 0 else 16 * Unhex(s[..|s| - 1]) + Undigit(s[|s| - 1])
  }

  function Pow16(n: nat): nat {
    if n == 0 then 1 else 16 * Pow16(n - 1)
  }

  lemma {:induction false} HexReadsBack(v: nat, digits: nat)
    requires v < Pow16(digits)
    ensures Unhex(Hex(v, digits)) == v
  {
    if digits > 0 {
      HexReadsBack(v / 16, digits - 1);
      var s := Hex(v, digits);
      assert s[..|s| - 1] == Hex(v / 16, digits - 1);
    }
  }

  // The two ports print alike: padding the shortest form gives the fixed form.
  lemma {:induction false} PaddedIsFixed(v: nat, digits: nat)
    requires 0 < digits && v < Pow16(digits)
    ensures |ToString16(v)| <= digits && PadStart(ToString16(v), digits) == Hex(v, digits)
    decreases digits
  {
    if v < 16 {
      ZeroHex(digits - 1);
      assert PadStart([Digit(v)], digits) == seq(digits - 1, _ => '0') + [Digit(v)];
    } else {
      PaddedIsFixed(v / 16, digits - 1);
      var s, c := ToString16(v / 16), Digit(v % 16);
      assert PadStart(s + [c], digits) == PadStart(s, digits - 1) + [c];
    }
  }

  lemma {:induction false} ZeroHex(digits: nat)
    ensures Hex(0, digits) == seq(digits, _ => '0')
  {
    if digits > 0 {
      ZeroHex(digits - 1);
      assert seq(digits, _ => '0') == seq(digits - 1, _ => '0') + ['0'];
    }
  }

  function Digest(points: seq<Point>, shade: Shade): int {
    Hash(BASIS, Bytes(points, shade), 64)
  }

  lemma DigestFits(points: seq<Point>, shade: Shade)
    ensures 0 <= Digest(points, shade) < Pow16(16)
  {
    WordSizes();
    SixteensAreFours(16);
  }

  lemma {:induction false} SixteensAreFours(n: nat)
    ensures Pow16(n) == Pow2(4 * n)
  {
    if n > 0 {
      SixteensAreFours(n - 1);
      Pow2Adds(4, 4 * (n - 1));
      assert Pow2(4) == 16;
    }
  }

  // ----- what the digest tells -----

  // The digest does not depend on the order of the particles.
  lemma OrderIsIgnored(points: seq<Point>, others: seq<Point>, shade: Shade)
    requires multiset(points) == multiset(others)
    ensures Digest(points, shade) == Digest(others, shade)
  {
    forall cell | 0 <= cell < CELLS
      ensures Count(points, cell) == Count(others, cell)
    {
      CountIgnoresOrder(points, others, cell);
    }
    assert Grid(points) == Grid(others);
  }

  // Two pictures whose saturated counts or rounded frame differ in exactly one byte print different
  // digests.
  lemma OneByteOfThePictureShows(points: seq<Point>, shade: Shade, others: seq<Point>, shade': Shade, i: nat)
    requires DifferOnlyAt(Bytes(points, shade), Bytes(others, shade'), i)
    ensures Hex(Digest(points, shade), 16) != Hex(Digest(others, shade'), 16)
  {
    WordSizes();
    OneByteShows(BASIS, Bytes(points, shade), Bytes(others, shade'), i, 64);
    DigestFits(points, shade);
    DigestFits(others, shade');
    HexReadsBack(Digest(points, shade), 16);
    HexReadsBack(Digest(others, shade'), 16);
  }

  lemma ByteAt(points: seq<Point>, shade: Shade, i: nat)
    requires i < CELLS + 5
    ensures Bytes(points, shade)[i]
         == if i < CELLS then Saturated(Count(points, i)) else Roundings(shade)[i - CELLS] % 256
  {
  }

  // One more particle in a cell that is not yet full is seen.
  lemma MoreParticlesShow(points: seq<Point>, p: Point, shade: Shade)
    requires Cell(p).Some? && Count(points, Cell(p).value) < 255
    ensures Hex(Digest(points + [p], shade), 16) != Hex(Digest(points, shade), 16)
  {
    forall i: nat | i < CELLS + 5
      ensures Bytes(points + [p], shade)[i] != Bytes(points, shade)[i] <==> i == Cell(p).value
    {
      ByteAt(points, shade, i);
      ByteAt(points + [p], shade, i);
    }
    OneByteOfThePictureShows(points + [p], shade, points, shade, Cell(p).value);
  }

  // ----- the methods -----

  method Tally(points: seq<Point>) returns (grid: array<int>)
    ensures fresh(grid) && grid[..] == Grid(points)
  {
    grid := new int[CELLS](_ => 0);
    var i := 0;
    while i < |points|
      invariant 0 <= i <= |points|
      invariant forall c: nat :: c < CELLS ==> grid[c] == Saturated(Count(points[..i], c))
    {
      assert points[..i + 1][..i] == points[..i];
      var cell := Cell(points[i]);
      if cell.Some? {
        grid[cell.value] := if grid[cell.value] + 1 < 255 then grid[cell.value] + 1 else 255;
      }
      i := i + 1;
    }
    assert points[..i] == points;
  }

  method SignedMixAll(basis: int, values: seq<int>, w: nat) returns (hash: int)
    requires w > 0
    ensures hash == SignedHash(basis, Masked(values), w)
  {
    ghost var bytes := Masked(values);
    hash := basis;
    var i := 0;
    while i < |values|
      invariant 0 <= i <= |values|
      invariant hash == SignedHash(basis, bytes[..i], w)
    {
      assert bytes[..i + 1][..i] == bytes[..i];
      hash := SignedMix(hash, values[i] % 256, w);
      i := i + 1;
    }
    assert bytes[..i] == bytes;
  }

  method MixAll(basis: int, values: seq<int>, w: nat) returns (hash: int)
    ensures hash == Hash(basis, Masked(values), w)
  {
    ghost var bytes := Masked(values);
    hash := basis;
    var i := 0;
    while i < |values|
      invariant 0 <= i <= |values|
      invariant hash == Hash(basis, bytes[..i], w)
    {
      assert bytes[..i + 1][..i] == bytes[..i];
      hash := Mix(hash, values[i] % 256, w);
      i := i + 1;
    }
    assert bytes[..i] == bytes;
  }

  // The Kotlin port: a signed Long and a padded hexadecimal form.
  method KotlinDigest(points: seq<Point>, shade: Shade) returns (text: string)
    ensures text == Hex(Digest(points, shade), 16)
  {
    var grid := Tally(points);
    var hash := SignedMixAll(Wrap(BASIS, 64), grid[..] + Roundings(shade), 64);
    HashesAgree(Bytes(points, shade));
    DigestFits(points, shade);
    PaddedIsFixed(Digest(points, shade), 16);
    text := PadStart(ToString16(hash % Pow2(64)), 16);
  }

  lemma HashesAgree(bytes: seq<nat>)
    requires AreBytes(bytes)
    ensures Hash(BASIS, bytes, 64) == SignedHash(Wrap(BASIS, 64), bytes, 64) % Pow2(64)
  {
    WordSizes();
    WrapFits(BASIS, 64);
    SmallMod(BASIS, Pow2(64));
    PortsHashAlike(Wrap(BASIS, 64), BASIS, bytes, 64);
  }

  // The Swift port: a UInt64 and a fixed-width form. Converting a negative value to UInt64 stops the
  // program, so the colours and alpha must not be negative.
  method SwiftDigest(points: seq<Point>, shade: Shade) returns (text: string)
    requires shade.r >= 0.0 && shade.g >= 0.0 && shade.b >= 0.0 && shade.alpha >= 0.0
    ensures text == Hex(Digest(points, shade), 16)
  {
    var grid := Tally(points);
    var roundings := [RoundHalfAway(shade.r), RoundHalfAway(shade.g), RoundHalfAway(shade.b),
                      RoundHalfAway(shade.alpha * 255.0), if shade.hollow then 1 else 0];
    var hash := MixAll(BASIS, grid[..] + roundings, 64);
    DigestFits(points, shade);
    assert roundings == Roundings(shade);
    text := Hex(hash, 16);
  }
}
