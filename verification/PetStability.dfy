// The spring that moves every particle of the pet, at thirty frames a second, one axis at a time.
// Its gain follows the coherence of the moment, so one run mixes all gains between two extremes.

module PetStability {
  const DT: real := 1.0 / 30.0

  predicate Within(v: real, bound: real) {
    -bound <= v <= bound
  }

  datatype Axis = Axis(x: real, v: real)

  function Pull(coherence: real): real {
    2.2 + coherence * 5.2
  }

  // One frame: pulled to the target while in motion, and put on it otherwise.
  function Advance(a: Axis, target: real, coherence: real, motion: bool): Axis {
    if !motion then Axis(target, 0.0)
    else
      var v := (a.v + (target - a.x) * Pull(coherence) * DT) * 0.90;
      Axis(a.x + v * DT * 2.6, v)
  }

  // ----- the same frame in the coordinates x and d = 0.78 v, with gain e = 0.0026 pull -----

  const LOW_GAIN: real := 0.00572
  const HIGH_GAIN: real := 0.01924

  function NextX(x: real, d: real, e: real, target: real): real {
    x + 0.1 * d + e * (target - x)
  }

  function NextD(x: real, d: real, e: real, target: real): real {
    0.9 * d + 9.0 * (e * (target - x))
  }

  lemma GainFits(coherence: real)
    requires 0.0 <= coherence <= 1.0
    ensures LOW_GAIN <= 0.0026 * Pull(coherence) <= HIGH_GAIN
  {
  }

  lemma Regroup(c: real, gain: real, way: real)
    ensures (c * gain) * way == c * (way * gain)
  {
  }

  // The frame in terms of the pull times the way to the target.
  lemma PulledX(x: real, v: real, p: real, q: real)
    requires q == 0.0026 * p
    ensures x + ((v + p * DT) * 0.90) * DT * 2.6 == x + 0.1 * (0.78 * v) + q
  {
  }

  lemma PulledD(v: real, p: real, q: real)
    requires q == 0.0026 * p
    ensures 0.78 * ((v + p * DT) * 0.90) == 0.9 * (0.78 * v) + 9.0 * q
  {
  }

  lemma FrameX(a: Axis, target: real, coherence: real)
    ensures Advance(a, target, coherence, true).x == NextX(a.x, 0.78 * a.v, 0.0026 * Pull(coherence), target)
  {
    Regroup(0.0026, Pull(coherence), target - a.x);
    PulledX(a.x, a.v, (target - a.x) * Pull(coherence), (0.0026 * Pull(coherence)) * (target - a.x));
  }

  lemma FrameD(a: Axis, target: real, coherence: real)
    ensures 0.78 * Advance(a, target, coherence, true).v == NextD(a.x, 0.78 * a.v, 0.0026 * Pull(coherence), target)
  {
    Regroup(0.0026, Pull(coherence), target - a.x);
    PulledD(a.v, (target - a.x) * Pull(coherence), (0.0026 * Pull(coherence)) * (target - a.x));
  }

  lemma FrameIsLinear(a: Axis, target: real, coherence: real)
    requires 0.0 <= coherence <= 1.0
    ensures var e := 0.0026 * Pull(coherence);
      && LOW_GAIN <= e <= HIGH_GAIN
      && Advance(a, target, coherence, true).x == NextX(a.x, 0.78 * a.v, e, target)
      && 0.78 * Advance(a, target, coherence, true).v == NextD(a.x, 0.78 * a.v, e, target)
  {
    GainFits(coherence);
    FrameX(a, target, coherence);
    FrameD(a, target, coherence);
  }

  // ----- two runs under the same inputs approach each other -----

  function Energy(x: real, d: real): real {
    x * x + 0.6 * (x * d) + 0.8 * (d * d)
  }

  // A quadratic form with a positive leading coefficient and no positive discriminant.
  lemma FormIsNonnegative(a: real, b: real, c: real, x: real, d: real)
    requires a > 0.0 && 4.0 * a * c >= b * b
    ensures a * (x * x) + b * (x * d) + c * (d * d) >= 0.0
  {
    var root := 2.0 * a * x + b * d;
    var rest := 4.0 * a * c - b * b;
    Square(root);
    Square(d);
    assert rest * (d * d) >= 0.0;
    CompleteTheSquare(a, b, c, x, d);
    var form := a * (x * x) + b * (x * d) + c * (d * d);
    assert 4.0 * a * form >= 0.0;
  }

  lemma Square(x: real)
    ensures x * x >= 0.0
  {
  }

  lemma ProductIsNonnegative(a: real, b: real)
    requires a >= 0.0 && b >= 0.0
    ensures a * b >= 0.0
  {
  }

  lemma CompleteTheSquare(a: real, b: real, c: real, x: real, d: real)
    ensures 4.0 * a * (a * (x * x) + b * (x * d) + c * (d * d))
         == (2.0 * a * x + b * d) * (2.0 * a * x + b * d) + (4.0 * a * c - b * b) * (d * d)
  {
    var s, t := 2.0 * a * x, b * d;
    assert (s + t) * (s + t) == s * s + 2.0 * (s * t) + t * t;
    assert s * s == 4.0 * a * (a * (x * x));
    assert s * t == 2.0 * a * (b * (x * d));
    assert t * t == b * b * (d * d);
  }

  lemma EnergyBoundsBoth(x: real, d: real)
    ensures Energy(x, d) >= 0.8875 * (x * x)
    ensures Energy(x, d) >= 0.71 * (d * d)
  {
    FormIsNonnegative(0.1125, 0.6, 0.8, x, d);
    FormIsNonnegative(1.0, 0.6, 0.09, x, d);
  }

  lemma ExpandEnergy(x: real, d: real, e: real)
    ensures Energy(NextX(x, d, e, 0.0), NextD(x, d, e, 0.0))
         == ((1.0 - e) * (1.0 - e) - 5.4 * (e * (1.0 - e)) + 64.8 * (e * e)) * (x * x)
          + (0.74 - 14.24 * e) * (x * d) + 0.712 * (d * d)
  {
    var p, q := 1.0 - e, -9.0 * e;
    var x', d' := NextX(x, d, e, 0.0), NextD(x, d, e, 0.0);
    assert x' == p * x + 0.1 * d && d' == q * x + 0.9 * d;
    ExpandSquare(p, x, 0.1, d);
    ExpandSquare(q, x, 0.9, d);
    ExpandProduct(p, q, x, d);
    assert q * q == 81.0 * (e * e) && p * q == -9.0 * (e * p);
  }

  lemma ExpandSquare(p: real, x: real, r: real, d: real)
    ensures (p * x + r * d) * (p * x + r * d) == p * p * (x * x) + 2.0 * (p * r) * (x * d) + r * r * (d * d)
  {
    var s, t := p * x, r * d;
    assert (s + t) * (s + t) == s * s + 2.0 * (s * t) + t * t;
    assert s * s == p * p * (x * x) && s * t == (p * r) * (x * d) && t * t == r * r * (d * d);
  }

  lemma ExpandProduct(p: real, q: real, x: real, d: real)
    ensures (p * x + 0.1 * d) * (q * x + 0.9 * d) == p * q * (x * x) + (0.9 * p + 0.1 * q) * (x * d) + 0.09 * (d * d)
  {
    assert (p * x) * (q * x) == p * q * (x * x);
    assert (p * x + 0.1 * d) * (q * x + 0.9 * d)
        == (p * x) * (q * x) + 0.9 * ((p * x) * d) + 0.1 * (d * (q * x)) + 0.09 * (d * d);
  }

  // One frame towards zero, at any gain, loses energy.
  lemma FrameContracts(x: real, d: real, e: real)
    requires LOW_GAIN <= e <= HIGH_GAIN
    ensures Energy(NextX(x, d, e, 0.0), NextD(x, d, e, 0.0)) <= 0.979 * Energy(x, d)
  {
    var a, b, c := 7.4 * e - 71.2 * (e * e) - 0.021, 14.24 * e - 0.1526, 0.0712;
    ProductIsNonnegative(e - LOW_GAIN, HIGH_GAIN - e);
    assert b * b == 202.7776 * (e * e) - 4.346048 * e + 0.02328676;
    FormIsNonnegative(a, b, c, x, d);
    ExpandEnergy(x, d, e);
    assert (1.0 - e) * (1.0 - e) - 5.4 * (e * (1.0 - e)) + 64.8 * (e * e) == 0.979 - a;
    assert 0.979 * (x * x) - (0.979 - a) * (x * x) == a * (x * x);
    assert 0.5874 * (x * d) - (0.74 - 14.24 * e) * (x * d) == b * (x * d);
  }

  // ----- runs of frames -----

  datatype Pulse = Pulse(target: real, coherence: real, motion: bool)

  predicate Calm(pulses: seq<Pulse>, reach: real) {
    forall i :: 0 <= i < |pulses| ==> 0.0 <= pulses[i].coherence <= 1.0 && Within(pulses[i].target, reach)
  }

  function Follow(a: Axis, pulses: seq<Pulse>): Axis {
    if pulses == [] then a
    else
      var last := pulses[|pulses| - 1];
      Advance(Follow(a, pulses[..|pulses| - 1]), last.target, last.coherence, last.motion)
  }

  function Distance(a: Axis, b: Axis): real {
    Energy(a.x - b.x, 0.78 * (a.v - b.v))
  }

  // The given length, multiplied by 0.979 n times.
  function Shrunk(n: nat, length: real): real {
    if n == 0 then length else 0.979 * Shrunk(n - 1, length)
  }

  lemma FrameApproaches(a: Axis, b: Axis, target: real, coherence: real, motion: bool)
    requires 0.0 <= coherence <= 1.0
    ensures Distance(Advance(a, target, coherence, motion), Advance(b, target, coherence, motion))
         <= 0.979 * Distance(a, b)
  {
    EnergyBoundsBoth(a.x - b.x, 0.78 * (a.v - b.v));
    Square(a.x - b.x);
    if motion {
      var e := 0.0026 * Pull(coherence);
      FrameIsLinear(a, target, coherence);
      FrameIsLinear(b, target, coherence);
      var x, d := a.x - b.x, 0.78 * (a.v - b.v);
      assert e * (target - a.x) - e * (target - b.x) == e * (0.0 - x);
      FrameContracts(x, d, e);
    }
  }

  // The distance after k + 1 pulses is at most 0.979 of the distance after k.
  ghost predicate Approaches(distance: (Axis, Axis) -> real, a: Axis, b: Axis, pulses: seq<Pulse>, k: nat)
    requires k < |pulses|
  {
    distance(Follow(a, pulses[..k + 1]), Follow(b, pulses[..k + 1]))
    <= 0.979 * distance(Follow(a, pulses[..k]), Follow(b, pulses[..k]))
  }

  lemma ApproachesInPrefix(distance: (Axis, Axis) -> real, a: Axis, b: Axis, pulses: seq<Pulse>, n: nat, k: nat)
    requires k < n <= |pulses| && Approaches(distance, a, b, pulses, k)
    ensures Approaches(distance, a, b, pulses[..n], k)
  {
    assert pulses[..n][..k + 1] == pulses[..k + 1] && pulses[..n][..k] == pulses[..k];
  }

  lemma {:induction false} Decays(distance: (Axis, Axis) -> real, a: Axis, b: Axis, pulses: seq<Pulse>)
    requires forall k: nat :: k < |pulses| ==> Approaches(distance, a, b, pulses, k)
    ensures distance(Follow(a, pulses), Follow(b, pulses)) <= Shrunk(|pulses|, distance(a, b))
    decreases |pulses|
  {
    if pulses != [] {
      var n := |pulses| - 1;
      forall k: nat | k < n
        ensures Approaches(distance, a, b, pulses[..n], k)
      {
        ApproachesInPrefix(distance, a, b, pulses, n, k);
      }
      Decays(distance, a, b, pulses[..n]);
      assert Approaches(distance, a, b, pulses, n);
      assert pulses[..n + 1] == pulses;
    }
  }

  lemma PulseApproaches(a: Axis, b: Axis, pulses: seq<Pulse>, k: nat)
    requires k < |pulses| && 0.0 <= pulses[k].coherence <= 1.0
    ensures Approaches(Distance, a, b, pulses, k)
  {
    assert pulses[..k + 1][..k] == pulses[..k];
    var p := pulses[k];
    FrameApproaches(Follow(a, pulses[..k]), Follow(b, pulses[..k]), p.target, p.coherence, p.motion);
  }

  // Whatever the targets, gains and pauses are, two particles that follow the same ones come
  // together: their distance loses at least 2.1 percent in every frame.
  lemma StartIsForgotten(a: Axis, b: Axis, pulses: seq<Pulse>)
    requires forall i :: 0 <= i < |pulses| ==> 0.0 <= pulses[i].coherence <= 1.0
    ensures Distance(Follow(a, pulses), Follow(b, pulses)) <= Shrunk(|pulses|, Distance(a, b))
  {
    forall k: nat | k < |pulses|
      ensures Approaches(Distance, a, b, pulses, k)
    {
      PulseApproaches(a, b, pulses, k);
    }
    Decays(Distance, a, b, pulses);
  }

  // ----- the region no run leaves -----

  // A polygon with twenty-eight sides in the plane of x and d, scaled by the reach of the targets.
  // No frame leaves it, for any gain between the extremes.
  predicate FlatSides(x: real, d: real, reach: real) {
    && Within(x, 2.969 * reach)
    && Within(0.18 * d + 0.97 * x, 2.900 * reach)
    && Within(0.35 * d + 0.90 * x, 2.756 * reach)
    && Within(0.50 * d + 0.78 * x, 2.533 * reach)
    && Within(0.50 * d - 0.78 * x, 2.982 * reach)
    && Within(0.35 * d - 0.90 * x, 2.988 * reach)
    && Within(0.18 * d - 0.97 * x, 2.958 * reach)
  }

  predicate SteepSides(x: real, d: real, reach: real) {
    && Within(0.63 * d + 0.62 * x, 2.342 * reach)
    && Within(0.72 * d + 0.43 * x, 2.396 * reach)
    && Within(0.78 * d + 0.22 * x, 2.510 * reach)
    && Within(0.80 * d, 2.641 * reach)
    && Within(0.78 * d - 0.22 * x, 2.768 * reach)
    && Within(0.72 * d - 0.43 * x, 2.869 * reach)
    && Within(0.63 * d - 0.62 * x, 2.956 * reach)
  }

  predicate Inside(x: real, d: real, reach: real) {
    FlatSides(x, d, reach) && SteepSides(x, d, reach)
  }

  // g stands for the gain times the gap to the target.
  ghost predicate Pulled(g: real, gap: real) {
    && (gap >= 0.0 ==> LOW_GAIN * gap <= g <= HIGH_GAIN * gap)
    && (gap <= 0.0 ==> HIGH_GAIN * gap <= g <= LOW_GAIN * gap)
  }

  lemma StaysInFlatSides(x: real, d: real, g: real, x': real, d': real, target: real, reach: real)
    requires Inside(x, d, reach) && Within(target, reach) && Pulled(g, target - x)
    requires x' == x + 0.1 * d + g && d' == 0.9 * d + 9.0 * g
    ensures FlatSides(x', d', reach)
  {
  }

  lemma StaysInSteepSides(x: real, d: real, g: real, x': real, d': real, target: real, reach: real)
    requires Inside(x, d, reach) && Within(target, reach) && Pulled(g, target - x)
    requires x' == x + 0.1 * d + g && d' == 0.9 * d + 9.0 * g
    ensures SteepSides(x', d', reach)
  {
  }

  datatype Phase = Phase(x: real, d: real)

  ghost function Region(reach: real): iset<Phase> {
    iset p: Phase | Inside(p.x, p.d, reach)
  }

  lemma StaysInRegion(p: Phase, g: real, p': Phase, target: real, reach: real)
    requires p in Region(reach) && Within(target, reach) && Pulled(g, target - p.x)
    requires p'.x == p.x + 0.1 * p.d + g && p'.d == 0.9 * p.d + 9.0 * g
    ensures p' in Region(reach)
  {
    StaysInFlatSides(p.x, p.d, g, p'.x, p'.d, target, reach);
    StaysInSteepSides(p.x, p.d, g, p'.x, p'.d, target, reach);
  }

  lemma GainPulls(e: real, gap: real)
    requires LOW_GAIN <= e <= HIGH_GAIN
    ensures Pulled(e * gap, gap)
  {
    if gap >= 0.0 {
      ProductIsNonnegative(e - LOW_GAIN, gap);
      ProductIsNonnegative(HIGH_GAIN - e, gap);
    } else {
      ProductIsNonnegative(e - LOW_GAIN, -gap);
      ProductIsNonnegative(HIGH_GAIN - e, -gap);
    }
  }

  ghost predicate Contained(a: Axis, reach: real) {
    Phase(a.x, 0.78 * a.v) in Region(reach)
  }

  // The gain times the gap, as a number of its own.
  lemma FramePulls(a: Axis, target: real, coherence: real) returns (g: real)
    requires 0.0 <= coherence <= 1.0
    ensures Pulled(g, target - a.x)
    ensures Lands(a, Advance(a, target, coherence, true), g)
  {
    var gap := target - a.x;
    var p := gap * Pull(coherence);
    g := 0.0026 * p;
    assert Advance(a, target, coherence, true).v == (a.v + p / 30.0) * 0.90;
    GainPulls(0.0026 * Pull(coherence), gap);
    assert 0.0026 * Pull(coherence) * gap == g;
  }

  ghost predicate Lands(a: Axis, a': Axis, g: real) {
    a'.x == a.x + 0.1 * (0.78 * a.v) + g && 0.78 * a'.v == 0.9 * (0.78 * a.v) + 9.0 * g
  }

  lemma StepStaysContained(a: Axis, a': Axis, g: real, target: real, reach: real)
    requires Within(target, reach) && Contained(a, reach) && Pulled(g, target - a.x) && Lands(a, a', g)
    ensures Contained(a', reach)
  {
    StaysInRegion(Phase(a.x, 0.78 * a.v), g, Phase(a'.x, 0.78 * a'.v), target, reach);
  }

  lemma FrameStaysContained(a: Axis, target: real, coherence: real, motion: bool, reach: real)
    requires 0.0 <= coherence <= 1.0 && Within(target, reach) && Contained(a, reach)
    ensures Contained(Advance(a, target, coherence, motion), reach)
  {
    if motion {
      var g := FramePulls(a, target, coherence);
      StepStaysContained(a, Advance(a, target, coherence, true), g, target, reach);
    } else {
      RestIsContained(target, reach);
    }
  }

  lemma RegionIsBounded(x: real, d: real, reach: real)
    requires Inside(x, d, reach)
    ensures Within(x, 2.969 * reach) && Within(0.8 * d, 2.641 * reach) && reach >= 0.0
  {
  }

  lemma ContainedIsBounded(a: Axis, reach: real)
    requires Contained(a, reach)
    ensures Within(a.x, 2.969 * reach) && Within(a.v, 4.233 * reach)
  {
    RegionIsBounded(a.x, 0.78 * a.v, reach);
  }

  // A particle at rest within the reach is contained.
  lemma RestIsContained(x: real, reach: real)
    requires Within(x, reach)
    ensures Contained(Axis(x, 0.0), reach)
  {
  }

  // For every run of targets within the reach, with the coherence and the motion flag changing
  // freely, a particle that starts contained keeps its position below three times the reach and
  // its velocity below four and a quarter times the reach, for ever.
  lemma {:induction false} RunStaysBounded(a: Axis, pulses: seq<Pulse>, reach: real)
    requires Contained(a, reach) && Calm(pulses, reach)
    ensures Contained(Follow(a, pulses), reach)
    ensures Within(Follow(a, pulses).x, 2.969 * reach) && Within(Follow(a, pulses).v, 4.233 * reach)
    decreases |pulses|
  {
    if pulses != [] {
      var n := |pulses| - 1;
      var last := pulses[n];
      RunStaysBounded(a, pulses[..n], reach);
      FrameStaysContained(Follow(a, pulses[..n]), last.target, last.coherence, last.motion, reach);
    }
    ContainedIsBounded(Follow(a, pulses), reach);
  }
}
