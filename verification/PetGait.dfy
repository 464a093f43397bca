// Where a particle of the pet wants to be: the swimming body, the figure of the current channel, and
// the mix of both. The transcendental functions are given, with the bounds they are known to have.

module PetGait {
  import opened Common
  import opened PetStability

  // ----- channels -----

  datatype Key =
    | Reasoning | Tool | Memory | Code | Filesystem | Network | Browser
    | Communication | Agent | Orchestration | Errors | Human | Other

  datatype Arch = Gyre | Strike | Cross | Pod | Tear | Address | Drift

  datatype Color = Color(r: real, g: real, b: real)

  datatype Channel = Channel(key: Key, color: Color, arch: Arch)

  const CHANNEL_COUNT: nat := 13

  predicate Known(i: int) {
    0 <= i < CHANNEL_COUNT
  }

  // The table of channels, in its order.
  function ChannelAt(i: int): Channel
    requires Known(i)
  {
    match i
    case 0 => Channel(Reasoning, Color(115.0, 201.0, 181.0), Gyre)
    case 1 => Channel(Tool, Color(116.0, 170.0, 221.0), Strike)
    case 2 => Channel(Memory, Color(182.0, 167.0, 127.0), Gyre)
    case 3 => Channel(Code, Color(155.0, 158.0, 215.0), Strike)
    case 4 => Channel(Filesystem, Color(146.0, 185.0, 201.0), Strike)
    case 5 => Channel(Network, Color(211.0, 172.0, 116.0), Cross)
    case 6 => Channel(Browser, Color(158.0, 169.0, 223.0), Cross)
    case 7 => Channel(Communication, Color(131.0, 197.0, 201.0), Cross)
    case 8 => Channel(Agent, Color(176.0, 154.0, 203.0), Pod)
    case 9 => Channel(Orchestration, Color(108.0, 135.0, 152.0), Pod)
    case 10 => Channel(Errors, Color(231.0, 145.0, 134.0), Tear)
    case 11 => Channel(Human, Color(194.0, 183.0, 135.0), Address)
    case _ => Channel(Other, Color(115.0, 132.0, 146.0), Drift)
  }

  function ArchOf(key: Key): Arch {
    match key
    case Reasoning => Gyre
    case Memory => Gyre
    case Tool => Strike
    case Code => Strike
    case Filesystem => Strike
    case Network => Cross
    case Communication => Cross
    case Browser => Cross
    case Agent => Pod
    case Orchestration => Pod
    case Errors => Tear
    case Human => Address
    case Other => Drift
  }

  function IndexOf(key: Key): (i: nat)
    ensures Known(i) && ChannelAt(i).key == key && ChannelAt(i).arch == ArchOf(key)
  {
    match key
    case Reasoning => 0
    case Tool => 1
    case Memory => 2
    case Code => 3
    case Filesystem => 4
    case Network => 5
    case Browser => 6
    case Communication => 7
    case Agent => 8
    case Orchestration => 9
    case Errors => 10
    case Human => 11
    case Other => 12
  }

  // ----- arithmetic -----

  function Lerp(a: real, b: real, t: real): real {
    a + (b - a) * t
  }

  function Max(a: real, b: real): real {
    if a < b then b else a
  }

  function Min(a: real, b: real): real {
    if b < a then b else a
  }

  function Clamp(v: real): real {
    Min(1.0, Max(0.0, v))
  }

  function Abs(v: real): real {
    if v < 0.0 then -v else v
  }

  // The remainder of a division by one, with the sign of the dividend.
  function Fraction(v: real): real {
    if v >= 0.0 then v - v.Floor as real else v + (-v).Floor as real
  }

  // An angle that grows with time, faster when the pet is more active.
  function Turn(t: real, act: real, base: real, slope: real): real {
    t * (base + act * slope)
  }

  lemma TurnIsForward(t: real, act: real, base: real, slope: real)
    requires t >= 0.0 && act >= 0.0 && base >= 0.0 && slope >= 0.0
    ensures Turn(t, act, base, slope) >= 0.0
  {
    ProductIsNonnegative(act, slope);
    ProductIsNonnegative(t, base + act * slope);
  }

  datatype Maths = Maths(
    sin: real -> real, cos: real -> real, pow: (real, real) -> real,
    atan2: (real, real) -> real, hypot: (real, real) -> real, pi: real)
  {
    ghost predicate Sound() {
      && (forall v :: Within(sin(v), 1.0))
      && (forall v :: Within(cos(v), 1.0))
      && (forall b, e :: 0.0 <= b <= 1.0 && e > 0.0 ==> 0.0 <= pow(b, e) <= 1.0)
    }
  }

  lemma Times(a: real, limit: real, b: real, limit': real)
    requires Within(a, limit) && Within(b, limit')
    ensures Within(a * b, limit * limit')
  {
    ProductIsNonnegative(limit - a, limit' + b);
    ProductIsNonnegative(limit + a, limit' - b);
    ProductIsNonnegative(limit - a, limit' - b);
    ProductIsNonnegative(limit + a, limit' + b);
  }

  lemma UnitTimes(a: real, b: real, limit: real)
    requires Within(a, 1.0) && Within(b, limit)
    ensures Within(a * b, limit)
  {
    Times(a, 1.0, b, limit);
  }

  lemma TimesUnit(a: real, limit: real, b: real)
    requires Within(a, limit) && Within(b, 1.0)
    ensures Within(a * b, limit)
  {
    Times(a, limit, b, 1.0);
  }

  lemma LerpStaysBetween(a: real, b: real, t: real, low: real, high: real)
    requires low <= a <= high && low <= b <= high && 0.0 <= t <= 1.0
    ensures low <= Lerp(a, b, t) <= high
  {
    ProductIsNonnegative(high - b, t);
    ProductIsNonnegative(b - low, t);
    ProductIsNonnegative(high - a, 1.0 - t);
    ProductIsNonnegative(a - low, 1.0 - t);
  }

  // ----- particles -----

  datatype Point = Point(x: real, y: real)

  datatype Particle = Particle(
    x: real, y: real, vx: real, vy: real, s: real, jx: real, jy: real, pod: int,
    hx: real, hy: real, ang: real, rad: real, tail: real, tx: real, ty: real)

  // The radius within which the whole body lies. The points that ship with the pet lie within 0.44.
  const BODY: real := 0.52

  // What the constructor fixes: the identity of a particle.
  ghost predicate Fits(q: Particle) {
    && 0.0 <= q.s <= 1.0 && 0 <= q.pod <= 5 && 0.0 <= q.tail <= 1.0
    && Within(q.hx, BODY) && Within(q.hy, BODY) && 0.0 <= q.rad <= BODY
  }

  predicate Near(p: Point, limit: real) {
    Within(p.x, limit) && Within(p.y, limit)
  }

  // What the pet shows, after the sensitivity is applied.
  datatype Mood = Mood(act: real, coh: real, att: real)

  ghost predicate Sane(mood: Mood) {
    0.0 <= mood.act <= 1.0 && 0.0 <= mood.coh <= 1.0 && 0.0 <= mood.att <= 1.0
  }

  // ----- the swimming body -----

  // One coordinate: a direction times the radius and the breath, and a slow sway.
  function Stroke(direction: real, rad: real, breath: real, wave: real, sway: real): real {
    direction * rad * breath + wave * sway
  }

  function Breath(m: Maths, t: real, work: real): real {
    1.0 + m.sin(t * 1.85) * Lerp(0.048, 0.018, work)
  }

  function FlexPhase(q: Particle, t: real, act: real, work: real): real {
    q.ang * 2.05 + t * Lerp(4.6, 5.2 + act * 2.8, work)
  }

  function FlexSize(act: real, work: real): real {
    Lerp(0.042, 0.016 + act * 0.028, work)
  }

  function FlexPart(tail: real): real {
    0.18 + 0.82 * tail
  }

  function Flex(m: Maths, q: Particle, t: real, act: real, work: real): real {
    m.sin(FlexPhase(q, t, act, work)) * FlexSize(act, work) * FlexPart(q.tail)
  }

  function Swim(m: Maths, q: Particle, t: real, act: real, work: real): Point {
    var angle := q.ang + Flex(m, q, t, act, work);
    var breath := Breath(m, t, work);
    Point(Stroke(m.cos(angle), q.rad, breath, m.sin(t * 0.33), Lerp(0.030, 0.014, work)),
          Stroke(m.sin(angle), q.rad, breath, m.cos(t * 0.21), Lerp(0.018, 0.010, work)))
  }

  lemma StrokeIsNear(direction: real, rad: real, breath: real, wave: real, sway: real)
    requires Within(direction, 1.0) && 0.0 <= rad <= BODY && 0.952 <= breath <= 1.048
    requires Within(wave, 1.0) && 0.0 <= sway <= 0.030
    ensures Within(Stroke(direction, rad, breath, wave, sway), 0.575)
  {
    UnitTimes(direction, rad, 0.52);
    Times(direction * rad, 0.52, breath, 1.048);
    assert 0.52 * 1.048 == 0.54496;
    UnitTimes(wave, sway, 0.030);
  }

  lemma BreathIsSmall(m: Maths, t: real, work: real)
    requires m.Sound() && 0.0 <= work <= 1.0
    ensures 0.952 <= Breath(m, t, work) <= 1.048
  {
    LerpStaysBetween(0.048, 0.018, work, 0.018, 0.048);
    UnitTimes(m.sin(t * 1.85), Lerp(0.048, 0.018, work), 0.048);
  }

  lemma SwimIsNear(m: Maths, q: Particle, t: real, act: real, work: real)
    requires m.Sound() && Fits(q) && 0.0 <= act <= 1.0 && 0.0 <= work <= 1.0
    ensures Near(Swim(m, q, t, act, work), 0.575)
  {
    var angle, breath := q.ang + Flex(m, q, t, act, work), Breath(m, t, work);
    BreathIsSmall(m, t, work);
    LerpStaysBetween(0.030, 0.014, work, 0.014, 0.030);
    LerpStaysBetween(0.018, 0.010, work, 0.010, 0.018);
    StrokeIsNear(m.cos(angle), q.rad, breath, m.sin(t * 0.33), Lerp(0.030, 0.014, work));
    StrokeIsNear(m.sin(angle), q.rad, breath, m.cos(t * 0.21), Lerp(0.018, 0.010, work));
  }

  // ----- the figures of the channels -----

  function Pulse(beat: real, act: real): real {
    1.0 + beat * (0.15 + act * 0.10)
  }

  lemma PulseIsSmall(beat: real, act: real)
    requires Within(beat, 1.0) && 0.0 <= act <= 1.0
    ensures Within(Pulse(beat, act), 1.25)
  {
    UnitTimes(beat, 0.15 + act * 0.10, 0.25);
  }

  lemma SwellIsNear(v: real, pulse: real)
    requires Within(v, 0.575) && Within(pulse, 1.25)
    ensures Within(v * pulse, 1.225)
  {
    Times(v, 0.575, pulse, 1.25);
    assert 0.575 * 1.25 == 0.71875;
  }

  function Roll(m: Maths, t: real, act: real): real {
    m.sin(Turn(t, act, 1.05, 0.35)) * (0.48 + act * 0.32)
  }

  // The two coordinates after a flattened turn, from the finished products.
  function RolledX(along: real, across: real): real {
    along - across * 0.88
  }

  function RolledY(along: real, across: real): real {
    along * 0.88 + across
  }

  lemma RollsAreNear(along: real, across: real)
    requires Within(along, 0.575) && Within(across, 0.575)
    ensures Within(RolledX(along, across), 1.225) && Within(RolledY(along, across), 1.225)
  {
  }

  function GyreTarget(m: Maths, q: Particle, t: real, act: real, key: Key, p: Point): Point {
    if key == Memory then
      var pulse := Pulse(m.sin(Turn(t, act, 2.4, 1.6) - q.rad * 11.0), act);
      Point(p.x * pulse, p.y * pulse)
    else
      var c, sn := m.cos(Roll(m, t, act)), m.sin(Roll(m, t, act));
      Point(RolledX(p.x * c, p.y * sn), RolledY(p.x * sn, p.y * c))
  }

  lemma TurnedIsNear(p: Point, c: real, sn: real)
    requires Near(p, 0.575) && Within(c, 1.0) && Within(sn, 1.0)
    ensures Near(Point(RolledX(p.x * c, p.y * sn), RolledY(p.x * sn, p.y * c)), 1.225)
  {
    TimesUnit(p.x, 0.575, c);
    TimesUnit(p.x, 0.575, sn);
    TimesUnit(p.y, 0.575, c);
    TimesUnit(p.y, 0.575, sn);
    RollsAreNear(p.x * c, p.y * sn);
    RollsAreNear(p.x * sn, p.y * c);
  }

  lemma GyreIsNear(m: Maths, q: Particle, t: real, act: real, key: Key, p: Point)
    requires m.Sound() && Near(p, 0.575) && 0.0 <= act <= 1.0
    ensures Near(GyreTarget(m, q, t, act, key, p), 1.225)
  {
    if key == Memory {
      var beat := m.sin(Turn(t, act, 2.4, 1.6) - q.rad * 11.0);
      PulseIsSmall(beat, act);
      SwellIsNear(p.x, Pulse(beat, act));
      SwellIsNear(p.y, Pulse(beat, act));
    } else {
      TurnedIsNear(p, m.cos(Roll(m, t, act)), m.sin(Roll(m, t, act)));
    }
  }

  // The positive part of a wave, raised to a power.
  function Burst(m: Maths, phase: real, power: real): real {
    m.pow(Max(0.0, m.sin(phase)), power)
  }

  lemma BurstIsUnit(m: Maths, phase: real, power: real)
    requires m.Sound() && power > 0.0
    ensures 0.0 <= Burst(m, phase, power) <= 1.0
  {
    assert Within(m.sin(phase), 1.0);
  }

  function Strength(burst: real, act: real): real {
    burst * (0.30 + act * 0.24)
  }

  lemma StrengthIsSmall(burst: real, act: real)
    requires 0.0 <= burst <= 1.0 && 0.0 <= act <= 1.0
    ensures Within(Strength(burst, act), 0.54)
  {
    UnitTimes(burst, 0.30 + act * 0.24, 0.54);
  }

  function Jut(base: real, direction: real, reach: real): real {
    base + direction * reach
  }

  lemma JutIsNear(base: real, limit: real, direction: real, reach: real, limit': real)
    requires Within(base, limit) && Within(direction, 1.0) && Within(reach, limit') && limit + limit' <= 1.225
    ensures Within(Jut(base, direction, reach), 1.225)
  {
    UnitTimes(direction, reach, limit');
  }

  function Lunge(m: Maths, q: Particle, lunge: real, burst: real, act: real, p: Point): Point {
    if q.s > 0.60 then
      Point(Jut(p.x + lunge * 0.11, m.cos(q.ang), Strength(burst, act)), Jut(p.y, m.sin(q.ang), Strength(burst, act)))
    else Point(p.x + lunge * 0.11, p.y)
  }

  function LungeTarget(m: Maths, q: Particle, t: real, act: real, p: Point): Point {
    var phase := Turn(t, act, 2.7, 2.1);
    Lunge(m, q, Burst(m, phase, 2.0), Burst(m, phase + q.pod as real * 0.92, 4.0), act, p)
  }

  function WaveTarget(m: Maths, q: Particle, t: real, act: real, p: Point): Point {
    var wave := m.sin(Turn(t, act, 3.2, 1.8) - q.tail * 7.5);
    var bump := 0.11 + act * 0.08;
    Point(p.x + m.cos(q.ang) * wave * bump + Max(0.0, wave) * 0.07, p.y + m.sin(q.ang) * wave * bump * 1.2)
  }

  function FanTarget(m: Maths, q: Particle, t: real, act: real, p: Point): Point {
    var side := ((q.pod % 2) * 2 - 1) as real;
    var w := Burst(m, Turn(t, act, 2.15, 1.5) + q.pod as real * 0.72, 2.0);
    Point(p.x + w * 0.055, Jut(p.y, side * w, 0.17 + act * 0.13))
  }

  function StrikeTarget(m: Maths, q: Particle, t: real, act: real, key: Key, p: Point): Point {
    if key == Tool then LungeTarget(m, q, t, act, p)
    else if key == Code then WaveTarget(m, q, t, act, p)
    else FanTarget(m, q, t, act, p)
  }

  lemma Product3(a: real, b: real, c: real, limit: real)
    requires Within(a, 1.0) && Within(b, 1.0) && Within(c, limit)
    ensures Within(a * b * c, limit) && Within(a * (b * c), limit)
  {
    Times(a, 1.0, b, 1.0);
    Times(a * b, 1.0, c, limit);
    Times(b, 1.0, c, limit);
    Times(a, 1.0, b * c, limit);
  }

  lemma LungesAreNear(m: Maths, q: Particle, lunge: real, burst: real, act: real, p: Point)
    requires m.Sound() && Near(p, 0.575) && 0.0 <= act <= 1.0 && 0.0 <= lunge <= 1.0 && 0.0 <= burst <= 1.0
    ensures Near(Lunge(m, q, lunge, burst, act, p), 1.225)
  {
    StrengthIsSmall(burst, act);
    JutIsNear(p.x + lunge * 0.11, 0.685, m.cos(q.ang), Strength(burst, act), 0.54);
    JutIsNear(p.y, 0.575, m.sin(q.ang), Strength(burst, act), 0.54);
  }

  lemma LungeIsNear(m: Maths, q: Particle, t: real, act: real, p: Point)
    requires m.Sound() && Near(p, 0.575) && 0.0 <= act <= 1.0
    ensures Near(LungeTarget(m, q, t, act, p), 1.225)
  {
    var phase := Turn(t, act, 2.7, 2.1);
    var lunge, burst := Burst(m, phase, 2.0), Burst(m, phase + q.pod as real * 0.92, 4.0);
    BurstIsUnit(m, phase, 2.0);
    BurstIsUnit(m, phase + q.pod as real * 0.92, 4.0);
    LungesAreNear(m, q, lunge, burst, act, p);
  }

  lemma WaveIsNear(m: Maths, q: Particle, t: real, act: real, p: Point)
    requires m.Sound() && Near(p, 0.575) && 0.0 <= act <= 1.0
    ensures Near(WaveTarget(m, q, t, act, p), 1.225)
  {
    var wave := m.sin(Turn(t, act, 3.2, 1.8) - q.tail * 7.5);
    assert Within(wave, 1.0);
    Product3(m.cos(q.ang), wave, 0.11 + act * 0.08, 0.19);
    Product3(m.sin(q.ang), wave, 0.11 + act * 0.08, 0.19);
  }

  lemma FanIsNear(m: Maths, q: Particle, t: real, act: real, p: Point)
    requires m.Sound() && Near(p, 0.575) && 0.0 <= act <= 1.0
    ensures Near(FanTarget(m, q, t, act, p), 1.225)
  {
    var side := ((q.pod % 2) * 2 - 1) as real;
    var w := Burst(m, Turn(t, act, 2.15, 1.5) + q.pod as real * 0.72, 2.0);
    BurstIsUnit(m, Turn(t, act, 2.15, 1.5) + q.pod as real * 0.72, 2.0);
    UnitTimes(side, w, 1.0);
    JutIsNear(p.y, 0.575, side * w, 0.17 + act * 0.13, 0.30);
  }

  function SmoothStep(going: real): real {
    going * going * (3.0 - 2.0 * going)
  }

  // There and back again while u runs from 0 to 1.
  function Going(u: real): real {
    if u < 0.5 then u * 2.0 else 2.0 - u * 2.0
  }

  function Arc(m: Maths, going: real): real {
    m.sin(going * m.pi)
  }

  function Courier(q: Particle, dir: real, e: real, arc: real): Point {
    Point(Lerp(q.hx, dir * 0.80, e), q.hy * (1.0 - e * 0.38) + arc * 0.11 * dir)
  }

  function Sweep(inBand: real, act: real, p: Point): Point {
    Point(Jut(p.x, inBand, 0.24 + act * 0.10), p.y + inBand * 0.02)
  }

  function InBand(hy: real, band: real): real {
    Max(0.0, 1.0 - Abs(hy - band) / 0.08)
  }

  function CrossTarget(m: Maths, q: Particle, t: real, act: real, key: Key, p: Point): Point {
    if key == Browser then Sweep(InBand(q.hy, Fraction(Turn(t, act, 0.55, 0.35)) * 1.28 - 0.64), act, p)
    else if q.s < (if key == Communication then 0.44 else 0.32) then
      var going := Going(Fraction(Turn(t, act, 0.38, 0.36) + q.s * 5.2));
      Courier(q, if key == Communication && q.s >= 0.22 then -1.0 else 1.0, SmoothStep(going), Arc(m, going))
    else p
  }

  // The smooth step from 0 to 1.
  lemma SmoothStepIsUnit(going: real)
    requires 0.0 <= going <= 1.0
    ensures 0.0 <= SmoothStep(going) <= 1.0
  {
    var rest := 1.0 - going;
    Times(rest, 1.0, rest, 1.0);
    assert rest * rest >= 0.0 && going * going >= 0.0;
    ProductIsNonnegative(rest * rest, 1.0 + 2.0 * going);
    ProductIsNonnegative(going * going, 3.0 - 2.0 * going);
    assert going * going * (3.0 - 2.0 * going) == 3.0 * (going * going) - 2.0 * (going * going * going);
    assert (rest * rest) * (1.0 + 2.0 * going) == 1.0 - 3.0 * (going * going) + 2.0 * (going * going * going);
  }

  lemma FractionIsUnit(v: real)
    requires v >= 0.0
    ensures 0.0 <= Fraction(v) < 1.0
  {
  }

  lemma CourierIsNear(q: Particle, dir: real, e: real, arc: real)
    requires Fits(q) && Within(dir, 1.0) && 0.0 <= e <= 1.0 && Within(arc, 1.0)
    ensures Near(Courier(q, dir, e, arc), 1.225)
  {
    LerpStaysBetween(q.hx, dir * 0.80, e, -0.80, 0.80);
    Times(q.hy, BODY, 1.0 - e * 0.38, 1.0);
    Times(arc * 0.11, 0.11, dir, 1.0);
  }

  lemma SweepIsNear(inBand: real, act: real, p: Point)
    requires Near(p, 0.575) && 0.0 <= inBand <= 1.0 && 0.0 <= act <= 1.0
    ensures Near(Sweep(inBand, act, p), 1.225)
  {
    JutIsNear(p.x, 0.575, inBand, 0.24 + act * 0.10, 0.34);
  }

  lemma CrossIsNear(m: Maths, q: Particle, t: real, act: real, key: Key, p: Point)
    requires m.Sound() && Fits(q) && Near(p, 0.575) && 0.0 <= act <= 1.0 && t >= 0.0
    ensures Near(CrossTarget(m, q, t, act, key, p), 1.225)
  {
    if key == Browser {
      SweepIsNear(InBand(q.hy, Fraction(Turn(t, act, 0.55, 0.35)) * 1.28 - 0.64), act, p);
    } else {
      TurnIsForward(t, act, 0.38, 0.36);
      FractionIsUnit(Turn(t, act, 0.38, 0.36) + q.s * 5.2);
      var going := Going(Fraction(Turn(t, act, 0.38, 0.36) + q.s * 5.2));
      SmoothStepIsUnit(going);
      CourierIsNear(q, if key == Communication && q.s >= 0.22 then -1.0 else 1.0, SmoothStep(going), Arc(m, going));
    }
  }

  // One entry of the list of pod slots: the slot of a member and its phase.
  datatype Slot = Slot(place: int, phase: real)

  function Orbit(m: Maths, q: Particle, act: real, a: real): Point {
    var spread := 0.30 + act * 0.11;
    Point(q.hx * 0.34 + m.cos(a) * spread * 1.28, q.hy * 0.34 + m.sin(a) * spread * 0.80)
  }

  function PodPlace(q: Particle, slots: seq<Slot>): Slot {
    if slots == [] then Slot(q.pod % 6, 0.0) else slots[q.pod % |slots|]
  }

  function PodAngle(m: Maths, t: real, act: real, key: Key, slot: Slot): real {
    var places := if key == Orchestration then 5 else 6;
    (if key == Orchestration then slot.place - 1 else slot.place) as real * (m.pi * 2.0 / places as real)
    + Turn(t, act, 0.55, 0.28) + slot.phase * 0.04
  }

  function PodTarget(m: Maths, q: Particle, t: real, act: real, key: Key, p: Point, slots: seq<Slot>): Point {
    var slot := PodPlace(q, slots);
    if key == Orchestration && slot.place == 0 then Point(p.x * 0.70, p.y * 0.70)
    else Orbit(m, q, act, PodAngle(m, t, act, key, slot))
  }

  lemma OrbitIsNear(m: Maths, q: Particle, act: real, a: real)
    requires m.Sound() && Fits(q) && 0.0 <= act <= 1.0
    ensures Near(Orbit(m, q, act, a), 1.225)
  {
    var spread := 0.30 + act * 0.11;
    Times(m.cos(a), 1.0, spread, 0.41);
    Times(m.sin(a), 1.0, spread, 0.41);
  }

  lemma PodIsNear(m: Maths, q: Particle, t: real, act: real, key: Key, p: Point, slots: seq<Slot>)
    requires m.Sound() && Fits(q) && Near(p, 0.575) && 0.0 <= act <= 1.0
    ensures Near(PodTarget(m, q, t, act, key, p, slots), 1.225)
  {
    OrbitIsNear(m, q, act, PodAngle(m, t, act, key, PodPlace(q, slots)));
  }

  function TearTarget(m: Maths, q: Particle, t: real, act: real, coh: real, p: Point): Point {
    var side := if q.hx + q.hy < 0.0 then -1.0 else 1.0;
    Point(Jut(p.x + side * (0.24 + (1.0 - coh) * 0.16), m.sin(t * 11.4 + q.s * 40.0), 0.045 + act * 0.05),
          Jut(p.y + side * 0.15, m.cos(t * 9.2 + q.s * 31.0), 0.040 + act * 0.045))
  }

  lemma TearIsNear(m: Maths, q: Particle, t: real, act: real, coh: real, p: Point)
    requires m.Sound() && Near(p, 0.575) && 0.0 <= act <= 1.0 && 0.0 <= coh <= 1.0
    ensures Near(TearTarget(m, q, t, act, coh, p), 1.225)
  {
    var side := if q.hx + q.hy < 0.0 then -1.0 else 1.0;
    JutIsNear(p.x + side * (0.24 + (1.0 - coh) * 0.16), 0.975, m.sin(t * 11.4 + q.s * 40.0), 0.045 + act * 0.05, 0.095);
    JutIsNear(p.y + side * 0.15, 0.725, m.cos(t * 9.2 + q.s * 31.0), 0.040 + act * 0.045, 0.085);
  }

  function AddressTarget(m: Maths, q: Particle, t: real, att: real): Point {
    var z := (q.s - 0.5) * 0.42;
    var disc := 0.48 * (0.90 + att * 0.08);
    var ax := Lerp(q.hx * m.cos(0.70) + z * m.sin(0.70), m.cos(q.ang) * Min(0.36, q.rad + 0.06) * 0.95, disc);
    var ay := Lerp(q.hy, m.sin(q.ang) * Min(0.36, q.rad + 0.06) * 1.08, disc);
    var grow := 1.20 + m.sin(t * 1.65) * 0.055;
    Point(ax * grow, ay * grow)
  }

  lemma AddressCoordinate(from: real, c: real, ring: real, scale: real, disc: real, beat: real)
    requires Within(from, 0.73) && Within(c, 1.0) && 0.0 <= ring <= 0.36 && 0.0 <= scale <= 1.08
    requires 0.0 <= disc <= 1.0 && Within(beat, 1.0)
    ensures Within(Lerp(from, c * ring * scale, disc) * (1.20 + beat * 0.055), 1.225)
  {
    Times(c, 1.0, ring, 0.36);
    Times(c * ring, 0.36, scale, 1.08);
    LerpStaysBetween(from, c * ring * scale, disc, -0.73, 0.73);
    Times(Lerp(from, c * ring * scale, disc), 0.73, 1.20 + beat * 0.055, 1.255);
  }

  lemma AddressIsNear(m: Maths, q: Particle, t: real, att: real)
    requires m.Sound() && Fits(q) && 0.0 <= att <= 1.0
    ensures Near(AddressTarget(m, q, t, att), 1.225)
  {
    var z := (q.s - 0.5) * 0.42;
    var disc := 0.48 * (0.90 + att * 0.08);
    var ring := Min(0.36, q.rad + 0.06);
    Times(q.hx, BODY, m.cos(0.70), 1.0);
    Times(z, 0.21, m.sin(0.70), 1.0);
    AddressCoordinate(q.hx * m.cos(0.70) + z * m.sin(0.70), m.cos(q.ang), ring, 0.95, disc, m.sin(t * 1.65));
    AddressCoordinate(q.hy, m.sin(q.ang), ring, 1.08, disc, m.sin(t * 1.65));
  }

  function DriftTarget(m: Maths, q: Particle, t: real, coh: real): Point {
    var mill := 0.13 + (1.0 - coh) * 0.10;
    Point(q.hx * 0.52 + m.sin(t * 0.72 + q.jx) * mill, q.hy * 0.52 + m.cos(t * 0.54 + q.jy) * mill)
  }

  lemma DriftIsNear(m: Maths, q: Particle, t: real, coh: real)
    requires m.Sound() && Fits(q) && 0.0 <= coh <= 1.0
    ensures Near(DriftTarget(m, q, t, coh), 1.225)
  {
    var mill := 0.13 + (1.0 - coh) * 0.10;
    Times(m.sin(t * 0.72 + q.jx), 1.0, mill, 0.23);
    Times(m.cos(t * 0.54 + q.jy), 1.0, mill, 0.23);
  }

  function Figure(m: Maths, q: Particle, t: real, mood: Mood, key: Key, p: Point, slots: seq<Slot>): Point {
    match ArchOf(key)
    case Gyre => GyreTarget(m, q, t, mood.act, key, p)
    case Strike => StrikeTarget(m, q, t, mood.act, key, p)
    case Cross => CrossTarget(m, q, t, mood.act, key, p)
    case Pod => PodTarget(m, q, t, mood.act, key, p, slots)
    case Tear => TearTarget(m, q, t, mood.act, mood.coh, p)
    case Address => AddressTarget(m, q, t, mood.att)
    case Drift => DriftTarget(m, q, t, mood.coh)
  }

  lemma FigureIsNear(m: Maths, q: Particle, t: real, mood: Mood, key: Key, p: Point, slots: seq<Slot>)
    requires m.Sound() && Fits(q) && Near(p, 0.575) && Sane(mood) && t >= 0.0
    ensures Near(Figure(m, q, t, mood, key, p, slots), 1.225)
  {
    match ArchOf(key)
    case Gyre => GyreIsNear(m, q, t, mood.act, key, p);
    case Strike =>
      LungeIsNear(m, q, t, mood.act, p);
      WaveIsNear(m, q, t, mood.act, p);
      FanIsNear(m, q, t, mood.act, p);
    case Cross => CrossIsNear(m, q, t, mood.act, key, p);
    case Pod => PodIsNear(m, q, t, mood.act, key, p, slots);
    case Tear => TearIsNear(m, q, t, mood.act, mood.coh, p);
    case Address => AddressIsNear(m, q, t, mood.att);
    case Drift => DriftIsNear(m, q, t, mood.coh);
  }

  // ----- version 2: the figures as fields -----

  // u runs along the body from -1 to 1, lane over the six pods from -2.5 to 2.5, and a once round.
  datatype Place = Place(u: real, lane: real, a: real, pod: real, flow: real)

  function PlaceOf(m: Maths, q: Particle, t: real, act: real): Place {
    Place(q.s * 2.0 - 1.0, q.pod as real - 2.5, q.s * m.pi * 2.0, q.pod as real, Turn(t, act, 0.35, 0.65))
  }

  ghost predicate Placed(c: Place) {
    Within(c.u, 1.0) && Within(c.lane, 2.5) && 0.0 <= c.pod <= 5.0
  }

  function RollingField(m: Maths, c: Place): Point {
    var ring := 0.34 + 0.105 * m.cos(c.a * 3.0 + c.flow + c.lane * 0.18);
    Point(ring * m.cos(c.a * 2.0 + c.flow * 0.3),
          ring * m.sin(c.a * 2.0 + c.flow * 0.3) * 0.7 + 0.10 * m.sin(c.a * 3.0 + c.flow))
  }

  function ScanningField(m: Maths, c: Place): Point {
    Point(0.46 * m.cos(c.a + c.lane * 0.1 + c.flow * 0.25), c.lane * 0.082 + 0.052 * m.sin(c.a * 2.0 + c.flow))
  }

  function BodyField(m: Maths, c: Place): Point {
    Point(c.u * 0.57, c.lane * 0.066 + 0.12 * m.sin(c.u * 7.0 + c.flow * 2.0 + PodTurn(m, c)))
  }

  function FanningField(m: Maths, c: Place): Point {
    var branch := Max(0.0, (c.u + 0.3) / 1.3);
    Point(c.u * 0.56, c.lane * 0.13 * branch + 0.025 * m.sin(c.u * 8.0 - c.flow))
  }

  function Extent(m: Maths, c: Place): real {
    0.14 + (c.u + 1.0) * 0.20 + 0.04 * m.sin(c.flow * 3.0 - c.u * 4.0)
  }

  function PodTurn(m: Maths, c: Place): real {
    c.pod * m.pi / 3.0
  }

  function Lift(up: real, hy: real): real {
    up * 0.8 + hy * 0.06
  }

  function ReachingField(m: Maths, c: Place, hy: real): Point {
    Point(m.cos(PodTurn(m, c)) * Extent(m, c), Lift(m.sin(PodTurn(m, c)) * Extent(m, c), hy))
  }

  function SweepField(m: Maths, c: Place): Point {
    Point(c.u * 0.56, c.lane * 0.083 + 0.035 * m.sin(c.u * 5.0 - c.flow * 2.0))
  }

  function Bow(wave: real, width: real, shift: real): real {
    wave * width + shift
  }

  lemma BowIsNear(wave: real, width: real, shift: real)
    requires Within(wave, 1.0) && Within(width, 0.295) && Within(shift, 0.06)
    ensures Within(Bow(wave, width, shift), 1.225)
  {
    UnitTimes(wave, width, 0.295);
  }

  function CrossingField(m: Maths, c: Place, phase: real): Point {
    Point(0.54 * m.cos(phase), Bow(m.sin(phase), 0.12 + c.pod * 0.035, c.lane * 0.024))
  }

  function Spread(lane: real, u: real): real {
    lane * 0.10 * Abs(u)
  }

  function Ripple(wave: real, att: real): real {
    0.012 * wave * (1.0 - att)
  }

  function JunctionField(m: Maths, c: Place, att: real): Point {
    var gap := if c.u < 0.0 then -0.075 else 0.075;
    Point(c.u * 0.47 + gap, Spread(c.lane, c.u) + Ripple(m.sin(c.flow + c.a), att))
  }

  function FieldTarget(m: Maths, q: Particle, t: real, act: real, att: real, key: Key): Option<Point> {
    var c := PlaceOf(m, q, t, act);
    match key
    case Reasoning => Some(RollingField(m, c))
    case Memory => Some(ScanningField(m, c))
    case Code => Some(BodyField(m, c))
    case Filesystem => Some(FanningField(m, c))
    case Tool => Some(ReachingField(m, c, q.hy))
    case Browser => Some(SweepField(m, c))
    case Network => Some(CrossingField(m, c, c.a + c.flow))
    case Communication =>
      Some(CrossingField(m, c, c.a + c.flow * (if q.pod % 2 == 1 then -1.0 else 1.0)))
    case Human => Some(JunctionField(m, c, att))
    case _ => None
  }

  lemma RollingIsNear(m: Maths, c: Place)
    requires m.Sound()
    ensures Near(RollingField(m, c), 1.225)
  {
    var ring := 0.34 + 0.105 * m.cos(c.a * 3.0 + c.flow + c.lane * 0.18);
    var phase := c.a * 2.0 + c.flow * 0.3;
    assert Within(m.sin(c.a * 3.0 + c.flow), 1.0);
    Times(ring, 0.445, m.cos(phase), 1.0);
    Times(ring, 0.445, m.sin(phase), 1.0);
  }

  lemma StraightFieldsAreNear(m: Maths, c: Place)
    requires m.Sound() && Placed(c)
    ensures Near(ScanningField(m, c), 1.225) && Near(BodyField(m, c), 1.225) && Near(SweepField(m, c), 1.225)
  {
    assert Within(m.cos(c.a + c.lane * 0.1 + c.flow * 0.25), 1.0) && Within(m.sin(c.a * 2.0 + c.flow), 1.0);
    assert Within(m.sin(c.u * 7.0 + c.flow * 2.0 + PodTurn(m, c)), 1.0);
    assert Within(m.sin(c.u * 5.0 - c.flow * 2.0), 1.0);
  }

  lemma FanningIsNear(m: Maths, c: Place)
    requires m.Sound() && Placed(c)
    ensures Near(FanningField(m, c), 1.225)
  {
    Times(c.lane * 0.13, 0.325, Max(0.0, (c.u + 0.3) / 1.3), 1.0);
    assert Within(m.sin(c.u * 8.0 - c.flow), 1.0);
  }

  lemma ExtentIsSmall(m: Maths, c: Place)
    requires m.Sound() && Placed(c)
    ensures Within(Extent(m, c), 0.58)
  {
    assert Within(m.sin(c.flow * 3.0 - c.u * 4.0), 1.0);
  }

  lemma LiftIsNear(up: real, hy: real)
    requires Within(up, 0.58) && Within(hy, BODY)
    ensures Within(Lift(up, hy), 1.225)
  {
  }

  lemma ReachingIsNear(m: Maths, c: Place, hy: real)
    requires m.Sound() && Placed(c) && Within(hy, BODY)
    ensures Near(ReachingField(m, c, hy), 1.225)
  {
    ExtentIsSmall(m, c);
    UnitTimes(m.cos(PodTurn(m, c)), Extent(m, c), 0.58);
    UnitTimes(m.sin(PodTurn(m, c)), Extent(m, c), 0.58);
    LiftIsNear(m.sin(PodTurn(m, c)) * Extent(m, c), hy);
  }

  lemma CrossingIsNear(m: Maths, c: Place, phase: real)
    requires m.Sound() && Placed(c)
    ensures Near(CrossingField(m, c, phase), 1.225)
  {
    assert Within(m.cos(phase), 1.0) && Within(m.sin(phase), 1.0);
    BowIsNear(m.sin(phase), 0.12 + c.pod * 0.035, c.lane * 0.024);
  }

  lemma SpreadIsSmall(lane: real, u: real)
    requires Within(lane, 2.5) && Within(u, 1.0)
    ensures Within(Spread(lane, u), 0.25)
  {
    TimesUnit(lane * 0.10, 0.25, Abs(u));
  }

  lemma RippleIsSmall(wave: real, att: real)
    requires Within(wave, 1.0) && 0.0 <= att <= 1.0
    ensures Within(Ripple(wave, att), 0.012)
  {
    TimesUnit(0.012 * wave, 0.012, 1.0 - att);
  }

  lemma JunctionIsNear(m: Maths, c: Place, att: real)
    requires m.Sound() && Placed(c) && 0.0 <= att <= 1.0
    ensures Near(JunctionField(m, c, att), 1.225)
  {
    SpreadIsSmall(c.lane, c.u);
    RippleIsSmall(m.sin(c.flow + c.a), att);
  }

  lemma FieldIsNear(m: Maths, q: Particle, t: real, act: real, att: real, key: Key)
    requires m.Sound() && Fits(q) && 0.0 <= att <= 1.0
    ensures var f := FieldTarget(m, q, t, act, att, key); f.Some? ==> Near(f.value, 1.225)
  {
    var c := PlaceOf(m, q, t, act);
    match key
    case Reasoning => RollingIsNear(m, c);
    case Filesystem => FanningIsNear(m, c);
    case Tool => ReachingIsNear(m, c, q.hy);
    case Network => CrossingIsNear(m, c, c.a + c.flow);
    case Communication => CrossingIsNear(m, c, c.a + c.flow * (if q.pod % 2 == 1 then -1.0 else 1.0));
    case Human => JunctionIsNear(m, c, att);
    case _ => StraightFieldsAreNear(m, c);
  }

  // ----- the target -----

  // What the channel shows: a field in version 2, where it has one, and else its figure.
  function Shape(m: Maths, q: Particle, t: real, mood: Mood, key: Key, p: Point, version: int,
      slots: seq<Slot>): Point {
    var field := if version == 2 then FieldTarget(m, q, t, mood.act, mood.att, key) else None;
    if field.Some? then field.value else Figure(m, q, t, mood, key, p, slots)
  }

  function GaitTarget(m: Maths, q: Particle, t: real, mood: Mood, key: Key, work: real, version: int, slots: seq<Slot>)
    : Point
  {
    var p := Swim(m, q, t, mood.act, work);
    if work < 0.02 then p
    else
      var g := Shape(m, q, t, mood, key, p, version, slots);
      Point(Lerp(p.x, g.x, work), Lerp(p.y, g.y, work))
  }

  // Every target lies within 1.225 of the middle, for both versions and all thirteen channels.
  lemma TargetIsNear(m: Maths, q: Particle, t: real, mood: Mood, key: Key, work: real, version: int, slots: seq<Slot>)
    requires m.Sound() && Fits(q) && Sane(mood) && 0.0 <= work <= 1.0 && t >= 0.0
    ensures Near(GaitTarget(m, q, t, mood, key, work, version, slots), 1.225)
  {
    var p := Swim(m, q, t, mood.act, work);
    SwimIsNear(m, q, t, mood.act, work);
    FigureIsNear(m, q, t, mood, key, p, slots);
    FieldIsNear(m, q, t, mood.act, mood.att, key);
    var g := Shape(m, q, t, mood, key, p, version, slots);
    assert Near(g, 1.225);
    LerpStaysBetween(p.x, g.x, work, -1.225, 1.225);
    LerpStaysBetween(p.y, g.y, work, -1.225, 1.225);
  }

  // The moment at which a pet at rest is drawn.
  function StillTime(key: Key): (t: real)
    ensures t >= 0.0
  {
    match key
    case Reasoning => 1.15
    case Memory => 0.42
    case Tool => 0.30
    case Code => 0.18
    case Filesystem => 0.48
    case Network => 0.72
    case Browser => 0.95
    case Communication => 0.58
    case Agent => 1.25
    case Orchestration => 0.85
    case Errors => 0.35
    case Human => 0.05
    case Other => 0.90
  }
}
