// What the channels look like: where the figure of each channel lies against the swimming body, for
// both versions, and how a pet moves from the one to the other as it works.

module PetFigures {
  import opened PetStability
  import opened PetGait

  // ----- between the body and the figure -----

  lemma AllTheWay(a: real, b: real)
    ensures Lerp(a, b, 1.0) == b
  {
  }

  // A pet that works fully shows its figure exactly.
  lemma FullWorkShowsFigure(m: Maths, q: Particle, t: real, mood: Mood, key: Key, version: int, slots: seq<Slot>)
    ensures GaitTarget(m, q, t, mood, key, 1.0, version, slots)
         == Shape(m, q, t, mood, key, Swim(m, q, t, mood.act, 1.0), version, slots)
  {
    var p := Swim(m, q, t, mood.act, 1.0);
    var g := Shape(m, q, t, mood, key, p, version, slots);
    AllTheWay(p.x, g.x);
    AllTheWay(p.y, g.y);
  }

  // A pet that hardly works swims, whatever its channel, version and pods.
  lemma NoWorkSwims(m: Maths, q: Particle, t: real, mood: Mood, key: Key, work: real, version: int, slots: seq<Slot>)
    requires work < 0.02
    ensures GaitTarget(m, q, t, mood, key, work, version, slots) == Swim(m, q, t, mood.act, work)
  {
  }

  lemma LerpWay(a: real, b: real, t: real)
    ensures Lerp(a, b, t) - a == (b - a) * t
  {
  }

  // In between it has gone the part of the way from its body to its figure that its work says.
  lemma WayIsWork(m: Maths, q: Particle, t: real, mood: Mood, key: Key, work: real, version: int, slots: seq<Slot>)
    returns (p: Point, g: Point, target: Point)
    requires 0.02 <= work <= 1.0
    ensures p == Swim(m, q, t, mood.act, work) && g == Shape(m, q, t, mood, key, p, version, slots)
    ensures target == GaitTarget(m, q, t, mood, key, work, version, slots)
    ensures target.x - p.x == (g.x - p.x) * work && target.y - p.y == (g.y - p.y) * work
  {
    p := Swim(m, q, t, mood.act, work);
    g := Shape(m, q, t, mood, key, p, version, slots);
    target := Blended(p, g, work);
    BlendedWay(p, g, work, target);
  }

  function Blended(p: Point, g: Point, work: real): Point {
    Point(Lerp(p.x, g.x, work), Lerp(p.y, g.y, work))
  }

  lemma BlendedWay(p: Point, g: Point, work: real, target: Point)
    requires target == Blended(p, g, work)
    ensures target.x - p.x == (g.x - p.x) * work && target.y - p.y == (g.y - p.y) * work
  {
    LerpWay(p.x, g.x, work);
    LerpWay(p.y, g.y, work);
  }

  // The more work, the farther from the body and the nearer to the figure.
  lemma WayGrows(a: real, b: real, work: real, more: real)
    requires 0.0 <= work <= more <= 1.0
    ensures Abs(Lerp(a, b, work) - a) <= Abs(Lerp(a, b, more) - a)
    ensures Abs(b - Lerp(a, b, more)) <= Abs(b - Lerp(a, b, work))
  {
    var way := b - a;
    if way >= 0.0 {
      ProductIsNonnegative(way, work);
      ProductIsNonnegative(way, more - work);
      ProductIsNonnegative(way, 1.0 - more);
    } else {
      ProductIsNonnegative(-way, work);
      ProductIsNonnegative(-way, more - work);
      ProductIsNonnegative(-way, 1.0 - more);
    }
  }

  // ----- version 1 -----

  // Channels without a field look alike in both versions.
  predicate SameInBoth(key: Key) {
    key.Agent? || key.Orchestration? || key.Errors? || key.Other?
  }

  lemma ShapeOf(m: Maths, q: Particle, t: real, mood: Mood, key: Key, p: Point, version: int, slots: seq<Slot>)
    requires version != 2 || SameInBoth(key)
    ensures Shape(m, q, t, mood, key, p, version, slots) == Figure(m, q, t, mood, key, p, slots)
  {
  }

  function SideOf(q: Particle): real {
    if q.hx + q.hy < 0.0 then -1.0 else 1.0
  }

  lemma TornCoordinate(p: real, side: real, shift: real, wave: real, reach: real, limit: real)
    requires (side == 1.0 || side == -1.0) && Within(wave, 1.0) && Within(reach, limit)
    ensures side * (Jut(p + side * shift, wave, reach) - p) >= shift - limit
  {
    UnitTimes(wave, reach, limit);
  }

  // An error tears the pet: its two halves move apart along the diagonal, in x by at least 0.145 and in
  // y by at least 0.065 from the swimming body.
  lemma ErrorTears(m: Maths, q: Particle, t: real, mood: Mood, version: int, slots: seq<Slot>)
    requires m.Sound() && Sane(mood)
    ensures var p, g := Swim(m, q, t, mood.act, 1.0), GaitTarget(m, q, t, mood, Errors, 1.0, version, slots);
      SideOf(q) * (g.x - p.x) >= 0.145 && SideOf(q) * (g.y - p.y) >= 0.065
  {
    var p := Swim(m, q, t, mood.act, 1.0);
    FullWorkShowsFigure(m, q, t, mood, Errors, version, slots);
    ShapeOf(m, q, t, mood, Errors, p, version, slots);
    TornCoordinate(p.x, SideOf(q), 0.24 + (1.0 - mood.coh) * 0.16,
                   m.sin(t * 11.4 + q.s * 40.0), 0.045 + mood.act * 0.05, 0.095);
    TornCoordinate(p.y, SideOf(q), 0.15, m.cos(t * 9.2 + q.s * 31.0), 0.040 + mood.act * 0.045, 0.085);
  }

  // Reasoning: a flattened turn. It keeps the distance from the middle up to 12 percent.
  function Size(p: Point): real {
    p.x * p.x + p.y * p.y
  }

  predicate OnCircle(c: real, sn: real) {
    c * c + sn * sn == 1.0
  }

  lemma TurnedSize(a: real, b: real, c: real, d: real)
    requires a * b == c * d
    ensures RolledX(a, b) * RolledX(a, b) + RolledY(c, d) * RolledY(c, d)
         == (a * a + d * d) + 0.7744 * (b * b + c * c)
  {
    assert RolledX(a, b) * RolledX(a, b) == a * a - 1.76 * (a * b) + 0.7744 * (b * b);
    assert RolledY(c, d) * RolledY(c, d) == 0.7744 * (c * c) + 1.76 * (c * d) + d * d;
  }

  lemma SquareOfProduct(x: real, c: real)
    ensures (x * c) * (x * c) == (x * x) * (c * c) && (x * c) * (x * c) >= 0.0
  {
  }

  lemma SharedBetween(x2: real, c2: real, s2: real)
    requires c2 + s2 == 1.0
    ensures x2 * c2 + x2 * s2 == x2
  {
    assert x2 * (c2 + s2) == x2 * c2 + x2 * s2;
  }

  lemma SquareIs(x: real, c: real, sn: real)
    requires OnCircle(c, sn)
    ensures (x * c) * (x * c) + (x * sn) * (x * sn) == x * x
    ensures (x * c) * (x * c) >= 0.0 && (x * sn) * (x * sn) >= 0.0
  {
    SquareOfProduct(x, c);
    SquareOfProduct(x, sn);
    SharedBetween(x * x, c * c, sn * sn);
  }

  lemma Squeezed(a2: real, b2: real, c2: real, d2: real, x2: real, y2: real)
    requires a2 >= 0.0 && b2 >= 0.0 && c2 >= 0.0 && d2 >= 0.0 && a2 + c2 == x2 && d2 + b2 == y2
    ensures 0.7744 * (x2 + y2) <= (a2 + d2) + 0.7744 * (b2 + c2) <= x2 + y2
  {
  }

  lemma SwapMiddle(x: real, c: real, y: real, sn: real)
    ensures (x * c) * (y * sn) == (x * sn) * (y * c)
  {
  }

  lemma TurnedBetween(a: real, b: real, d: real, e: real, p: Point)
    requires a * b == d * e && a * a + d * d == p.x * p.x && e * e + b * b == p.y * p.y
    ensures 0.7744 * Size(p) <= Size(Point(RolledX(a, b), RolledY(d, e))) <= Size(p)
  {
    TurnedSize(a, b, d, e);
    SquareOfProduct(a, 1.0);
    SquareOfProduct(b, 1.0);
    SquareOfProduct(d, 1.0);
    SquareOfProduct(e, 1.0);
    Squeezed(a * a, b * b, d * d, e * e, p.x * p.x, p.y * p.y);
  }

  lemma SquaresAre(x: real, c: real, sn: real, a: real, d: real)
    requires OnCircle(c, sn) && a == x * c && d == x * sn
    ensures a * a + d * d == x * x
  {
    SquareIs(x, c, sn);
  }

  lemma TurnKeepsSize(p: Point, c: real, sn: real, a: real, b: real, d: real, e: real)
    requires OnCircle(c, sn) && a == p.x * c && b == p.y * sn && d == p.x * sn && e == p.y * c
    ensures 0.7744 * Size(p) <= Size(Point(RolledX(a, b), RolledY(d, e))) <= Size(p)
  {
    SwapMiddle(p.x, c, p.y, sn);
    SquaresAre(p.x, c, sn, a, d);
    SquaresAre(p.y, c, sn, e, b);
    TurnedBetween(a, b, d, e, p);
  }

  lemma ReasoningTurns(m: Maths, q: Particle, t: real, mood: Mood, p: Point, slots: seq<Slot>)
    requires forall v :: OnCircle(m.cos(v), m.sin(v))
    ensures var g := Figure(m, q, t, mood, Reasoning, p, slots);
      0.7744 * Size(p) <= Size(g) <= Size(p)
  {
    var c, sn := m.cos(Roll(m, t, mood.act)), m.sin(Roll(m, t, mood.act));
    TurnKeepsSize(p, c, sn, p.x * c, p.y * sn, p.x * sn, p.y * c);
  }

  // Memory: every particle moves along the ray from the middle, by at most a quarter.
  lemma MemoryPulses(m: Maths, q: Particle, t: real, mood: Mood, p: Point, slots: seq<Slot>) returns (pulse: real)
    requires m.Sound() && Sane(mood)
    ensures 0.75 <= pulse <= 1.25
    ensures Figure(m, q, t, mood, Memory, p, slots) == Point(p.x * pulse, p.y * pulse)
  {
    var beat := m.sin(Turn(t, mood.act, 2.4, 1.6) - q.rad * 11.0);
    pulse := PetGait.Pulse(beat, mood.act);
    UnitTimes(beat, 0.15 + mood.act * 0.10, 0.25);
  }

  // Tool: the body lunges forward, and the particles above 0.60 reach out along their own angle.
  lemma ToolLunges(m: Maths, q: Particle, t: real, mood: Mood, p: Point, slots: seq<Slot>)
    returns (lunge: real, reach: real)
    requires m.Sound() && Sane(mood)
    ensures 0.0 <= lunge <= 0.11 && 0.0 <= reach <= 0.54 && (q.s <= 0.60 ==> reach == 0.0)
    ensures var g := Figure(m, q, t, mood, Tool, p, slots);
      g.x == p.x + lunge + m.cos(q.ang) * reach && g.y == p.y + m.sin(q.ang) * reach
  {
    var phase := Turn(t, mood.act, 2.7, 2.1);
    BurstIsUnit(m, phase, 2.0);
    lunge := Burst(m, phase, 2.0) * 0.11;
    if q.s > 0.60 {
      var burst := Burst(m, phase + q.pod as real * 0.92, 4.0);
      BurstIsUnit(m, phase + q.pod as real * 0.92, 4.0);
      reach := Strength(burst, mood.act);
      StrengthIsSmall(burst, mood.act);
      ProductIsNonnegative(burst, 0.30 + mood.act * 0.24);
    } else {
      reach := 0.0;
      assert m.cos(q.ang) * 0.0 == 0.0 && m.sin(q.ang) * 0.0 == 0.0;
    }
  }

  // Filesystem: the six pods fan out, odd ones up and even ones down.
  lemma FilesystemFans(m: Maths, q: Particle, t: real, mood: Mood, p: Point, slots: seq<Slot>)
    requires m.Sound() && Sane(mood) && 0 <= q.pod
    ensures var g := Figure(m, q, t, mood, Filesystem, p, slots);
      && 0.0 <= g.x - p.x <= 0.055
      && (q.pod % 2 == 1 ==> 0.0 <= g.y - p.y <= 0.30)
      && (q.pod % 2 == 0 ==> -0.30 <= g.y - p.y <= 0.0)
  {
    var w := Burst(m, Turn(t, mood.act, 2.15, 1.5) + q.pod as real * 0.72, 2.0);
    BurstIsUnit(m, Turn(t, mood.act, 2.15, 1.5) + q.pod as real * 0.72, 2.0);
    var side := ((q.pod % 2) * 2 - 1) as real;
    assert side == if q.pod % 2 == 1 then 1.0 else -1.0;
    var reach := 0.17 + mood.act * 0.13;
    UnitTimes(w, reach, 0.30);
    ProductIsNonnegative(w, reach);
    assert (side * w) * reach == if q.pod % 2 == 1 then w * reach else -(w * reach);
  }

  // Browser: only the particles within 0.08 of a travelling band move, and only to the right.
  lemma BrowserSweeps(m: Maths, q: Particle, t: real, mood: Mood, p: Point, slots: seq<Slot>) returns (band: real)
    requires m.Sound() && Sane(mood) && t >= 0.0
    ensures -0.64 <= band < 0.64
    ensures var g := Figure(m, q, t, mood, Browser, p, slots);
      && 0.0 <= g.x - p.x <= 0.34 && 0.0 <= g.y - p.y <= 0.02
      && (Abs(q.hy - band) >= 0.08 ==> g == p)
      && (Abs(q.hy - band) == 0.0 ==> g.x - p.x >= 0.24)
  {
    TurnIsForward(t, mood.act, 0.55, 0.35);
    FractionIsUnit(Turn(t, mood.act, 0.55, 0.35));
    band := Fraction(Turn(t, mood.act, 0.55, 0.35)) * 1.28 - 0.64;
    SweptBy(InBand(q.hy, band), mood.act, p);
  }

  lemma SweptBy(inBand: real, act: real, p: Point)
    requires 0.0 <= inBand <= 1.0 && 0.0 <= act <= 1.0
    ensures var g := Sweep(inBand, act, p);
      && 0.0 <= g.x - p.x <= 0.34 && 0.0 <= g.y - p.y <= 0.02
      && (inBand == 0.0 ==> g == p) && (inBand == 1.0 ==> g.x - p.x >= 0.24)
  {
    var reach := 0.24 + act * 0.10;
    UnitTimes(inBand, reach, 0.34);
    ProductIsNonnegative(inBand, reach);
  }

  // Network and Communication: couriers travel between their home and the side, all to the right for
  // Network, half to each side for Communication; the others swim.
  lemma CouriersTravel(m: Maths, q: Particle, t: real, mood: Mood, key: Key, p: Point, slots: seq<Slot>)
    requires m.Sound() && Fits(q) && Sane(mood) && t >= 0.0 && (key.Network? || key.Communication?)
    ensures var g := Figure(m, q, t, mood, key, p, slots);
      var far := if key.Communication? && q.s >= 0.22 then -0.80 else 0.80;
      if q.s < (if key.Communication? then 0.44 else 0.32) then
        if q.hx <= far then q.hx <= g.x <= far else far <= g.x <= q.hx
      else g == p
  {
    if q.s < (if key.Communication? then 0.44 else 0.32) {
      var far := if key.Communication? && q.s >= 0.22 then -0.80 else 0.80;
      TurnIsForward(t, mood.act, 0.38, 0.36);
      FractionIsUnit(Turn(t, mood.act, 0.38, 0.36) + q.s * 5.2);
      var going := Going(Fraction(Turn(t, mood.act, 0.38, 0.36) + q.s * 5.2));
      SmoothStepIsUnit(going);
      if q.hx <= far {
        LerpStaysBetween(q.hx, far, SmoothStep(going), q.hx, far);
      } else {
        LerpStaysBetween(q.hx, far, SmoothStep(going), far, q.hx);
      }
    }
  }

  // Half of the way a courier goes out and half of it comes back; it turns at the side.
  lemma CourierTurnsAtTheSide(q: Particle, dir: real, arc: real)
    ensures Going(0.0) == 0.0 && Going(0.25) == 0.5 && Going(0.5) == 1.0 && Going(0.75) == 0.5 && Going(1.0) == 0.0
    ensures SmoothStep(0.0) == 0.0 && SmoothStep(0.5) == 0.5 && SmoothStep(1.0) == 1.0
    ensures Courier(q, dir, 0.0, 0.0) == Point(q.hx, q.hy)
    ensures Courier(q, dir, 1.0, 0.0) == Point(dir * 0.80, q.hy * 0.62)
  {
    AllTheWay(q.hx, dir * 0.80);
    assert (dir * 0.80 - q.hx) * 0.0 == 0.0 && 0.0 * 0.11 * dir == 0.0;
  }

  // Agent and Orchestration: small bodies on an ellipse, one for each place.
  lemma PodsOrbit(m: Maths, q: Particle, t: real, mood: Mood, key: Key, p: Point, slots: seq<Slot>)
    returns (a: real, spread: real)
    requires Sane(mood) && (key.Agent? || key.Orchestration?)
    requires !(key.Orchestration? && PodPlace(q, slots).place == 0)
    ensures 0.30 <= spread <= 0.41 && a == PodAngle(m, t, mood.act, key, PodPlace(q, slots))
    ensures var g := Figure(m, q, t, mood, key, p, slots);
      && g.x - q.hx * 0.34 == m.cos(a) * spread * 1.28 && g.y - q.hy * 0.34 == m.sin(a) * spread * 0.80
  {
    a, spread := PodAngle(m, t, mood.act, key, PodPlace(q, slots)), 0.30 + mood.act * 0.11;
  }

  // Six places a sixth of a turn apart, or a hub and five places a fifth of a turn apart.
  lemma PlacesAreEven(m: Maths, t: real, act: real, key: Key, place: int, phase: real)
    requires key.Agent? || key.Orchestration?
    ensures PodAngle(m, t, act, key, Slot(place + 1, phase)) - PodAngle(m, t, act, key, Slot(place, phase))
         == m.pi * 2.0 / (if key.Orchestration? then 5.0 else 6.0)
  {
    var step := m.pi * 2.0 / (if key.Orchestration? then 5.0 else 6.0);
    var k := if key.Orchestration? then place - 1 else place;
    assert (k + 1) as real == k as real + 1.0;
    assert (k as real + 1.0) * step == k as real * step + step;
  }

  // The hub of an orchestration is the swimming body, at 0.7 of its size.
  lemma HubIsTheBody(m: Maths, q: Particle, t: real, mood: Mood, version: int, slots: seq<Slot>)
    requires PodPlace(q, slots).place == 0
    ensures var p := Swim(m, q, t, mood.act, 1.0);
      GaitTarget(m, q, t, mood, Orchestration, 1.0, version, slots) == Point(p.x * 0.70, p.y * 0.70)
  {
    var p := Swim(m, q, t, mood.act, 1.0);
    FullWorkShowsFigure(m, q, t, mood, Orchestration, version, slots);
    ShapeOf(m, q, t, mood, Orchestration, p, version, slots);
  }

  // Other: every particle mills about 0.52 of its home, wider the less coherent the pet is.
  lemma OtherDrifts(m: Maths, q: Particle, t: real, mood: Mood, p: Point, slots: seq<Slot>)
      returns (g: Point, mill: real)
    requires m.Sound() && Sane(mood)
    ensures g == Figure(m, q, t, mood, Other, p, slots) && mill == 0.13 + (1.0 - mood.coh) * 0.10
    ensures Within(g.x - q.hx * 0.52, mill) && Within(g.y - q.hy * 0.52, mill)
  {
    mill := 0.13 + (1.0 - mood.coh) * 0.10;
    g := Point(q.hx * 0.52 + m.sin(t * 0.72 + q.jx) * mill, q.hy * 0.52 + m.cos(t * 0.54 + q.jy) * mill);
    MillsAbout(q.hx * 0.52, m.sin(t * 0.72 + q.jx), mill, g.x);
    MillsAbout(q.hy * 0.52, m.cos(t * 0.54 + q.jy), mill, g.y);
  }

  lemma MillsAbout(home: real, wave: real, mill: real, v: real)
    requires Within(wave, 1.0) && mill >= 0.0 && v == home + wave * mill
    ensures Within(v - home, mill)
  {
    UnitTimes(wave, mill, mill);
  }

  // Code: a wave runs down the body; each particle swings along its own angle, and forward with the crest.
  lemma CodeRuns(m: Maths, q: Particle, t: real, mood: Mood, p: Point, slots: seq<Slot>)
    returns (swing: real, forward: real)
    requires m.Sound() && Sane(mood)
    ensures Within(swing, 0.19) && 0.0 <= forward <= 0.07 && (forward > 0.0 ==> swing > 0.0)
    ensures var g := Figure(m, q, t, mood, Code, p, slots);
      g.x == p.x + m.cos(q.ang) * swing + forward && g.y == p.y + m.sin(q.ang) * swing * 1.2
  {
    var wave, bump := m.sin(Turn(t, mood.act, 3.2, 1.8) - q.tail * 7.5), 0.11 + mood.act * 0.08;
    swing, forward := wave * bump, Max(0.0, wave) * 0.07;
    UnitTimes(wave, bump, 0.19);
    if wave > 0.0 { ProductIsNonnegative(wave, bump - 0.11); }
    Regrouped(m.cos(q.ang), wave, bump);
    Regrouped(m.sin(q.ang), wave, bump);
  }

  lemma Regrouped(a: real, b: real, c: real)
    ensures a * b * c == a * (b * c)
  {
  }

  // Human: a face, a little less than half way from the turned body to a ring, and about a fifth larger.
  lemma HumanFaces(m: Maths, q: Particle, t: real, mood: Mood, p: Point, slots: seq<Slot>)
    returns (from: Point, ring: Point, disc: real, grow: real)
    requires m.Sound() && Sane(mood)
    ensures 0.432 <= disc <= 0.4704 && 1.145 <= grow <= 1.255
    ensures from == Point(q.hx * m.cos(0.70) + (q.s - 0.5) * 0.42 * m.sin(0.70), q.hy)
    ensures ring == Point(m.cos(q.ang) * Min(0.36, q.rad + 0.06) * 0.95, m.sin(q.ang) * Min(0.36, q.rad + 0.06) * 1.08)
    ensures Figure(m, q, t, mood, Human, p, slots)
         == Point(Lerp(from.x, ring.x, disc) * grow, Lerp(from.y, ring.y, disc) * grow)
  {
    from := Point(q.hx * m.cos(0.70) + (q.s - 0.5) * 0.42 * m.sin(0.70), q.hy);
    ring := Point(m.cos(q.ang) * Min(0.36, q.rad + 0.06) * 0.95, m.sin(q.ang) * Min(0.36, q.rad + 0.06) * 1.08);
    disc, grow := 0.48 * (0.90 + mood.att * 0.08), 1.20 + m.sin(t * 1.65) * 0.055;
    assert Within(m.sin(t * 1.65), 1.0);
  }

  // ----- the swimming body -----

  // Up to a sway of at most 0.030 and 0.018, every particle keeps its distance from the middle; the body
  // breathes by at most 4.8 percent.
  lemma SwimKeepsTheBody(m: Maths, q: Particle, t: real, act: real, work: real) returns (sway: Point, breath: real)
    requires m.Sound() && 0.0 <= work <= 1.0 && forall v :: OnCircle(m.cos(v), m.sin(v))
    ensures Within(sway.x, 0.030) && Within(sway.y, 0.018) && 0.952 <= breath <= 1.048
    ensures var p := Swim(m, q, t, act, work);
      Size(Point(p.x - sway.x, p.y - sway.y)) == (q.rad * breath) * (q.rad * breath)
  {
    var angle := q.ang + Flex(m, q, t, act, work);
    breath := Breath(m, t, work);
    BreathIsSmall(m, t, work);
    LerpStaysBetween(0.030, 0.014, work, 0.014, 0.030);
    LerpStaysBetween(0.018, 0.010, work, 0.010, 0.018);
    UnitTimes(m.sin(t * 0.33), Lerp(0.030, 0.014, work), 0.030);
    UnitTimes(m.cos(t * 0.21), Lerp(0.018, 0.010, work), 0.018);
    sway := Point(m.sin(t * 0.33) * Lerp(0.030, 0.014, work), m.cos(t * 0.21) * Lerp(0.018, 0.010, work));
    Regrouped(m.cos(angle), q.rad, breath);
    Regrouped(m.sin(angle), q.rad, breath);
    RingSize(m.cos(angle), m.sin(angle), q.rad * breath);
  }

  lemma RingSize(c: real, sn: real, r: real)
    requires OnCircle(c, sn)
    ensures Size(Point(c * r, sn * r)) == r * r
  {
    SquareOfProduct(c, r);
    SquareOfProduct(sn, r);
    SharedBetween(r * r, c * c, sn * sn);
  }

  // The flexing turns a particle by at most 0.044, and the head by less than a fifth of what the tail does.
  lemma FlexIsSmall(m: Maths, q: Particle, t: real, act: real, work: real)
    requires m.Sound() && 0.0 <= act <= 1.0 && 0.0 <= work <= 1.0 && 0.0 <= q.tail <= 1.0
    ensures Within(Flex(m, q, t, act, work), 0.044)
    ensures q.tail == 0.0 ==> Within(Flex(m, q, t, act, work), 0.00792)
  {
    FlexSizeFits(act, work);
    UnitTimes(m.sin(FlexPhase(q, t, act, work)), FlexSize(act, work), 0.044);
    Flexed(m.sin(FlexPhase(q, t, act, work)) * FlexSize(act, work), FlexPart(q.tail));
  }

  lemma FlexSizeFits(act: real, work: real)
    requires 0.0 <= act <= 1.0 && 0.0 <= work <= 1.0
    ensures 0.016 <= FlexSize(act, work) <= 0.044
  {
    LerpStaysBetween(0.042, 0.016 + act * 0.028, work, 0.016, 0.044);
  }

  lemma Flexed(v: real, part: real)
    requires Within(v, 0.044) && 0.0 <= part <= 1.0
    ensures Within(v * part, 0.044) && (part == 0.18 ==> Within(v * part, 0.00792))
  {
    TimesUnit(v, 0.044, part);
  }
}
