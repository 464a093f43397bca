// What every run of the pet at thirty frames a second keeps, and what a checkpoint carries over.

module PetRuns {
  import opened PetGait
  import opened PetSim
  import opened PetStability
  import Mulberry
  import Words

  // How far from the middle a target can lie: the gait, the blur and the split together.
  const REACH: real := 1.885

  // ----- the inputs of a run -----

  predicate Unit(v: real) {
    0.0 <= v <= 1.0
  }

  predicate Legal(input: Input) {
    && input.dt == DT && Unit(input.sensitivity)
    && Unit(input.state.activity) && Unit(input.state.coherence)
    && Unit(input.state.attention) && Unit(input.state.observed)
  }

  // ----- the invariant -----

  // What follows from the place of a particle in the body.
  ghost predicate Derived(m: Maths, q: Particle, i: nat) {
    && q.pod == i % 6 && q.ang == m.atan2(q.hy, q.hx) && q.rad == m.hypot(q.hx, q.hy)
    && q.tail == TailOf(q.hx, q.hy)
  }

  predicate Jitters(j: real, clock: real) {
    0.0 <= j <= 6.283 + 1.5 * clock
  }

  ghost predicate ParticleOk(m: Maths, q: Particle, i: nat, clock: real) {
    && Fits(q) && Derived(m, q, i)
    && Contained(Axis(q.x, q.vx), REACH) && Contained(Axis(q.y, q.vy), REACH)
    && Within(q.tx, REACH) && Within(q.ty, REACH)
    && Jitters(q.jx, clock) && Jitters(q.jy, clock)
  }

  predicate ColorFits(c: Color) {
    Between(c.r, 0.0, 255.0) && Between(c.g, 0.0, 255.0) && Between(c.b, 0.0, 255.0)
  }

  ghost predicate ClocksOk(pet: Pet) {
    0.0 <= pet.clock && 0.0 <= pet.phase <= 0.73 * pet.clock && Unit(pet.tear)
  }

  ghost predicate ShownOk(pet: Pet) {
    && 1 <= pet.version <= 2 && Known(pet.cur) && Known(pet.prev)
    && ColorFits(pet.col) && FrameFits(pet.frame)
    && pet.frame.channel == ChannelAt(pet.cur).key && pet.frame.arch == ChannelAt(pet.cur).arch
  }

  ghost predicate ParticlesOk(m: Maths, particles: seq<Particle>, clock: real) {
    forall i :: 0 <= i < |particles| ==> ParticleOk(m, particles[i], i, clock)
  }

  ghost predicate PetOk(m: Maths, pet: Pet) {
    ClocksOk(pet) && ShownOk(pet) && ParticlesOk(m, pet.particles, pet.clock)
  }

  // ----- the scene -----

  ghost predicate SceneOk(c: Scene) {
    && Sane(c.mood) && Unit(c.seen) && Unit(c.work) && Unit(c.wander) && Unit(c.tear)
    && 0.0 <= c.split <= 0.26 && 0.0 <= c.blur <= 0.40 && c.time >= 0.0 && Known(c.cur)
  }

  lemma FeltIsUnit(v: real, sensitivity: real)
    requires Unit(v) && Unit(sensitivity)
    ensures Unit(Felt(v, sensitivity))
  {
    LerpStaysBetween(0.5, v, sensitivity, 0.0, 1.0);
  }

  lemma ShapesAreSmall(m: Maths, coh: real, tear: real)
    requires m.Sound() && Unit(coh) && Unit(tear)
    ensures Unit(WanderOf(m, coh)) && 0.0 <= SplitOf(m, coh, tear) <= 0.26 && 0.0 <= BlurOf(m, coh, tear) <= 0.40
  {
    assert Unit(m.pow(1.0 - coh, 1.15)) && Unit(m.pow(1.0 - coh, 1.6)) && Unit(m.pow(1.0 - coh, 1.45));
    LerpStaysBetween(0.32, 1.0, m.pow(1.0 - coh, 1.15), 0.32, 1.0);
  }

  lemma TearIsUnit(pet: Pet, input: Input)
    requires Legal(input) && Unit(pet.tear)
    ensures Unit(TornBy(pet, input))
  {
  }

  lemma WorkIsUnit(act: real)
    ensures Unit(WorkOf(act))
  {
  }

  lemma SceneIsOk(m: Maths, pet: Pet, input: Input)
    requires m.Sound() && Legal(input) && ClocksOk(pet) && Known(pet.cur)
    ensures SceneOk(SceneOf(m, pet, input))
  {
    FeltIsUnit(input.state.activity, input.sensitivity);
    FeltIsUnit(input.state.coherence, input.sensitivity);
    FeltIsUnit(input.state.attention, input.sensitivity);
    FeltIsUnit(input.state.observed, input.sensitivity);
    TearIsUnit(pet, input);
    WorkIsUnit(MoodOf(input).act);
    ShapesAreSmall(m, MoodOf(input).coh, TornBy(pet, input));
  }

  lemma PaceIsSlow(dt: real, act: real)
    requires dt >= 0.0 && Unit(act)
    ensures 0.0 <= Pace(dt, act) <= 0.73 * dt
  {
    ProductIsNonnegative(dt, 0.18 + act * 0.55);
    ProductIsNonnegative(dt, 0.55 - act * 0.55);
  }

  lemma ClocksStayOk(m: Maths, pet: Pet, input: Input)
    requires m.Sound() && Legal(input) && ClocksOk(pet) && Known(pet.cur)
    ensures ClocksOk(Stepped(m, pet, input))
    ensures Stepped(m, pet, input).clock == pet.clock + (if input.motion then DT else 0.0)
  {
    SceneIsOk(m, pet, input);
    PaceIsSlow(DT, MoodOf(input).act);
  }

  // ----- the particles -----

  lemma AimIsNear(gait: real, wave: real, blur: real, wander: real, turn: real, split: real)
    requires Within(gait, 1.225) && Within(wave, 1.0) && 0.0 <= blur <= 0.40 && Unit(wander)
    requires Within(turn, 1.0) && 0.0 <= split <= 0.26
    ensures Within(Aim(gait, wave, blur, wander, turn, split), REACH)
  {
    UnitTimes(wave, blur, 0.40);
    Times(wave * blur, 0.40, wander, 1.0);
    UnitTimes(turn, split, 0.26);
  }

  lemma AimStaysNear(m: Maths, q: Particle, c: Scene, version: int, slots: seq<Slot>)
    requires m.Sound() && Fits(q) && SceneOk(c)
    ensures Near(AimOf(m, q, c, version, slots), REACH)
  {
    var key := ChannelAt(c.cur).key;
    var g := GaitTarget(m, q, c.time, c.mood, key, c.work, version, slots);
    TargetIsNear(m, q, c.time, c.mood, key, c.work, version, slots);
    var angle := q.pod as real * 1.047 + c.phase * 0.22;
    AimIsNear(g.x, m.sin(q.jx + q.s * 9.0), c.blur, c.wander, m.cos(angle), c.split);
    AimIsNear(g.y, m.cos(q.jy + q.s * 7.0), c.blur, c.wander, m.sin(angle), c.split * 0.55);
  }

  lemma SpringStaysContained(x: real, v: real, target: real, coherence: real)
    requires Contained(Axis(x, v), REACH) && Within(target, REACH) && Unit(coherence)
    ensures Contained(Spring(x, v, target, coherence, DT), REACH)
  {
    FrameStaysContained(Axis(x, v), target, coherence, true, REACH);
    assert Spring(x, v, target, coherence, DT) == Advance(Axis(x, v), target, coherence, true);
  }

  lemma JitterGrows(j: real, clock: real, base: real, slope: real, act: real)
    requires Jitters(j, clock) && Unit(act) && 0.0 <= base && 0.0 <= slope && base + slope <= 1.5
    ensures Jitters(j + DT * (base + act * slope), clock + DT)
  {
    ProductIsNonnegative(act, slope);
    ProductIsNonnegative(1.0 - act, slope);
  }

  lemma MovedStaysOk(m: Maths, q: Particle, i: nat, clock: real, c: Scene, version: int, slots: seq<Slot>, motion: bool)
    requires m.Sound() && ParticleOk(m, q, i, clock) && SceneOk(c)
    ensures ParticleOk(m, Moved(m, q, c, version, slots, DT, motion), i, if motion then clock + DT else clock)
  {
    var j := if motion then Jittered(q, c.mood.act, DT) else q;
    var aim := AimOf(m, j, c, version, slots);
    AimStaysNear(m, j, c, version, slots);
    if motion {
      JitterGrows(q.jx, clock, 0.40, 1.1, c.mood.act);
      JitterGrows(q.jy, clock, 0.34, 0.9, c.mood.act);
      SpringStaysContained(q.x, q.vx, aim.x, c.mood.coh);
      SpringStaysContained(q.y, q.vy, aim.y, c.mood.coh);
    } else {
      RestIsContained(aim.x, REACH);
      RestIsContained(aim.y, REACH);
    }
  }

  lemma ParticlesStayOk(m: Maths, pet: Pet, input: Input)
    requires m.Sound() && Legal(input) && PetOk(m, pet)
    ensures ParticlesOk(m, Stepped(m, pet, input).particles, Stepped(m, pet, input).clock)
  {
    var c := SceneOf(m, pet, input);
    SceneIsOk(m, pet, input);
    forall i | 0 <= i < |pet.particles|
      ensures ParticleOk(m, Moved(m, pet.particles[i], c, pet.version, input.slots, DT, input.motion), i, c.clock)
    {
      MovedStaysOk(m, pet.particles[i], i, pet.clock, c, pet.version, input.slots, input.motion);
    }
  }

  // ----- what is shown -----

  lemma TintStays(v: real, unknown: real, want: real, seen: real, k: real)
    requires Between(v, 0.0, 255.0) && Between(unknown, 0.0, 255.0) && Between(want, 0.0, 255.0) && Unit(seen)
          && Unit(k)
    ensures Between(Lerp(v, Lerp(unknown, want, seen), k), 0.0, 255.0)
  {
    LerpStaysBetween(unknown, want, seen, 0.0, 255.0);
    LerpStaysBetween(v, Lerp(unknown, want, seen), k, 0.0, 255.0);
  }

  lemma TintedFits(col: Color, want: Color, seen: real, k: real)
    requires ColorFits(col) && ColorFits(want) && Unit(seen) && Unit(k)
    ensures ColorFits(Tinted(col, want, seen, k))
  {
    TintStays(col.r, UNKNOWN.r, want.r, seen, k);
    TintStays(col.g, UNKNOWN.g, want.g, seen, k);
    TintStays(col.b, UNKNOWN.b, want.b, seen, k);
  }

  lemma AlphaIsUnit(c: Scene, lit: real)
    requires SceneOk(c)
    ensures Unit(AlphaOf(c, lit))
  {
    LerpStaysBetween(0.50, 1.0, c.mood.coh, 0.50, 1.0);
    LerpStaysBetween(0.55, 1.0, c.seen, 0.55, 1.0);
    LerpStaysBetween(0.35, 1.0, Clamp(lit), 0.35, 1.0);
    ProductIsNonnegative(0.22 + c.mood.act * 0.10, Lerp(0.50, 1.0, c.mood.coh));
    ProductIsNonnegative((0.22 + c.mood.act * 0.10) * Lerp(0.50, 1.0, c.mood.coh), Lerp(0.55, 1.0, c.seen));
    ProductIsNonnegative((0.22 + c.mood.act * 0.10) * Lerp(0.50, 1.0, c.mood.coh) * Lerp(0.55, 1.0, c.seen),
                         Lerp(0.35, 1.0, Clamp(lit)));
  }

  lemma WantFits(c: Scene)
    requires SceneOk(c)
    ensures ColorFits(Want(c))
  {
  }

  lemma ShownStaysOk(m: Maths, pet: Pet, input: Input)
    requires m.Sound() && Legal(input) && ClocksOk(pet) && ShownOk(pet)
    ensures ShownOk(Stepped(m, pet, input))
  {
    var c := SceneOf(m, pet, input);
    SceneIsOk(m, pet, input);
    WantFits(c);
    TintedFits(pet.col, Want(c), c.seen, Blend(input.dt, input.motion));
    AlphaIsUnit(c, input.state.lit);
  }

  lemma StepStaysOk(m: Maths, pet: Pet, input: Input)
    requires m.Sound() && Legal(input) && PetOk(m, pet)
    ensures PetOk(m, Stepped(m, pet, input))
  {
    ClocksStayOk(m, pet, input);
    ShownStaysOk(m, pet, input);
    ParticlesStayOk(m, pet, input);
  }

  // ----- runs -----

  predicate AllLegal(inputs: seq<Input>) {
    forall i :: 0 <= i < |inputs| ==> Legal(inputs[i])
  }

  lemma {:induction false} RunStaysOk(m: Maths, pet: Pet, inputs: seq<Input>)
    requires m.Sound() && PetOk(m, pet) && AllLegal(inputs)
    ensures PetOk(m, Run(m, pet, inputs))
    decreases |inputs|
  {
    if inputs != [] {
      RunStaysOk(m, pet, inputs[..|inputs| - 1]);
      StepStaysOk(m, Run(m, pet, inputs[..|inputs| - 1]), inputs[|inputs| - 1]);
    }
  }

  // A body whose points lie within the radius BODY, with a hypotenuse to match.
  ghost predicate BodyFits(m: Maths, points: seq<Point>) {
    forall i :: 0 <= i < |points| ==>
      Near(points[i], BODY) && Between(m.hypot(points[i].x, points[i].y), 0.0, BODY)
  }

  ghost predicate DrawsFit(draws: nat -> real) {
    forall n: nat :: 0.0 <= draws(n) < 1.0
  }

  // The generator of the pet fits, for every seed.
  lemma GeneratorFits(seed: int)
    requires 0 <= seed < Words.Pow2(32)
    ensures DrawsFit(Mulberry.IntDraws(Words.Wrap(seed, 32), 32))
  {
    forall n: nat
      ensures 0.0 <= Mulberry.IntDraws(Words.Wrap(seed, 32), 32)(n) < 1.0
    {
      Mulberry.PortsAgree(seed, n);
    }
  }

  lemma EggIsOk(m: Maths, h: Point, i: nat, s: real, jx: real, jy: real)
    requires Near(h, BODY) && Between(m.hypot(h.x, h.y), 0.0, BODY) && Unit(s) && Unit(jx) && Unit(jy)
    ensures ParticleOk(m, Egg(m, h, i, s, jx, jy), i, 0.0)
  {
    RestIsContained(h.x, REACH);
    RestIsContained(h.y, REACH);
  }

  lemma HatchedIsOk(m: Maths, points: seq<Point>, draws: nat -> real, version: int)
    requires BodyFits(m, points) && DrawsFit(draws) && 1 <= version <= 2
    ensures PetOk(m, Hatched(m, points, draws, version))
  {
    forall i | 0 <= i < |points|
      ensures ParticleOk(m, HatchParticle(m, points[i], i, draws), i, 0.0)
    {
      EggIsOk(m, points[i], i, draws(3 * i + 1), draws(3 * i + 2), draws(3 * i + 3));
    }
  }

  // ----- checkpoints -----

  lemma RowIsAccepted(m: Maths, q: Particle, i: nat, clock: real)
    requires ParticleOk(m, q, i, clock) && 0.0 <= clock <= MAX_SECONDS
    ensures RowFits(RowOf(q))
  {
    ContainedIsBounded(Axis(q.x, q.vx), REACH);
    ContainedIsBounded(Axis(q.y, q.vy), REACH);
  }

  ghost predicate SameBody(a: seq<Particle>, b: seq<Particle>) {
    |a| == |b| && forall i :: 0 <= i < |a| ==> BodyOf(a[i]) == BodyOf(b[i])
  }

  lemma OkIsAccepted(m: Maths, pet: Pet, particles: seq<Particle>)
    requires PetOk(m, pet) && pet.clock <= MAX_SECONDS && SameBody(particles, pet.particles)
    ensures Accepts(particles, CheckpointOf(pet))
  {
    forall i | 0 <= i < |pet.particles|
      ensures RowFits(RowOf(pet.particles[i]))
    {
      RowIsAccepted(m, pet.particles[i], i, pet.clock);
    }
  }

  // Up to the age of a hundred years, the checkpoint of a running pet passes every guard of
  // restoreValidated, the window of eight included, whatever it was shown and however often it was
  // paused. It is accepted by every pet with the same body.
  lemma EveryCheckpointIsAccepted(m: Maths, points: seq<Point>, draws: nat -> real, version: int,
                                  inputs: seq<Input>, particles: seq<Particle>)
    requires m.Sound() && BodyFits(m, points) && DrawsFit(draws) && 1 <= version <= 2 && AllLegal(inputs)
    requires Run(m, Hatched(m, points, draws, version), inputs).clock <= MAX_SECONDS
    requires SameBody(particles, Run(m, Hatched(m, points, draws, version), inputs).particles)
    ensures Accepts(particles, CheckpointOf(Run(m, Hatched(m, points, draws, version), inputs)))
  {
    HatchedIsOk(m, points, draws, version);
    RunStaysOk(m, Hatched(m, points, draws, version), inputs);
    OkIsAccepted(m, Run(m, Hatched(m, points, draws, version), inputs), particles);
  }

  ghost predicate AllDerived(m: Maths, particles: seq<Particle>) {
    forall i :: 0 <= i < |particles| ==> Derived(m, particles[i], i)
  }

  // Two pets that accept the same checkpoint are in the same state afterwards, whatever they were
  // in before, and stay together under every later sequence of inputs.
  lemma RestoringForgetsThePast(m: Maths, a: seq<Particle>, b: seq<Particle>, c: Checkpoint, inputs: seq<Input>)
    requires AllDerived(m, a) && AllDerived(m, b) && Accepts(a, c) && Accepts(b, c)
    ensures Restored(a, c) == Restored(b, c)
    ensures Run(m, Restored(a, c), inputs) == Run(m, Restored(b, c), inputs)
  {
    forall i | 0 <= i < |a|
      ensures Loaded(a[i], c.particles[i]) == Loaded(b[i], c.particles[i])
    {
      assert c.body[i] == [a[i].hx, a[i].hy, a[i].s] == [b[i].hx, b[i].hy, b[i].s];
      assert c.body[i][0] == a[i].hx == b[i].hx && c.body[i][1] == a[i].hy == b[i].hy &&
             c.body[i][2] == a[i].s == b[i].s;
      assert RowFits(c.particles[i]);
    }
    assert Restored(a, c).particles == Restored(b, c).particles;
  }

  // A pet restored from its own checkpoint goes on as if it had never stopped.
  lemma CheckpointRoundTrip(m: Maths, pet: Pet, particles: seq<Particle>, inputs: seq<Input>)
    requires PetOk(m, pet) && pet.clock <= MAX_SECONDS
    requires SameBody(particles, pet.particles) && AllDerived(m, particles)
    ensures Accepts(particles, CheckpointOf(pet))
    ensures Restored(particles, CheckpointOf(pet)) == pet
    ensures Run(m, Restored(particles, CheckpointOf(pet)), inputs) == Run(m, pet, inputs)
  {
    var c := CheckpointOf(pet);
    OkIsAccepted(m, pet, particles);
    forall i | 0 <= i < |particles|
      ensures Loaded(particles[i], c.particles[i]) == pet.particles[i]
    {
      var p, q := particles[i], pet.particles[i];
      assert BodyOf(p) == BodyOf(q);
      assert BodyOf(p)[0] == BodyOf(q)[0] && BodyOf(p)[1] == BodyOf(q)[1] && BodyOf(p)[2] == BodyOf(q)[2];
      assert ParticleOk(m, q, i, pet.clock);
    }
    assert Restored(particles, c).particles == pet.particles;
  }
}
