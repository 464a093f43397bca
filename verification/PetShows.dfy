// What one step of the pet shows: its colour, its opacity, its figure and its tear, from the state it is
// given.

module PetShows {
  import opened Common
  import opened PetStability
  import opened PetGait
  import opened PetFigures
  import opened PetSim

  // ----- work and colour -----

  // Work rises from 0 at an activity of 0.16 to 1 at 0.34; above 0.223 the channel shows.
  lemma WorkRises(act: real, more: real)
    requires act <= more
    ensures 0.0 <= WorkOf(act) <= WorkOf(more) <= 1.0
    ensures (WorkOf(act) == 0.0 <==> act <= 0.16) && (WorkOf(act) == 1.0 <==> act >= 0.34)
    ensures WorkOf(act) > 0.35 <==> act > 0.223
  {
  }

  // Sensitivity 1 takes every reading as it is, and sensitivity 0 takes none of them.
  lemma Sensitivity(v: real)
    ensures Felt(v, 1.0) == v && Felt(v, 0.0) == 0.5
  {
  }

  lemma TintedFully(col: Color, want: Color)
    ensures Tinted(col, want, 1.0, 1.0) == want && Tinted(col, want, 0.0, 1.0) == UNKNOWN
    ensures Tinted(col, want, 1.0, 0.0) == col
  {
  }

  // A pet that stands still and is fully observed shows the colour of its channel exactly above an
  // activity of 0.223, and the colour of rest otherwise; one that is not observed shows neither.
  lemma StillColour(m: Maths, pet: Pet, input: Input)
    requires Known(pet.cur) && !input.motion && input.sensitivity == 1.0
    ensures var after := Stepped(m, pet, input);
      && after.cur == (if input.state.channel.Some? then IndexOf(input.state.channel.value) else pet.cur)
      && (input.state.observed == 1.0 ==>
            after.col == if input.state.activity > 0.223 then ChannelAt(after.cur).color else REST)
      && (input.state.observed == 0.0 ==> after.col == UNKNOWN)
      && after.frame.r == after.col.r && after.frame.g == after.col.g && after.frame.b == after.col.b
      && (after.frame.hollow <==> input.state.observed < 0.92)
      && after.frame.channel == ChannelAt(after.cur).key
  {
    Sensitivity(input.state.observed);
    Sensitivity(input.state.activity);
    WorkRises(input.state.activity, input.state.activity);
    TintedFully(pet.col, Want(SceneOf(m, pet, input)));
  }

  // The colour that a step is on its way to.
  function Goal(want: Color, seen: real): Color {
    Color(Lerp(UNKNOWN.r, want.r, seen), Lerp(UNKNOWN.g, want.g, seen), Lerp(UNKNOWN.b, want.b, seen))
  }

  // In motion every component comes nearer to it, by 2.6 times the length of the step, and never goes past.
  lemma ColourApproaches(v: real, goal: real, dt: real)
    requires dt >= 0.0
    ensures var after := Lerp(v, goal, Blend(dt, true));
      && (if v <= goal then v <= after <= goal else goal <= after <= v)
      && (dt * 2.6 >= 1.0 ==> after == goal)
      && (dt * 2.6 <= 1.0 ==> goal - after == (goal - v) * (1.0 - dt * 2.6))
  {
    var k := Blend(dt, true);
    if v <= goal {
      LerpStaysBetween(v, goal, k, v, goal);
    } else {
      LerpStaysBetween(v, goal, k, goal, v);
    }
    if dt * 2.6 <= 1.0 {
      RestOfTheWay(v, goal, k);
    }
    if dt * 2.6 >= 1.0 {
      AllTheWay(v, goal);
    }
  }

  lemma RestOfTheWay(v: real, goal: real, k: real)
    ensures goal - Lerp(v, goal, k) == (goal - v) * (1.0 - k)
  {
  }

  lemma StepTints(m: Maths, pet: Pet, input: Input)
    requires Known(pet.cur)
    ensures var after, c := Stepped(m, pet, input), SceneOf(m, pet, input);
      var goal, k := Goal(Want(c), c.seen), Blend(input.dt, input.motion);
      after.col == Color(Lerp(pet.col.r, goal.r, k), Lerp(pet.col.g, goal.g, k), Lerp(pet.col.b, goal.b, k))
  {
  }

  // ----- the tear -----

  // Only a change to the errors tears a pet. A tear closes by 1.6 a second and is closed without motion.
  lemma TearCloses(m: Maths, pet: Pet, input: Input)
    requires Known(pet.cur)
    ensures var after := Stepped(m, pet, input);
      var torn := after.cur != pet.prev && ChannelAt(after.cur).key == Errors;
      && (!input.motion ==> after.tear == 0.0)
      && (input.motion && torn ==> after.tear == Max(0.0, 1.0 - input.dt * 1.6))
      && (input.motion && !torn ==> after.tear == Max(0.0, pet.tear - input.dt * 1.6))
      && after.prev == after.cur
  {
  }

  // Thirty frames a second in motion, none of which names the errors.
  predicate NoErrors(inputs: seq<Input>) {
    forall i :: 0 <= i < |inputs| ==> NoError(inputs[i])
  }

  predicate NoError(input: Input) {
    input.motion && input.dt == 1.0 / 30.0 && input.state.channel != Some(Errors)
  }

  // At thirty frames a second a tear is closed after nineteen frames without a new error.
  lemma {:induction false} TearIsClosed(m: Maths, pet: Pet, inputs: seq<Input>)
    requires Known(pet.cur) && pet.prev == pet.cur && 0.0 <= pet.tear <= 1.0 && NoErrors(inputs)
    ensures Run(m, pet, inputs).prev == Run(m, pet, inputs).cur
    ensures Run(m, pet, inputs).tear == Max(0.0, pet.tear - |inputs| as real * 4.0 / 75.0)
    ensures |inputs| >= 19 ==> Run(m, pet, inputs).tear == 0.0
  {
    if inputs != [] {
      var n := |inputs| - 1;
      TearIsClosed(m, pet, inputs[..n]);
      assert NoError(inputs[n]);
      TearCloses(m, Run(m, pet, inputs[..n]), inputs[n]);
      assert (n + 1) as real == n as real + 1.0;
    }
  }

  // ----- the figure -----

  ghost predicate PowerOfNothing(m: Maths) {
    forall e :: e > 0.0 ==> m.pow(0.0, e) == 0.0
  }

  lemma CalmScene(m: Maths, pet: Pet, input: Input)
    requires Known(pet.cur) && PowerOfNothing(m) && !input.motion && input.sensitivity == 1.0
    requires input.state.coherence == 1.0
    ensures var c := SceneOf(m, pet, input);
      c.split == 0.0 && c.blur == 0.0 && c.tear == 0.0 && c.mood == MoodOf(input)
      && c.work == WorkOf(input.state.activity)
      && c.time == StillTime(ChannelAt(c.cur).key)
  {
    Sensitivity(input.state.coherence);
    Sensitivity(input.state.activity);
  }

  lemma AimIsGait(m: Maths, q: Particle, c: Scene, version: int, slots: seq<Slot>)
    requires Known(c.cur) && c.split == 0.0 && c.blur == 0.0
    ensures AimOf(m, q, c, version, slots)
         == GaitTarget(m, q, c.time, c.mood, ChannelAt(c.cur).key, c.work, version, slots)
  {
    var g := GaitTarget(m, q, c.time, c.mood, ChannelAt(c.cur).key, c.work, version, slots);
    var angle := q.pod as real * 1.047 + c.phase * 0.22;
    NothingAdded(g.x, m.sin(q.jx + q.s * 9.0), c.wander, m.cos(angle), c.split);
    NothingAdded(g.y, m.cos(q.jy + q.s * 7.0), c.wander, m.sin(angle), c.split * 0.55);
  }

  lemma NothingAdded(gait: real, wave: real, wander: real, turn: real, split: real)
    requires split == 0.0
    ensures Aim(gait, wave, 0.0, wander, turn, split) == gait
  {
    assert wave * 0.0 == 0.0 && 0.0 * wander == 0.0 && turn * 0.0 == 0.0;
  }

  lemma StillParticle(m: Maths, q: Particle, c: Scene, version: int, slots: seq<Slot>, dt: real) returns (now: Particle)
    requires Known(c.cur) && c.split == 0.0 && c.blur == 0.0
    ensures now == Moved(m, q, c, version, slots, dt, false)
    ensures now.vx == 0.0 && now.vy == 0.0 && now.tx == now.x && now.ty == now.y
    ensures Point(now.x, now.y) == GaitTarget(m, q, c.time, c.mood, ChannelAt(c.cur).key, c.work, version, slots)
  {
    now := Moved(m, q, c, version, slots, dt, false);
    AimIsGait(m, q, c, version, slots);
  }

  lemma ParticleOf(m: Maths, pet: Pet, input: Input, i: nat)
    requires Known(pet.cur) && i < |pet.particles|
    ensures Stepped(m, pet, input).particles[i]
         == Moved(m, pet.particles[i], SceneOf(m, pet, input), pet.version, input.slots, input.dt, input.motion)
    ensures Stepped(m, pet, input).cur == SceneOf(m, pet, input).cur
  {
  }

  // A coherent pet that stands still lies exactly on the figure of its channel if it works fully, and
  // exactly on the swimming body if it rests, whatever it did before.
  lemma StillPetShowsFigure(m: Maths, pet: Pet, input: Input, i: nat) returns (now: Particle, key: Key)
    requires Known(pet.cur) && PowerOfNothing(m) && !input.motion && input.sensitivity == 1.0
    requires input.state.coherence == 1.0 && i < |pet.particles|
    ensures now == Stepped(m, pet, input).particles[i] && key == ChannelAt(Stepped(m, pet, input).cur).key
    ensures now.vx == 0.0 && now.vy == 0.0 && now.tx == now.x && now.ty == now.y
    ensures input.state.activity >= 0.34 ==>
      var q, mood, time := pet.particles[i], MoodOf(input), StillTime(key);
      Point(now.x, now.y) == Shape(m, q, time, mood, key, Swim(m, q, time, mood.act, 1.0), pet.version, input.slots)
    ensures input.state.activity <= 0.16 ==>
      Point(now.x, now.y) == Swim(m, pet.particles[i], StillTime(key), MoodOf(input).act, 0.0)
  {
    var c, q := SceneOf(m, pet, input), pet.particles[i];
    key := ChannelAt(c.cur).key;
    CalmScene(m, pet, input);
    ParticleOf(m, pet, input, i);
    now := StillParticle(m, q, c, pet.version, input.slots, input.dt);
    WorkRises(input.state.activity, input.state.activity);
    if input.state.activity >= 0.34 {
      FullWorkShowsFigure(m, q, c.time, c.mood, key, pet.version, input.slots);
    }
    if input.state.activity <= 0.16 {
      NoWorkSwims(m, q, c.time, c.mood, key, 0.0, pet.version, input.slots);
    }
  }

  // ----- the opacity -----

  function Product(act: real, coh: real, seen: real, lit: real): real {
    act * coh * seen * lit
  }

  lemma ProductGrows(a: real, b: real, c: real, d: real, a': real, b': real, c': real, d': real)
    requires 0.0 <= a <= a' && 0.0 <= b <= b' && 0.0 <= c <= c' && 0.0 <= d <= d'
    ensures 0.0 <= Product(a, b, c, d) <= Product(a', b', c', d')
  {
    FactorsGrow(a, b, a', b');
    FactorsGrow(a * b, c, a' * b', c');
    FactorsGrow(a * b * c, d, a' * b' * c', d');
  }

  lemma FactorsGrow(a: real, b: real, a': real, b': real)
    requires 0.0 <= a <= a' && 0.0 <= b <= b'
    ensures 0.0 <= a * b <= a' * b'
  {
    ProductIsNonnegative(a, b);
    ProductIsNonnegative(a' - a, b);
    ProductIsNonnegative(a', b' - b);
  }

  predicate SaneScene(c: Scene) {
    0.0 <= c.mood.act <= 1.0 && 0.0 <= c.mood.coh <= 1.0 && 0.0 <= c.seen <= 1.0
  }

  // The four parts of the opacity.
  function Glow(act: real): real { 0.22 + act * 0.10 }
  function Part(low: real, v: real): real { Lerp(low, 1.0, v) }

  lemma PartGrows(low: real, v: real, v': real)
    requires 0.0 <= low <= 1.0 && 0.0 <= v <= v' <= 1.0
    ensures 0.0 <= Part(low, v) <= Part(low, v') <= 1.0
  {
    LerpStaysBetween(low, 1.0, v, low, 1.0);
    LerpStaysBetween(low, 1.0, v', low, 1.0);
    LerpGrows(low, 1.0, v, v');
  }

  lemma LerpGrows(a: real, b: real, t: real, u: real)
    requires a <= b && t <= u
    ensures Lerp(a, b, t) <= Lerp(a, b, u)
  {
    ProductIsNonnegative(b - a, u - t);
  }

  lemma AlphaIs(c: Scene, lit: real)
    ensures AlphaOf(c, lit)
         == Min(0.92, Product(Glow(c.mood.act), Part(0.50, c.mood.coh), Part(0.55, c.seen),
             Part(0.35, Clamp(lit))) * 1.85)
  {
  }

  // A pet that is more active, more coherent, better observed and better lit is never fainter. At best its
  // opacity is 0.592, and at worst still 0.039.
  lemma AlphaGrows(c: Scene, lit: real, d: Scene, lit': real)
    requires SaneScene(c) && SaneScene(d) && lit <= lit'
    requires c.mood.act <= d.mood.act && c.mood.coh <= d.mood.coh && c.seen <= d.seen
    ensures 0.0 <= AlphaOf(c, lit) <= AlphaOf(d, lit')
  {
    PartGrows(0.50, c.mood.coh, d.mood.coh);
    PartGrows(0.55, c.seen, d.seen);
    PartGrows(0.35, Clamp(lit), Clamp(lit'));
    ProductGrows(Glow(c.mood.act), Part(0.50, c.mood.coh), Part(0.55, c.seen), Part(0.35, Clamp(lit)),
                 Glow(d.mood.act), Part(0.50, d.mood.coh), Part(0.55, d.seen), Part(0.35, Clamp(lit')));
    AlphaIs(c, lit);
    AlphaIs(d, lit');
  }

  lemma AlphaAtBest(c: Scene)
    requires c.mood.act == 1.0 && c.mood.coh == 1.0 && c.seen == 1.0
    ensures AlphaOf(c, 1.0) == 0.592
  {
    AlphaIs(c, 1.0);
    AllTheWay(0.50, 1.0);
    AllTheWay(0.55, 1.0);
    AllTheWay(0.35, 1.0);
    assert Product(0.32, 1.0, 1.0, 1.0) == 0.32;
  }

  lemma NoneOfTheWay(a: real, b: real)
    ensures Lerp(a, b, 0.0) == a
  {
  }

  lemma AlphaAtWorst(c: Scene)
    requires c.mood.act == 0.0 && c.mood.coh == 0.0 && c.seen == 0.0
    ensures AlphaOf(c, 0.0) == 0.03917375
  {
    AlphaIs(c, 0.0);
    NoneOfTheWay(0.50, 1.0);
    NoneOfTheWay(0.55, 1.0);
    NoneOfTheWay(0.35, 1.0);
    assert Product(0.22, 0.50, 0.55, 0.35) == 0.021175;
  }

  // ----- the clock -----

  // Clock and phase run in motion only.
  lemma ClockRunsInMotion(m: Maths, pet: Pet, input: Input)
    requires Known(pet.cur)
    ensures var after := Stepped(m, pet, input);
      && after.clock == (if input.motion then pet.clock + input.dt else pet.clock)
      && after.phase == (if input.motion then pet.phase + Pace(input.dt, MoodOf(input).act) else pet.phase)
  {
  }

  // So does the jitter; who a particle is never changes.
  lemma JitterRunsInMotion(m: Maths, q: Particle, c: Scene, version: int, slots: seq<Slot>, dt: real, motion: bool)
    requires Known(c.cur)
    ensures var now := Moved(m, q, c, version, slots, dt, motion);
      && now.jx == (if motion then q.jx + dt * (0.40 + c.mood.act * 1.1) else q.jx)
      && now.jy == (if motion then q.jy + dt * (0.34 + c.mood.act * 0.9) else q.jy)
      && now == q.(x := now.x, y := now.y, vx := now.vx, vy := now.vy, jx := now.jx, jy := now.jy, tx := now.tx,
          ty := now.ty)
  {
  }

  // ----- what a checkpoint can bring in -----

  // An accepted checkpoint is of this very body, and brings in no value out of its bounds.
  lemma AcceptedIsBounded(particles: seq<Particle>, c: Checkpoint, i: nat)
    requires Accepts(particles, c) && i < |particles|
    ensures var pet := Restored(particles, c);
      var q := pet.particles[i];
      && |pet.particles| == |particles| == |c.body| && c.body[i] == [particles[i].hx, particles[i].hy, particles[i].s]
      && q.hx == particles[i].hx && q.hy == particles[i].hy && q.s == particles[i].s && q.pod == particles[i].pod
      && Within(q.x, 8.0) && Within(q.y, 8.0) && Within(q.vx, 8.0) && Within(q.vy, 8.0)
      && Within(q.tx, 8.0) && Within(q.ty, 8.0)
      && 0.0 <= q.jx <= 6307200000.0 && 0.0 <= q.jy <= 6307200000.0
  {
    assert RowFits(c.particles[i]);
    var row := c.particles[i];
    assert Between(row[0], -8.0, 8.0) && Between(row[1], -8.0, 8.0) && Between(row[2], -8.0, 8.0);
    assert Between(row[3], -8.0, 8.0) && Between(row[6], -8.0, 8.0) && Between(row[7], -8.0, 8.0);
  }

  lemma AcceptedFrameIsBounded(particles: seq<Particle>, c: Checkpoint)
    requires Accepts(particles, c)
    ensures var pet := Restored(particles, c);
      && 1 <= pet.version <= 2 && Known(pet.prev) && Known(pet.cur)
      && 0.0 <= pet.phase <= 3153600000.0 && 0.0 <= pet.clock <= 3153600000.0 && 0.0 <= pet.tear <= 1.0
      && 0.0 <= pet.col.r <= 255.0 && 0.0 <= pet.col.g <= 255.0 && 0.0 <= pet.col.b <= 255.0
      && 0.0 <= pet.frame.r <= 255.0 && 0.0 <= pet.frame.g <= 255.0 && 0.0 <= pet.frame.b <= 255.0
      && 0.0 <= pet.frame.alpha <= 1.0 && 0.0 <= pet.frame.work <= 1.0
      && pet.frame.channel == ChannelAt(pet.cur).key && pet.frame.arch == ChannelAt(pet.cur).arch
  {
  }
}
