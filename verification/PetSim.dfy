// The particle simulation of the pet: its state, one step, and the checkpoint boundary. The class at
// the end keeps the state in fields, as the ports do; Pet is its value.

module PetSim {
  import opened Common
  import opened PetGait
  import opened PetStability

  const MAX_SECONDS: real := 100.0 * 365.0 * 86400.0
  const UNKNOWN: Color := Color(115.0, 132.0, 146.0)
  const REST: Color := Color(122.0, 214.0, 240.0)

  datatype Frame = Frame(r: real, g: real, b: real, alpha: real, hollow: bool, channel: Key, arch: Arch, work: real)

  datatype Pet = Pet(
    version: int, particles: seq<Particle>, phase: real, clock: real, tear: real,
    prev: int, cur: int, col: Color, frame: Frame)

  // What the world asks the pet to show. A channel text that names no channel is None.
  datatype State = State(activity: real, coherence: real, attention: real, observed: real, lit: real,
      channel: Option<Key>)

  datatype Input = Input(dt: real, state: State, motion: bool, sensitivity: real, slots: seq<Slot>)

  // ----- hatching -----

  function TailOf(hx: real, hy: real): real {
    Clamp(((-hx - hy) * 0.5 + 0.22) / 0.62)
  }

  function Egg(m: Maths, h: Point, i: nat, s: real, jx: real, jy: real): Particle {
    Particle(h.x, h.y, 0.0, 0.0, s, jx * 6.283, jy * 6.283,
             i % 6, h.x, h.y, m.atan2(h.y, h.x), m.hypot(h.x, h.y), TailOf(h.x, h.y), h.x, h.y)
  }

  // Particle i takes draws 3i + 1, 3i + 2 and 3i + 3 of the generator.
  function HatchParticle(m: Maths, h: Point, i: nat, draws: nat -> real): Particle {
    Egg(m, h, i, draws(3 * i + 1), draws(3 * i + 2), draws(3 * i + 3))
  }

  function Hatched(m: Maths, points: seq<Point>, draws: nat -> real, version: int): Pet {
    Pet(version, seq(|points|, i requires 0 <= i < |points| => HatchParticle(m, points[i], i, draws)),
        0.0, 0.0, 0.0, IndexOf(Reasoning), IndexOf(Reasoning), REST,
        Frame(122.0, 214.0, 240.0, 0.3, false, Reasoning, Gyre, 0.0))
  }

  // ----- one step -----

  // The values that one step works out once for all particles.
  datatype Scene = Scene(
    mood: Mood, seen: real, phase: real, clock: real, tear: real, cur: int,
    work: real, wander: real, split: real, blur: real, time: real)

  function Felt(v: real, sensitivity: real): real {
    Lerp(0.5, v, sensitivity)
  }

  function MoodOf(input: Input): Mood {
    Mood(Felt(input.state.activity, input.sensitivity),
         Felt(input.state.coherence, input.sensitivity),
         Felt(input.state.attention, input.sensitivity))
  }

  function Shown(pet: Pet, input: Input): int {
    if input.state.channel.Some? then IndexOf(input.state.channel.value) else pet.cur
  }

  function Mended(tear: real, dt: real): real {
    Max(0.0, tear - dt * 1.6)
  }

  function Pace(dt: real, act: real): real {
    dt * (0.18 + act * 0.55)
  }

  function TornBy(pet: Pet, input: Input): real {
    var shown := Shown(pet, input);
    var torn := if shown != pet.prev && shown == IndexOf(Errors) then 1.0 else pet.tear;
    if input.motion then Mended(torn, input.dt) else 0.0
  }

  function WorkOf(act: real): real {
    Clamp((act - 0.16) / 0.18)
  }

  function WanderOf(m: Maths, coh: real): real {
    Lerp(0.32, 1.0, m.pow(1.0 - coh, 1.15))
  }

  function SplitOf(m: Maths, coh: real, tear: real): real {
    m.pow(1.0 - coh, 1.6) * 0.16 + tear * 0.10
  }

  function BlurOf(m: Maths, coh: real, tear: real): real {
    m.pow(1.0 - coh, 1.45) * 0.22 + tear * 0.18
  }

  function SceneOf(m: Maths, pet: Pet, input: Input): Scene
    requires Known(pet.cur)
  {
    var mood, shown, tear := MoodOf(input), Shown(pet, input), TornBy(pet, input);
    var clock := if input.motion then pet.clock + input.dt else pet.clock;
    Scene(mood, Felt(input.state.observed, input.sensitivity),
          if input.motion then pet.phase + Pace(input.dt, mood.act) else pet.phase,
          clock, tear, shown,
          WorkOf(mood.act), WanderOf(m, mood.coh), SplitOf(m, mood.coh, tear), BlurOf(m, mood.coh, tear),
          if input.motion then clock else StillTime(ChannelAt(shown).key))
  }

  // The spring of one axis for a step of any length.
  function Spring(x: real, v: real, target: real, coherence: real, dt: real): Axis {
    var v' := (v + (target - x) * Pull(coherence) * dt) * 0.90;
    Axis(x + v' * dt * 2.6, v')
  }

  function Jittered(q: Particle, act: real, dt: real): Particle {
    q.(jx := q.jx + dt * (0.40 + act * 1.1), jy := q.jy + dt * (0.34 + act * 0.9))
  }

  // A coordinate of the target: the gait, the blur of a restless mood and the split between pods.
  function Aim(gait: real, wave: real, blur: real, wander: real, turn: real, split: real): real {
    gait + wave * blur * wander + turn * split
  }

  function AimOf(m: Maths, q: Particle, c: Scene, version: int, slots: seq<Slot>): Point
    requires Known(c.cur)
  {
    var g := GaitTarget(m, q, c.time, c.mood, ChannelAt(c.cur).key, c.work, version, slots);
    var angle := q.pod as real * 1.047 + c.phase * 0.22;
    Point(Aim(g.x, m.sin(q.jx + q.s * 9.0), c.blur, c.wander, m.cos(angle), c.split),
          Aim(g.y, m.cos(q.jy + q.s * 7.0), c.blur, c.wander, m.sin(angle), c.split * 0.55))
  }

  function Moved(m: Maths, q: Particle, c: Scene, version: int, slots: seq<Slot>, dt: real, motion: bool): Particle
    requires Known(c.cur)
  {
    var j := if motion then Jittered(q, c.mood.act, dt) else q;
    var aim := AimOf(m, j, c, version, slots);
    if !motion then j.(tx := aim.x, ty := aim.y, x := aim.x, y := aim.y, vx := 0.0, vy := 0.0)
    else
      var x, y := Spring(q.x, q.vx, aim.x, c.mood.coh, dt), Spring(q.y, q.vy, aim.y, c.mood.coh, dt);
      j.(tx := aim.x, ty := aim.y, x := x.x, vx := x.v, y := y.x, vy := y.v)
  }

  function Want(c: Scene): Color
    requires Known(c.cur)
  {
    if c.work > 0.35 then ChannelAt(c.cur).color else REST
  }

  // How much of the way to the wanted colour one step goes.
  function Blend(dt: real, motion: bool): real {
    if motion then Min(1.0, dt * 2.6) else 1.0
  }

  function Tinted(col: Color, want: Color, seen: real, k: real): Color {
    Color(Lerp(col.r, Lerp(UNKNOWN.r, want.r, seen), k),
          Lerp(col.g, Lerp(UNKNOWN.g, want.g, seen), k),
          Lerp(col.b, Lerp(UNKNOWN.b, want.b, seen), k))
  }

  function AlphaOf(c: Scene, lit: real): real {
    Min(0.92, (0.22 + c.mood.act * 0.10) * Lerp(0.50, 1.0, c.mood.coh) * Lerp(0.55, 1.0, c.seen)
              * Lerp(0.35, 1.0, Clamp(lit)) * 1.85)
  }

  function FrameOf(c: Scene, col: Color, lit: real): Frame
    requires Known(c.cur)
  {
    Frame(col.r, col.g, col.b, AlphaOf(c, lit), c.seen < 0.92, ChannelAt(c.cur).key, ChannelAt(c.cur).arch, c.work)
  }

  function MovedAll(m: Maths, particles: seq<Particle>, c: Scene, version: int, slots: seq<Slot>, dt: real,
      motion: bool)
    : (after: seq<Particle>)
    requires Known(c.cur)
    ensures |after| == |particles|
  {
    seq(|particles|, i requires 0 <= i < |particles| => Moved(m, particles[i], c, version, slots, dt, motion))
  }

  function Stepped(m: Maths, pet: Pet, input: Input): (after: Pet)
    requires Known(pet.cur)
    ensures |after.particles| == |pet.particles| && Known(after.cur)
  {
    var c := SceneOf(m, pet, input);
    var col := Tinted(pet.col, Want(c), c.seen, Blend(input.dt, input.motion));
    Pet(pet.version, MovedAll(m, pet.particles, c, pet.version, input.slots, input.dt, input.motion),
        c.phase, c.clock, c.tear, c.cur, c.cur, col, FrameOf(c, col, input.state.lit))
  }

  function Run(m: Maths, pet: Pet, inputs: seq<Input>): (after: Pet)
    requires Known(pet.cur)
    ensures Known(after.cur)
  {
    if inputs == [] then pet
    else Stepped(m, Run(m, pet, inputs[..|inputs| - 1]), inputs[|inputs| - 1])
  }

  // ----- checkpoints -----

  datatype Checkpoint = Checkpoint(
    format: int, version: int, body: seq<seq<real>>, particles: seq<seq<real>>,
    phase: real, clock: real, tear: real, previous: int, current: int, color: seq<real>, frame: Frame)

  predicate Between(v: real, low: real, high: real) {
    low <= v <= high
  }

  predicate RowFits(row: seq<real>) {
    |row| == 8 && forall k :: 0 <= k < 8 ==>
      if k == 4 || k == 5 then Between(row[k], 0.0, 2.0 * MAX_SECONDS) else Between(row[k], -8.0, 8.0)
  }

  predicate FrameFits(f: Frame) {
    && Between(f.r, 0.0, 255.0) && Between(f.g, 0.0, 255.0) && Between(f.b, 0.0, 255.0)
    && Between(f.alpha, 0.0, 1.0) && Between(f.work, 0.0, 1.0)
  }

  // The tests of restoreValidated, in its order.
  predicate Accepts(particles: seq<Particle>, c: Checkpoint) {
    && c.format == 1 && 1 <= c.version <= 2 && |c.body| == |particles| && |c.particles| == |particles|
    && (forall i :: 0 <= i < |particles| ==> c.body[i] == [particles[i].hx, particles[i].hy, particles[i].s])
    && (forall i :: 0 <= i < |particles| ==> RowFits(c.particles[i]))
    && Between(c.phase, 0.0, MAX_SECONDS) && Between(c.clock, 0.0, MAX_SECONDS) && Between(c.tear, 0.0, 1.0)
    && Known(c.previous) && Known(c.current)
    && |c.color| == 3 && (forall i :: 0 <= i < 3 ==> Between(c.color[i], 0.0, 255.0))
    && FrameFits(c.frame)
    && c.frame.channel == ChannelAt(c.current).key && c.frame.arch == ChannelAt(c.current).arch
  }

  function Loaded(q: Particle, row: seq<real>): Particle
    requires |row| == 8
  {
    q.(x := row[0], y := row[1], vx := row[2], vy := row[3], jx := row[4], jy := row[5], tx := row[6], ty := row[7])
  }

  function Restored(particles: seq<Particle>, c: Checkpoint): Pet
    requires Accepts(particles, c)
  {
    Pet(c.version, seq(|particles|, i requires 0 <= i < |particles| => Loaded(particles[i], c.particles[i])),
        c.phase, c.clock, c.tear, c.previous, c.current, Color(c.color[0], c.color[1], c.color[2]), c.frame)
  }

  function RowOf(q: Particle): seq<real> {
    [q.x, q.y, q.vx, q.vy, q.jx, q.jy, q.tx, q.ty]
  }

  function BodyOf(q: Particle): seq<real> {
    [q.hx, q.hy, q.s]
  }

  // The checkpoint that holds a pet, in the layout that restoring reads.
  function CheckpointOf(pet: Pet): Checkpoint {
    Checkpoint(1, pet.version,
               seq(|pet.particles|, i requires 0 <= i < |pet.particles| => BodyOf(pet.particles[i])),
               seq(|pet.particles|, i requires 0 <= i < |pet.particles| => RowOf(pet.particles[i])),
               pet.phase, pet.clock, pet.tear, pet.prev, pet.cur, [pet.col.r, pet.col.g, pet.col.b], pet.frame)
  }

  // ----- the object -----

  class Sim {
    const maths: Maths
    var version: int
    var p: seq<Particle>
    var phase: real
    var clock: real
    var tear: real
    var prev: int
    var col: Color
    var cur: int
    var frame: Frame

    function Value(): Pet
      reads this
    {
      Pet(version, p, phase, clock, tear, prev, cur, col, frame)
    }

    ghost predicate Valid()
      reads this
    {
      Known(cur) && Known(prev)
    }

    // The draws are those of the generator of module Mulberry for the seed of the pet.
    constructor (maths: Maths, points: seq<Point>, draws: nat -> real, version: int)
      requires 1 <= version <= 2
      ensures Valid() && this.maths == maths && Value() == Hatched(maths, points, draws, version)
    {
      var particles: seq<Particle> := [];
      var i, n := 0, 0;
      while i < |points|
        invariant 0 <= i <= |points| && |particles| == i && n == 3 * i
        invariant forall k :: 0 <= k < i ==> particles[k] == HatchParticle(maths, points[k], k, draws)
      {
        particles := particles + [Egg(maths, points[i], i, draws(n + 1), draws(n + 2), draws(n + 3))];
        i, n := i + 1, n + 3;
      }
      this.maths, this.version, p := maths, version, particles;
      phase, clock, tear := 0.0, 0.0, 0.0;
      prev, cur := IndexOf(Reasoning), IndexOf(Reasoning);
      col := REST;
      frame := Frame(122.0, 214.0, 240.0, 0.3, false, Reasoning, Gyre, 0.0);
    }

    method Step(dt: real, state: State, motion: bool, sensitivity: real, slots: seq<Slot>)
      requires Valid()
      modifies this
      ensures Valid() && Value() == Stepped(maths, old(Value()), Input(dt, state, motion, sensitivity, slots))
    {
      var scene := SetScene(dt, state, motion, sensitivity, slots);
      MoveAll(scene, dt, motion, slots);
      col := Tinted(col, Want(scene), scene.seen, Blend(dt, motion));
      frame := FrameOf(scene, col, state.lit);
    }

    // What a step works out before it moves the particles: clocks, channel, tear and shape values.
    method SetScene(dt: real, state: State, motion: bool, sensitivity: real, slots: seq<Slot>) returns (scene: Scene)
      requires Valid()
      modifies this`phase, this`clock, this`tear, this`prev, this`cur
      ensures scene == SceneOf(maths, old(Value()), Input(dt, state, motion, sensitivity, slots))
      ensures Known(cur) && prev == cur == scene.cur
      ensures phase == scene.phase && clock == scene.clock && tear == scene.tear
    {
      var act, coh := Felt(state.activity, sensitivity), Felt(state.coherence, sensitivity);
      var att, seen := Felt(state.attention, sensitivity), Felt(state.observed, sensitivity);
      if motion {
        phase := phase + Pace(dt, act);
        clock := clock + dt;
      }
      if state.channel.Some? {
        cur := IndexOf(state.channel.value);
      }
      if cur != prev {
        if cur == IndexOf(Errors) {
          tear := 1.0;
        }
        prev := cur;
      }
      tear := if motion then Mended(tear, dt) else 0.0;
      scene := Scene(Mood(act, coh, att), seen, phase, clock, tear, cur, WorkOf(act), WanderOf(maths, coh),
                     SplitOf(maths, coh, tear), BlurOf(maths, coh, tear),
                     if motion then clock else StillTime(ChannelAt(cur).key));
    }

    // The loop over the particles.
    method MoveAll(scene: Scene, dt: real, motion: bool, slots: seq<Slot>)
      requires Known(scene.cur)
      modifies this`p
      ensures p == MovedAll(maths, old(p), scene, version, slots, dt, motion)
    {
      var i := 0;
      while i < |p|
        invariant 0 <= i <= |p| == old(|p|)
        invariant forall k :: 0 <= k < i ==> p[k] == Moved(maths, old(p)[k], scene, version, slots, dt, motion)
        invariant forall k :: i <= k < |p| ==> p[k] == old(p)[k]
      {
        var q := p[i];
        if motion {
          q := Jittered(q, scene.mood.act, dt);
        }
        var aim := AimOf(maths, q, scene, version, slots);
        q := q.(tx := aim.x, ty := aim.y);
        if !motion {
          q := q.(x := aim.x, y := aim.y, vx := 0.0, vy := 0.0);
        } else {
          var x, y := Spring(q.x, q.vx, aim.x, scene.mood.coh, dt), Spring(q.y, q.vy, aim.y, scene.mood.coh, dt);
          q := q.(x := x.x, vx := x.v, y := y.x, vy := y.v);
        }
        p := p[i := q];
        i := i + 1;
      }
    }

    // A refused checkpoint leaves the pet as it was.
    method RestoreValidated(c: Checkpoint) returns (accepted: bool)
      requires Valid()
      modifies this
      ensures Valid() && accepted == Accepts(old(p), c)
      ensures Value() == if accepted then Restored(old(p), c) else old(Value())
    {
      if !Accepts(p, c) {
        return false;
      }
      version := c.version;
      phase, clock, tear, prev, cur := c.phase, c.clock, c.tear, c.previous, c.current;
      col := Color(c.color[0], c.color[1], c.color[2]);
      frame := c.frame;
      var i := 0;
      while i < |p|
        invariant 0 <= i <= |p| == old(|p|)
        modifies this`p
        invariant forall k :: 0 <= k < i ==> p[k] == Loaded(old(p)[k], c.particles[k])
        invariant forall k :: i <= k < |p| ==> p[k] == old(p)[k]
      {
        p := p[i := Loaded(p[i], c.particles[i])];
        i := i + 1;
      }
      accepted := true;
    }
  }
}
