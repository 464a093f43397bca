// The figures of version 2: what the fields look like. A field depends on a particle's share s of the
// body, its pod and the time only, so each fact is about the whole cloud.

module PetFields {
  import opened Common
  import opened PetStability
  import opened PetGait
  import opened PetFigures

  // A field is the target itself once the pet works fully in version 2.
  lemma FullWorkShowsField(m: Maths, q: Particle, t: real, mood: Mood, key: Key, slots: seq<Slot>)
    requires !SameInBoth(key)
    ensures FieldTarget(m, q, t, mood.act, mood.att, key)
         == Some(GaitTarget(m, q, t, mood, key, 1.0, 2, slots))
  {
    FullWorkShowsFigure(m, q, t, mood, key, 2, slots);
  }

  // Human: a gap of 0.15 divides the cloud into the particles of the first and of the second half.
  lemma HumanLeavesAGap(m: Maths, q: Particle, t: real, act: real, att: real)
    requires 0.0 <= q.s <= 1.0
    ensures var g := FieldTarget(m, q, t, act, att, Human).value;
      if q.s < 0.5 then -0.545 <= g.x <= -0.075 else 0.075 <= g.x <= 0.545
  {
  }

  // Browser: the pods run in lanes that never touch.
  lemma BrowserKeepsLanes(m: Maths, q: Particle, r: Particle, t: real, act: real, att: real)
    requires m.Sound() && q.pod < r.pod
    ensures var g, h := FieldTarget(m, q, t, act, att, Browser).value, FieldTarget(m, r, t, act, att, Browser).value;
      h.y - g.y >= 0.013
  {
    var a, b := PlaceOf(m, q, t, act), PlaceOf(m, r, t, act);
    assert Within(m.sin(a.u * 5.0 - a.flow * 2.0), 1.0) && Within(m.sin(b.u * 5.0 - b.flow * 2.0), 1.0);
    assert r.pod as real - q.pod as real >= 1.0;
  }

  // Code, Filesystem and Browser: from left to right the particles stand in the order of their shares.
  lemma SharesStandInOrder(m: Maths, q: Particle, r: Particle, t: real, act: real, att: real, key: Key)
    requires q.s < r.s && (key.Code? || key.Filesystem? || key.Browser?)
    ensures FieldTarget(m, q, t, act, att, key).value.x < FieldTarget(m, r, t, act, att, key).value.x
  {
  }

  // Filesystem: a stem, from which one branch for each pod opens to the right.
  lemma FilesystemBranches(m: Maths, q: Particle, t: real, act: real, att: real)
    requires m.Sound() && 0.0 <= q.s <= 1.0
    ensures var g := FieldTarget(m, q, t, act, att, Filesystem).value;
      && (q.s <= 0.35 ==> Within(g.y, 0.025))
      && (q.s == 1.0 ==> Within(g.y - (q.pod as real - 2.5) * 0.13, 0.025))
  {
    var c := PlaceOf(m, q, t, act);
    assert Within(m.sin(c.u * 8.0 - c.flow), 1.0);
    Branches(c.lane, c.u);
  }

  lemma Branches(lane: real, u: real)
    requires -1.0 <= u <= 1.0
    ensures u <= -0.3 ==> lane * 0.13 * Max(0.0, (u + 0.3) / 1.3) == 0.0
    ensures u == 1.0 ==> lane * 0.13 * Max(0.0, (u + 0.3) / 1.3) == lane * 0.13
  {
    if u <= -0.3 {
      assert Max(0.0, (u + 0.3) / 1.3) == 0.0;
    }
    if u == 1.0 {
      assert Max(0.0, (u + 0.3) / 1.3) == 1.0;
    }
  }

  // Memory and Code: one band for each pod.
  lemma BandsOfPods(m: Maths, q: Particle, t: real, act: real, att: real)
    requires m.Sound()
    ensures var g, lane := FieldTarget(m, q, t, act, att, Memory).value, q.pod as real - 2.5;
      Within(g.x, 0.46) && Within(g.y - lane * 0.082, 0.052)
    ensures var g, lane := FieldTarget(m, q, t, act, att, Code).value, q.pod as real - 2.5;
      Within(g.y - lane * 0.066, 0.12)
  {
    var c := PlaceOf(m, q, t, act);
    assert Within(m.cos(c.a + c.lane * 0.1 + c.flow * 0.25), 1.0) && Within(m.sin(c.a * 2.0 + c.flow), 1.0);
    assert Within(m.sin(c.u * 7.0 + c.flow * 2.0 + PodTurn(m, c)), 1.0);
  }

  // Tool: six spokes, a sixth of a turn apart and flattened to 0.8; the shares grow outward.
  lemma ToolReaches(m: Maths, q: Particle, t: real, act: real, att: real) returns (turn: real, reach: real)
    requires m.Sound() && 0.0 <= q.s <= 1.0
    ensures turn == q.pod as real * m.pi / 3.0
    ensures 0.10 <= reach <= 0.58 && Within(reach - (0.14 + q.s * 0.40), 0.04)
    ensures var g := FieldTarget(m, q, t, act, att, Tool).value;
      g.x == m.cos(turn) * reach && g.y == m.sin(turn) * reach * 0.8 + q.hy * 0.06
  {
    var c := PlaceOf(m, q, t, act);
    turn, reach := PodTurn(m, c), Extent(m, c);
    assert Within(m.sin(c.flow * 3.0 - c.u * 4.0), 1.0);
  }

  // Network and Communication: an ellipse for each pod, wider for later ones; in Communication the odd
  // pods run the other way round.
  lemma EllipsesOfPods(m: Maths, q: Particle, t: real, act: real, att: real, key: Key) returns (phase: real, wide: real)
    requires key.Network? || key.Communication?
    ensures var flow := Turn(t, act, 0.35, 0.65);
      phase == q.s * m.pi * 2.0 + (if key.Communication? && q.pod % 2 == 1 then -flow else flow)
    ensures wide == 0.12 + q.pod as real * 0.035
    ensures var g := FieldTarget(m, q, t, act, att, key).value;
      g.x == 0.54 * m.cos(phase) && g.y - (q.pod as real - 2.5) * 0.024 == m.sin(phase) * wide
  {
    var c := PlaceOf(m, q, t, act);
    wide := 0.12 + c.pod * 0.035;
    phase := if key.Communication? then c.a + c.flow * (if q.pod % 2 == 1 then -1.0 else 1.0) else c.a + c.flow;
    assert c.flow * -1.0 == -c.flow && c.flow * 1.0 == c.flow;
  }

  // Reasoning: a rolling ring, flattened to 0.7 and lifted by at most 0.10.
  lemma ReasoningRolls(m: Maths, q: Particle, t: real, act: real, att: real)
      returns (turn: real, ring: real, lift: real)
    requires m.Sound()
    ensures 0.235 <= ring <= 0.445 && Within(lift, 0.10)
    ensures turn == q.s * m.pi * 2.0 * 2.0 + Turn(t, act, 0.35, 0.65) * 0.3
    ensures var g := FieldTarget(m, q, t, act, att, Reasoning).value;
      g.x == ring * m.cos(turn) && g.y - lift == ring * m.sin(turn) * 0.7
  {
    var c := PlaceOf(m, q, t, act);
    turn := c.a * 2.0 + c.flow * 0.3;
    ring, lift := 0.34 + 0.105 * m.cos(c.a * 3.0 + c.flow + c.lane * 0.18), 0.10 * m.sin(c.a * 3.0 + c.flow);
    assert Within(m.cos(c.a * 3.0 + c.flow + c.lane * 0.18), 1.0) && Within(m.sin(c.a * 3.0 + c.flow), 1.0);
  }
}
