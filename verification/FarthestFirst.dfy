/**
 Farthest-first selection of points: pet/scripts/build-dot-glyphs.py (both body loops) and the
 seeded form in scripts/brand/whale-points.py. Each round takes the candidate that is farthest
 from everything taken so far, using a running list of least squared distances.

 The selection is a k-centre heuristic. Its covering radius is proved to be at most twice the
 best one, for every candidate list and every number of points.
 */
module FarthestFirst {

  datatype Point = Point(x: real, y: real)

  function Square(v: real): real { v * v }

  /** The squared distance. */
  function Apart(p: Point, q: Point): real {
    Square(p.x - q.x) + Square(p.y - q.y)
  }

  /** A squared distance that starts at infinity; -1 marks a candidate as used. */
  datatype Distance = Finite(d: real) | Infinite {
    predicate AtMost(other: Distance) {
      other.Infinite? || (Finite? && d <= other.d)
    }
  }

  function Min(a: Distance, b: Distance): Distance {
    if b.AtMost(a) then b else a
  }

  /** The least squared distance from `p` to the selected points. */
  function Nearest(selected: seq<Point>, p: Point): Distance {
    if selected == [] then Infinite
    else Min(Nearest(selected[..|selected| - 1], p), Finite(Apart(selected[|selected| - 1], p)))
  }

  lemma {:induction false} NearestIsLeast(selected: seq<Point>, p: Point)
    ensures selected != [] ==> exists i :: 0 <= i < |selected| && Nearest(selected, p) == Finite(Apart(selected[i], p))
    ensures forall i :: 0 <= i < |selected| ==> Nearest(selected, p).AtMost(Finite(Apart(selected[i], p)))
  {
    if selected != [] {
      var last := |selected| - 1;
      var earlier := selected[..last];
      NearestIsLeast(earlier, p);
      if Nearest(selected, p) == Finite(Apart(selected[last], p)) {
      } else {
        assert Nearest(selected, p) == Nearest(earlier, p) && earlier != [];
        var i :| 0 <= i < |earlier| && Nearest(earlier, p) == Finite(Apart(earlier[i], p));
        assert earlier[i] == selected[i];
      }
      forall i | 0 <= i < |selected| ensures Nearest(selected, p).AtMost(Finite(Apart(selected[i], p))) {
        if i < last {
          assert earlier[i] == selected[i];
        }
      }
    }
  }

  lemma NearestOfMore(selected: seq<Point>, q: Point, p: Point)
    ensures Nearest(selected + [q], p) == Min(Nearest(selected, p), Finite(Apart(q, p)))
  {
    assert (selected + [q])[..|selected|] == selected;
  }

  lemma {:induction false} NearestShrinks(selected: seq<Point>, k: nat, p: Point)
    requires k <= |selected|
    ensures Nearest(selected, p).AtMost(Nearest(selected[..k], p))
  {
    if k < |selected| {
      NearestShrinks(selected[..|selected| - 1], k, p);
      assert selected[..|selected| - 1][..k] == selected[..k];
    } else {
      assert selected[..k] == selected;
    }
  }

  lemma SquareIsNonNegative(v: real)
    ensures Square(v) >= 0.0
  {}

  lemma NearestOfMember(selected: seq<Point>, i: nat)
    requires i < |selected|
    ensures Nearest(selected, selected[i]) == Finite(0.0)
  {
    var p := selected[i];
    NearestIsLeast(selected, p);
    assert Apart(p, p) == 0.0;
    var j :| 0 <= j < |selected| && Nearest(selected, p) == Finite(Apart(selected[j], p));
    SquareIsNonNegative(selected[j].x - p.x);
    SquareIsNonNegative(selected[j].y - p.y);
  }

  // ---------------------------------------------------------------- what the greedy loop keeps

  /** `p` is a candidate that is farthest from all the selected points. */
  ghost predicate Farthest(candidates: seq<Point>, selected: seq<Point>, p: Point) {
    p in candidates && forall c :: c in candidates ==> Nearest(selected, c).AtMost(Nearest(selected, p))
  }

  /** From position `from` on, each selected point was farthest when it was selected. */
  ghost predicate Greedy(candidates: seq<Point>, selected: seq<Point>, from: nat) {
    forall t :: from <= t < |selected| ==> Farthest(candidates, selected[..t], selected[t])
  }

  lemma GreedyExtends(candidates: seq<Point>, selected: seq<Point>, from: nat, next: Point)
    requires Greedy(candidates, selected, from) && Farthest(candidates, selected, next)
    ensures Greedy(candidates, selected + [next], from)
  {
    var more := selected + [next];
    forall t | from <= t < |more|
      ensures Farthest(candidates, more[..t], more[t])
    {
      if t < |selected| {
        assert more[..t] == selected[..t] && more[t] == selected[t];
      } else {
        assert more[..t] == selected;
      }
    }
  }

  /** Every greedily selected point is at least the final covering radius away from everything
      selected before it. */
  lemma Separation(candidates: seq<Point>, selected: seq<Point>, from: nat, i: nat, j: nat, c: Point)
    requires Greedy(candidates, selected, from) && c in candidates
    requires i < j < |selected| && from <= j
    ensures Nearest(selected, c).AtMost(Finite(Apart(selected[i], selected[j])))
  {
    NearestIsLeast(selected[..j], selected[j]);
    assert selected[..j][i] == selected[i];
    assert Nearest(selected[..j], selected[j]).AtMost(Finite(Apart(selected[..j][i], selected[j])));
    assert Farthest(candidates, selected[..j], selected[j]);
    NearestShrinks(selected, j, c);
  }

  /** `centres` cover every candidate within the squared radius `r2`. */
  ghost predicate Covers(candidates: seq<Point>, centres: seq<Point>, r2: real) {
    forall c :: c in candidates ==> exists i :: 0 <= i < |centres| && Apart(c, centres[i]) <= r2
  }

  lemma {:induction false} Pigeonhole(holes: seq<nat>, m: nat) returns (i: nat, j: nat)
    requires |holes| > m && forall k :: 0 <= k < |holes| ==> holes[k] < m
    ensures i < j < |holes| && holes[i] == holes[j]
    decreases m
  {
    var last := |holes| - 1;
    if k :| 0 <= k < last && holes[k] == holes[last] {
      i, j := k, last;
    } else {
      // Rename hole m - 1 to the hole of the last item, which no other item uses.
      var rest := seq(last, k requires 0 <= k < last => if holes[k] == m - 1 then holes[last] else holes[k]);
      i, j := Pigeonhole(rest, m - 1);
    }
  }

  lemma HalfwayBound(p: Point, q: Point, o: Point)
    ensures Apart(p, q) <= 2.0 * Apart(p, o) + 2.0 * Apart(q, o)
  {
    OneAxis(p.x, q.x, o.x);
    OneAxis(p.y, q.y, o.y);
  }

  lemma OneAxis(p: real, q: real, o: real)
    ensures Square(p - q) <= 2.0 * Square(p - o) + 2.0 * Square(q - o)
  {
    var a, b := p - o, q - o;
    SquareIsNonNegative(a + b);
    assert Square(a - b) + Square(a + b) == 2.0 * Square(a) + 2.0 * Square(b);
    assert p - q == a - b;
  }

  /** Among points that are pairwise at least `gap` apart, two share one of fewer centres, so
      the centres cannot cover them within less than half of the gap. */
  lemma TooFewCentres(points: seq<Point>, centres: seq<Point>, gap: real, r2: real)
    requires |points| > |centres|
    requires AllApart(Apart, points, gap)
    requires Covers(points, centres, r2)
    ensures gap <= 4.0 * r2
  {
    var n := |points|;
    forall k | 0 <= k < n ensures exists h :: 0 <= h < |centres| && Apart(points[k], centres[h]) <= r2 {
      assert points[k] in points;
    }
    ghost var pick := (k: nat) requires k < n =>
      var h :| 0 <= h < |centres| && Apart(points[k], centres[h]) <= r2; h;
    var holes := seq(n, k requires 0 <= k < n => pick(k));
    var i, j := Pigeonhole(holes, |centres|);
    HalfwayBound(points[i], points[j], centres[holes[i]]);
  }

  /** What separates the greedily selected points from each other and from any candidate. */
  lemma PairIsApart(candidates: seq<Point>, selected: seq<Point>, seeds: nat, c: Point, i: nat, j: nat)
    requires Greedy(candidates, selected, seeds) && c in candidates
    requires seeds <= i < j <= |selected|
    ensures Nearest(selected, c).Finite?
    ensures Nearest(selected, c).d <= Apart(selected[i], if j < |selected| then selected[j] else c)
  {
    NearestIsLeast(selected, c);
    if j < |selected| {
      Separation(candidates, selected, seeds, i, j, c);
    } else {
      assert Nearest(selected, c).AtMost(Finite(Apart(selected[i], c)));
    }
  }

  ghost predicate AllApart(apart: (Point, Point) -> real, points: seq<Point>, gap: real) {
    forall i, j :: 0 <= i < j < |points| ==> gap <= apart(points[i], points[j])
  }

  lemma PairsAreApart(apart: (Point, Point) -> real, selected: seq<Point>, seeds: nat, c: Point, gap: real)
    requires seeds <= |selected|
    requires forall i, j :: seeds <= i < j < |selected| ==> gap <= apart(selected[i], selected[j])
    requires forall i :: seeds <= i < |selected| ==> gap <= apart(selected[i], c)
    ensures AllApart(apart, selected[seeds..] + [c], gap)
  {
    var points := selected[seeds..] + [c];
    forall i, j | 0 <= i < j < |points|
      ensures gap <= apart(points[i], points[j])
    {
      assert points[i] == selected[seeds + i];
      if j < |points| - 1 {
        assert points[j] == selected[seeds + j];
      }
    }
  }

  lemma GreedyPointsAreApart(candidates: seq<Point>, selected: seq<Point>, seeds: nat, c: Point)
    requires seeds <= |selected| && 1 <= |selected| && Greedy(candidates, selected, seeds) && c in candidates
    ensures Nearest(selected, c).Finite?
    ensures AllApart(Apart, selected[seeds..] + [c], Nearest(selected, c).d)
  {
    NearestIsLeast(selected, c);
    forall i, j | seeds <= i < j < |selected|
      ensures Nearest(selected, c).d <= Apart(selected[i], selected[j])
    {
      PairIsApart(candidates, selected, seeds, c, i, j);
    }
    forall i | seeds <= i < |selected|
      ensures Nearest(selected, c).d <= Apart(selected[i], c)
    {
      PairIsApart(candidates, selected, seeds, c, i, |selected|);
    }
    PairsAreApart(Apart, selected, seeds, c, Nearest(selected, c).d);
  }

  lemma GreedyPointsAreCandidates(candidates: seq<Point>, selected: seq<Point>, seeds: nat, c: Point)
    requires seeds <= |selected| && Greedy(candidates, selected, seeds) && c in candidates
    ensures forall p :: p in selected[seeds..] + [c] ==> p in candidates
  {
    forall p | p in selected[seeds..]
      ensures p in candidates
    {
      var t :| 0 <= t < |selected| - seeds && selected[seeds..][t] == p;
      assert Farthest(candidates, selected[..seeds + t], selected[seeds + t]);
    }
  }

  /** The 2-approximation: no set of at most as many centres as there are greedily selected
      points, anywhere in the plane, has less than half of the covering radius reached.
      Seeds are selected points that were not chosen greedily. */
  lemma TwoApproximation(candidates: seq<Point>, selected: seq<Point>, seeds: nat,
                         centres: seq<Point>, r2: real, c: Point)
    requires seeds <= |selected| && 1 <= |selected| && Greedy(candidates, selected, seeds)
    requires Covers(candidates, centres, r2) && |centres| <= |selected| - seeds
    requires c in candidates
    ensures Nearest(selected, c).AtMost(Finite(4.0 * r2))
  {
    NearestIsLeast(selected, c);
    var points := selected[seeds..] + [c];
    GreedyPointsAreApart(candidates, selected, seeds, c);
    GreedyPointsAreCandidates(candidates, selected, seeds, c);
    TooFewCentres(points, centres, Nearest(selected, c).d, r2);
  }

  // ---------------------------------------------------------------- which candidate is picked

  /** The running distance of candidate `i`: -1 if it is marked as used, else the least distance. */
  function Running(candidates: seq<Point>, chosen: seq<Point>, used: seq<nat>, i: nat): Distance
    requires i < |candidates|
  {
    if i in used then Finite(-1.0) else Nearest(chosen, candidates[i])
  }

  /** `k` is the first of the candidates with the largest running distance: no later one has a
      larger distance, and every earlier one has a smaller one. */
  ghost predicate FirstFarthest(candidates: seq<Point>, chosen: seq<Point>, used: seq<nat>, k: nat) {
    && k < |candidates|
    && (forall i: nat :: i < |candidates| ==>
          Running(candidates, chosen, used, i).AtMost(Running(candidates, chosen, used, k)))
    && (forall i: nat :: i < k ==>
          !Running(candidates, chosen, used, k).AtMost(Running(candidates, chosen, used, i)))
  }

  lemma FirstFarthestIsOne(candidates: seq<Point>, chosen: seq<Point>, used: seq<nat>, j: nat, k: nat)
    requires FirstFarthest(candidates, chosen, used, j) && FirstFarthest(candidates, chosen, used, k)
    ensures j == k
  {
    assert Running(candidates, chosen, used, j).AtMost(Running(candidates, chosen, used, k));
    assert Running(candidates, chosen, used, k).AtMost(Running(candidates, chosen, used, j));
  }

  /** After `first`, every point is the first farthest candidate of its round; with `marked`, used
      positions count as -1. */
  ghost predicate Picked(candidates: seq<Point>, first: seq<Point>, chosen: seq<Point>, picks: seq<nat>, marked: bool) {
    && |chosen| == |first| + |picks| && first <= chosen
    && forall t :: 0 <= t < |picks| ==> PickedAt(candidates, |first|, chosen, picks, marked, t)
  }

  ghost predicate PickedAt(candidates: seq<Point>, from: nat, chosen: seq<Point>, picks: seq<nat>, marked: bool, t: nat)
    requires t < |picks| && |chosen| == from + |picks|
  {
    && FirstFarthest(candidates, chosen[..from + t], if marked then picks[..t] else [], picks[t])
    && chosen[from + t] == candidates[picks[t]]
  }

  lemma PickedMore(candidates: seq<Point>, first: seq<Point>, chosen: seq<Point>, picks: seq<nat>, marked: bool, k: nat)
    requires Picked(candidates, first, chosen, picks, marked)
    requires FirstFarthest(candidates, chosen, if marked then picks else [], k)
    ensures Picked(candidates, first, chosen + [candidates[k]], picks + [k], marked)
  {
    var more, all := chosen + [candidates[k]], picks + [k];
    forall t | 0 <= t < |all| ensures PickedAt(candidates, |first|, more, all, marked, t) {
      assert more[..|first| + t] == chosen[..|first| + t] && all[..t] == picks[..t];
      if t < |picks| {
        assert PickedAt(candidates, |first|, chosen, picks, marked, t);
      } else {
        assert chosen[..|first| + t] == chosen && picks[..t] == picks;
      }
    }
  }

  lemma PickedBefore(candidates: seq<Point>, first: seq<Point>, chosen: seq<Point>, picks: seq<nat>, marked: bool)
    requires Picked(candidates, first, chosen, picks, marked) && picks != []
    ensures Picked(candidates, first, chosen[..|chosen| - 1], picks[..|picks| - 1], marked)
    ensures PickedAt(candidates, |first|, chosen, picks, marked, |picks| - 1)
  {
    var c, p := chosen[..|chosen| - 1], picks[..|picks| - 1];
    forall t | 0 <= t < |p| ensures PickedAt(candidates, |first|, c, p, marked, t) {
      assert PickedAt(candidates, |first|, chosen, picks, marked, t);
      assert c[..|first| + t] == chosen[..|first| + t] && p[..t] == picks[..t];
    }
  }

  /** The selection is determined: there is one for each list of candidates, first points and
      number of rounds. */
  lemma {:induction false} SelectionIsDetermined(candidates: seq<Point>, first: seq<Point>, marked: bool,
                                                 c: seq<Point>, p: seq<nat>, d: seq<Point>, q: seq<nat>)
    requires Picked(candidates, first, c, p, marked) && Picked(candidates, first, d, q, marked) && |p| == |q|
    ensures c == d && p == q
    decreases |p|
  {
    if p == [] {
      assert c == first == d;
    } else {
      var n := |p| - 1;
      PickedBefore(candidates, first, c, p, marked);
      PickedBefore(candidates, first, d, q, marked);
      SelectionIsDetermined(candidates, first, marked, c[..|c| - 1], p[..n], d[..|d| - 1], q[..n]);
      FirstFarthestIsOne(candidates, c[..|first| + n], if marked then p[..n] else [], p[n], q[n]);
      assert c == c[..|c| - 1] + [candidates[p[n]]] && d == d[..|d| - 1] + [candidates[q[n]]];
      assert p == p[..n] + [p[n]] && q == q[..n] + [q[n]];
    }
  }

  lemma FirstLargestIsFarthest(candidates: seq<Point>, chosen: seq<Point>, used: seq<nat>, values: seq<Distance>,
      at: nat)
    requires |values| == |candidates| && at < |values|
    requires forall i: nat :: i < |candidates| ==> values[i] == Running(candidates, chosen, used, i)
    requires forall i :: 0 <= i < |values| ==> values[i].AtMost(values[at])
    requires forall i :: 0 <= i < at ==> !values[at].AtMost(values[i])
    ensures FirstFarthest(candidates, chosen, used, at)
  {}

  // ---------------------------------------------------------------- the loops

  /** `max(range(n), key=...)` and `argmax`: the first position of the largest value. */
  method FirstLargest(values: seq<Distance>) returns (at: nat)
    requires values != []
    ensures at < |values|
    ensures forall i :: 0 <= i < |values| ==> values[i].AtMost(values[at])
    ensures forall i :: 0 <= i < at ==> !values[at].AtMost(values[i])
  {
    at := 0;
    for n := 1 to |values|
      invariant at < n
      invariant forall i :: 0 <= i < n ==> values[i].AtMost(values[at])
      invariant forall i :: 0 <= i < at ==> !values[at].AtMost(values[i])
    {
      if !values[n].AtMost(values[at]) {
        at := n;
      }
    }
  }

  /** One round: the running distances after `p` is selected. */
  method Relax(candidates: seq<Point>, distances: seq<Distance>, p: Point) returns (relaxed: seq<Distance>)
    requires |distances| == |candidates|
    ensures |relaxed| == |candidates|
    ensures forall i :: 0 <= i < |candidates| ==> relaxed[i] == Min(distances[i], Finite(Apart(p, candidates[i])))
  {
    relaxed := [];
    for n := 0 to |candidates|
      invariant |relaxed| == n
      invariant forall i :: 0 <= i < n ==> relaxed[i] == Min(distances[i], Finite(Apart(p, candidates[i])))
    {
      relaxed := relaxed + [Min(distances[n], Finite(Apart(p, candidates[n])))];
    }
  }

  /** The two body loops, for any number of rounds; the source fails on an empty candidate list. */
  method SelectDots(candidates: seq<Point>, rounds: nat)
    returns (selected: seq<Point>, distances: seq<Distance>, at: nat, ghost picks: seq<nat>)
    requires candidates != []
    ensures |selected| == rounds && |distances| == |candidates| && at < |candidates|
    ensures Picked(candidates, [], selected, picks, false) && FirstFarthest(candidates, selected, [], at)
    ensures rounds > 0 ==> picks[0] == 0 && selected[0] == candidates[0]
    ensures Greedy(candidates, selected, 1) && forall p :: p in selected ==> p in candidates
    ensures forall i :: 0 <= i < |candidates| ==> distances[i] == Nearest(selected, candidates[i])
    ensures forall i :: 0 <= i < |candidates| ==> distances[i].AtMost(distances[at])
    ensures forall i, j :: 0 <= i < j < rounds ==> distances[at].AtMost(Finite(Apart(selected[i], selected[j])))
    ensures forall centres, r2 :: rounds > 0 && |centres| <= rounds && Covers(candidates, centres, r2) ==>
              distances[at].AtMost(Finite(4.0 * r2))
  {
    distances := seq(|candidates|, i => Infinite);
    selected, at, picks := [], 0, [];
    for n := 0 to rounds
      invariant |selected| == n && |distances| == |candidates| && at < |candidates|
      invariant Picked(candidates, [], selected, picks, false) && FirstFarthest(candidates, selected, [], at)
      invariant if n == 0 then at == 0 else picks[0] == 0 && selected[0] == candidates[0]
      invariant Greedy(candidates, selected, 1) && forall p :: p in selected ==> p in candidates
      invariant forall i :: 0 <= i < |candidates| ==> distances[i] == Nearest(selected, candidates[i])
      invariant forall i :: 0 <= i < |candidates| ==> distances[i].AtMost(distances[at])
    {
      var p := candidates[at];
      ghost var before := selected;
      FarthestIsFarthest(candidates, selected, distances, at);
      GreedyExtends(candidates, selected, 1, p);
      PickedMore(candidates, [], selected, picks, false, at);
      selected, picks := selected + [p], picks + [at];
      distances := Relax(candidates, distances, p);
      forall i | 0 <= i < |candidates| ensures distances[i] == Nearest(selected, candidates[i]) {
        NearestOfMore(before, p, candidates[i]);
      }
      at := FirstLargest(distances);
      FirstLargestIsFarthest(candidates, selected, [], distances, at);
    }
    SelectionMeaning(candidates, selected, distances[at], candidates[at]);
  }

  lemma FarthestIsFarthest(candidates: seq<Point>, selected: seq<Point>, distances: seq<Distance>, at: nat)
    requires |distances| == |candidates| && at < |candidates|
    requires forall i :: 0 <= i < |candidates| ==> distances[i] == Nearest(selected, candidates[i])
    requires forall i :: 0 <= i < |candidates| ==> distances[i].AtMost(distances[at])
    ensures Farthest(candidates, selected, candidates[at])
  {}

  lemma GreedyFromZero(candidates: seq<Point>, selected: seq<Point>)
    requires Greedy(candidates, selected, 1) && forall p :: p in selected ==> p in candidates
    ensures Greedy(candidates, selected, 0)
  {
    if selected != [] {
      assert selected[..0] == [];
      assert Farthest(candidates, selected[..0], selected[0]);
    }
  }

  lemma SelectionMeaning(candidates: seq<Point>, selected: seq<Point>, radius: Distance, farthest: Point)
    requires Greedy(candidates, selected, 1) && forall p :: p in selected ==> p in candidates
    requires farthest in candidates && radius == Nearest(selected, farthest)
    ensures forall i, j :: 0 <= i < j < |selected| ==> radius.AtMost(Finite(Apart(selected[i], selected[j])))
    ensures forall centres, r2 :: selected != [] && |centres| <= |selected| && Covers(candidates, centres, r2) ==>
              radius.AtMost(Finite(4.0 * r2))
  {
    GreedyFromZero(candidates, selected);
    forall i, j | 0 <= i < j < |selected|
      ensures radius.AtMost(Finite(Apart(selected[i], selected[j])))
    {
      Separation(candidates, selected, 0, i, j, farthest);
    }
    forall centres, r2 | selected != [] && |centres| <= |selected| && Covers(candidates, centres, r2)
      ensures radius.AtMost(Finite(4.0 * r2))
    {
      TwoApproximation(candidates, selected, 0, centres, r2, farthest);
    }
  }

  // ---------------------------------------------------------------- the seeded form

  /** The running distances of the seeded form: -1 once used, else the least distance. */
  ghost predicate Tracks(candidates: seq<Point>, chosen: seq<Point>, best: seq<Distance>) {
    && |best| == |candidates|
    && forall i :: 0 <= i < |candidates| ==>
         if best[i] == Finite(-1.0) then candidates[i] in chosen
         else best[i] == Nearest(chosen, candidates[i])
  }

  lemma NearestIsNonNegative(selected: seq<Point>, p: Point)
    ensures Finite(0.0).AtMost(Nearest(selected, p))
  {
    NearestIsLeast(selected, p);
    if selected != [] {
      var i :| 0 <= i < |selected| && Nearest(selected, p) == Finite(Apart(selected[i], p));
      SquareIsNonNegative(selected[i].x - p.x);
      SquareIsNonNegative(selected[i].y - p.y);
    }
  }

  /** A used candidate is at distance zero, so the marks never change which point is farthest. */
  lemma MarksAreHarmless(candidates: seq<Point>, chosen: seq<Point>, best: seq<Distance>, at: nat, c: Point)
    requires Tracks(candidates, chosen, best) && at < |best| && c in candidates
    requires forall i :: 0 <= i < |best| ==> best[i].AtMost(best[at])
    ensures Nearest(chosen, c).AtMost(Nearest(chosen, candidates[at]))
  {
    var k :| 0 <= k < |candidates| && candidates[k] == c;
    NearestIsNonNegative(chosen, c);
    NearestIsNonNegative(chosen, candidates[at]);
    if best[k] == Finite(-1.0) {
      var t :| 0 <= t < |chosen| && chosen[t] == c;
      NearestOfMember(chosen, t);
    }
  }

  /** The array `best` after one more point is chosen; `used` is its position, if it is a candidate. */
  lemma TracksMore(candidates: seq<Point>, chosen: seq<Point>, p: Point, best: seq<Distance>, relaxed: seq<Distance>)
    requires Tracks(candidates, chosen, best) && |relaxed| == |candidates|
    requires forall i :: 0 <= i < |candidates| ==> relaxed[i] == Min(best[i], Finite(Apart(p, candidates[i])))
    ensures Tracks(candidates, chosen + [p], relaxed)
  {
    forall i | 0 <= i < |candidates|
      ensures if relaxed[i] == Finite(-1.0) then candidates[i] in chosen + [p]
              else relaxed[i] == Nearest(chosen + [p], candidates[i])
    {
      NearestOfMore(chosen, p, candidates[i]);
      SquareIsNonNegative(p.x - candidates[i].x);
      SquareIsNonNegative(p.y - candidates[i].y);
    }
  }

  /** Fewer than `n` positions leave one of 0..n-1 free. */
  lemma FreePosition(picks: seq<nat>, n: nat)
    requires |picks| < n
    ensures exists i: nat :: i < n && i !in picks
  {
    if forall i: nat :: i < n ==> i in picks {
      ghost var at := (i: nat) requires i in picks => var k :| 0 <= k < |picks| && picks[k] == i; k;
      var holes := seq(n, i requires 0 <= i < n => at(i));
      assert forall i :: 0 <= i < n ==> holes[i] < |picks| && picks[holes[i]] == i;
      var i, j := Pigeonhole(holes, |picks|);
    }
  }

  ghost predicate Distinct(picks: seq<nat>) {
    forall i, j :: 0 <= i < j < |picks| ==> picks[i] != picks[j]
  }

  /** An unused candidate is preferred to a used one. */
  lemma PickIsFresh(candidates: seq<Point>, chosen: seq<Point>, best: seq<Distance>, picks: seq<nat>, at: nat)
    requires Tracks(candidates, chosen, best) && at < |best| && |picks| < |best|
    requires forall i :: 0 <= i < |best| ==> best[i].AtMost(best[at])
    requires forall i: nat :: i < |best| ==> (best[i] == Finite(-1.0) <==> i in picks)
    ensures at !in picks
  {
    FreePosition(picks, |best|);
    var i: nat :| i < |best| && i !in picks;
    NearestIsNonNegative(chosen, candidates[i]);
    assert best[i].AtMost(best[at]);
  }

  /** What every round keeps: `picks` are the positions chosen greedily after `first`. */
  ghost predicate Round(candidates: seq<Point>, first: seq<Point>, chosen: seq<Point>,
                        picks: seq<nat>, best: seq<Distance>) {
    && Tracks(candidates, chosen, best)
    && Chosen(candidates, first, chosen, picks)
    && forall i: nat :: i < |best| ==> (best[i] == Finite(-1.0) <==> i in picks)
  }

  /** `chosen` is `first`, then greedily chosen candidates, each the first farthest one; none is
      used twice while an unused one remains. */
  ghost predicate Chosen(candidates: seq<Point>, first: seq<Point>, chosen: seq<Point>, picks: seq<nat>) {
    && |chosen| == |first| + |picks| && first <= chosen
    && Greedy(candidates, chosen, |first|) && Picked(candidates, first, chosen, picks, true)
    && (|picks| <= |candidates| ==> Distinct(picks))
  }

  lemma ChosenContinues(candidates: seq<Point>, first: seq<Point>, chosen: seq<Point>, picks: seq<nat>, at: nat)
    requires Chosen(candidates, first, chosen, picks) && at < |candidates|
    requires Farthest(candidates, chosen, candidates[at]) && (|picks| < |candidates| ==> at !in picks)
    requires FirstFarthest(candidates, chosen, picks, at)
    ensures Chosen(candidates, first, chosen + [candidates[at]], picks + [at])
  {
    GreedyExtends(candidates, chosen, |first|, candidates[at]);
    PickedMore(candidates, first, chosen, picks, true, at);
  }

  lemma MarksContinue(p: Point, candidates: seq<Point>, picks: seq<nat>, best: seq<Distance>, at: nat,
      relaxed: seq<Distance>)
    requires at < |best| == |relaxed| == |candidates|
    requires forall i: nat :: i < |best| ==> (best[i] == Finite(-1.0) <==> i in picks)
    requires forall i :: 0 <= i < |best| ==> relaxed[i] == Min(best[i], Finite(Apart(p, candidates[i])))
    ensures forall i: nat :: i < |best| ==> (relaxed[at := Finite(-1.0)][i] == Finite(-1.0) <==> i in picks + [at])
  {
    forall i: nat | i < |best| ensures relaxed[i] == Finite(-1.0) <==> i in picks {
      RelaxKeepsMarks(p, candidates[i], best[i]);
    }
  }

  lemma RoundContinues(candidates: seq<Point>, first: seq<Point>, chosen: seq<Point>, picks: seq<nat>,
                       best: seq<Distance>, at: nat, relaxed: seq<Distance>)
    requires Round(candidates, first, chosen, picks, best) && at < |best| == |relaxed|
    requires forall i :: 0 <= i < |best| ==> best[i].AtMost(best[at])
    requires forall i :: 0 <= i < at ==> !best[at].AtMost(best[i])
    requires forall i :: 0 <= i < |best| ==> relaxed[i] == Min(best[i], Finite(Apart(candidates[at], candidates[i])))
    ensures Round(candidates, first, chosen + [candidates[at]], picks + [at], relaxed[at := Finite(-1.0)])
  {
    var p := candidates[at];
    forall c | c in candidates ensures Nearest(chosen, c).AtMost(Nearest(chosen, p)) {
      MarksAreHarmless(candidates, chosen, best, at, c);
    }
    TracksMore(candidates, chosen, p, best, relaxed);
    if |picks| < |candidates| {
      PickIsFresh(candidates, chosen, best, picks, at);
    }
    FirstLargestIsFarthest(candidates, chosen, picks, best, at);
    ChosenContinues(candidates, first, chosen, picks, at);
    MarksContinue(p, candidates, picks, best, at, relaxed);
  }

  lemma RelaxKeepsMarks(p: Point, q: Point, d: Distance)
    ensures Min(d, Finite(Apart(p, q))) == Finite(-1.0) <==> d == Finite(-1.0)
  {
    SquareIsNonNegative(p.x - q.x);
    SquareIsNonNegative(p.y - q.y);
  }

  method SeedDistances(candidates: seq<Point>, seeds: seq<Point>) returns (best: seq<Distance>)
    requires seeds != []
    ensures Tracks(candidates, seeds, best)
    ensures forall i :: 0 <= i < |best| ==> best[i] != Finite(-1.0)
  {
    best := seq(|candidates|, i => Infinite);
    assert seeds[..0] == [];
    for n := 0 to |seeds|
      invariant Tracks(candidates, seeds[..n], best)
      invariant forall i :: 0 <= i < |best| ==> best[i] != Finite(-1.0)
    {
      var relaxed := Relax(candidates, best, seeds[n]);
      TracksMore(candidates, seeds[..n], seeds[n], best, relaxed);
      assert seeds[..n + 1] == seeds[..n] + [seeds[n]];
      forall i | 0 <= i < |best| ensures relaxed[i] != Finite(-1.0) {
        RelaxKeepsMarks(seeds[n], candidates[i], best[i]);
      }
      best := relaxed;
    }
    assert seeds[..|seeds|] == seeds;
  }

  method FarthestPoint(candidates: seq<Point>, seeds: seq<Point>, want: nat)
    returns (chosen: seq<Point>, ghost picks: seq<nat>)
    requires candidates != []
    ensures var first := if seeds == [] then [candidates[0]] else seeds;
            && Chosen(candidates, first, chosen, picks)
            && |chosen| == (if want <= |first| then |first| else want)
            && (forall i, j, c :: 0 <= i < j < |chosen| && |first| <= j && c in candidates ==>
                 Nearest(chosen, c).AtMost(Finite(Apart(chosen[i], chosen[j]))))
  {
    chosen := if seeds == [] then [candidates[0]] else seeds;
    ghost var first := chosen;
    picks := [];
    if |chosen| < want {
      var best := SeedDistances(candidates, chosen);
      for n := 0 to want - |chosen|
        invariant Round(candidates, first, chosen, picks, best) && |picks| == n
      {
        var at := FirstLargest(best);
        var p := candidates[at];
        var relaxed := Relax(candidates, best, p);
        RoundContinues(candidates, first, chosen, picks, best, at, relaxed);
        chosen, picks := chosen + [p], picks + [at];
        best := relaxed[at := Finite(-1.0)];
      }
    }
    forall i, j, c | 0 <= i < j < |chosen| && |first| <= j && c in candidates
      ensures Nearest(chosen, c).AtMost(Finite(Apart(chosen[i], chosen[j])))
    {
      Separation(candidates, chosen, |first|, i, j, c);
    }
  }
}
