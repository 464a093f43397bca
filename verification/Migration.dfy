/**
 The migration frontier gate (scripts/check-command-migration-manifest.py). A topology declares
 groups and their slices; a frontier is a set of leaves. From one revision to the next a
 frontier may only shrink, or one group may be replaced by all of its slices.

 A frontier is validated to be sorted and without duplicates, so it is modelled as a set.
 */
module Migration {
  import opened Common

  /** Slice names by group name. */
  type Topology = map<string, set<string>>

  datatype Document = Document(topology: Topology, frontier: set<string>)

  /** Every group and every declared slice. */
  function AllLeaves(t: Topology): set<string> {
    t.Keys + set g, x | g in t && x in t[g] :: x
  }

  predicate StartsWith(s: string, prefix: string) {
    prefix <= s
  }

  /** `validate_topology_document`: slice names start with their group's name, and the frontier
      names leaves only. */
  predicate ValidDocument(doc: Document) {
    && doc.topology != map[]
    && ValidTopology(doc.topology)
    && doc.frontier <= AllLeaves(doc.topology)
  }

  predicate ValidTopology(t: Topology) {
    forall g, x :: g in t && x in t[g] ==> StartsWith(x, g + "::")
  }

  /** `is_documented_split`: one group is gone and exactly its declared slices are new. */
  predicate IsDocumentedSplit(t: Topology, old': set<string>, new': set<string>) {
    var removed, added := old' - new', new' - old';
    exists parent :: parent in t && removed == {parent} && t[parent] != {} && t[parent] == added
  }

  /** `is_valid_frontier_transition` reports nothing. */
  predicate TransitionAccepted(t: Topology, old': set<string>, new': set<string>) {
    new' - old' == {} || IsDocumentedSplit(t, old', new')
  }

  datatype Verdict = Pass | InvalidCurrent | InvalidBaseline | NotAtRoots | TopologyChanged | FrontierRefused

  /** `validate_baseline_transition`. */
  function ValidateBaselineTransition(current: Document, previous: Option<Document>): Verdict {
    if !ValidDocument(current) then InvalidCurrent
    else
      match previous
      case None => if current.frontier == current.topology.Keys then Pass else NotAtRoots
      case Some(before) =>
        if !ValidDocument(before) then InvalidBaseline
        else if before.topology != current.topology then TopologyChanged
        else if TransitionAccepted(before.topology, before.frontier, current.frontier) then Pass
        else FrontierRefused
  }

  // ---------------------------------------------------------------- histories

  /** Revisions that the gate has passed one after the other, from the first on. */
  ghost predicate PassedRevisions(docs: seq<Document>) {
    && docs != [] && ValidateBaselineTransition(docs[0], None) == Pass
    && forall i :: 0 <= i < |docs| - 1 ==> ValidateBaselineTransition(docs[i + 1], Some(docs[i])) == Pass
  }

  /** Frontiers over one topology, from all groups on, each accepted after the one before. */
  ghost predicate IsHistory(t: Topology, fs: seq<set<string>>) {
    && fs != [] && fs[0] == t.Keys
    && (forall i :: 0 <= i < |fs| ==> fs[i] <= AllLeaves(t))
    && forall i :: 0 <= i < |fs| - 1 ==> TransitionAccepted(t, fs[i], fs[i + 1])
  }

  function Frontiers(docs: seq<Document>): seq<set<string>> {
    seq(|docs|, i requires 0 <= i < |docs| => docs[i].frontier)
  }

  /** Passed revisions never change the topology, and their frontiers are a history of it. */
  lemma {:induction false} RevisionsAreHistory(docs: seq<Document>)
    requires PassedRevisions(docs)
    ensures forall i :: 0 <= i < |docs| ==> docs[i].topology == docs[0].topology && ValidDocument(docs[i])
    ensures IsHistory(docs[0].topology, Frontiers(docs))
  {
    var n := |docs| - 1;
    if n > 0 {
      assert PassedRevisions(docs[..n]) by {
        assert forall i :: 0 <= i < n ==> docs[..n][i] == docs[i];
      }
      RevisionsAreHistory(docs[..n]);
      assert forall i :: 0 <= i < n ==> docs[..n][i] == docs[i];
      assert ValidateBaselineTransition(docs[n - 1 + 1], Some(docs[n - 1])) == Pass;
      forall i | 0 <= i < |docs| ensures docs[i].topology == docs[0].topology && ValidDocument(docs[i]) {
        if i < n { assert docs[..n][i] == docs[i]; }
      }
    }
  }

  /** The gate has passed these revisions of topology `t`. */
  ghost predicate PassedOver(t: Topology, docs: seq<Document>) {
    PassedRevisions(docs) && docs[0].topology == t
  }

  function Revisions(t: Topology, fs: seq<set<string>>): seq<Document> {
    seq(|fs|, i requires 0 <= i < |fs| => Document(t, fs[i]))
  }

  /** Conversely, every history of a valid topology is one of passed revisions. */
  lemma HistoryIsRevisions(t: Topology, fs: seq<set<string>>)
    requires ValidTopology(t) && t != map[] && IsHistory(t, fs)
    ensures PassedOver(t, Revisions(t, fs)) && Frontiers(Revisions(t, fs)) == fs
  {
    var docs := Revisions(t, fs);
    forall i | 0 <= i < |docs| - 1 ensures ValidateBaselineTransition(docs[i + 1], Some(docs[i])) == Pass {
      assert TransitionAccepted(t, fs[i], fs[i + 1]);
    }
  }

  // ---------------------------------------------------------------- names

  /** No slice carries a group's name. */
  predicate GroupsAreNoSlices(t: Topology) {
    forall g, x :: g in t && x in t[g] ==> x !in t
  }

  /** No slice carries a group's name, and no slice is declared under two groups. */
  predicate NamesApart(t: Topology) {
    && GroupsAreNoSlices(t)
    && forall g, h, x :: g in t && h in t && x in t[g] && x in t[h] ==> g == h
  }

  /** The frontier holds a group together with one of its own slices. */
  predicate Overlaps(t: Topology, f: set<string>) {
    exists g, x :: g in t && g in f && x in t[g] && x in f
  }

  /** A leaf is there, is gone later, and is there again. */
  ghost predicate LeafReturns(fs: seq<set<string>>) {
    exists x, i, j, k :: 0 <= i < j < k < |fs| && x in fs[i] && x !in fs[j] && x in fs[k]
  }

  /** What an accepted transition does to single leaves. */
  lemma TransitionLeaves(t: Topology, f: set<string>, f': set<string>) returns (parent: Option<string>)
    requires TransitionAccepted(t, f, f')
    ensures parent.None? ==> f' <= f
    ensures parent.Some? ==> parent.value in t && parent.value in f && f' == (f - {parent.value}) + t[parent.value]
                             && t[parent.value] !! f
  {
    if f' - f == {} {
      forall x | x in f' ensures x in f {
        assert x !in f' - f;
      }
      parent := None;
    } else {
      var p :| p in t && f - f' == {p} && t[p] != {} && t[p] == f' - f;
      assert p in f - f';
      forall x ensures x in f' <==> x in (f - {p}) + t[p] {
        assert x in f && x !in f' <==> x in f - f';
        assert x in f' && x !in f <==> x in f' - f;
      }
      parent := Some(p);
    }
  }

  lemma StepKeepsApart(t: Topology, f: set<string>, f': set<string>)
    requires NamesApart(t) && TransitionAccepted(t, f, f') && !Overlaps(t, f)
    ensures !Overlaps(t, f')
    ensures forall g :: g in t && g !in f ==> g !in f'
    ensures forall x :: x !in f && (forall g :: g in t && x in t[g] ==> g !in f) ==> x !in f'
  {
    var parent := TransitionLeaves(t, f, f');
  }

  lemma {:induction false} NeverOverlaps(t: Topology, fs: seq<set<string>>, n: nat)
    requires NamesApart(t) && IsHistory(t, fs) && n < |fs|
    ensures !Overlaps(t, fs[n])
  {
    if n > 0 {
      NeverOverlaps(t, fs, n - 1);
      assert TransitionAccepted(t, fs[n - 1], fs[n - 1 + 1]);
      StepKeepsApart(t, fs[n - 1], fs[n]);
    }
  }

  /** A leaf that is out stays out if it is a group, or a slice of a group that is out. */
  lemma {:induction false} GoneStaysGone(t: Topology, fs: seq<set<string>>, x: string, m: nat, n: nat)
    requires NamesApart(t) && IsHistory(t, fs) && m <= n < |fs| && x !in fs[m]
    requires x in t || forall g :: g in t && x in t[g] ==> g !in fs[m]
    ensures x !in fs[n] && forall g :: g in t && x in t[g] ==> (x in t || g !in fs[n])
    decreases n
  {
    if m < n {
      GoneStaysGone(t, fs, x, m, n - 1);
      NeverOverlaps(t, fs, n - 1);
      assert TransitionAccepted(t, fs[n - 1], fs[n - 1 + 1]);
      StepKeepsApart(t, fs[n - 1], fs[n]);
    }
  }

  lemma NoLeafReturns(t: Topology, fs: seq<set<string>>)
    requires NamesApart(t) && IsHistory(t, fs)
    ensures !LeafReturns(fs)
  {
    forall x, i, j, k | 0 <= i < j < k < |fs| && x in fs[i] && x !in fs[j]
      ensures x !in fs[k]
    {
      NeverOverlaps(t, fs, i);
      forall g | g in t && x in t[g] ensures g !in fs[j] {
        GoneStaysGone(t, fs, g, i, j);
      }
      GoneStaysGone(t, fs, x, j, k);
    }
  }

  // ---------------------------------------------------------------- exactly when this holds

  lemma HistoryOf3(t: Topology, b: set<string>, c: set<string>)
    requires b <= AllLeaves(t) && c <= AllLeaves(t)
    requires TransitionAccepted(t, t.Keys, b) && TransitionAccepted(t, b, c)
    ensures IsHistory(t, [t.Keys, b, c])
  {
    var fs := [t.Keys, b, c];
    forall i | 0 <= i < |fs| - 1 ensures TransitionAccepted(t, fs[i], fs[i + 1]) {
      if i == 0 {} else { assert i == 1; }
    }
  }

  /** Keep only some groups, then split one of them. */
  lemma ShrinkThenSplit(t: Topology, g: string, keep: set<string>)
    requires g in t && t[g] != {} && keep <= t.Keys && g !in keep && g !in t[g] && keep !! t[g]
    ensures IsHistory(t, [t.Keys, keep + {g}, keep + t[g]])
  {
    assert (keep + {g}) - (keep + t[g]) == {g};
    assert (keep + t[g]) - (keep + {g}) == t[g];
    HistoryOf3(t, keep + {g}, keep + t[g]);
  }

  lemma SliceIsNotItsGroup(t: Topology, g: string, x: string)
    requires ValidTopology(t) && g in t && x in t[g]
    ensures x != g
  {
    assert |g + "::"| == |g| + 2;
  }

  /** Without names apart, some history holds a group with one of its slices. */
  lemma ClashOverlaps(t: Topology) returns (fs: seq<set<string>>)
    requires ValidTopology(t) && !NamesApart(t)
    ensures IsHistory(t, fs) && exists n :: 0 <= n < |fs| && Overlaps(t, fs[n])
  {
    if g, x :| g in t && x in t[g] && x in t {
      fs := [t.Keys];
      assert Overlaps(t, fs[0]);
    } else {
      var g, h, x :| g in t && h in t && x in t[g] && x in t[h] && g != h;
      SliceIsNotItsGroup(t, g, x);
      ShrinkThenSplit(t, g, {h});
      fs := [t.Keys, {h} + {g}, {h} + t[g]];
      assert h in fs[2] && x in fs[2];
      assert Overlaps(t, fs[2]);
    }
  }

  /** The overlap promise holds of all passed revisions exactly if the names are apart. */
  lemma NeverOverlapsIff(t: Topology)
    requires ValidTopology(t)
    ensures NamesApart(t) <==> forall docs: seq<Document>, n :: PassedOver(t, docs) && 0 <= n < |docs| ==>
                                 !Overlaps(t, docs[n].frontier)
  {
    if NamesApart(t) {
      forall docs: seq<Document>, n | PassedOver(t, docs) && 0 <= n < |docs|
        ensures !Overlaps(t, docs[n].frontier)
      {
        RevisionsAreHistory(docs);
        NeverOverlaps(t, Frontiers(docs), n);
      }
    } else {
      var fs := ClashOverlaps(t);
      HistoryIsRevisions(t, fs);
      var n :| 0 <= n < |fs| && Overlaps(t, fs[n]);
      assert Overlaps(t, Revisions(t, fs)[n].frontier);
    }
  }

  /** Without names apart, some leaf is removed and comes back. */
  lemma ClashReturns(t: Topology) returns (fs: seq<set<string>>)
    requires ValidTopology(t) && !NamesApart(t)
    ensures IsHistory(t, fs) && LeafReturns(fs)
  {
    if g, x :| g in t && x in t[g] && x in t {
      SliceIsNotItsGroup(t, g, x);
      assert g !in t[g] by { if g in t[g] { SliceIsNotItsGroup(t, g, g); } }
      ShrinkThenSplit(t, g, {});
      fs := [t.Keys, {} + {g}, {} + t[g]];
      assert x in fs[0] && x !in fs[1] && x in fs[2];
    } else {
      var g, h, x :| g in t && h in t && x in t[g] && x in t[h] && g != h;
      ShrinkThenSplit(t, g, {h});
      var split := {h} + t[g];
      fs := [t.Keys, {h} + {g}, split, {h}, t[h]];
      assert {h} - t[h] == {h} && t[h] - {h} == t[h];
      forall i | 0 <= i < |fs| - 1 ensures TransitionAccepted(t, fs[i], fs[i + 1]) {
        assert i < 2 ==> TransitionAccepted(t, [t.Keys, {h} + {g}, split][i], [t.Keys, {h} + {g}, split][i + 1]);
        if i == 2 { assert fs[3] - fs[2] == {}; }
        if i == 3 { assert IsDocumentedSplit(t, fs[3], fs[4]); }
      }
      assert x in fs[2] && x !in fs[3] && x in fs[4];
    }
  }

  /** The promise that a removed leaf never returns holds of all passed revisions exactly if the
      names are apart. */
  lemma NoLeafReturnsIff(t: Topology)
    requires ValidTopology(t)
    ensures NamesApart(t) <==> forall docs :: PassedOver(t, docs) ==> !LeafReturns(Frontiers(docs))
  {
    if NamesApart(t) {
      forall docs | PassedOver(t, docs) ensures !LeafReturns(Frontiers(docs)) {
        RevisionsAreHistory(docs);
        NoLeafReturns(t, Frontiers(docs));
      }
    } else {
      var fs := ClashReturns(t);
      HistoryIsRevisions(t, fs);
      assert LeafReturns(Frontiers(Revisions(t, fs)));
    }
  }

  /** That no slice is a group is not enough: here "a::b::c" is declared under "a" and "a::b", and
      the gate passes revisions in which it is removed and comes back. */
  lemma SharedSliceReturns()
    ensures var t: Topology := map["a" := {"a::b::c"}, "a::b" := {"a::b::c"}];
            && ValidTopology(t) && GroupsAreNoSlices(t) && !NamesApart(t)
            && exists docs :: PassedOver(t, docs) && LeafReturns(Frontiers(docs))
  {
    var t: Topology := map["a" := {"a::b::c"}, "a::b" := {"a::b::c"}];
    assert |"a"| == 1 && |"a::b"| == 4 && |"a::b::c"| == 7;
    assert "a" + "::" == "a::" && "a::b" + "::" == "a::b::";
    assert "a::" <= "a::b::c" && "a::b::" <= "a::b::c";
    assert "a::b::c" in t["a"] && "a::b::c" in t["a::b"];
    NoLeafReturnsIff(t);
  }

  // ---------------------------------------------------------------- how long a migration can take

  ghost function Changes(fs: seq<set<string>>): nat {
    if |fs| < 2 then 0
    else Changes(fs[..|fs| - 1]) + if fs[|fs| - 1] != fs[|fs| - 2] then 1 else 0
  }

  /** One for each of the groups and one for each of its slices. */
  ghost function Declared(t: Topology, groups: set<string>): nat
    requires groups <= t.Keys
  {
    if groups == {} then 0
    else var g :| g in groups; 1 + |t[g]| + Declared(t, groups - {g})
  }

  lemma {:induction false} DeclaredWithout(t: Topology, groups: set<string>, g: string)
    requires groups <= t.Keys && g in groups
    ensures Declared(t, groups) == 1 + |t[g]| + Declared(t, groups - {g})
    decreases |groups|
  {
    var h :| h in groups && Declared(t, groups) == 1 + |t[h]| + Declared(t, groups - {h});
    if h != g {
      DeclaredWithout(t, groups - {h}, g);
      DeclaredWithout(t, groups - {g}, h);
      assert groups - {h} - {g} == groups - {g} - {h};
    }
  }

  lemma {:induction false} FewerAreDeclared(t: Topology, fewer: set<string>, groups: set<string>)
    requires fewer <= groups <= t.Keys
    ensures Declared(t, fewer) <= Declared(t, groups)
    ensures fewer != groups ==> Declared(t, fewer) < Declared(t, groups)
    decreases |groups|
  {
    if fewer != groups {
      var g :| g in groups && g !in fewer;
      DeclaredWithout(t, groups, g);
      FewerAreDeclared(t, fewer, groups - {g});
    }
  }

  lemma SubsetIsNotLarger<T>(a: set<T>, b: set<T>)
    requires a <= b
    ensures |a| <= |b|
    ensures a != b ==> |a| < |b|
  {
    assert b == a + (b - a);
  }

  /** What is left to do: the pending groups with their slices, and the pending slices. */
  ghost function Ahead(t: Topology, f: set<string>): nat {
    Declared(t, f * t.Keys) + |f - t.Keys|
  }

  lemma PartsShrink<T>(f: set<T>, f': set<T>, keys: set<T>)
    requires f' < f
    ensures f' * keys <= f * keys && f' - keys <= f - keys
    ensures f' * keys != f * keys || f' - keys != f - keys
  {
    var x :| x in f && x !in f';
    if x in keys {
      assert x in f * keys && x !in f' * keys;
    } else {
      assert x in f - keys && x !in f' - keys;
    }
  }

  lemma ShrinkConsumes(t: Topology, f: set<string>, f': set<string>)
    requires f' < f
    ensures Ahead(t, f') < Ahead(t, f)
  {
    PartsShrink(f, f', t.Keys);
    FewerAreDeclared(t, f' * t.Keys, f * t.Keys);
    SubsetIsNotLarger(f' - t.Keys, f - t.Keys);
  }

  lemma SplitConsumes(t: Topology, f: set<string>, parent: string)
    requires parent in t && parent in f && t[parent] !! f && t[parent] !! t.Keys
    ensures Ahead(t, (f - {parent}) + t[parent]) == Ahead(t, f) - 1
  {
    var f' := (f - {parent}) + t[parent];
    DeclaredWithout(t, f * t.Keys, parent);
    assert f' * t.Keys == f * t.Keys - {parent};
    assert f' - t.Keys == (f - t.Keys) + t[parent];
  }

  lemma ChangeConsumes(t: Topology, f: set<string>, f': set<string>)
    requires GroupsAreNoSlices(t) && TransitionAccepted(t, f, f') && f != f'
    ensures Ahead(t, f') < Ahead(t, f)
  {
    var parent := TransitionLeaves(t, f, f');
    if parent.None? {
      ShrinkConsumes(t, f, f');
    } else {
      SplitConsumes(t, f, parent.value);
    }
  }

  lemma EarlierHistory(t: Topology, fs: seq<set<string>>, n: nat)
    requires IsHistory(t, fs) && 0 < n <= |fs|
    ensures IsHistory(t, fs[..n]) && fs[..n][n - 1] == fs[n - 1]
  {
    forall i | 0 <= i < n - 1 ensures TransitionAccepted(t, fs[..n][i], fs[..n][i + 1]) {
      assert TransitionAccepted(t, fs[i], fs[i + 1]);
    }
  }

  lemma {:induction false} ChangesAreBounded(t: Topology, fs: seq<set<string>>)
    requires GroupsAreNoSlices(t) && IsHistory(t, fs)
    ensures Changes(fs) + Ahead(t, fs[|fs| - 1]) <= Declared(t, t.Keys)
    decreases |fs|
  {
    var n := |fs| - 1;
    if n == 0 {
      assert t.Keys * t.Keys == t.Keys && t.Keys - t.Keys == {};
    } else {
      EarlierHistory(t, fs, n);
      ChangesAreBounded(t, fs[..n]);
      assert TransitionAccepted(t, fs[n - 1], fs[n - 1 + 1]);
      if fs[n] != fs[n - 1] {
        ChangeConsumes(t, fs[n - 1], fs[n]);
      }
    }
  }

  /** Every passed sequence of revisions has at most as many real changes as there are declared
      groups and slices. */
  lemma MigrationIsBounded(docs: seq<Document>)
    requires PassedRevisions(docs) && GroupsAreNoSlices(docs[0].topology)
    ensures Changes(Frontiers(docs)) <= Declared(docs[0].topology, docs[0].topology.Keys)
  {
    RevisionsAreHistory(docs);
    ChangesAreBounded(docs[0].topology, Frontiers(docs));
  }

  // ---------------------------------------------------------------- the source scan

  /** A concrete-App handler, by the file that defines it and its path in the code. */
  datatype Handler = Handler(file: string, path: string)

  datatype Slice = Slice(name: string, scope: set<string>)

  datatype Group = Group(name: string, scope: set<string>, slices: seq<Slice>)

  datatype Finding = StaleEntry(name: string) | PartialSplit(group: string) | StaleRemoval(handler: Handler)

  function HandlersIn(source: set<Handler>, scope: set<string>): set<Handler> {
    set h | h in source && h.file in scope
  }

  function SliceNames(g: Group): set<string> {
    set i | 0 <= i < |g.slices| :: g.slices[i].name
  }

  function StaleSlices(g: Group, source: set<Handler>): set<Finding> {
    set i | 0 <= i < |g.slices| && HandlersIn(source, g.slices[i].scope) == {} :: StaleEntry(g.slices[i].name)
  }

  function StaleHandlers(handlers: set<Handler>, retained: set<string>): set<Finding> {
    set h | h in handlers && h.path !in retained :: StaleRemoval(h)
  }

  /** `check_source_frontier` for one group; `retained` are the host helpers that may stay. */
  function CheckGroup(g: Group, frontier: set<string>, source: set<Handler>, retained: set<string>): set<Finding> {
    var handlers := HandlersIn(source, g.scope);
    if g.name in frontier then
      if handlers == {} then {StaleEntry(g.name)} else {}
    else if handlers == {} then {}
    else if g.slices != [] && SliceNames(g) <= frontier then
      StaleSlices(g, source)
    else if g.slices != [] && SliceNames(g) * frontier != {} then {PartialSplit(g.name)}
    else StaleHandlers(handlers, retained)
  }

  /** What the scan asks of a group that is pending, of one that is split, and of one that is done. */
  predicate GroupIsClean(g: Group, frontier: set<string>, source: set<Handler>, retained: set<string>) {
    var left := exists h :: h in source && h.file in g.scope;
    var split := g.slices != [] && forall i :: 0 <= i < |g.slices| ==> g.slices[i].name in frontier;
    if g.name in frontier then left
    else if !left then true
    else if split then forall i :: 0 <= i < |g.slices| ==> exists h :: h in source && h.file in g.slices[i].scope
    else
      && (forall i :: 0 <= i < |g.slices| ==> g.slices[i].name !in frontier)
      && forall h :: h in source && h.file in g.scope ==> h.path in retained
  }

  lemma HandlersLeft(source: set<Handler>, scope: set<string>)
    ensures HandlersIn(source, scope) == {} <==> !exists h :: h in source && h.file in scope
  {
    if h :| h in source && h.file in scope {
      assert h in HandlersIn(source, scope);
    }
  }

  lemma NamesInFrontier(g: Group, frontier: set<string>)
    ensures SliceNames(g) <= frontier <==> forall i :: 0 <= i < |g.slices| ==> g.slices[i].name in frontier
    ensures SliceNames(g) * frontier == {} <==> forall i :: 0 <= i < |g.slices| ==> g.slices[i].name !in frontier
  {
    forall i | 0 <= i < |g.slices| ensures g.slices[i].name in SliceNames(g) {}
    if x :| x in SliceNames(g) * frontier {
      var i :| 0 <= i < |g.slices| && g.slices[i].name == x;
    }
    if i :| 0 <= i < |g.slices| && g.slices[i].name in frontier {
      assert g.slices[i].name in SliceNames(g) * frontier;
    }
  }

  /** The scan finds nothing for a group exactly if it is clean. */
  lemma NothingFoundIff(g: Group, frontier: set<string>, source: set<Handler>, retained: set<string>)
    ensures CheckGroup(g, frontier, source, retained) == {} <==> GroupIsClean(g, frontier, source, retained)
  {
    var handlers := HandlersIn(source, g.scope);
    HandlersLeft(source, g.scope);
    NamesInFrontier(g, frontier);
    forall i | 0 <= i < |g.slices|
      ensures HandlersIn(source, g.slices[i].scope) == {} <==> !exists h :: h in source && h.file in g.slices[i].scope
    {
      HandlersLeft(source, g.slices[i].scope);
    }
    if g.name !in frontier && handlers != {} && g.slices != [] && SliceNames(g) <= frontier {
      NoStaleSlices(g, source);
    } else if g.name !in frontier && handlers != {} {
      NoStaleHandlers(handlers, retained);
    }
  }

  lemma NoStaleSlices(g: Group, source: set<Handler>)
    ensures StaleSlices(g, source) == {}
       <==> forall i :: 0 <= i < |g.slices| ==> HandlersIn(source, g.slices[i].scope) != {}
  {
    if i :| 0 <= i < |g.slices| && HandlersIn(source, g.slices[i].scope) == {} {
      assert StaleEntry(g.slices[i].name) in StaleSlices(g, source);
    }
  }

  lemma NoStaleHandlers(handlers: set<Handler>, retained: set<string>)
    ensures StaleHandlers(handlers, retained) == {} <==> forall h :: h in handlers ==> h.path in retained
  {
    if h :| h in handlers && h.path !in retained {
      assert StaleRemoval(h) in StaleHandlers(handlers, retained);
    }
  }

  /** The documented rule for a split group: every handler of the group is in a slice's scope. */
  ghost predicate HandlersAreSliced(g: Group, source: set<Handler>) {
    forall h :: h in HandlersIn(source, g.scope) ==> InSomeSlice(g, h.file)
  }

  ghost predicate InSomeSlice(g: Group, file: string) {
    exists i :: 0 <= i < |g.slices| && file in g.slices[i].scope
  }

  /** The scan guarantees the documented rule of a split group exactly if the slices' scopes
      together cover the group's scope; nothing else in the scan enforces it. */
  lemma SplitRuleIff(g: Group, frontier: set<string>, retained: set<string>)
    requires g.name !in frontier && g.slices != [] && SliceNames(g) <= frontier
    requires forall i :: 0 <= i < |g.slices| ==> g.slices[i].scope != {}
    ensures (forall source :: CheckGroup(g, frontier, source, retained) == {} ==> HandlersAreSliced(g, source))
       <==> forall file :: file in g.scope ==> InSomeSlice(g, file)
  {
    if file :| file in g.scope && !InSomeSlice(g, file) {
      var files := {file} + set i, f | 0 <= i < |g.slices| && f in g.slices[i].scope :: f;
      var source := set f | f in files :: Handler(f, "run");
      assert Handler(file, "run") in HandlersIn(source, g.scope);
      forall i | 0 <= i < |g.slices| ensures HandlersIn(source, g.slices[i].scope) != {} {
        var f :| f in g.slices[i].scope;
        assert f in files && Handler(f, "run") in HandlersIn(source, g.slices[i].scope);
      }
      assert CheckGroup(g, frontier, source, retained) == {};
      assert !HandlersAreSliced(g, source);
    } else {
      forall source ensures HandlersAreSliced(g, source) {
        forall h | h in HandlersIn(source, g.scope) ensures InSomeSlice(g, h.file) {}
      }
    }
  }
}
