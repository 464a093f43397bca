/**
 Graph closures in the gates: the test-only files of scripts/check-blocking-calls-budget.py and
 the forbidden packages of scripts/check-command-crate-boundaries.py. Both walk possibly cyclic
 graphs with a list of pending nodes.
 */
module Reachability {
  import opened Common

  type Graph<!T> = map<T, set<T>>

  /** `graph.get(node, [])`. */
  function Next<T(!new,==)>(g: Graph<T>, node: T): set<T> {
    if node in g then g[node] else {}
  }

  // ---------------------------------------------------------------- reachability

  ghost predicate IsPath<T(!new)>(g: Graph<T>, path: seq<T>) {
    path != [] && forall i :: 0 <= i < |path| - 1 ==> path[i + 1] in Next(g, path[i])
  }

  /** A path of any length leads from one of `seeds` to `node`. */
  ghost predicate Reachable<T(!new)>(g: Graph<T>, seeds: set<T>, node: T) {
    exists path :: IsPath(g, path) && path[0] in seeds && path[|path| - 1] == node
  }

  ghost predicate Closed<T(!new)>(g: Graph<T>, nodes: set<T>) {
    forall a, b :: a in nodes && b in Next(g, a) ==> b in nodes
  }

  lemma SeedIsReachable<T(!new)>(g: Graph<T>, seeds: set<T>, node: T)
    requires node in seeds
    ensures Reachable(g, seeds, node)
  {
    assert IsPath(g, [node]);
  }

  lemma NextIsReachable<T(!new)>(g: Graph<T>, seeds: set<T>, a: T, b: T)
    requires Reachable(g, seeds, a) && b in Next(g, a)
    ensures Reachable(g, seeds, b)
  {
    var path :| IsPath(g, path) && path[0] in seeds && path[|path| - 1] == a;
    var longer := path + [b];
    forall i | 0 <= i < |longer| - 1 ensures longer[i + 1] in Next(g, longer[i]) {
      if i < |path| - 1 { assert path[i + 1] in Next(g, path[i]); }
    }
    assert IsPath(g, longer) && longer[0] in seeds && longer[|longer| - 1] == b;
  }

  lemma {:induction false} PathStaysInside<T(!new)>(g: Graph<T>, nodes: set<T>, path: seq<T>, n: nat)
    requires IsPath(g, path) && path[0] in nodes && Closed(g, nodes) && n < |path|
    ensures path[n] in nodes
  {
    if n > 0 {
      PathStaysInside(g, nodes, path, n - 1);
      assert path[n - 1 + 1] in Next(g, path[n - 1]);
    }
  }

  /** A closed set of reachable nodes that contains the seeds is the set of reachable nodes. */
  lemma ClosedIsReachable<T(!new)>(g: Graph<T>, seeds: set<T>, nodes: set<T>)
    requires seeds <= nodes && Closed(g, nodes)
    ensures forall node :: Reachable(g, seeds, node) ==> node in nodes
  {
    forall node | Reachable(g, seeds, node) ensures node in nodes {
      var path :| IsPath(g, path) && path[0] in seeds && path[|path| - 1] == node;
      PathStaysInside(g, nodes, path, |path| - 1);
    }
  }

  // ---------------------------------------------------------------- the walk

  ghost function Members<T(!new)>(list: seq<T>): set<T> {
    set x | x in list
  }

  /** Appends the members of a set in some order, as `extend` does. */
  method Extend<T(!new,==)>(list: seq<T>, s: set<T>) returns (longer: seq<T>)
    ensures Members(longer) == Members(list) + s
    ensures s == {} ==> longer == list
  {
    longer := list;
    var rest := s;
    while rest != {}
      invariant rest <= s && Members(longer) == Members(list) + (s - rest)
      invariant s == {} ==> longer == list
      decreases rest
    {
      var x :| x in rest;
      assert Members(longer + [x]) == Members(longer) + {x};
      longer := longer + [x];
      rest := rest - {x};
    }
  }

  /** `list.pop()`. */
  method Pop<T(!new,==)>(list: seq<T>) returns (last: T, rest: seq<T>)
    requires list != []
    ensures |rest| == |list| - 1 && Members(list) == Members(rest) + {last}
  {
    last, rest := list[|list| - 1], list[..|list| - 1];
    assert list == rest + [last];
  }

  /** A finite set of nodes that no walk leaves. */
  ghost predicate Bounds<T(!new)>(g: Graph<T>, seeds: set<T>, all: set<T>) {
    seeds <= all && forall a :: Next(g, a) <= all
  }

  lemma BoundExists<T(!new)>(g: Graph<T>, seeds: set<T>) returns (all: set<T>)
    ensures Bounds(g, seeds, all)
  {
    all := seeds + set a, b | a in g && b in g[a] :: b;
  }

  /** Nodes already looked at, and nodes still to look at. */
  ghost predicate Walk<T(!new)>(g: Graph<T>, seeds: set<T>, seen: set<T>, waiting: set<T>, all: set<T>) {
    && (forall x :: x in seen || x in waiting ==> Reachable(g, seeds, x) && x in all)
    && (forall x :: x in seeds ==> x in seen || x in waiting)
    && forall a, b :: a in seen && b in Next(g, a) ==> b in seen || b in waiting
  }

  lemma WalkStarts<T(!new)>(g: Graph<T>, seeds: set<T>, all: set<T>)
    requires Bounds(g, seeds, all)
    ensures Walk(g, seeds, {}, seeds, all)
  {
    forall x | x in seeds ensures Reachable(g, seeds, x) { SeedIsReachable(g, seeds, x); }
  }

  lemma WalkGoesOn<T(!new)>(g: Graph<T>, seeds: set<T>, seen: set<T>, waiting: set<T>, all: set<T>,
                   node: T, seen': set<T>, waiting': set<T>)
    requires Bounds(g, seeds, all) && Walk(g, seeds, seen, waiting, all) && node in waiting
    requires forall x :: x in seen' <==> x in seen || x == node
    requires forall x :: x in waiting' ==> x in waiting || x in Next(g, node)
    requires forall x :: x in waiting && x != node ==> x in waiting' || x in seen'
    requires forall x :: x in Next(g, node) ==> x in waiting' || x in seen'
    ensures Walk(g, seeds, seen', waiting', all)
  {
    forall b | b in Next(g, node) ensures Reachable(g, seeds, b) && b in all {
      NextIsReachable(g, seeds, node, b);
      assert Next(g, node) <= all;
    }
  }

  lemma WalkIsOver<T(!new)>(g: Graph<T>, seeds: set<T>, seen: set<T>, all: set<T>)
    requires Walk(g, seeds, seen, {}, all)
    ensures forall node :: node in seen <==> Reachable(g, seeds, node)
  {
    ClosedIsReachable(g, seeds, seen);
  }

  /** The worklist loop: everything reachable from the seeds, on cyclic graphs too. */
  method Follow<T(!new,==)>(g: Graph<T>, seeds: set<T>) returns (found: set<T>)
    ensures forall node :: node in found <==> Reachable(g, seeds, node)
  {
    found := seeds;
    var pending := Extend([], seeds);
    ghost var all := BoundExists(g, seeds);
    ghost var done: set<T> := {};
    WalkStarts(g, seeds, all);
    assert Members(pending) == seeds;
    while pending != []
      invariant Walk(g, seeds, done, Members(pending), all)
      invariant found == done + Members(pending)
      decreases all - found, |pending|
    {
      ghost var was, before := found, Members(pending);
      var node, rest := Pop(pending);
      var added := Next(g, node) - found;
      found := found + added;
      pending := Extend(rest, added);
      FollowStep(g, seeds, done, Members(rest), all, node, was, added, Members(pending));
      done := done + {node};
    }
    WalkIsOver(g, seeds, done, all);
  }

  /** One node is taken from the list, and its targets that were not found yet are added. */
  lemma FollowStep<T(!new)>(g: Graph<T>, seeds: set<T>, done: set<T>, rest: set<T>, all: set<T>,
                            node: T, found: set<T>, added: set<T>, waiting: set<T>)
    requires Bounds(g, seeds, all) && Walk(g, seeds, done, rest + {node}, all)
    requires found == done + (rest + {node}) && added == Next(g, node) - found && waiting == rest + added
    ensures Walk(g, seeds, done + {node}, waiting, all)
    ensures found + added == (done + {node}) + waiting
    ensures all - (found + added) <= all - found
    ensures added != {} ==> all - (found + added) < all - found
  {
    assert Next(g, node) <= all;
    FoundGrows(all, found, added);
    WalkGoesOn(g, seeds, done, rest + {node}, all, node, done + {node}, waiting);
  }

  lemma FoundGrows<T(!new)>(all: set<T>, was: set<T>, added: set<T>)
    requires added !! was && added <= all
    ensures all - (was + added) <= all - was
    ensures added != {} ==> all - (was + added) < all - was
  {
    if x :| x in added {
      assert x in all - was && x !in all - (was + added);
    }
  }

  // ---------------------------------------------------------------- test-only files

  /** A module or include edge; `test` if it stands under a test configuration. */
  datatype Edge = Edge(target: string, test: bool)

  type FileGraph = map<string, seq<Edge>>

  function AllEdges(files: FileGraph): Graph<string> {
    map f | f in files :: set i | 0 <= i < |files[f]| :: files[f][i].target
  }

  function PlainEdges(files: FileGraph): Graph<string> {
    map f | f in files :: set i | 0 <= i < |files[f]| && !files[f][i].test :: files[f][i].target
  }

  /** Where test code starts: targets of guarded edges, and Cargo test roots. */
  function TestSeeds(files: FileGraph, testRoots: set<string>): set<string> {
    (set f, i | f in files && 0 <= i < |files[f]| && files[f][i].test :: files[f][i].target) + testRoots * files.Keys
  }

  ghost predicate InTestClosure(files: FileGraph, testRoots: set<string>, f: string) {
    Reachable(AllEdges(files), TestSeeds(files, testRoots), f)
  }

  /** Where production code starts: files outside the test closure, and production roots. */
  ghost function ProductionSeeds(files: FileGraph, roots: set<string>, testRoots: set<string>): set<string> {
    set f | f in files && (!InTestClosure(files, testRoots, f) || f in roots)
  }

  ghost predicate InProduction(files: FileGraph, roots: set<string>, testRoots: set<string>, f: string) {
    Reachable(PlainEdges(files), ProductionSeeds(files, roots, testRoots), f)
  }

  /** `module_file_scopes`: the exempted files, and the conflicts that stay counted. */
  method ModuleFileScopes(files: FileGraph, roots: set<string>, testRoots: set<string>)
    returns (exempt: set<string>, conflicts: set<string>)
    ensures forall f :: f in exempt <==> InTestClosure(files, testRoots, f) && !InProduction(files, roots, testRoots, f)
    ensures forall f :: f in conflicts <==>
              (InTestClosure(files, testRoots, f) && InProduction(files, roots, testRoots, f))
                  || (f in roots && f in files)
  {
    var closure := Follow(AllEdges(files), TestSeeds(files, testRoots));
    var crateRoots := roots * files.Keys;
    var seeds := (files.Keys - closure) + crateRoots;
    assert seeds == ProductionSeeds(files, roots, testRoots);
    var production := Follow(PlainEdges(files), seeds);
    exempt, conflicts := closure - production, (closure * production) + crateRoots;
  }

  /** No production root, and nothing in it is used by an unguarded edge from a file outside. */
  ghost predicate Sheltered(files: FileGraph, roots: set<string>, testRoots: set<string>, x: set<string>) {
    && (forall f :: f in x ==> InTestClosure(files, testRoots, f) && !(f in roots && f in files))
    && forall a, b :: a in files && b in Next(PlainEdges(files), a) && b in x ==> a in x
  }

  /** What the gate exempts is the greatest sheltered set: a file also used by production stays
      counted, with all that it uses, and nothing more is counted. */
  lemma ExemptIsGreatest(files: FileGraph, roots: set<string>, testRoots: set<string>, exempt: set<string>,
      x: set<string>)
    requires forall f :: f in exempt <==>
          InTestClosure(files, testRoots, f) && !InProduction(files, roots, testRoots, f)
    ensures Sheltered(files, roots, testRoots, exempt)
    ensures Sheltered(files, roots, testRoots, x) ==> x <= exempt
  {
    var g, seeds := PlainEdges(files), ProductionSeeds(files, roots, testRoots);
    forall f | f in seeds ensures InProduction(files, roots, testRoots, f) { SeedIsReachable(g, seeds, f); }
    forall a, b | a in files && b in Next(g, a) && b in exempt ensures a in exempt {
      if InProduction(files, roots, testRoots, a) { NextIsReachable(g, seeds, a, b); }
    }
    if Sheltered(files, roots, testRoots, x) {
      forall f | f in x ensures !InProduction(files, roots, testRoots, f) {
        if InProduction(files, roots, testRoots, f) {
          var path :| IsPath(g, path) && path[0] in seeds && path[|path| - 1] == f;
          PathStaysOutside(files, roots, testRoots, x, path, |path| - 1);
        }
      }
    }
  }

  lemma {:induction false} PathStaysOutside(files: FileGraph, roots: set<string>, testRoots: set<string>,
                                            x: set<string>, path: seq<string>, n: nat)
    requires Sheltered(files, roots, testRoots, x) && IsPath(PlainEdges(files), path) && n < |path|
    requires path[0] in ProductionSeeds(files, roots, testRoots)
    ensures path[n] !in x
  {
    if n > 0 {
      PathStaysOutside(files, roots, testRoots, x, path, n - 1);
      assert path[n - 1 + 1] in Next(PlainEdges(files), path[n - 1]);
    }
  }

  // ---------------------------------------------------------------- forbidden packages

  lemma WalkSkips<T(!new)>(g: Graph<T>, seeds: set<T>, seen: set<T>, rest: set<T>, all: set<T>, node: T)
    requires Walk(g, seeds, seen, rest + {node}, all) && node in seen
    ensures Walk(g, seeds, seen, rest, all)
  {}

  lemma WalkVisits<T(!new)>(g: Graph<T>, seeds: set<T>, seen: set<T>, rest: set<T>, all: set<T>, node: T)
    requires Bounds(g, seeds, all) && Walk(g, seeds, seen, rest + {node}, all) && node !in seen
    ensures Walk(g, seeds, seen + {node}, rest + Next(g, node), all)
    ensures all - (seen + {node}) < all - seen
  {
    FoundGrows(all, seen, {node});
    WalkGoesOn(g, seeds, seen, rest + {node}, all, node, seen + {node}, rest + Next(g, node));
  }

  /** `reaches`: some forbidden package that is reachable by at least one edge, if there is one. */
  method Reaches<T(!new,==)>(package: T, forbidden: set<T>, g: Graph<T>) returns (hit: Option<T>)
    ensures hit.Some? ==> hit.value in forbidden && Reachable(g, Next(g, package), hit.value)
    ensures hit.None? ==> forall p :: p in forbidden ==> !Reachable(g, Next(g, package), p)
  {
    var seen: set<T> := {};
    var seeds := Next(g, package);
    var stack := Extend([], seeds);
    ghost var all := BoundExists(g, seeds);
    WalkStarts(g, seeds, all);
    assert Members(stack) == seeds;
    while stack != []
      invariant Walk(g, seeds, seen, Members(stack), all)
      invariant seen !! forbidden
      decreases all - seen, |stack|
    {
      var name, rest := Pop(stack);
      if name in forbidden {
        return Some(name);
      }
      if name in seen {
        WalkSkips(g, seeds, seen, Members(rest), all, name);
        stack := rest;
      } else {
        stack := Extend(rest, Next(g, name));
        WalkVisits(g, seeds, seen, Members(rest), all, name);
        seen := seen + {name};
      }
    }
    WalkIsOver(g, seeds, seen, all);
    hit := None;
  }

  datatype Rule = Rule(package: string, forbidden: set<string>)

  datatype Violation = MissingPackage(package: string) | DependsOn(package: string, hit: string)

  ghost predicate RuleHolds(r: Rule, g: Graph<string>) {
    r.package in g && forall p :: p in r.forbidden ==> !Reachable(g, Next(g, r.package), p)
  }

  /** `check_dependency_graph`: no violation exactly if every rule's package is in the graph and
      reaches nothing forbidden; every reported dependency is real. */
  method CheckDependencyGraph(rules: seq<Rule>, g: Graph<string>) returns (violations: seq<Violation>)
    ensures violations == [] <==> forall i :: 0 <= i < |rules| ==> RuleHolds(rules[i], g)
    ensures forall v :: v in violations && v.DependsOn? ==> Reachable(g, Next(g, v.package), v.hit)
  {
    violations := [];
    for n := 0 to |rules|
      invariant violations == [] <==> forall i :: 0 <= i < n ==> RuleHolds(rules[i], g)
      invariant forall v :: v in violations && v.DependsOn? ==> Reachable(g, Next(g, v.package), v.hit)
    {
      var r := rules[n];
      if r.package !in g {
        violations := violations + [MissingPackage(r.package)];
      } else {
        var hit := Reaches(r.package, r.forbidden, g);
        if hit.Some? {
          violations := violations + [DependsOn(r.package, hit.value)];
        }
      }
    }
  }
}
