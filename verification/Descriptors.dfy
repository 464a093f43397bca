// The provider tables that the configuration crate generates at build time: the order checks, the
// alias selectors and the completion rosters. A refusal of the build is None.

module Descriptors {
  import opened Common

  // ----- orders -----

  // A row with its place in a table.
  datatype Placed<+T> = Placed(order: nat, row: T)

  function Orders<T>(items: seq<Placed<T>>): set<nat> {
    if items == [] then {} else Orders(items[..|items| - 1]) + {items[|items| - 1].order}
  }

  function Range(n: nat): (r: set<nat>)
    ensures forall k: nat :: k in r <==> k < n
  {
    if n == 0 then {} else Range(n - 1) + {n - 1}
  }

  // Every place from 0 to n - 1 is taken, n being the number of rows.
  ghost predicate Contiguous<T>(items: seq<Placed<T>>) {
    Orders(items) == Range(|items|)
  }

  lemma {:induction false} OrderIsIn<T>(items: seq<Placed<T>>, i: nat)
    requires i < |items|
    ensures items[i].order in Orders(items)
  {
    if i < |items| - 1 {
      OrderIsIn(items[..|items| - 1], i);
    }
  }

  lemma {:induction false} OrderIsOf<T>(items: seq<Placed<T>>, k: nat) returns (i: nat)
    requires k in Orders(items)
    ensures i < |items| && items[i].order == k
  {
    var n := |items| - 1;
    if items[n].order == k {
      i := n;
    } else {
      i := OrderIsOf(items[..n], k);
    }
  }

  lemma {:induction false} OrdersAreFew<T>(items: seq<Placed<T>>)
    ensures |Orders(items)| <= |items|
  {
    if items != [] {
      OrdersAreFew(items[..|items| - 1]);
    }
  }

  lemma {:induction false} RangeSize(n: nat)
    ensures |Range(n)| == n
  {
    if n == 0 {
      assert Range(0) == {};
    } else {
      RangeSize(n - 1);
      assert Range(n) == Range(n - 1) + {n - 1};
    }
  }

  lemma {:induction false} OrdersJoin<T>(a: seq<Placed<T>>, b: seq<Placed<T>>)
    ensures Orders(a + b) == Orders(a) + Orders(b)
    decreases |b|
  {
    if b == [] {
      assert a + b == a;
    } else {
      OrdersJoin(a, b[..|b| - 1]);
      assert (a + b)[..|a + b| - 1] == a + b[..|b| - 1];
    }
  }

  lemma OrdersAround<T>(a: seq<Placed<T>>, x: Placed<T>, b: seq<Placed<T>>)
    ensures Orders((a + [x]) + b) == Orders(a + b) + {x.order}
  {
    OrdersJoin(a + [x], b);
    OrdersJoin(a, [x]);
    OrdersJoin(a, b);
    assert Orders([x]) == {x.order};
  }

  // A contiguous table is a bijection: no two rows share a place.
  lemma ContiguousIsInjective<T>(items: seq<Placed<T>>, i: nat, j: nat)
    requires Contiguous(items) && i < j < |items|
    ensures items[i].order != items[j].order
  {
    var rest, order := items[..j] + items[j + 1..], items[j].order;
    assert items == (items[..j] + [items[j]]) + items[j + 1..];
    OrdersAround(items[..j], items[j], items[j + 1..]);
    OrdersAreFew(rest);
    RangeSize(|items|);
    assert order in Orders(rest) ==> Orders(rest) + {order} == Orders(rest);
    assert rest[i] == items[i];
    OrderIsIn(rest, i);
  }

  // ----- the stable sort -----

  function Insert<T>(sorted: seq<Placed<T>>, x: Placed<T>): (r: seq<Placed<T>>)
    ensures |r| == |sorted| + 1
  {
    var n := |sorted| - 1;
    if n < 0 || sorted[n].order <= x.order then sorted + [x] else Insert(sorted[..n], x) + [sorted[n]]
  }

  function Sort<T>(items: seq<Placed<T>>): (r: seq<Placed<T>>)
    ensures |r| == |items|
  {
    if items == [] then [] else Insert(Sort(items[..|items| - 1]), items[|items| - 1])
  }

  ghost predicate Ascending<T>(items: seq<Placed<T>>) {
    forall i, j :: 0 <= i < j < |items| ==> items[i].order <= items[j].order
  }

  lemma {:induction false} InsertKeepsElements<T>(sorted: seq<Placed<T>>, x: Placed<T>)
    ensures multiset(Insert(sorted, x)) == multiset(sorted) + multiset{x}
  {
    var n := |sorted| - 1;
    if n >= 0 && sorted[n].order > x.order {
      InsertKeepsElements(sorted[..n], x);
      assert sorted == sorted[..n] + [sorted[n]];
    }
  }

  lemma {:induction false} InsertAddsOrder<T>(sorted: seq<Placed<T>>, x: Placed<T>)
    ensures Orders(Insert(sorted, x)) == Orders(sorted) + {x.order}
  {
    var n := |sorted| - 1;
    if n < 0 || sorted[n].order <= x.order {
      OrdersJoin(sorted, [x]);
    } else {
      InsertAddsOrder(sorted[..n], x);
      OrdersJoin(Insert(sorted[..n], x), [sorted[n]]);
    }
  }

  ghost predicate AllUpTo<T>(items: seq<Placed<T>>, most: nat) {
    forall i :: 0 <= i < |items| ==> items[i].order <= most
  }

  lemma {:induction false} InsertKeepsAscending<T>(sorted: seq<Placed<T>>, x: Placed<T>, most: nat)
    requires Ascending(sorted) && AllUpTo(sorted, most) && x.order <= most
    ensures Ascending(Insert(sorted, x)) && AllUpTo(Insert(sorted, x), most)
  {
    var n := |sorted| - 1;
    if n >= 0 && sorted[n].order > x.order {
      InsertKeepsAscending(sorted[..n], x, sorted[n].order);
    }
  }

  lemma {:induction false} SortIsAscending<T>(items: seq<Placed<T>>, most: nat)
    requires AllUpTo(items, most)
    ensures Ascending(Sort(items)) && AllUpTo(Sort(items), most) && Orders(Sort(items)) == Orders(items)
    decreases |items|
  {
    if items != [] {
      var n := |items| - 1;
      SortIsAscending(items[..n], most);
      InsertKeepsAscending(Sort(items[..n]), items[n], most);
      InsertAddsOrder(Sort(items[..n]), items[n]);
    }
  }

  lemma {:induction false} SortKeepsElements<T>(items: seq<Placed<T>>)
    ensures multiset(Sort(items)) == multiset(items)
    decreases |items|
  {
    if items != [] {
      var n := |items| - 1;
      SortKeepsElements(items[..n]);
      InsertKeepsElements(Sort(items[..n]), items[n]);
      assert items == items[..n] + [items[n]];
    }
  }

  lemma {:induction false} OrdersHaveAMost<T>(items: seq<Placed<T>>) returns (most: nat)
    ensures AllUpTo(items, most)
  {
    most := 0;
    if items != [] {
      var n := |items| - 1;
      most := OrdersHaveAMost(items[..n]);
      most := if most < items[n].order then items[n].order else most;
      assert forall i :: 0 <= i < n ==> items[..n][i] == items[i];
    }
  }

  lemma RestIsRange(rest: set<nat>, n: nat)
    requires rest + {n} == Range(n + 1) && |rest| <= n
    ensures rest == Range(n)
  {
    RangeSize(n + 1);
    assert n in rest ==> rest == rest + {n};
    assert rest == Range(n + 1) - {n};
  }

  // Sorted rows whose orders are 0 to n - 1 stand at their orders.
  lemma {:induction false} SortedContiguous<T>(sorted: seq<Placed<T>>, i: nat)
    requires Ascending(sorted) && Contiguous(sorted) && i < |sorted|
    ensures sorted[i].order == i
    decreases |sorted|
  {
    var n := |sorted| - 1;
    TopIsLast(sorted);
    OrdersAreFew(sorted[..n]);
    RestIsRange(Orders(sorted[..n]), n);
    if i < n {
      SortedContiguous(sorted[..n], i);
    }
  }

  lemma TopIsLast<T>(sorted: seq<Placed<T>>)
    requires Ascending(sorted) && Contiguous(sorted) && sorted != []
    ensures sorted[|sorted| - 1].order == |sorted| - 1
  {
    var n := |sorted| - 1;
    var k := OrderIsOf(sorted, n);
    OrderIsIn(sorted, n);
  }

  lemma {:induction false} StandingContiguous<T>(sorted: seq<Placed<T>>)
    requires forall i :: 0 <= i < |sorted| ==> sorted[i].order == i
    ensures Contiguous(sorted)
  {
    if sorted == [] {
      assert Range(0) == {};
    } else {
      StandingContiguous(sorted[..|sorted| - 1]);
      assert Range(|sorted|) == Range(|sorted| - 1) + {|sorted| - 1};
    }
  }

  ghost predicate Standing<T>(sorted: seq<Placed<T>>) {
    forall i :: 0 <= i < |sorted| ==> sorted[i].order == i
  }

  // The sorted rows stand at their orders exactly when the orders are 0 to n - 1.
  lemma StandingIff<T>(items: seq<Placed<T>>)
    ensures Standing(Sort(items)) <==> Contiguous(items)
  {
    var most := OrdersHaveAMost(items);
    SortIsAscending(items, most);
    if Contiguous(items) {
      forall i | 0 <= i < |items|
        ensures Sort(items)[i].order == i
      {
        SortedContiguous(Sort(items), i);
      }
    } else if Standing(Sort(items)) {
      StandingContiguous(Sort(items));
    }
  }

  lemma StandsAt<T>(sorted: seq<Placed<T>>, items: seq<Placed<T>>, k: nat)
    requires Standing(sorted) && multiset(sorted) == multiset(items) && k < |items|
    ensures items[k].order < |sorted| && sorted[items[k].order] == items[k]
  {
    assert items[k] in multiset(items);
    assert items[k] in sorted;
  }

  lemma RowStands<T>(items: seq<Placed<T>>, k: nat)
    requires Standing(Sort(items)) && k < |items|
    ensures items[k].order < |items| && Sort(items)[items[k].order] == items[k]
  {
    SortKeepsElements(items);
    StandsAt(Sort(items), items, k);
  }

  // Sort the rows by their orders and refuse unless every row stands at its order.
  method InOrder<T>(items: seq<Placed<T>>) returns (table: Option<seq<T>>)
    ensures table.Some? <==> Contiguous(items)
    ensures table.Some? ==> |table.value| == |items|
    ensures table.Some? ==> forall i :: 0 <= i < |items| ==>
      items[i].order < |items| && table.value[items[i].order] == items[i].row
  {
    var sorted := Sort(items);
    StandingIff(items);
    var i := 0;
    while i < |sorted|
      invariant 0 <= i <= |sorted|
      invariant forall k :: 0 <= k < i ==> sorted[k].order == k
    {
      if sorted[i].order != i {
        return None;
      }
      i := i + 1;
    }
    forall k | 0 <= k < |items|
      ensures items[k].order < |items| && sorted[items[k].order] == items[k]
    {
      RowStands(items, k);
    }
    table := Some(seq(|sorted|, k requires 0 <= k < |sorted| => sorted[k].row));
  }

  // ----- the provider rows -----

  datatype Provider = Provider(id: string, kind: string, selectable: bool, retired: bool, selectionOrder: Option<nat>)

  // What one row must meet by itself. The kind must name a Rust variant.
  predicate RowFits(p: Provider) {
    && p.id != "" && p.kind != "" && (forall i :: 0 <= i < |p.kind| ==> Alphanumeric(p.kind[i]))
    && (p.retired ==> !p.selectable)
    && (p.kind == "Antigravity" ==> p.retired)
    && p.selectable == p.selectionOrder.Some?
  }

  predicate Alphanumeric(c: char) {
    '0' <= c <= '9' || 'a' <= c <= 'z' || 'A' <= c <= 'Z'
  }

  function Selected(rows: seq<Provider>): seq<Placed<string>> {
    if rows == [] then []
    else
      var p := rows[|rows| - 1];
      Selected(rows[..|rows| - 1])
      + if p.selectable && p.selectionOrder.Some? then [Placed(p.selectionOrder.value, p.kind)] else []
  }

  predicate Distinct<T(==)>(list: seq<T>) {
    forall i, j :: 0 <= i < j < |list| ==> list[i] != list[j]
  }

  function Ids(rows: seq<Provider>): seq<string> {
    seq(|rows|, i requires 0 <= i < |rows| => rows[i].id)
  }

  function Kinds(rows: seq<Provider>): seq<string> {
    seq(|rows|, i requires 0 <= i < |rows| => rows[i].kind)
  }

  ghost predicate RowsFit(rows: seq<Provider>) {
    (forall i :: 0 <= i < |rows| ==> RowFits(rows[i])) && Distinct(Ids(rows)) && Distinct(Kinds(rows))
  }

  // The list of selectable kinds is emitted exactly when every row fits, identities are unique and
  // the selection orders are contiguous; each kind then stands at its order.
  method SelectableKinds(rows: seq<Provider>) returns (kinds: Option<seq<string>>)
    ensures kinds.Some? <==> RowsFit(rows) && Contiguous(Selected(rows))
    ensures kinds.Some? ==> |kinds.value| == |Selected(rows)|
    ensures kinds.Some? ==> forall i :: 0 <= i < |Selected(rows)| ==>
      Selected(rows)[i].order < |kinds.value| && kinds.value[Selected(rows)[i].order] == Selected(rows)[i].row
  {
    var ids, names: set<string>, selected: seq<Placed<string>> := {}, {}, [];
    var i := 0;
    while i < |rows|
      invariant 0 <= i <= |rows| && RowsFit(rows[..i]) && selected == Selected(rows[..i])
      invariant ids == IdsBefore(rows, i) && names == KindsBefore(rows, i)
    {
      var p := rows[i];
      assert rows[..i + 1][..i] == rows[..i];
      RowsFitStep(rows, i);
      NamesStep(rows, i);
      if !RowFits(p) || p.id in ids || p.kind in names {
        FitsInPrefix(rows, i + 1);
        return None;
      }
      ids, names := ids + {p.id}, names + {p.kind};
      if p.selectable {
        selected := selected + [Placed(p.selectionOrder.value, p.kind)];
      }
      i := i + 1;
    }
    assert rows[..i] == rows;
    kinds := InOrder(selected);
  }

  function IdsBefore(rows: seq<Provider>, n: nat): set<string>
    requires n <= |rows|
  {
    set k | 0 <= k < n :: rows[k].id
  }

  function KindsBefore(rows: seq<Provider>, n: nat): set<string>
    requires n <= |rows|
  {
    set k | 0 <= k < n :: rows[k].kind
  }

  lemma NamesStep(rows: seq<Provider>, i: nat)
    requires i < |rows|
    ensures IdsBefore(rows, i + 1) == IdsBefore(rows, i) + {rows[i].id}
    ensures KindsBefore(rows, i + 1) == KindsBefore(rows, i) + {rows[i].kind}
  {
  }

  lemma RowsFitStep(rows: seq<Provider>, i: nat)
    requires i < |rows| && RowsFit(rows[..i])
    ensures RowsFit(rows[..i + 1]) <==>
      RowFits(rows[i]) && rows[i].id !in IdsBefore(rows, i) && rows[i].kind !in KindsBefore(rows, i)
  {
    var before, after := rows[..i], rows[..i + 1];
    forall k | 0 <= k < i
      ensures Ids(before)[k] == Ids(after)[k] == rows[k].id && Kinds(before)[k] == Kinds(after)[k] == rows[k].kind
      ensures before[k] == after[k]
    {
    }
    assert Ids(after)[i] == rows[i].id && Kinds(after)[i] == rows[i].kind && after[i] == rows[i];
  }

  lemma FitsInPrefix(rows: seq<Provider>, n: nat)
    requires n <= |rows|
    ensures RowsFit(rows) ==> RowsFit(rows[..n])
  {
    forall k | 0 <= k < n
      ensures Ids(rows[..n])[k] == Ids(rows)[k] && Kinds(rows[..n])[k] == Kinds(rows)[k] && rows[..n][k] == rows[k]
    {
    }
  }

  // Every selectable kind is in the list that is ordered.
  lemma {:induction false} SelectedAre(rows: seq<Provider>, i: nat) returns (k: nat)
    requires i < |rows| && rows[i].selectable && rows[i].selectionOrder.Some?
    ensures k < |Selected(rows)| && Selected(rows)[k] == Placed(rows[i].selectionOrder.value, rows[i].kind)
    decreases |rows|
  {
    var n := |rows| - 1;
    if i == n {
      k := |Selected(rows[..n])|;
    } else {
      k := SelectedAre(rows[..n], i);
    }
  }

  // And only those.
  lemma {:induction false} OnlySelected(rows: seq<Provider>, k: nat) returns (i: nat)
    requires k < |Selected(rows)|
    ensures i < |rows| && rows[i].selectable && rows[i].selectionOrder.Some?
    ensures Selected(rows)[k] == Placed(rows[i].selectionOrder.value, rows[i].kind)
  {
    var n := |rows| - 1;
    if k < |Selected(rows[..n])| {
      i := OnlySelected(rows[..n], k);
    } else {
      i := n;
    }
  }

  // The released tags: the rows and the retained legacy row, in their presentation order.
  datatype Presented = Presented(id: string, tag: string)

  predicate Unique(rows: seq<Presented>) {
    && (forall i :: 0 <= i < |rows| ==> rows[i].tag != "")
    && (forall i, j :: 0 <= i < j < |rows| ==> Apart(rows[i], rows[j]))
  }

  predicate Apart(a: Presented, b: Presented) {
    a.id != b.id && a.tag != b.tag
  }

  function RowsOf(rows: seq<Placed<Presented>>): seq<Presented> {
    seq(|rows|, i requires 0 <= i < |rows| => rows[i].row)
  }

  // The table holds every row at its order.
  ghost predicate Holds<T>(table: seq<T>, rows: seq<Placed<T>>) {
    |table| == |rows| && forall i :: 0 <= i < |rows| ==> rows[i].order < |rows| && table[rows[i].order] == rows[i].row
  }

  lemma UniqueInAnyOrder(rows: seq<Placed<Presented>>, table: seq<Presented>)
    requires Contiguous(rows) && Holds(table, rows)
    ensures Unique(table) <==> Unique(RowsOf(rows))
  {
    if Unique(table) {
      forall i, j | 0 <= i < j < |rows|
        ensures Apart(rows[i].row, rows[j].row) && rows[i].row.tag != "" && rows[j].row.tag != ""
      {
        ContiguousIsInjective(rows, i, j);
        assert Apart(table[rows[i].order], table[rows[j].order]);
      }
    }
    if Unique(RowsOf(rows)) {
      forall p, q | 0 <= p < q < |table|
        ensures Apart(table[p], table[q])
      {
        var i := OrderIsOf(rows, p);
        var j := OrderIsOf(rows, q);
        assert Apart(RowsOf(rows)[i], RowsOf(rows)[j]);
      }
      forall p | 0 <= p < |table|
        ensures table[p].tag != ""
      {
        var i := OrderIsOf(rows, p);
        assert RowsOf(rows)[i].tag != "";
      }
    }
  }

  method PresentationTable(rows: seq<Placed<Presented>>) returns (table: Option<seq<Presented>>)
    ensures table.Some? <==> Contiguous(rows) && Unique(RowsOf(rows))
    ensures table.Some? ==> Holds(table.value, rows)
  {
    table := InOrder(rows);
    if table.Some? {
      UniqueInAnyOrder(rows, table.value);
      var ids, tags: set<string> := {}, {};
      var i := 0;
      while i < |table.value|
        invariant 0 <= i <= |table.value| && Unique(table.value[..i])
        invariant ids == set k | 0 <= k < i :: table.value[k].id
        invariant tags == set k | 0 <= k < i :: table.value[k].tag
      {
        var row := table.value[i];
        if row.tag == "" || row.tag in tags || row.id in ids {
          assert Unique(table.value) ==> forall k :: 0 <= k < i ==> Apart(table.value[k], row);
          return None;
        }
        ids, tags := ids + {row.id}, tags + {row.tag};
        i := i + 1;
      }
      assert table.value[..i] == table.value;
    }
  }

  // ----- aliases -----

  datatype Arm = Arm(selector: string, target: string)

  // The first arm of the generated match that fits a model.
  function Match(arms: seq<Arm>, model: string): Option<string> {
    if arms == [] then None
    else if arms[0].selector == model then Some(arms[0].target) else Match(arms[1..], model)
  }

  function ArmsOf(aliases: seq<Arm>, resolve: string -> string): seq<Arm> {
    seq(|aliases|, i requires 0 <= i < |aliases| => Arm(resolve(aliases[i].selector), resolve(aliases[i].target)))
  }

  predicate SelectorsAreUnique(arms: seq<Arm>) {
    forall i, j :: 0 <= i < j < |arms| ==> arms[i].selector != arms[j].selector
  }

  method CompileAliases(aliases: seq<Arm>, resolve: string -> string) returns (arms: Option<seq<Arm>>)
    ensures arms.Some? <==> SelectorsAreUnique(ArmsOf(aliases, resolve))
    ensures arms.Some? ==> arms.value == ArmsOf(aliases, resolve)
  {
    var selectors: set<string>, list: seq<Arm> := {}, [];
    ghost var all := ArmsOf(aliases, resolve);
    var i := 0;
    while i < |aliases|
      invariant 0 <= i <= |aliases| && list == all[..i] && SelectorsAreUnique(list)
      invariant selectors == set k | 0 <= k < i :: all[k].selector
    {
      var arm := Arm(resolve(aliases[i].selector), resolve(aliases[i].target));
      assert arm == all[i];
      if arm.selector in selectors {
        return None;
      }
      selectors, list := selectors + {arm.selector}, list + [arm];
      i := i + 1;
    }
    arms := Some(list);
  }

  lemma {:induction false} MatchFinds(arms: seq<Arm>, i: nat)
    requires i < |arms| && forall k :: 0 <= k < i ==> arms[k].selector != arms[i].selector
    ensures Match(arms, arms[i].selector) == Some(arms[i].target)
  {
    if i > 0 {
      MatchFinds(arms[1..], i - 1);
    }
  }

  // Uniqueness is what makes every alias reach its own target; the order of the arms is free.
  lemma EveryAliasIsReached(aliases: seq<Arm>, resolve: string -> string, i: nat)
    requires SelectorsAreUnique(ArmsOf(aliases, resolve)) && i < |aliases|
    ensures Match(ArmsOf(aliases, resolve), resolve(aliases[i].selector)) == Some(resolve(aliases[i].target))
  {
    MatchFinds(ArmsOf(aliases, resolve), i);
  }

  // ----- completion rosters -----

  // One entry of a roster: @group stands for all members of the group, anything else for itself.
  function Expand(entry: string, groups: map<string, seq<string>>, resolve: string -> string): Option<seq<string>> {
    if entry != "" && entry[0] == '@' then
      if entry[1..] in groups then Some(groups[entry[1..]]) else None
    else Some([resolve(entry)])
  }

  function ExpandAll(roster: seq<string>, groups: map<string, seq<string>>,
      resolve: string -> string): Option<seq<string>> {
    if roster == [] then Some([])
    else
      var before := ExpandAll(roster[..|roster| - 1], groups, resolve);
      var last := Expand(roster[|roster| - 1], groups, resolve);
      if before.Some? && last.Some? then Some(before.value + last.value) else None
  }

  // Some earlier element has the key of element i.
  predicate Repeats<T, K(==)>(list: seq<T>, key: T -> K, i: nat)
    requires i < |list|
  {
    exists j :: 0 <= j < i && key(list[j]) == key(list[i])
  }

  // The places of the elements that repeat no earlier one.
  function Picks<T, K(==)>(list: seq<T>, key: T -> K, n: nat): (picks: seq<nat>)
    requires n <= |list|
    ensures forall i :: 0 <= i < |picks| ==> picks[i] < n
  {
    if n == 0 then [] else Picks(list, key, n - 1) + if Repeats(list, key, n - 1) then [] else [n - 1]
  }

  function FirstOccurrences<T, K(==)>(list: seq<T>, key: T -> K, n: nat): seq<T>
    requires n <= |list|
  {
    var picks := Picks(list, key, n);
    seq(|picks|, i requires 0 <= i < |picks| => list[picks[i]])
  }

  predicate Rises(picks: seq<nat>) {
    forall i, j :: 0 <= i < j < |picks| ==> picks[i] < picks[j]
  }

  lemma RisesMore(picks: seq<nat>, last: nat)
    requires Rises(picks) && forall i :: 0 <= i < |picks| ==> picks[i] < last
    ensures Rises(picks + [last])
  {
  }

  lemma {:induction false} PicksRise<T, K>(list: seq<T>, key: T -> K, n: nat)
    requires n <= |list|
    ensures Rises(Picks(list, key, n))
    decreases n
  {
    if n > 0 {
      PicksRise(list, key, n - 1);
      RisesMore(Picks(list, key, n - 1), n - 1);
      assert Picks(list, key, n - 1) + [] == Picks(list, key, n - 1);
    }
  }

  lemma {:induction false} PickedIff<T, K>(list: seq<T>, key: T -> K, n: nat, j: nat)
    requires j < n <= |list|
    ensures j in Picks(list, key, n) <==> !Repeats(list, key, j)
    decreases n
  {
    if j < n - 1 {
      PickedIff(list, key, n - 1, j);
    } else {
      assert j !in Picks(list, key, n - 1);
    }
  }

  // The earliest place with the key of element j.
  lemma {:induction false} Earliest<T, K>(list: seq<T>, key: T -> K, j: nat) returns (k: nat)
    requires j < |list|
    ensures k <= j && key(list[k]) == key(list[j]) && !Repeats(list, key, k)
  {
    if Repeats(list, key, j) {
      var i :| 0 <= i < j && key(list[i]) == key(list[j]);
      k := Earliest(list, key, i);
    } else {
      k := j;
    }
  }

  predicate HasKey<T, K(==)>(list: seq<T>, key: T -> K, k: K) {
    exists i :: 0 <= i < |list| && key(list[i]) == k
  }

  // Some kept element has the key of element j.
  lemma KeyIsKept<T, K>(list: seq<T>, key: T -> K, j: nat)
    requires j < |list|
    ensures HasKey(FirstOccurrences(list, key, |list|), key, key(list[j]))
  {
    var k := Earliest(list, key, j);
    PickedIff(list, key, |list|, k);
    var i :| 0 <= i < |Picks(list, key, |list|)| && Picks(list, key, |list|)[i] == k;
    assert key(FirstOccurrences(list, key, |list|)[i]) == key(list[j]);
  }

  // What is kept is the first occurrence of each key, in the original order: no two kept elements
  // share a key, and every key of the list is kept.
  lemma FirstOccurrencesAre<T, K>(list: seq<T>, key: T -> K)
    ensures Rises(Picks(list, key, |list|))
    ensures var kept, picks := FirstOccurrences(list, key, |list|), Picks(list, key, |list|);
      forall i :: 0 <= i < |picks| ==> kept[i] == list[picks[i]] && !Repeats(list, key, picks[i])
    ensures var kept := FirstOccurrences(list, key, |list|);
      && (forall i, j :: 0 <= i < j < |kept| ==> key(kept[i]) != key(kept[j]))
      && (forall j :: 0 <= j < |list| ==> HasKey(kept, key, key(list[j])))
  {
    var kept, picks := FirstOccurrences(list, key, |list|), Picks(list, key, |list|);
    PicksRise(list, key, |list|);
    forall i | 0 <= i < |picks|
      ensures kept[i] == list[picks[i]] && !Repeats(list, key, picks[i])
    {
      assert picks[i] in picks;
      PickedIff(list, key, |list|, picks[i]);
    }
    forall i, j | 0 <= i < j < |kept|
      ensures key(kept[i]) != key(kept[j])
    {
      assert picks[i] < picks[j] && !Repeats(list, key, picks[j]);
    }
    forall j | 0 <= j < |list|
      ensures HasKey(kept, key, key(list[j]))
    {
      KeyIsKept(list, key, j);
    }
  }

  // Vec::retain with a set of the keys seen so far.
  method Retain<T, K(==)>(list: seq<T>, key: T -> K) returns (kept: seq<T>)
    ensures kept == FirstOccurrences(list, key, |list|)
  {
    var seen: set<K> := {};
    kept := [];
    var i := 0;
    while i < |list|
      invariant 0 <= i <= |list| && kept == FirstOccurrences(list, key, i)
      invariant seen == set k | 0 <= k < i :: key(list[k])
    {
      if key(list[i]) !in seen {
        assert !Repeats(list, key, i);
        kept := kept + [list[i]];
      } else {
        assert Repeats(list, key, i);
      }
      seen := seen + {key(list[i])};
      i := i + 1;
    }
  }

  // A provider of the table, or the retained legacy one.
  predicate IsKnown(provider: string, rows: seq<Provider>, legacy: string) {
    (exists i :: 0 <= i < |rows| && rows[i].id == provider) || provider == legacy
  }

  // Only the first of two providers with special rules is de-duplicated.
  function Projection(provider: string, all: seq<string>): seq<string> {
    if provider == "opencode-zen" then FirstOccurrences(all, Lower, |all|) else all
  }

  predicate MustBeEmpty(provider: string) {
    provider == "antigravity" || provider == "custom"
  }

  // The list of completion names of a provider: refused for an unknown provider, for a missing
  // group, and for a retired or custom provider that has names.
  method CompletionNames(provider: string, rows: seq<Provider>, legacy: string, roster: seq<string>,
                         groups: map<string, seq<string>>, resolve: string -> string)
    returns (names: Option<seq<string>>)
    ensures names.Some? <==>
      && IsKnown(provider, rows, legacy) && ExpandAll(roster, groups, resolve).Some?
      && (MustBeEmpty(provider) ==> Projection(provider, ExpandAll(roster, groups, resolve).value) == [])
    ensures names.Some? ==> names.value == Projection(provider, ExpandAll(roster, groups, resolve).value)
  {
    if !IsKnown(provider, rows, legacy) {
      return None;
    }
    var list: seq<string> := [];
    var i := 0;
    while i < |roster|
      invariant 0 <= i <= |roster| && ExpandAll(roster[..i], groups, resolve) == Some(list)
    {
      assert roster[..i + 1][..i] == roster[..i];
      var entry := Expand(roster[i], groups, resolve);
      if entry.None? {
        MissingGroup(roster, i + 1, groups, resolve);
        return None;
      }
      list := list + entry.value;
      i := i + 1;
    }
    assert roster[..i] == roster;
    if provider == "opencode-zen" {
      list := Retain(list, Lower);
    }
    if MustBeEmpty(provider) && list != [] {
      return None;
    }
    names := Some(list);
  }

  lemma {:induction false} MissingGroup(roster: seq<string>, n: nat, groups: map<string, seq<string>>,
      resolve: string -> string)
    requires n <= |roster| && ExpandAll(roster[..n], groups, resolve).None?
    ensures ExpandAll(roster, groups, resolve).None?
    decreases |roster|
  {
    if n == |roster| {
      assert roster[..n] == roster;
    } else {
      var prefix := roster[..|roster| - 1];
      assert prefix[..n] == roster[..n];
      MissingGroup(prefix, n, groups, resolve);
    }
  }
}
