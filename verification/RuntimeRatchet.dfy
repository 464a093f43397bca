/** The ratchet of the runtime-contract budget: comparing a receipt with a budget, rebasing the
    budget on a receipt, and what a run of updates can and cannot change. */
module RuntimeRatchet {
  import opened Common
  import opened RuntimeBudget

  const COMMENT := NoteAt("_comment")

  // ---------------------------------------------------------------- budget from a receipt

  ghost predicate AllCounts(doc: Value) {
    forall l: Leaf :: IsMetric(l) ==> IsCount(At(doc, l))
  }

  ghost predicate AllIdentities(doc: Value) {
    forall l: Leaf :: IsIdentity(l) ==> At(doc, l).Some?
  }

  /** The budget that belongs to a receipt: its metrics and identities, and nothing else but the
      header and one comment. */
  ghost predicate IsBudgetOf(budget: Value, receipt: Value) {
    && Open(budget)
    && (forall l: Leaf :: IsMetric(l) || IsIdentity(l) ==> At(budget, l) == At(receipt, l))
    && At(budget, Kind) == Some(Text(BUDGET_KIND)) && At(budget, Version) == Some(Int(1))
    && At(budget, Fixture) == Some(Text(FIXTURE))
    && forall l: Leaf :: l.NoteAt? && l != COMMENT ==> At(budget, l) == None
  }

  function Header(): Value {
    Dict(map[Note("_comment") := Other, DocumentKind := Text(BUDGET_KIND), SchemaVersion := Int(1),
             RepresentativeContext := Dict(map[Of(FixtureId) := Text(FIXTURE)])])
  }

  lemma HeaderIsOpen()
    ensures Open(Header())
    ensures At(Header(), Kind) == Some(Text(BUDGET_KIND)) && At(Header(), Version) == Some(Int(1))
    ensures At(Header(), Fixture) == Some(Text(FIXTURE))
    ensures forall l: Leaf :: l.NoteAt? && l != COMMENT ==> At(Header(), l) == None
  {
    var inner := Header().fields[RepresentativeContext];
    GetOne(Header(), DocumentKind);
    GetOne(Header(), SchemaVersion);
    GetOne(inner, Of(FixtureId));
    assert PathOf(Fixture)[1..] == [Of(FixtureId)];
    forall l: Leaf | l.NoteAt? && l != COMMENT ensures At(Header(), l) == None {
      NotePath(Header(), l.text);
    }
    forall l: Leaf ensures Settable(Header(), PathOf(l)) {
      HeaderIsSettable(l);
    }
  }

  lemma HeaderIsSettable(l: Leaf)
    ensures Settable(Header(), PathOf(l))
  {
    var path := PathOf(l);
    if |path| > 1 && path[0] == RepresentativeContext {
      assert path[1..][0] != Of(FixtureId) || |path[1..]| == 1;
    }
  }

  /** What a loop over a list of places has copied so far. */
  ghost predicate Copied(budget: Value, receipt: Value, start: Value, list: seq<Leaf>) {
    && Open(budget)
    && forall l: Leaf :: At(budget, l) == if l in list then At(receipt, l) else At(start, l)
  }

  lemma CopyOne(budget: Value, receipt: Value, start: Value, list: seq<Leaf>, l: Leaf)
    requires Copied(budget, receipt, start, list) && At(receipt, l).Some?
    ensures Copied(Set(budget, PathOf(l), At(receipt, l).value), receipt, start, list + [l])
  {
    WriteLeaf(budget, l, At(receipt, l).value);
  }

  /** One of the two loops of `budget_from_receipt`; None where the source raises. */
  method CopyAll(start: Value, receipt: Value, list: seq<Leaf>, counts: bool) returns (budget: Option<Value>)
    requires Open(start)
    ensures budget.Some? <==> forall i :: 0 <= i < |list| ==>
              At(receipt, list[i]).Some? && (counts ==> IsCount(At(receipt, list[i])))
    ensures budget.Some? ==> Copied(budget.value, receipt, start, list)
  {
    var out := start;
    for n := 0 to |list|
      invariant Copied(out, receipt, start, list[..n])
      invariant forall i :: 0 <= i < n ==> At(receipt, list[i]).Some? && (counts ==> IsCount(At(receipt, list[i])))
    {
      var value := At(receipt, list[n]);
      if value.None? || (counts && !IsCount(value)) {
        return None;
      }
      CopyOne(out, receipt, start, list[..n], list[n]);
      assert list[..n + 1] == list[..n] + [list[n]];
      out := Set(out, PathOf(list[n]), value.value);
    }
    assert list[..|list|] == list;
    budget := Some(out);
  }

  lemma TwoCopies(budget: Value, middle: Value, receipt: Value, metrics: seq<Leaf>, identities: seq<Leaf>)
    requires Copied(middle, receipt, Header(), metrics) && Copied(budget, receipt, middle, identities)
    requires ListsMetrics(metrics) && ListsIdentities(identities)
    ensures IsBudgetOf(budget, receipt)
  {
    HeaderIsOpen();
  }

  ghost predicate ListsMetrics(list: seq<Leaf>) {
    forall l: Leaf :: l in list <==> IsMetric(l)
  }

  ghost predicate ListsIdentities(list: seq<Leaf>) {
    forall l: Leaf :: l in list <==> IsIdentity(l)
  }

  /** METRICS, with what it lists. */
  method MetricList() returns (list: seq<Leaf>)
    ensures list == Metrics() && ListsMetrics(list)
  {
    list := Metrics();
    forall l: Leaf ensures l in list <==> IsMetric(l) { MetricsAre(l); }
  }

  /** IDENTITIES, with what it lists. */
  method IdentityList() returns (list: seq<Leaf>)
    ensures list == Identities() && ListsIdentities(list)
  {
    list := Identities();
    forall l: Leaf ensures l in list <==> IsIdentity(l) { IdentitiesAre(l); }
  }

  /** `budget_from_receipt`, after the receipt has been validated. */
  method BudgetFromReceipt(receipt: Value) returns (budget: Option<Value>)
    ensures budget.Some? <==> AllCounts(receipt) && AllIdentities(receipt)
    ensures budget.Some? ==> IsBudgetOf(budget.value, receipt)
  {
    HeaderIsOpen();
    var metrics := MetricList();
    var identities := IdentityList();
    ListedCounts(receipt, metrics);
    ListedIdentities(receipt, identities);
    var middle := CopyAll(Header(), receipt, metrics, true);
    if middle.None? {
      return None;
    }
    budget := CopyAll(middle.value, receipt, identities, false);
    if budget.Some? {
      TwoCopies(budget.value, middle.value, receipt, metrics, identities);
    }
  }

  lemma ListedCounts(doc: Value, list: seq<Leaf>)
    requires ListsMetrics(list)
    ensures AllCounts(doc) <==> forall i :: 0 <= i < |list| ==> IsCount(At(doc, list[i]))
  {
    forall l: Leaf | IsMetric(l) ensures exists i :: 0 <= i < |list| && list[i] == l { assert l in list; }
    forall i | 0 <= i < |list| ensures IsMetric(list[i]) { assert list[i] in list; }
  }

  lemma ListedIdentities(doc: Value, list: seq<Leaf>)
    requires ListsIdentities(list)
    ensures AllIdentities(doc) <==> forall i :: 0 <= i < |list| ==> At(doc, list[i]).Some?
  {
    forall l: Leaf | IsIdentity(l) ensures exists i :: 0 <= i < |list| && list[i] == l { assert l in list; }
    forall i | 0 <= i < |list| ensures IsIdentity(list[i]) { assert list[i] in list; }
  }

  // ---------------------------------------------------------------- keeping the notes

  /** The rebased budget: the receipt's budget, with the notes of the previous one. */
  ghost predicate IsRebased(budget: Value, receipt: Value, previous: Value) {
    && (forall l: Leaf :: IsMetric(l) || IsIdentity(l) ==> At(budget, l) == At(receipt, l))
    && At(budget, Kind) == Some(Text(BUDGET_KIND)) && At(budget, Version) == Some(Int(1))
    && At(budget, Fixture) == Some(Text(FIXTURE))
    && forall l: Leaf :: l.NoteAt? && At(previous, l).Some? ==> At(budget, l) == At(previous, l)
  }

  /** `rebased_budget`: the loop over the previous top-level keys, in any order. */
  method RebasedBudget(receipt: Value, previous: Value) returns (budget: Option<Value>)
    requires previous.Dict?
    ensures budget.Some? <==> AllCounts(receipt) && AllIdentities(receipt)
    ensures budget.Some? ==> IsRebased(budget.value, receipt, previous)
  {
    budget := BudgetFromReceipt(receipt);
    if budget.None? {
      return;
    }
    var out := budget.value;
    var keys := previous.fields.Keys;
    var rest := keys;
    while rest != {}
      invariant rest <= keys && Open(out)
      invariant forall l: Leaf :: !l.NoteAt? ==> At(out, l) == At(budget.value, l)
      invariant forall l: Leaf :: l.NoteAt? && Note(l.text) in keys && Note(l.text) !in rest ==>
            At(out, l) == At(previous, l)
      decreases rest
    {
      var key :| key in rest;
      rest := rest - {key};
      if key.Note? {
        NotePath(previous, key.text);
        WriteLeaf(out, NoteAt(key.text), previous.fields[key]);
        out := Set(out, PathOf(NoteAt(key.text)), previous.fields[key]);
      }
    }
    forall l: Leaf | l.NoteAt? && At(previous, l).Some? ensures At(out, l) == At(previous, l) {
      NotePath(previous, l.text);
    }
    budget := Some(out);
  }

  lemma NotePath(doc: Value, text: string)
    requires doc.Dict?
    ensures At(doc, NoteAt(text)) == if Note(text) in doc.fields then Some(doc.fields[Note(text)]) else None
  {
    GetOne(doc, Note(text));
  }

  // ---------------------------------------------------------------- comparing

  datatype Change = Change(metric: Leaf, current: int, ceiling: int)

  datatype Comparison = Raised | Compared(up: seq<Change>, down: seq<Change>)

  /** Both documents carry the same identities and countable metrics. */
  ghost predicate Comparable(receipt: Value, budget: Value) {
    && (forall l: Leaf :: IsIdentity(l) ==> At(receipt, l).Some? && At(receipt, l) == At(budget, l))
    && AllCounts(receipt) && AllCounts(budget)
  }

  function CountAt(doc: Value, l: Leaf): int
    requires IsCount(At(doc, l))
  {
    At(doc, l).value.n
  }

  /** What a document has at each place. */
  type Reader = Leaf -> Option<Value>

  function ReaderOf(doc: Value): (read: Reader)
    ensures forall l: Leaf :: read(l) == At(doc, l)
  {
    l => At(doc, l)
  }

  /** The count at a place, or 0 if there is none. */
  function Count(read: Reader, l: Leaf): int {
    if IsCount(read(l)) then read(l).value.n else 0
  }

  datatype Side = Up | Down

  /** The metric is above its ceiling, or below it. */
  predicate Moved(receipt: Reader, budget: Reader, side: Side, l: Leaf) {
    if side.Up? then Count(receipt, l) > Count(budget, l) else Count(receipt, l) < Count(budget, l)
  }

  function ChangeOf(receipt: Reader, budget: Reader, l: Leaf): Change {
    Change(l, Count(receipt, l), Count(budget, l))
  }

  /** The listed metrics that have moved to one side, in the order of the list. */
  function ChangesOf(receipt: Reader, budget: Reader, side: Side, list: seq<Leaf>): seq<Change> {
    if list == [] then []
    else
      var l := list[|list| - 1];
      ChangesOf(receipt, budget, side, list[..|list| - 1])
        + if Moved(receipt, budget, side, l) then [ChangeOf(receipt, budget, l)] else []
  }

  ghost predicate Reported(l: Leaf, changes: seq<Change>) {
    exists i :: 0 <= i < |changes| && changes[i].metric == l
  }

  lemma ReportedAppend(l: Leaf, changes: seq<Change>, more: seq<Change>)
    ensures Reported(l, changes + more) <==> Reported(l, changes) || Reported(l, more)
  {
    if i :| 0 <= i < |changes| && changes[i].metric == l {
      assert (changes + more)[i] == changes[i];
    }
    if i :| 0 <= i < |more| && more[i].metric == l {
      assert (changes + more)[|changes| + i] == more[i];
    }
  }

  /** Exactly the listed metrics that have moved are reported, with the counts of both documents. */
  lemma {:induction false} ChangesAre(receipt: Reader, budget: Reader, side: Side, list: seq<Leaf>, l: Leaf)
    ensures Reported(l, ChangesOf(receipt, budget, side, list)) <==> l in list && Moved(receipt, budget, side, l)
    ensures forall i :: 0 <= i < |ChangesOf(receipt, budget, side, list)| ==>
              ChangesOf(receipt, budget, side, list)[i]
                == ChangeOf(receipt, budget, ChangesOf(receipt, budget, side, list)[i].metric)
  {
    if list != [] {
      var init, last := list[..|list| - 1], list[|list| - 1];
      assert list == init + [last];
      ChangesAre(receipt, budget, side, init, l);
      var one := if Moved(receipt, budget, side, last) then [ChangeOf(receipt, budget, last)] else [];
      ReportedAppend(l, ChangesOf(receipt, budget, side, init), one);
      assert Reported(l, one) <==> l == last && Moved(receipt, budget, side, last) by {
        if one != [] { assert one[0].metric == last; }
      }
    }
  }

  /** The loop over METRICS. */
  method CompareMetrics(receipt: Reader, budget: Reader, list: seq<Leaf>) returns (result: Comparison)
    ensures result.Compared? <==> CountsAt(receipt, budget, list)
    ensures result.Compared? ==> result.up == ChangesOf(receipt, budget, Up, list)
    ensures result.Compared? ==> result.down == ChangesOf(receipt, budget, Down, list)
  {
    var up: seq<Change>, down: seq<Change> := [], [];
    for n := 0 to |list|
      invariant forall i :: 0 <= i < n ==> IsCount(receipt(list[i])) && IsCount(budget(list[i]))
      invariant up == ChangesOf(receipt, budget, Up, list[..n])
      invariant down == ChangesOf(receipt, budget, Down, list[..n])
    {
      var l := list[n];
      if !IsCount(receipt(l)) || !IsCount(budget(l)) {
        return Raised;
      }
      assert list[..n + 1][..n] == list[..n];
      var current, ceiling := Count(receipt, l), Count(budget, l);
      if current > ceiling {
        up := up + [Change(l, current, ceiling)];
      } else if current < ceiling {
        down := down + [Change(l, current, ceiling)];
      }
    }
    assert list[..|list|] == list;
    result := Compared(up, down);
  }

  /** The loop over IDENTITIES. */
  method SameIdentities(receipt: Reader, budget: Reader, list: seq<Leaf>) returns (same: bool)
    ensures same <==> SameAt(receipt, budget, list)
  {
    for n := 0 to |list|
      invariant forall l: Leaf :: l in list[..n] ==> receipt(l).Some? && receipt(l) == budget(l)
    {
      var l := list[n];
      assert l in list;
      if receipt(l).None? || receipt(l) != budget(l) {
        return false;
      }
      assert list[..n + 1] == list[..n] + [l];
    }
    assert list[..|list|] == list;
    same := true;
  }

  ghost predicate SameAt(receipt: Reader, budget: Reader, list: seq<Leaf>) {
    forall l: Leaf :: l in list ==> receipt(l).Some? && receipt(l) == budget(l)
  }

  ghost predicate CountsAt(receipt: Reader, budget: Reader, list: seq<Leaf>) {
    forall i :: 0 <= i < |list| ==> IsCount(receipt(list[i])) && IsCount(budget(list[i]))
  }

  lemma UnlistedIdentity(receipt: Value, budget: Value, identities: seq<Leaf>)
    requires ListsIdentities(identities)
    ensures Comparable(receipt, budget) ==> SameAt(ReaderOf(receipt), ReaderOf(budget), identities)
  {}

  lemma ListedComparable(receipt: Value, budget: Value, identities: seq<Leaf>, metrics: seq<Leaf>)
    requires ListsIdentities(identities) && ListsMetrics(metrics)
    requires SameAt(ReaderOf(receipt), ReaderOf(budget), identities)
    ensures Comparable(receipt, budget) <==> CountsAt(ReaderOf(receipt), ReaderOf(budget), metrics)
  {
    ListedCounts(receipt, metrics);
    ListedCounts(budget, metrics);
  }

  /** What a comparison reports on one side. */
  function Moves(receipt: Value, budget: Value, side: Side): seq<Change> {
    ChangesOf(ReaderOf(receipt), ReaderOf(budget), side, Metrics())
  }

  /** `compare`, after both documents have been validated: the metrics above and below their
      ceilings are reported in the order of the list. */
  method Compare(receipt: Value, budget: Value) returns (result: Comparison)
    ensures result.Compared? <==> Comparable(receipt, budget)
    ensures result.Compared? ==> result.up == Moves(receipt, budget, Up) && result.down == Moves(receipt, budget, Down)
  {
    var identities := IdentityList();
    UnlistedIdentity(receipt, budget, identities);
    var same := SameIdentities(ReaderOf(receipt), ReaderOf(budget), identities);
    if !same {
      return Raised;
    }
    var metrics := MetricList();
    ListedComparable(receipt, budget, identities, metrics);
    result := CompareMetrics(ReaderOf(receipt), ReaderOf(budget), metrics);
  }

  /** Exactly the metrics on one side of their ceilings are reported. */
  lemma MovesAre(receipt: Value, budget: Value, side: Side, l: Leaf)
    requires Comparable(receipt, budget)
    ensures Reported(l, Moves(receipt, budget, side)) <==>
            IsMetric(l) && if side.Up? then CountAt(receipt, l) > CountAt(budget, l)
                else CountAt(receipt, l) < CountAt(budget, l)
  {
    ChangesAre(ReaderOf(receipt), ReaderOf(budget), side, Metrics(), l);
    MetricsAre(l);
  }

  /** Each with the counts of both documents. */
  lemma MoveCounts(receipt: Value, budget: Value, side: Side, i: nat)
    requires Comparable(receipt, budget) && i < |Moves(receipt, budget, side)|
    ensures var c := Moves(receipt, budget, side)[i];
            IsMetric(c.metric) && c == Change(c.metric, CountAt(receipt, c.metric), CountAt(budget, c.metric))
  {
    var c := Moves(receipt, budget, side)[i];
    assert Reported(c.metric, Moves(receipt, budget, side));
    MovesAre(receipt, budget, side, c.metric);
    ChangesAre(ReaderOf(receipt), ReaderOf(budget), side, Metrics(), c.metric);
  }

  /** A comparison reports no increase exactly if no metric is above its ceiling. */
  lemma NoIncreaseIff(receipt: Value, budget: Value)
    requires Comparable(receipt, budget)
    ensures Moves(receipt, budget, Up) == [] <==> forall l: Leaf :: IsMetric(l) ==>
          CountAt(receipt, l) <= CountAt(budget, l)
  {
    var up := Moves(receipt, budget, Up);
    if up != [] {
      var l := up[0].metric;
      assert Reported(l, up);
      MovesAre(receipt, budget, Up, l);
    } else {
      forall l: Leaf | IsMetric(l) ensures CountAt(receipt, l) <= CountAt(budget, l) {
        MovesAre(receipt, budget, Up, l);
        assert !Reported(l, up);
      }
    }
  }

  // ---------------------------------------------------------------- the ratchet

  /** A budget rebased on a valid receipt is valid and agrees exactly with that receipt. */
  lemma RebasedIsValidAndEqual(budget: Value, receipt: Value, previous: Value, identical: bool,
      digest: seq<string> -> string)
    requires ReceiptOK(receipt, identical, digest) && AllCounts(receipt) && IsRebased(budget, receipt, previous)
    ensures BudgetOK(budget, digest)
    ensures Comparable(receipt, budget)
    ensures forall l: Leaf :: IsMetric(l) ==> CountAt(receipt, l) == CountAt(budget, l)
    ensures forall l: Leaf :: l.NoteAt? && At(previous, l).Some? ==> At(budget, l) == At(previous, l)
  {
    forall m: Mode, s: Surface ensures ToolsOK(budget, m, s, digest) {
      assert ToolsOK(receipt, m, s, digest);
      assert IsIdentity(ToolIdentity(m, s)) && IsIdentity(ToolDigest(m, s)) && IsMetric(Tool(m, s, TCount));
    }
    forall s: Stage ensures IsSha(At(budget, StageIdentity(s))) {
      assert IsIdentity(StageIdentity(s)) && IsSha(At(receipt, StageIdentity(s)));
    }
    forall l: Leaf | IsIdentity(l) ensures At(receipt, l).Some? {
      if l.ToolIdentity? || l.ToolDigest? {
        assert ToolsOK(receipt, l.mode, l.surface, digest);
      } else if l.StageIdentity? {
        assert IsSha(At(receipt, l));
      }
    }
  }

  /** One plain `--update` that is not refused. */
  ghost predicate Updates(budget: Value, receipt: Value, identical: bool, next: Value, digest: seq<string> -> string) {
    && ReceiptOK(receipt, identical, digest) && BudgetOK(budget, digest) && Comparable(receipt, budget)
    && (forall l: Leaf :: IsMetric(l) ==> CountAt(receipt, l) <= CountAt(budget, l))
    && IsRebased(next, receipt, budget)
  }

  /** The documents pass their validation. */
  ghost predicate BothOK(receipt: Value, identical: bool, budget: Value, digest: seq<string> -> string) {
    ReceiptOK(receipt, identical, digest) && BudgetOK(budget, digest)
  }

  datatype Outcome = Failed | Grew(up: seq<Change>) | Written(next: Value)

  /** `main` with `--update`, and with `--allow-increase` or without. A plain update is written
      exactly if the documents are valid and comparable and no metric is above its ceiling. */
  method Update(receipt: Value, identical: bool, budget: Value, digest: seq<string> -> string, allowIncrease: bool)
    returns (outcome: Outcome)
    requires budget.Dict?
    ensures !allowIncrease ==> (outcome.Failed? <==>
          !(BothOK(receipt, identical, budget, digest) && Comparable(receipt, budget)))
    ensures !allowIncrease && outcome.Grew? ==> outcome.up == Moves(receipt, budget, Up) != []
    ensures !allowIncrease && outcome.Written? ==> Updates(budget, receipt, identical, outcome.next, digest)
    ensures allowIncrease ==>
              (outcome.Written? <==>
               BothOK(receipt, identical, budget, digest) && AllCounts(receipt) && AllIdentities(receipt))
    ensures allowIncrease && outcome.Written? ==>
          IsRebased(outcome.next, receipt, budget) && BudgetOK(outcome.next, digest)
  {
    var receiptOK := ValidateDocument(receipt, RECEIPT_KIND, digest);
    var budgetOK := ValidateDocument(budget, BUDGET_KIND, digest);
    if !receiptOK || !identical || !budgetOK {
      return Failed;
    }
    if !allowIncrease {
      var result := Compare(receipt, budget);
      if result.Raised? {
        return Failed;
      }
      NoIncreaseIff(receipt, budget);
      if result.up != [] {
        return Grew(result.up);
      }
    }
    var next := RebasedBudget(receipt, budget);
    if next.None? {
      return Failed;
    }
    RebasedIsValidAndEqual(next.value, receipt, budget, identical, digest);
    outcome := Written(next.value);
  }

  /** `validate_document` with `validate_identity_structure`. */
  method ValidateDocument(doc: Value, kind: string, digest: seq<string> -> string) returns (ok: bool)
    ensures ok <==> DocumentOK(doc, kind, digest)
  {
    if At(doc, Kind) != Some(Text(kind)) || At(doc, Version) != Some(Int(1)) || At(doc, Fixture) != Some(Text(FIXTURE))
       || At(doc, SurfaceProfile) != Some(Text(PROFILE)) || At(doc, ExecutionShell) != Some(Text("bash"))
    {
      return false;
    }
    ok := ValidateTools(doc, digest);
    if ok {
      ok := ValidateStages(doc);
    }
  }

  method ValidateTools(doc: Value, digest: seq<string> -> string) returns (ok: bool)
    ensures ok <==> forall m: Mode, s: Surface :: ToolsOK(doc, m, s, digest)
  {
    for i := 0 to |MODES|
      invariant forall k, s: Surface :: 0 <= k < i ==> ToolsOK(doc, MODES[k], s, digest)
    {
      for j := 0 to |SURFACES|
        invariant forall k :: 0 <= k < j ==> ToolsOK(doc, MODES[i], SURFACES[k], digest)
      {
        if !ToolsOK(doc, MODES[i], SURFACES[j], digest) {
          return false;
        }
      }
      forall s: Surface ensures ToolsOK(doc, MODES[i], s, digest) {
        assert s == SURFACES[0] || s == SURFACES[1];
      }
    }
    forall m: Mode, s: Surface ensures ToolsOK(doc, m, s, digest) { ModeIsListed(m); }
    ok := true;
  }

  method ValidateStages(doc: Value) returns (ok: bool)
    ensures ok <==> forall s: Stage :: IsSha(At(doc, StageIdentity(s)))
  {
    for i := 0 to |STAGES|
      invariant forall k :: 0 <= k < i ==> IsSha(At(doc, StageIdentity(STAGES[k])))
    {
      if !IsSha(At(doc, StageIdentity(STAGES[i]))) {
        return false;
      }
    }
    forall s: Stage ensures IsSha(At(doc, StageIdentity(s))) { StageIsListed(s); }
    ok := true;
  }

  /** Budgets that followed one another by plain updates. */
  ghost predicate IsUpdateRun(budgets: seq<Value>, receipts: seq<Value>, digest: seq<string> -> string) {
    && |budgets| == |receipts| + 1 && AllCounts(budgets[0])
    && forall i :: 0 <= i < |receipts| ==> Updates(budgets[i], receipts[i], true, budgets[i + 1], digest)
  }

  lemma UpdateStep(budget: Value, receipt: Value, identical: bool, next: Value, digest: seq<string> -> string)
    requires Updates(budget, receipt, identical, next, digest)
    ensures BudgetOK(next, digest) && AllCounts(next)
    ensures forall l: Leaf :: IsMetric(l) ==> CountAt(next, l) <= CountAt(budget, l)
    ensures forall l: Leaf :: IsIdentity(l) ==> At(next, l) == At(budget, l)
    ensures forall l: Leaf :: l.NoteAt? && At(budget, l).Some? ==> At(next, l) == At(budget, l)
  {
    RebasedIsValidAndEqual(next, receipt, budget, identical, digest);
    forall l: Leaf | IsMetric(l) ensures IsCount(At(next, l)) && CountAt(next, l) <= CountAt(budget, l) {
      assert At(next, l) == At(receipt, l);
    }
    forall l: Leaf | IsIdentity(l) ensures At(next, l) == At(budget, l) {
      assert At(next, l) == At(receipt, l) == At(budget, l);
    }
  }

  /** Along any run of plain updates no ceiling ever rises, no identity changes, and no note is
      lost or changed. */
  lemma {:induction false} CeilingsOnlyFall(budgets: seq<Value>, receipts: seq<Value>, digest: seq<string> -> string,
                                            m: nat, n: nat, l: Leaf)
    requires IsUpdateRun(budgets, receipts, digest) && m <= n < |budgets|
    ensures AllCounts(budgets[m]) && AllCounts(budgets[n])
    ensures IsMetric(l) ==> CountAt(budgets[n], l) <= CountAt(budgets[m], l)
    ensures IsIdentity(l) ==> At(budgets[n], l) == At(budgets[m], l)
    ensures l.NoteAt? && At(budgets[m], l).Some? ==> At(budgets[n], l) == At(budgets[m], l)
    decreases n
  {
    if n > 0 {
      UpdateStep(budgets[n - 1], receipts[n - 1], true, budgets[n - 1 + 1], digest);
      if m < n {
        CeilingsOnlyFall(budgets, receipts, digest, m, n - 1, l);
      }
    }
  }
}
