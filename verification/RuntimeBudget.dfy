/**
 The runtime-contract budget (scripts/check-runtime-contract-budget.py): nested documents with
 numeric ceilings and exact identities, read and written by path.

 The key names of the documents are an enumeration here. The digest of a list of tool names is
 a parameter.
 */
module RuntimeBudget {
  import opened Common

  // ---------------------------------------------------------------- what is measured

  datatype Mode = Plan | Act | Operate
  datatype Stage = Base | Project | Instructions | Skill | Memory | Goal | Handoff
  datatype Surface = Full | Active
  datatype Turn = First | Second

  datatype Field =
    | PromptBytes | PromptTokens | PromptBlocks | ModeBytes | ModeTokens
    | StageBytes | DeltaBytes | TotalBytes | TotalTokens
    | Tools | SchemaBytes | SchemaTokens
    | RootCalls | Directories | ReadAttempts
    | Profile | Shell | ToolNames | IdentitySha | FixtureId

  /** One place in a document. Notes are the top-level keys that start with an underscore. */
  datatype Leaf =
    | Prompt(mode: Mode, prompt: PromptField)
    | StageSize(stage: Stage)
    | StageDelta(stage: Stage)
    | Total(total: TotalField)
    | Tool(mode: Mode, surface: Surface, tool: ToolField)
    | Discovery(turn: Turn, discovery: DiscoveryField)
    | SurfaceProfile
    | ExecutionShell
    | ToolIdentity(mode: Mode, surface: Surface)
    | ToolDigest(mode: Mode, surface: Surface)
    | StageIdentity(stage: Stage)
    | Fixture
    | Kind
    | Version
    | NoteAt(text: string)

  datatype PromptField = PBytes | PTokens | PBlocks | PModeBytes | PModeTokens
  datatype TotalField = TBytes | TTokens | TBlocks
  datatype ToolField = TCount | TSchemaBytes | TSchemaTokens
  datatype DiscoveryField = DCalls | DDirectories | DReads

  predicate IsMetric(l: Leaf) {
    l.Prompt? || l.StageSize? || (l.StageDelta? && !l.stage.Base?) || l.Total? || l.Tool? || l.Discovery?
  }

  predicate IsIdentity(l: Leaf) {
    l.SurfaceProfile? || l.ExecutionShell? || l.ToolIdentity? || l.ToolDigest? || l.StageIdentity?
  }

  // ---------------------------------------------------------------- documents and paths

  datatype Key =
    | Note(text: string) | DocumentKind | SchemaVersion
    | SystemPrompt | RepresentativeContext | ToolCatalog | SkillDiscovery
    | Modes | Stages
    | OfMode(mode: Mode) | OfStage(stage: Stage) | OfSurface(surface: Surface) | OfTurn(turn: Turn)
    | Of(field: Field)

  datatype Value = Int(n: int) | Text(s: string) | Names(names: seq<string>) | Other | Dict(fields: map<Key, Value>)

  type Path = seq<Key>

  function FieldOfPrompt(f: PromptField): Field {
    match f case PBytes => PromptBytes case PTokens => PromptTokens case PBlocks => PromptBlocks
            case PModeBytes => ModeBytes case PModeTokens => ModeTokens
  }

  function FieldOfTotal(f: TotalField): Field {
    match f case TBytes => TotalBytes case TTokens => TotalTokens case TBlocks => PromptBlocks
  }

  function FieldOfTool(f: ToolField): Field {
    match f case TCount => Tools case TSchemaBytes => SchemaBytes case TSchemaTokens => SchemaTokens
  }

  function FieldOfDiscovery(f: DiscoveryField): Field {
    match f case DCalls => RootCalls case DDirectories => Directories case DReads => ReadAttempts
  }

  function PathOf(l: Leaf): (path: Path)
    ensures 1 <= |path| <= 5
  {
    match l
    case Prompt(m, f) => [SystemPrompt, Modes, OfMode(m), Of(FieldOfPrompt(f))]
    case StageSize(s) => [RepresentativeContext, Stages, OfStage(s), Of(StageBytes)]
    case StageDelta(s) => [RepresentativeContext, Stages, OfStage(s), Of(DeltaBytes)]
    case Total(f) => [RepresentativeContext, Of(FieldOfTotal(f))]
    case Tool(m, s, f) => [ToolCatalog, Modes, OfMode(m), OfSurface(s), Of(FieldOfTool(f))]
    case Discovery(t, f) => [SkillDiscovery, OfTurn(t), Of(FieldOfDiscovery(f))]
    case SurfaceProfile => [ToolCatalog, Of(Profile)]
    case ExecutionShell => [ToolCatalog, Of(Shell)]
    case ToolIdentity(m, s) => [ToolCatalog, Modes, OfMode(m), OfSurface(s), Of(ToolNames)]
    case ToolDigest(m, s) => [ToolCatalog, Modes, OfMode(m), OfSurface(s), Of(IdentitySha)]
    case StageIdentity(s) => [RepresentativeContext, Stages, OfStage(s), Of(IdentitySha)]
    case Fixture => [RepresentativeContext, Of(FixtureId)]
    case Kind => [DocumentKind]
    case Version => [SchemaVersion]
    case NoteAt(text) => [Note(text)]
  }

  /** Neither path leads through the other. */
  predicate Apart(p: Path, q: Path) {
    exists i :: 0 <= i < |p| && i < |q| && p[i] != q[i]
  }

  /** Different places have paths that are apart. */
  lemma LeavesApart(a: Leaf, b: Leaf)
    requires a != b
    ensures Apart(PathOf(a), PathOf(b))
  {
    var p, q := PathOf(a), PathOf(b);
    assert p[0] != q[0] || (|p| > 1 && |q| > 1 && p[1] != q[1]) || (|p| > 2 && |q| > 2 && p[2] != q[2])
           || (|p| > 3 && |q| > 3 && p[3] != q[3]) || (|p| > 4 && |q| > 4 && p[4] != q[4]);
  }

  /** `required_value`, None where the source raises. */
  function Get(doc: Value, path: Path): Option<Value> {
    if path == [] then Some(doc)
    else if !doc.Dict? || path[0] !in doc.fields then None
    else Get(doc.fields[path[0]], path[1..])
  }

  /** Everything on the way to the last key is a dictionary or is missing. */
  predicate Settable(doc: Value, path: Path) {
    path != [] && doc.Dict? && (|path| > 1 && path[0] in doc.fields ==> Settable(doc.fields[path[0]], path[1..]))
  }

  /** `set_path_value`. */
  function Set(doc: Value, path: Path, value: Value): Value
    requires Settable(doc, path)
    decreases |path|
  {
    if |path| == 1 then Dict(doc.fields[path[0] := value])
    else
      var child := if path[0] in doc.fields then doc.fields[path[0]] else Dict(map[]);
      Dict(doc.fields[path[0] := Set(child, path[1..], value)])
  }

  lemma {:induction false} GetOfSet(doc: Value, path: Path, value: Value)
    requires Settable(doc, path)
    ensures Get(Set(doc, path, value), path) == Some(value)
    decreases |path|
  {
    if |path| > 1 {
      GetOfSet(if path[0] in doc.fields then doc.fields[path[0]] else Dict(map[]), path[1..], value);
    } else {
      assert path[1..] == [];
    }
  }

  lemma ApartTails(p: Path, q: Path)
    requires p != [] && q != [] && p[0] == q[0] && Apart(p, q)
    ensures |p| > 1 && |q| > 1 && Apart(p[1..], q[1..])
  {
    var i :| 0 <= i < |p| && i < |q| && p[i] != q[i];
    assert p[1..][i - 1] != q[1..][i - 1];
  }

  /** Writing one place leaves every place apart from it as it was. */
  lemma {:induction false} SetLeavesOthers(doc: Value, path: Path, value: Value, q: Path)
    requires Settable(doc, path) && Apart(path, q)
    ensures Get(Set(doc, path, value), q) == Get(doc, q)
    ensures Settable(doc, q) ==> Settable(Set(doc, path, value), q)
    decreases |path|
  {
    if q[0] == path[0] {
      ApartTails(path, q);
      var child := if path[0] in doc.fields then doc.fields[path[0]] else Dict(map[]);
      SetLeavesOthers(child, path[1..], value, q[1..]);
      if path[0] !in doc.fields {
        assert Get(Dict(map[]), q[1..]) == None;
      }
    }
  }

  lemma SetStaysSettable(doc: Value, path: Path, value: Value)
    requires Settable(doc, path)
    ensures Settable(Set(doc, path, value), path)
    decreases |path|
  {
    if |path| > 1 {
      SetStaysSettable(if path[0] in doc.fields then doc.fields[path[0]] else Dict(map[]), path[1..], value);
    }
  }

  lemma GetOne(doc: Value, key: Key)
    ensures Get(doc, [key]) == if doc.Dict? && key in doc.fields then Some(doc.fields[key]) else None
  {
    if doc.Dict? && key in doc.fields {
      assert [key][1..] == [] && Get(doc.fields[key], []) == Some(doc.fields[key]);
    }
  }

  function At(doc: Value, l: Leaf): Option<Value> {
    Get(doc, PathOf(l))
  }

  /** Every place can be written. */
  ghost predicate Open(doc: Value) {
    forall l: Leaf :: Settable(doc, PathOf(l))
  }

  /** One write, in terms of places. */
  lemma WriteLeaf(doc: Value, l: Leaf, value: Value)
    requires Open(doc)
    ensures Open(Set(doc, PathOf(l), value))
    ensures At(Set(doc, PathOf(l), value), l) == Some(value)
    ensures forall k: Leaf :: k != l ==> At(Set(doc, PathOf(l), value), k) == At(doc, k)
  {
    GetOfSet(doc, PathOf(l), value);
    SetStaysSettable(doc, PathOf(l), value);
    forall k: Leaf | k != l
      ensures At(Set(doc, PathOf(l), value), k) == At(doc, k) && Settable(Set(doc, PathOf(l), value), PathOf(k))
    {
      LeavesApart(l, k);
      SetLeavesOthers(doc, PathOf(l), value, PathOf(k));
    }
  }

  // ---------------------------------------------------------------- validation

  const RECEIPT_KIND := "codewhale.runtime_contract_receipt"
  const BUDGET_KIND := "codewhale.runtime_contract_budget"
  const FIXTURE := "representative-v1"
  const PROFILE := "production-default-builtins-no-mcp-no-host-interpreters-bash-v2"

  /** `metric_value`: a non-negative integer. */
  predicate IsCount(v: Option<Value>) {
    v.Some? && v.value.Int? && v.value.n >= 0
  }

  predicate IsSha(v: Option<Value>) {
    v.Some? && v.value.Text? && |v.value.s| == 64
    && forall i :: 0 <= i < 64 ==> '0' <= v.value.s[i] <= '9' || 'a' <= v.value.s[i] <= 'f'
  }

  /** Code-point order of Python strings. */
  predicate Before(a: string, b: string) {
    b != "" && (a == "" || a[0] < b[0] || (a[0] == b[0] && Before(a[1..], b[1..])))
  }

  predicate SortedNames(names: seq<string>) {
    && (forall i :: 0 <= i < |names| ==> names[i] != "")
    && forall i :: 0 <= i < |names| - 1 ==> Before(names[i], names[i + 1])
  }

  predicate ToolsOK(doc: Value, m: Mode, s: Surface, digest: seq<string> -> string) {
    var names := At(doc, ToolIdentity(m, s));
    && names.Some? && names.value.Names? && SortedNames(names.value.names)
    && At(doc, Tool(m, s, TCount)) == Some(Int(|names.value.names|))
    && At(doc, ToolDigest(m, s)) == Some(Text(digest(names.value.names)))
  }

  /** `validate_identity_structure`. */
  ghost predicate StructureOK(doc: Value, digest: seq<string> -> string) {
    && At(doc, SurfaceProfile) == Some(Text(PROFILE)) && At(doc, ExecutionShell) == Some(Text("bash"))
    && (forall m: Mode, s: Surface :: ToolsOK(doc, m, s, digest))
    && forall s: Stage :: IsSha(At(doc, StageIdentity(s)))
  }

  ghost predicate DocumentOK(doc: Value, kind: string, digest: seq<string> -> string) {
    && At(doc, Kind) == Some(Text(kind)) && At(doc, Version) == Some(Int(1))
    && At(doc, Fixture) == Some(Text(FIXTURE)) && StructureOK(doc, digest)
  }

  /** `identical` stands for the two flags that only a receipt carries. */
  ghost predicate ReceiptOK(doc: Value, identical: bool, digest: seq<string> -> string) {
    identical && DocumentOK(doc, RECEIPT_KIND, digest)
  }

  ghost predicate BudgetOK(doc: Value, digest: seq<string> -> string) {
    DocumentOK(doc, BUDGET_KIND, digest)
  }

  // ---------------------------------------------------------------- the lists

  const MODES: seq<Mode> := [Plan, Act, Operate]
  const STAGES: seq<Stage> := [Base, Project, Instructions, Skill, Memory, Goal, Handoff]
  const SURFACES: seq<Surface> := [Full, Active]

  /** `for a in list: for b in f(a)`. */
  function Each<A, B>(list: seq<A>, f: A -> seq<B>): seq<B> {
    if list == [] then [] else f(list[0]) + Each(list[1..], f)
  }

  lemma {:induction false} EachHas<A, B>(list: seq<A>, f: A -> seq<B>, b: B)
    ensures b in Each(list, f) <==> exists i :: 0 <= i < |list| && b in f(list[i])
  {
    if list != [] {
      EachHas(list[1..], f, b);
      if i :| 0 <= i < |list| && b in f(list[i]) {
        assert i > 0 ==> list[1..][i - 1] == list[i];
      }
      if i :| 0 <= i < |list| - 1 && b in f(list[1..][i]) {
        assert list[1..][i] == list[i + 1];
      }
    }
  }

  function PromptsOf(m: Mode): seq<Leaf> {
    [Prompt(m, PBytes), Prompt(m, PTokens), Prompt(m, PBlocks), Prompt(m, PModeBytes), Prompt(m, PModeTokens)]
  }

  function ToolsOf(m: Mode): seq<Leaf> {
    [Tool(m, Full, TCount), Tool(m, Full, TSchemaBytes), Tool(m, Full, TSchemaTokens),
     Tool(m, Active, TCount), Tool(m, Active, TSchemaBytes), Tool(m, Active, TSchemaTokens)]
  }

  function IdentitiesOf(m: Mode): seq<Leaf> {
    [ToolIdentity(m, Full), ToolDigest(m, Full), ToolIdentity(m, Active), ToolDigest(m, Active)]
  }

  function PromptMetrics(): seq<Leaf> { Each(MODES, PromptsOf) }
  function SizeMetrics(): seq<Leaf> { Each(STAGES, s => [StageSize(s)]) }
  function DeltaMetrics(): seq<Leaf> { Each(STAGES[1..], s => [StageDelta(s)]) }
  function TotalMetrics(): seq<Leaf> { [Total(TBytes), Total(TTokens), Total(TBlocks)] }
  function ToolMetrics(): seq<Leaf> { Each(MODES, ToolsOf) }
  function DiscoveryMetrics(): seq<Leaf> {
    [Discovery(First, DCalls), Discovery(First, DDirectories), Discovery(First, DReads),
     Discovery(Second, DCalls), Discovery(Second, DDirectories), Discovery(Second, DReads)]
  }

  /** METRICS of the source, in its order. */
  function Metrics(): seq<Leaf> {
    PromptMetrics() + SizeMetrics() + DeltaMetrics() + TotalMetrics() + ToolMetrics() + DiscoveryMetrics()
  }

  function SurfaceIdentities(): seq<Leaf> { [SurfaceProfile, ExecutionShell] }
  function ToolIdentities(): seq<Leaf> { Each(MODES, IdentitiesOf) }
  function StageIdentities(): seq<Leaf> { Each(STAGES, s => [StageIdentity(s)]) }

  /** IDENTITIES of the source, in its order. */
  function Identities(): seq<Leaf> {
    SurfaceIdentities() + ToolIdentities() + StageIdentities()
  }

  lemma ModeIsListed(m: Mode)
    ensures exists i :: 0 <= i < |MODES| && MODES[i] == m
  {
    assert MODES[0] == Plan && MODES[1] == Act && MODES[2] == Operate;
  }

  lemma StageIsListed(s: Stage)
    ensures exists i :: 0 <= i < |STAGES| && STAGES[i] == s
    ensures !s.Base? ==> exists i :: 0 <= i < |STAGES[1..]| && STAGES[1..][i] == s
  {
    assert STAGES[0] == Base && STAGES[1] == Project && STAGES[2] == Instructions && STAGES[3] == Skill
           && STAGES[4] == Memory && STAGES[5] == Goal && STAGES[6] == Handoff;
    assert STAGES[1..][0] == Project && STAGES[1..][1] == Instructions && STAGES[1..][2] == Skill
           && STAGES[1..][3] == Memory && STAGES[1..][4] == Goal && STAGES[1..][5] == Handoff;
  }

  lemma PromptsHave(m: Mode, l: Leaf)
    ensures l in PromptsOf(m) <==> l.Prompt? && l.mode == m
  {
    var list := PromptsOf(m);
    if l.Prompt? && l.mode == m {
      match l.prompt
      case PBytes => assert l == list[0];
      case PTokens => assert l == list[1];
      case PBlocks => assert l == list[2];
      case PModeBytes => assert l == list[3];
      case PModeTokens => assert l == list[4];
    }
  }

  lemma ToolsHave(m: Mode, l: Leaf)
    ensures l in ToolsOf(m) <==> l.Tool? && l.mode == m
  {
    var list := ToolsOf(m);
    if l.Tool? && l.mode == m {
      match (l.surface, l.tool)
      case (Full, TCount) => assert l == list[0];
      case (Full, TSchemaBytes) => assert l == list[1];
      case (Full, TSchemaTokens) => assert l == list[2];
      case (Active, TCount) => assert l == list[3];
      case (Active, TSchemaBytes) => assert l == list[4];
      case (Active, TSchemaTokens) => assert l == list[5];
    }
  }

  lemma IdentitiesHave(m: Mode, l: Leaf)
    ensures l in IdentitiesOf(m) <==> (l.ToolIdentity? || l.ToolDigest?) && l.mode == m
  {
    var list := IdentitiesOf(m);
    if (l.ToolIdentity? || l.ToolDigest?) && l.mode == m {
      match (l.surface, l.ToolIdentity?)
      case (Full, true) => assert l == list[0];
      case (Full, false) => assert l == list[1];
      case (Active, true) => assert l == list[2];
      case (Active, false) => assert l == list[3];
    }
  }

  lemma PromptMetricsAre(l: Leaf)
    ensures l in PromptMetrics() <==> l.Prompt?
  {
    EachHas(MODES, PromptsOf, l);
    forall m: Mode ensures l in PromptsOf(m) <==> l.Prompt? && l.mode == m { PromptsHave(m, l); }
    if l.Prompt? { ModeIsListed(l.mode); }
  }

  lemma ToolMetricsAre(l: Leaf)
    ensures l in ToolMetrics() <==> l.Tool?
  {
    EachHas(MODES, ToolsOf, l);
    forall m: Mode ensures l in ToolsOf(m) <==> l.Tool? && l.mode == m { ToolsHave(m, l); }
    if l.Tool? { ModeIsListed(l.mode); }
  }

  lemma ToolIdentitiesAre(l: Leaf)
    ensures l in ToolIdentities() <==> l.ToolIdentity? || l.ToolDigest?
  {
    EachHas(MODES, IdentitiesOf, l);
    forall m: Mode ensures l in IdentitiesOf(m) <==>
        (l.ToolIdentity? || l.ToolDigest?) && l.mode == m { IdentitiesHave(m, l); }
    if l.ToolIdentity? || l.ToolDigest? { ModeIsListed(l.mode); }
  }

  lemma StageMetricsAre(l: Leaf)
    ensures l in SizeMetrics() <==> l.StageSize?
    ensures l in DeltaMetrics() <==> l.StageDelta? && !l.stage.Base?
  {
    EachHas(STAGES, s => [StageSize(s)], l);
    EachHas(STAGES[1..], s => [StageDelta(s)], l);
    if l.StageSize? || l.StageDelta? { StageIsListed(l.stage); }
    forall i | 0 <= i < |STAGES[1..]| ensures !STAGES[1..][i].Base? { assert STAGES[1..][i] == STAGES[i + 1]; }
  }

  lemma StageIdentitiesAre(l: Leaf)
    ensures l in StageIdentities() <==> l.StageIdentity?
  {
    EachHas(STAGES, s => [StageIdentity(s)], l);
    if l.StageIdentity? { StageIsListed(l.stage); }
  }

  lemma DiscoveryMetricsAre(l: Leaf)
    ensures l in DiscoveryMetrics() <==> l.Discovery?
    ensures l in TotalMetrics() <==> l.Total?
  {
    var list, totals := DiscoveryMetrics(), TotalMetrics();
    if l.Discovery? {
      match (l.turn, l.discovery)
      case (First, DCalls) => assert l == list[0];
      case (First, DDirectories) => assert l == list[1];
      case (First, DReads) => assert l == list[2];
      case (Second, DCalls) => assert l == list[3];
      case (Second, DDirectories) => assert l == list[4];
      case (Second, DReads) => assert l == list[5];
    }
    if l.Total? {
      match l.total
      case TBytes => assert l == totals[0];
      case TTokens => assert l == totals[1];
      case TBlocks => assert l == totals[2];
    }
  }

  /** The list of metrics has all of them and nothing else. */
  lemma MetricsAre(l: Leaf)
    ensures l in Metrics() <==> IsMetric(l)
  {
    PromptMetricsAre(l);
    StageMetricsAre(l);
    DiscoveryMetricsAre(l);
    ToolMetricsAre(l);
  }

  lemma IdentitiesAre(l: Leaf)
    ensures l in Identities() <==> IsIdentity(l)
  {
    ToolIdentitiesAre(l);
    StageIdentitiesAre(l);
    var list := SurfaceIdentities();
    assert list[0] == SurfaceProfile && list[1] == ExecutionShell;
  }
}
