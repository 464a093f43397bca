/**
 The seed compiler of scripts/catalog_models_dev.py: a reviewed spec, the lock that pins the
 upstream rows it refers to, and the rendered seed. Lookups are made first in the whole
 upstream catalog and later only in the locked part of it.
 */
module SeedCompiler {
  import opened Common
  import opened SeedRows

  // ---------------------------------------------------------------- the spec as written

  /** A model is written as its id, or as a table with the keys of the spec and perhaps others. */
  datatype RawModel = Short(id: string) | Table(entry: Model, unknown: set<string>)

  /** A missing text is "". Keys that do not select rows are left out. */
  datatype RawProvider = RawProvider(id: string, upstream: Option<string>, default: string, models: seq<RawModel>,
                                     unknown: set<string>)

  datatype CuratedRow = CuratedRow(provider: string, id: string, reason: string, row: Json) {
    function Key(): (string, string) { (provider, id) }
  }

  datatype RawCanonical = Key(key: string) | Entry(key: string, upstream: Option<string>)

  datatype RawSpec = RawSpec(url: string, meta: map<string, Json>, curated: seq<CuratedRow>,
                             providers: seq<RawProvider>, canonical: seq<RawCanonical>)

  // ---------------------------------------------------------------- the spec

  datatype Model = Model(id: string, from: Option<string>, upstreamId: Option<string>,
                         baseModel: Option<string>, curated: bool)

  datatype Provider = Provider(id: string, upstream: string, default: string, models: seq<Model>)

  datatype Canonical = Canonical(key: string, upstream: string)

  datatype Spec = Spec(providers: seq<Provider>, curated: map<(string, string), Json>, canonical: seq<Canonical>)

  // ---------------------------------------------------------------- expanding shorthand

  function ExpandedModel(m: RawModel): Model {
    match m
    case Short(id) => Model(id, None, None, None, false)
    case Table(entry, _) => entry
  }

  function ExpandedProvider(p: RawProvider): Provider {
    Provider(p.id, match p.upstream case None => p.id case Some(u) => u, p.default,
             seq(|p.models|, i requires 0 <= i < |p.models| => ExpandedModel(p.models[i])))
  }

  function ExpandedCanonical(c: RawCanonical): Canonical {
    match c
    case Key(key) => Canonical(key, key)
    case Entry(key, upstream) => Canonical(key, match upstream case None => key case Some(u) => u)
  }

  function ExpandedProviders(raw: seq<RawProvider>): seq<Provider> {
    seq(|raw|, i requires 0 <= i < |raw| => ExpandedProvider(raw[i]))
  }

  function ExpandedCanonicals(raw: seq<RawCanonical>): seq<Canonical> {
    seq(|raw|, i requires 0 <= i < |raw| => ExpandedCanonical(raw[i]))
  }

  function CuratedOf(rows: seq<CuratedRow>): map<(string, string), Json> {
    if rows == [] then map[] else CuratedOf(rows[..|rows| - 1])[rows[|rows| - 1].Key() := rows[|rows| - 1].row]
  }

  function Expanded(raw: RawSpec): Spec {
    Spec(ExpandedProviders(raw.providers), CuratedOf(raw.curated), ExpandedCanonicals(raw.canonical))
  }

  // ---------------------------------------------------------------- what is refused

  const BLANKS: set<char> := {' ', '\t', '\n', '\r'}

  /** Some of the text is left when blanks are stripped. */
  predicate HasText(s: string) {
    exists i :: 0 <= i < |s| && s[i] !in BLANKS
  }

  predicate CuratedRowOK(row: CuratedRow) {
    row.provider != "" && row.id != "" && HasText(row.reason) && row.row.Obj?
  }

  /** Each curated row is complete, and none is listed twice. */
  predicate CuratedRowsOK(rows: seq<CuratedRow>) {
    && (forall i :: 0 <= i < |rows| ==> CuratedRowOK(rows[i]))
    && forall i, j :: 0 <= i < j < |rows| ==> rows[i].Key() != rows[j].Key()
  }

  predicate NoUnknownKeys(p: RawProvider) {
    p.unknown == {} && forall j :: 0 <= j < |p.models| ==> p.models[j].Table? ==> p.models[j].unknown == {}
  }

  predicate AllKeysKnown(raw: seq<RawProvider>) {
    forall i :: 0 <= i < |raw| ==> NoUnknownKeys(raw[i])
  }

  predicate AllKeyed(raw: seq<RawCanonical>) {
    forall i :: 0 <= i < |raw| ==> raw[i].key != ""
  }

  predicate HeadOK(url: string, meta: map<string, Json>) {
    url != "" && forall k :: k in meta ==> meta[k].Str?
  }

  /** What `normalize_seed_spec` asks of a spec. */
  ghost predicate RawSpecOK(raw: RawSpec) {
    && HeadOK(raw.url, raw.meta) && CuratedRowsOK(raw.curated)
    && AllKeysKnown(raw.providers) && AllKeyed(raw.canonical)
    && ValidSpec(Expanded(raw))
  }

  // ---------------------------------------------------------------- items

  /** One model of one provider. */
  datatype Item = Item(provider: Provider, model: Model) {
    function Key(): (string, string) { (provider.id, model.id) }

    /** `upstream_ref`. */
    function UpProvider(): string {
      match model.from case None => provider.upstream case Some(p) => p
    }

    function UpId(): string {
      match model.upstreamId case None => model.id case Some(id) => id
    }

    /** The base model that the spec states, if it is not empty. */
    function Base(): Option<string> {
      if model.baseModel == Some("") then None else model.baseModel
    }
  }

  function ItemsOf(p: Provider): seq<Item> {
    seq(|p.models|, i requires 0 <= i < |p.models| => Item(p, p.models[i]))
  }

  function Items(providers: seq<Provider>): seq<Item> {
    if providers == [] then []
    else Items(providers[..|providers| - 1]) + ItemsOf(providers[|providers| - 1])
  }

  lemma {:induction false} ItemIsListed(providers: seq<Provider>, i: nat, j: nat)
    requires i < |providers| && j < |providers[i].models|
    ensures exists n :: 0 <= n < |Items(providers)| && Items(providers)[n] == Item(providers[i], providers[i].models[j])
  {
    var last := |providers| - 1;
    var before := Items(providers[..last]);
    if i < last {
      ItemIsListed(providers[..last], i, j);
      var n :| 0 <= n < |before| && before[n] == Item(providers[i], providers[i].models[j]);
      assert Items(providers)[n] == before[n];
    } else {
      assert Items(providers)[|before| + j] == ItemsOf(providers[last])[j];
    }
  }

  // ---------------------------------------------------------------- validation

  predicate DistinctIds(models: seq<Model>) {
    forall i, j :: 0 <= i < j < |models| ==> models[i].id != models[j].id
  }

  /** Non-empty distinct ids, exactly one default, and curated marks that agree with the
      curated rows. */
  predicate ProviderOK(p: Provider, curated: map<(string, string), Json>) {
    && p.id != "" && DistinctIds(p.models)
    && (exists i :: 0 <= i < |p.models| && p.models[i].id == p.default)
    && forall i :: 0 <= i < |p.models| ==>
         p.models[i].id != "" && (p.models[i].curated <==> (p.id, p.models[i].id) in curated)
  }

  ghost predicate ValidSpec(spec: Spec) {
    ProvidersOK(spec.providers, spec.curated) && AllUsed(spec.providers, spec.curated.Keys)
  }

  ghost predicate AllUsed(providers: seq<Provider>, keys: set<(string, string)>) {
    forall key :: key in keys ==> Used(providers, key)
  }

  ghost predicate Used(providers: seq<Provider>, key: (string, string)) {
    exists i, j :: 0 <= i < |providers| && 0 <= j < |providers[i].models|
                   && key == (providers[i].id, providers[i].models[j].id)
  }

  /** One provider of `normalize_seed_spec`: the loop over its models, with the ids seen. */
  method CheckProvider(p: Provider, curated: map<(string, string), Json>) returns (ok: bool)
    ensures ok <==> ProviderOK(p, curated)
  {
    if p.id == "" {
      return false;
    }
    var seen: set<string> := {};
    var defaults := 0;
    for n := 0 to |p.models|
      invariant forall i :: 0 <= i < n ==> p.models[i].id in seen
      invariant forall id :: id in seen ==> exists i :: 0 <= i < n && p.models[i].id == id
      invariant DistinctIds(p.models[..n])
      invariant forall i :: 0 <= i < n ==>
            p.models[i].id != "" && (p.models[i].curated <==> (p.id, p.models[i].id) in curated)
      invariant defaults == if p.default in seen then 1 else 0
    {
      var m := p.models[n];
      if m.id in seen {
        ghost var i :| 0 <= i < n && p.models[i].id == m.id;
        assert p.models[i].id == p.models[n].id;
        return false;
      }
      if m.id == "" || m.curated != ((p.id, m.id) in curated) {
        return false;
      }
      seen := seen + {m.id};
      if m.id == p.default {
        defaults := defaults + 1;
      }
      assert p.models[..n + 1] == p.models[..n] + [m];
    }
    assert p.models[..|p.models|] == p.models;
    ok := defaults == 1;
  }

  ghost predicate ProvidersOK(providers: seq<Provider>, curated: map<(string, string), Json>) {
    && (forall i :: 0 <= i < |providers| ==> ProviderOK(providers[i], curated))
    && forall i, j :: 0 <= i < j < |providers| ==> providers[i].id != providers[j].id
  }

  /** The outer loop, with the provider ids seen. */
  method CheckProviders(providers: seq<Provider>, curated: map<(string, string), Json>) returns (ok: bool)
    ensures ok <==> ProvidersOK(providers, curated)
  {
    var seen: set<string> := {};
    for n := 0 to |providers|
      invariant forall i :: 0 <= i < n ==> ProviderOK(providers[i], curated)
      invariant forall id :: id in seen <==> ListedBefore(providers, n, id)
      invariant forall i, j :: 0 <= i < j < n ==> providers[i].id != providers[j].id
    {
      var p := providers[n];
      if p.id in seen {
        return false;
      }
      ok := CheckProvider(p, curated);
      if !ok {
        return;
      }
      seen := seen + {p.id};
    }
    ok := true;
  }

  /** `used_curated`: the provider and model ids of the spec. */
  method UsedKeys(providers: seq<Provider>) returns (used: set<(string, string)>)
    ensures forall key :: key in used <==> Used(providers, key)
  {
    used := {};
    for n := 0 to |providers|
      invariant forall key :: key in used <==> Used(providers[..n], key)
    {
      var p := providers[n];
      ghost var before := used;
      used := used + set j | 0 <= j < |p.models| :: (p.id, p.models[j].id);
      UsedMore(providers, n, before, used);
    }
    assert providers[..|providers|] == providers;
  }

  lemma {:induction false} CuratedKeys(rows: seq<CuratedRow>, key: (string, string))
    ensures key in CuratedOf(rows) <==> exists i :: 0 <= i < |rows| && rows[i].Key() == key
  {
    if rows != [] {
      var n := |rows| - 1;
      CuratedKeys(rows[..n], key);
      if i :| 0 <= i < n && rows[i].Key() == key {
        assert rows[..n][i].Key() == key;
      }
    }
  }

  lemma OneMoreCurated(rows: seq<CuratedRow>, n: nat)
    requires n < |rows| && CuratedRowsOK(rows[..n])
    ensures rows[..n + 1][..n] == rows[..n]
    ensures CuratedRowsOK(rows[..n + 1]) <==> CuratedRowOK(rows[n]) && rows[n].Key() !in CuratedOf(rows[..n])
    ensures CuratedRowsOK(rows) ==> CuratedRowsOK(rows[..n + 1])
  {
    CuratedKeys(rows[..n], rows[n].Key());
    var more := rows[..n + 1];
    assert more[..n] == rows[..n] && more[n] == rows[n];
    if i :| 0 <= i < n && rows[..n][i].Key() == rows[n].Key() {
      assert more[i].Key() == more[n].Key();
    }
  }

  /** The curated rows by provider and model. */
  method CollectCurated(rows: seq<CuratedRow>) returns (ok: bool, curated: map<(string, string), Json>)
    ensures ok <==> CuratedRowsOK(rows)
    ensures ok ==> curated == CuratedOf(rows)
  {
    curated := map[];
    for n := 0 to |rows|
      invariant CuratedRowsOK(rows[..n]) && curated == CuratedOf(rows[..n])
    {
      OneMoreCurated(rows, n);
      if !CuratedRowOK(rows[n]) || rows[n].Key() in curated {
        return false, curated;
      }
      curated := curated[rows[n].Key() := rows[n].row];
    }
    assert rows[..|rows|] == rows;
    ok := true;
  }

  /** The models of one provider, expanded; refused with a key that the spec does not know. */
  method ExpandProvider(p: RawProvider) returns (ok: bool, expanded: Provider)
    ensures ok <==> NoUnknownKeys(p)
    ensures ok ==> expanded == ExpandedProvider(p)
  {
    var models: seq<Model> := [];
    expanded := Provider(p.id, match p.upstream case None => p.id case Some(u) => u, p.default, models);
    if p.unknown != {} {
      return false, expanded;
    }
    for n := 0 to |p.models|
      invariant |models| == n
      invariant forall j :: 0 <= j < n ==> models[j] == ExpandedModel(p.models[j])
      invariant forall j :: 0 <= j < n ==> p.models[j].Table? ==> p.models[j].unknown == {}
    {
      if p.models[n].Table? && p.models[n].unknown != {} {
        return false, expanded;
      }
      models := models + [ExpandedModel(p.models[n])];
    }
    ok, expanded := true, expanded.(models := models);
  }

  method ExpandProviders(raw: seq<RawProvider>) returns (ok: bool, providers: seq<Provider>)
    ensures ok <==> AllKeysKnown(raw)
    ensures ok ==> providers == ExpandedProviders(raw)
  {
    providers := [];
    for n := 0 to |raw|
      invariant |providers| == n
      invariant forall i :: 0 <= i < n ==> NoUnknownKeys(raw[i]) && providers[i] == ExpandedProvider(raw[i])
    {
      var p: Provider;
      ok, p := ExpandProvider(raw[n]);
      if !ok {
        return;
      }
      providers := providers + [p];
    }
    ok := true;
  }

  method ExpandCanonical(raw: seq<RawCanonical>) returns (ok: bool, canonical: seq<Canonical>)
    ensures ok <==> AllKeyed(raw)
    ensures ok ==> canonical == ExpandedCanonicals(raw)
  {
    canonical := [];
    for n := 0 to |raw|
      invariant |canonical| == n
      invariant forall i :: 0 <= i < n ==> raw[i].key != "" && canonical[i] == ExpandedCanonical(raw[i])
    {
      if raw[n].key == "" {
        return false, canonical;
      }
      canonical := canonical + [ExpandedCanonical(raw[n])];
    }
    ok := true;
  }

  /** The checks that need the curated rows. */
  method CheckRows(providers: seq<Provider>, curated: map<(string, string), Json>) returns (ok: bool)
    ensures ok <==> ProvidersOK(providers, curated) && AllUsed(providers, curated.Keys)
  {
    ok := CheckProviders(providers, curated);
    if ok {
      var used := UsedKeys(providers);
      ok := curated.Keys <= used;
    }
  }

  /** `normalize_seed_spec` accepts exactly the specs that meet its conditions, and then gives
      the expanded spec, which is valid. */
  method NormalizeSeedSpec(raw: RawSpec) returns (spec: Option<Spec>)
    ensures spec.Some? <==> RawSpecOK(raw)
    ensures spec.Some? ==> spec.value == Expanded(raw) && ValidSpec(spec.value)
  {
    spec := None;
    if HeadOK(raw.url, raw.meta) {
      var collected, curated := CollectCurated(raw.curated);
      var known, providers := ExpandProviders(raw.providers);
      if collected && known {
        var valid := CheckRows(providers, curated);
        var keyed, canonical := ExpandCanonical(raw.canonical);
        if valid && keyed {
          spec := Some(Spec(providers, curated, canonical));
        }
      }
    }
  }

  lemma UsedMore(providers: seq<Provider>, n: nat, before: set<(string, string)>, used: set<(string, string)>)
    requires n < |providers|
    requires forall key :: key in before <==> Used(providers[..n], key)
    requires used == before + set j | 0 <= j < |providers[n].models| :: (providers[n].id, providers[n].models[j].id)
    ensures forall key :: key in used <==> Used(providers[..n + 1], key)
  {
    var more := providers[..n + 1];
    assert more[n] == providers[n];
    forall key ensures key in used <==> Used(more, key) {
      if key in before {
        var i, j :| 0 <= i < n && 0 <= j < |providers[..n][i].models|
            && key == (providers[..n][i].id, providers[..n][i].models[j].id);
        assert more[i] == providers[..n][i];
      } else if key in used {
        var j :| 0 <= j < |providers[n].models| && key == (providers[n].id, providers[n].models[j].id);
        assert more[n].models[j] == providers[n].models[j];
      }
      if Used(more, key) {
        var i, j :| 0 <= i < |more| && 0 <= j < |more[i].models| && key == (more[i].id, more[i].models[j].id);
        if i < n {
          assert providers[..n][i] == more[i];
          assert Used(providers[..n], key);
        }
      }
    }
  }

  // ---------------------------------------------------------------- the lock

  datatype Upstream = Upstream(models: map<string, Json>, providers: map<string, map<string, Json>>)

  datatype Lock = Lock(models: map<string, Row>, providers: map<string, map<string, Row>>)

  datatype LockError =
    | CuratedIsListed(item: Item, found: string) | NotListed(item: Item) | CanonicalNotListed(entry: Canonical)

  /** `d.get(key) or {}`. */
  function RowsAt<T>(providers: map<string, map<string, T>>, provider: string): map<string, T> {
    if provider in providers then providers[provider] else map[]
  }

  /** The upstream row that a row of the spec projects. */
  function Source(item: Item, upstream: Upstream): Option<string> {
    FindRow(RowsAt(upstream.providers, item.UpProvider()), item.UpId())
  }

  predicate LockRefuses(item: Item, upstream: Upstream) {
    Source(item, upstream).Some? == item.model.curated
  }

  /** The row `key` of an upstream provider was chosen for `item`. */
  predicate Chooses(item: Item, upstream: Upstream, provider: string, key: string) {
    !item.model.curated && item.UpProvider() == provider && Source(item, upstream) == Some(key)
  }

  ghost predicate ChosenBy(items: seq<Item>, upstream: Upstream, provider: string, key: string) {
    exists n :: 0 <= n < |items| && Chooses(items[n], upstream, provider, key)
  }

  /** The row chosen for an item, if there is one, is locked. */
  predicate ChoiceIsLocked(item: Item, upstream: Upstream, locked: map<string, map<string, Row>>) {
    !item.model.curated && Source(item, upstream).Some? ==>
        Source(item, upstream).value in RowsAt(locked, item.UpProvider())
  }

  /** A locked row is chosen by some item, and is projected from the upstream row. */
  ghost predicate LockedIsChosen(items: seq<Item>, upstream: Upstream, p: string, key: string, row: Row,
      schema: Schema) {
    && key in RowsAt(upstream.providers, p) && row == Project(RowsAt(upstream.providers, p)[key], schema)
    && ChosenBy(items, upstream, p, key)
  }

  /** The lock holds exactly the chosen rows, each projected from the upstream row. */
  ghost predicate LockOf(items: seq<Item>, upstream: Upstream, locked: map<string, map<string, Row>>, schema: Schema) {
    && (forall n :: 0 <= n < |items| ==> ChoiceIsLocked(items[n], upstream, locked))
    && forall p, key :: p in locked && key in locked[p] ==>
        LockedIsChosen(items, upstream, p, key, locked[p][key], schema)
  }

  /** `lock_providers.setdefault(up_provider, {})[key] = row`. */
  function Pinned(locked: map<string, map<string, Row>>, provider: string, key: string, row: Row):
      map<string, map<string, Row>> {
    locked[provider := RowsAt(locked, provider)[key := row]]
  }

  lemma ChosenByMore(items: seq<Item>, item: Item, upstream: Upstream, p: string, key: string)
    ensures ChosenBy(items, upstream, p, key) || Chooses(item, upstream, p, key) ==>
          ChosenBy(items + [item], upstream, p, key)
  {
    var more := items + [item];
    assert more[|items|] == item;
    if ChosenBy(items, upstream, p, key) {
      var n :| 0 <= n < |items| && Chooses(items[n], upstream, p, key);
      assert more[n] == items[n];
    }
  }

  lemma LockOfMore(items: seq<Item>, item: Item, upstream: Upstream, locked: map<string, map<string, Row>>,
      schema: Schema)
    requires LockOf(items, upstream, locked, schema) && (item.model.curated || Source(item, upstream).None?)
    ensures LockOf(items + [item], upstream, locked, schema)
  {
    forall p, key | p in locked && key in locked[p]
      ensures LockedIsChosen(items + [item], upstream, p, key, locked[p][key], schema)
    {
      ChosenByMore(items, item, upstream, p, key);
    }
  }

  lemma LockOfPinned(items: seq<Item>, item: Item, upstream: Upstream, locked: map<string, map<string, Row>>,
      schema: Schema)
    requires LockOf(items, upstream, locked, schema) && !item.model.curated && Source(item, upstream).Some?
    ensures var p, key := item.UpProvider(), Source(item, upstream).value;
            LockOf(items + [item], upstream,
                   Pinned(locked, p, key, Project(RowsAt(upstream.providers, p)[key], schema)), schema)
  {
    var p, key := item.UpProvider(), Source(item, upstream).value;
    var locked' := Pinned(locked, p, key, Project(RowsAt(upstream.providers, p)[key], schema));
    var more := items + [item];
    forall n | 0 <= n < |more| ensures ChoiceIsLocked(more[n], upstream, locked') {
      if n < |items| { assert ChoiceIsLocked(items[n], upstream, locked); }
    }
    forall q, k | q in locked' && k in locked'[q]
      ensures LockedIsChosen(more, upstream, q, k, locked'[q][k], schema)
    {
      ChosenByMore(items, item, upstream, q, k);
    }
  }

  /** One turn of the inner loop of `build_seed_lock`. */
  method LockItem(item: Item, upstream: Upstream, schema: Schema, ghost items: seq<Item>,
                  locked: map<string, map<string, Row>>, errors: seq<LockError>)
    returns (locked': map<string, map<string, Row>>, errors': seq<LockError>)
    requires LockOf(items, upstream, locked, schema)
    ensures LockOf(items + [item], upstream, locked', schema)
    ensures errors' == [] <==> errors == [] && !LockRefuses(item, upstream)
  {
    if item.model.curated || Source(item, upstream).None? {
      LockOfMore(items, item, upstream, locked, schema);
    } else {
      LockOfPinned(items, item, upstream, locked, schema);
    }
    var rows := RowsAt(upstream.providers, item.UpProvider());
    var found := FindRow(rows, item.UpId());
    locked', errors' := locked, errors;
    if item.model.curated {
      if found.Some? {
        errors' := errors + [CuratedIsListed(item, found.value)];
      }
    } else if found.None? {
      errors' := errors + [NotListed(item)];
    } else {
      locked' := Pinned(locked, item.UpProvider(), found.value, Project(rows[found.value], schema));
    }
  }

  /** `up_models.get(id)` is there and not null. */
  predicate Listed(models: map<string, Json>, id: string) {
    id in models && models[id] != Null
  }

  predicate CanonicalsListed(canonical: seq<Canonical>, upstream: Upstream) {
    forall i :: 0 <= i < |canonical| ==> Listed(upstream.models, canonical[i].upstream)
  }

  /** Exactly the upstream rows of the canonical entries are locked, each projected. */
  ghost predicate LocksCanonicals(canonical: seq<Canonical>, upstream: Upstream, models: map<string, Row>,
      schema: Schema) {
    && (forall i :: 0 <= i < |canonical| ==> canonical[i].upstream in models)
    && forall id :: id in models ==>
         id in upstream.models && models[id] == Project(upstream.models[id], schema)
         && exists i :: 0 <= i < |canonical| && canonical[i].upstream == id
  }

  method LockCanonical(canonical: seq<Canonical>, upstream: Upstream, schema: Schema)
    returns (models: map<string, Row>, errors: seq<LockError>)
    ensures errors == [] <==> CanonicalsListed(canonical, upstream)
    ensures errors == [] ==> LocksCanonicals(canonical, upstream, models, schema)
  {
    models, errors := map[], [];
    for n := 0 to |canonical|
      invariant errors == [] <==> CanonicalsListed(canonical[..n], upstream)
      invariant errors == [] ==> LocksCanonicals(canonical[..n], upstream, models, schema)
    {
      var entry := canonical[n];
      ListedMore(canonical, n, upstream);
      if !Listed(upstream.models, entry.upstream) {
        errors := errors + [CanonicalNotListed(entry)];
      } else {
        if errors == [] {
          LocksMore(canonical, n, upstream, models, schema);
        }
        models := models[entry.upstream := Project(upstream.models[entry.upstream], schema)];
      }
    }
    assert canonical[..|canonical|] == canonical;
  }

  lemma ListedMore(canonical: seq<Canonical>, n: nat, upstream: Upstream)
    requires n < |canonical|
    ensures CanonicalsListed(canonical[..n + 1], upstream)
       <==> CanonicalsListed(canonical[..n], upstream) && Listed(upstream.models, canonical[n].upstream)
  {
    assert canonical[..n + 1] == canonical[..n] + [canonical[n]];
  }

  lemma LocksMore(canonical: seq<Canonical>, n: nat, upstream: Upstream, models: map<string, Row>, schema: Schema)
    requires n < |canonical| && LocksCanonicals(canonical[..n], upstream, models, schema)
    requires canonical[n].upstream in upstream.models
    ensures LocksCanonicals(canonical[..n + 1], upstream,
                            models[canonical[n].upstream := Project(upstream.models[canonical[n].upstream], schema)],
                                schema)
  {
    var before, after := canonical[..n], canonical[..n + 1];
    assert forall i :: 0 <= i < n ==> after[i] == before[i];
    forall id | id in models ensures exists i :: 0 <= i < |after| && after[i].upstream == id {
      var i :| 0 <= i < |before| && before[i].upstream == id;
      assert after[i].upstream == id;
    }
    assert after[n].upstream == canonical[n].upstream;
  }

  ghost predicate AllListed(items: seq<Item>, upstream: Upstream) {
    forall n :: 0 <= n < |items| ==> !LockRefuses(items[n], upstream)
  }

  lemma AllListedMore(items: seq<Item>, item: Item, upstream: Upstream)
    ensures AllListed(items + [item], upstream) <==> AllListed(items, upstream) && !LockRefuses(item, upstream)
  {
    var more := items + [item];
    assert more[|items|] == item;
    if AllListed(more, upstream) {
      forall n | 0 <= n < |items| ensures !LockRefuses(items[n], upstream) { assert more[n] == items[n]; }
    }
  }

  /** The lock reports no error exactly if every row that is not curated is listed upstream,
      every curated row is not, and every canonical model is. */
  ghost predicate LockIsClean(spec: Spec, upstream: Upstream) {
    AllListed(Items(spec.providers), upstream) && CanonicalsListed(spec.canonical, upstream)
  }

  lemma ItemsStep(before: seq<Item>, p: Provider, j: nat)
    requires j < |p.models|
    ensures before + ItemsOf(p)[..j + 1] == before + ItemsOf(p)[..j] + [Item(p, p.models[j])]
  {
    assert ItemsOf(p)[..j + 1] == ItemsOf(p)[..j] + [ItemsOf(p)[j]];
  }

  lemma ItemsNext(providers: seq<Provider>, i: nat)
    requires i < |providers|
    ensures Items(providers[..i + 1]) == Items(providers[..i]) + ItemsOf(providers[i])
  {
    assert providers[..i + 1][..i] == providers[..i];
  }

  method BuildSeedLock(spec: Spec, upstream: Upstream, schema: Schema, canonicalSchema: Schema)
    returns (lock: Lock, errors: seq<LockError>)
    ensures LockOf(Items(spec.providers), upstream, lock.providers, schema)
    ensures errors == [] <==> LockIsClean(spec, upstream)
    ensures errors == [] ==> LocksCanonicals(spec.canonical, upstream, lock.models, canonicalSchema)
  {
    var locked: map<string, map<string, Row>> := map[];
    errors := [];
    ghost var items: seq<Item> := [];
    for i := 0 to |spec.providers|
      invariant items == Items(spec.providers[..i])
      invariant LockOf(items, upstream, locked, schema)
      invariant errors == [] <==> AllListed(items, upstream)
    {
      var p := spec.providers[i];
      ghost var before := items;
      assert ItemsOf(p)[..0] == [] && before + [] == before;
      for j := 0 to |p.models|
        invariant items == before + ItemsOf(p)[..j]
        invariant LockOf(items, upstream, locked, schema)
        invariant errors == [] <==> AllListed(items, upstream)
      {
        var item := Item(p, p.models[j]);
        locked, errors := LockItem(item, upstream, schema, items, locked, errors);
        AllListedMore(items, item, upstream);
        ItemsStep(before, p, j);
        items := items + [item];
      }
      assert ItemsOf(p)[..|p.models|] == ItemsOf(p);
      ItemsNext(spec.providers, i);
    }
    assert spec.providers[..|spec.providers|] == spec.providers;
    var models, more := LockCanonical(spec.canonical, upstream, canonicalSchema);
    lock, errors := Lock(models, locked), errors + more;
  }

  // ---------------------------------------------------------------- the seed

  datatype Rendered = Rendered(row: Row) | CuratedInLock | NotInLock | BaseConflict

  /** The fields that the seed writes itself. */
  function Rewritten(row: Row, item: Item): Row {
    var named := row["id" := Str(item.model.id)];
    var based := if item.Base().Some? then named["base_model" := Str(item.Base().value)] else named;
    var plain := based - {"default"};
    if item.model.id == item.provider.default then plain["default" := Bool(true)] else plain
  }

  /** The spec's base model contradicts the canonical id of the row. */
  predicate Conflicts(row: Row, item: Item) {
    && item.Base().Some? && "canonical_model_id" in row
    && row["canonical_model_id"] != Null && row["canonical_model_id"] != Str(item.Base().value)
  }

  /** One turn of the inner loop of `render_seed`. */
  function RenderItem(spec: Spec, item: Item, locked: map<string, map<string, Row>>, schema: Schema): Rendered {
    var rows := RowsAt(locked, item.UpProvider());
    var found := FindRow(rows, item.UpId());
    if item.model.curated then
      if found.Some? then CuratedInLock
      else if item.Key() !in spec.curated then NotInLock
      else Finished(Project(spec.curated[item.Key()], schema), item, schema)
    else if found.None? then NotInLock
    else Finished(rows[found.value], item, schema)
  }

  function Finished(row: Row, item: Item, schema: Schema): Rendered {
    if Conflicts(row["id" := Str(item.model.id)], item) then BaseConflict
    else Rendered(Project(Obj(Rewritten(row, item)), schema))
  }

  datatype RenderError = ItemRefused(item: Item, why: Rendered) | CanonicalNotLocked(entry: Canonical)

  /** The inner loop, for any way to render one model. */
  method RenderModels(p: Provider, render: Model -> Rendered) returns (rows: map<string, Row>, errors: seq<RenderError>)
    requires DistinctIds(p.models)
    ensures errors == [] <==> forall i :: 0 <= i < |p.models| ==> render(p.models[i]).Rendered?
    ensures errors == [] ==> forall i :: 0 <= i < |p.models| ==>
              p.models[i].id in rows && Rendered(rows[p.models[i].id]) == render(p.models[i])
    ensures forall id :: id in rows ==> exists i :: 0 <= i < |p.models| && p.models[i].id == id
  {
    rows, errors := map[], [];
    for n := 0 to |p.models|
      invariant errors == [] <==> forall i :: 0 <= i < n ==> render(p.models[i]).Rendered?
      invariant errors == [] ==> forall i :: 0 <= i < n ==>
                  p.models[i].id in rows && Rendered(rows[p.models[i].id]) == render(p.models[i])
      invariant forall id :: id in rows ==> exists i :: 0 <= i < n && p.models[i].id == id
    {
      var model := p.models[n];
      var result := render(model);
      if result.Rendered? {
        rows := rows[model.id := result.row];
      } else {
        errors := errors + [ItemRefused(Item(p, model), result)];
      }
    }
  }

  datatype Seed = Seed(models: map<string, Row>, providers: map<string, map<string, Row>>)

  ghost predicate ProviderAccepted(spec: Spec, p: Provider, lock: Lock, schema: Schema) {
    forall i :: 0 <= i < |p.models| ==> RenderItem(spec, Item(p, p.models[i]), lock.providers, schema).Rendered?
  }

  ghost predicate RenderAccepts(spec: Spec, lock: Lock, schema: Schema) {
    AcceptsUpTo(spec, |spec.providers|, lock, schema) && CanonicalsLocked(spec.canonical, lock.models)
  }

  /** One finished row for each model of the provider, and nothing else. */
  ghost predicate RendersProvider(spec: Spec, p: Provider, rows: map<string, Row>, lock: Lock, schema: Schema) {
    && (forall i :: 0 <= i < |p.models| ==>
          p.models[i].id in rows && Rendered(rows[p.models[i].id])
              == RenderItem(spec, Item(p, p.models[i]), lock.providers, schema))
    && forall id :: id in rows ==> exists i :: 0 <= i < |p.models| && p.models[i].id == id
  }

  /** The output has the first `n` providers as its keys. */
  ghost predicate KeysUpTo(all: seq<Provider>, n: nat, out: map<string, map<string, Row>>)
    requires n <= |all|
  {
    forall p :: p in out <==> ListedBefore(all, n, p)
  }

  ghost predicate ListedBefore(all: seq<Provider>, n: nat, id: string)
    requires n <= |all|
  {
    exists i :: 0 <= i < n && all[i].id == id
  }

  ghost predicate RendersUpTo(spec: Spec, n: nat, out: map<string, map<string, Row>>, lock: Lock, schema: Schema)
    requires n <= |spec.providers|
  {
    forall i :: 0 <= i < n ==> RendersOne(spec, spec.providers[i], out, lock, schema)
  }

  ghost predicate RendersOne(spec: Spec, p: Provider, out: map<string, map<string, Row>>, lock: Lock, schema: Schema) {
    p.id in out && RendersProvider(spec, p, out[p.id], lock, schema)
  }

  lemma RendersOther(spec: Spec, p: Provider, out: map<string, map<string, Row>>, id: string, rows: map<string, Row>,
      lock: Lock, schema: Schema)
    requires RendersOne(spec, p, out, lock, schema) && p.id != id
    ensures RendersOne(spec, p, out[id := rows], lock, schema)
  {
    assert out[id := rows][p.id] == out[p.id];
  }

  lemma RendersThis(spec: Spec, p: Provider, out: map<string, map<string, Row>>, rows: map<string, Row>, lock: Lock,
      schema: Schema)
    requires RendersProvider(spec, p, rows, lock, schema)
    ensures RendersOne(spec, p, out[p.id := rows], lock, schema)
  {
    assert out[p.id := rows][p.id] == rows;
  }

  lemma RendersNext(spec: Spec, n: nat, out: map<string, map<string, Row>>, rows: map<string, Row>, lock: Lock,
      schema: Schema)
    requires n < |spec.providers| && ProvidersOK(spec.providers, spec.curated)
    requires RendersUpTo(spec, n, out, lock, schema) && RendersProvider(spec, spec.providers[n], rows, lock, schema)
    ensures RendersUpTo(spec, n + 1, out[spec.providers[n].id := rows], lock, schema)
  {
    forall i | 0 <= i < n + 1
      ensures RendersOne(spec, spec.providers[i], out[spec.providers[n].id := rows], lock, schema)
    {
      if i < n {
        RendersOther(spec, spec.providers[i], out, spec.providers[n].id, rows, lock, schema);
      } else {
        RendersThis(spec, spec.providers[n], out, rows, lock, schema);
      }
    }
  }

  ghost predicate AcceptsUpTo(spec: Spec, n: nat, lock: Lock, schema: Schema)
    requires n <= |spec.providers|
  {
    forall i :: 0 <= i < n ==> ProviderAccepted(spec, spec.providers[i], lock, schema)
  }

  /** The models of one provider; on no error, exactly one finished row for each model. */
  method RenderProvider(spec: Spec, p: Provider, lock: Lock, schema: Schema)
    returns (rows: map<string, Row>, errors: seq<RenderError>)
    requires DistinctIds(p.models)
    ensures errors == [] <==> ProviderAccepted(spec, p, lock, schema)
    ensures errors == [] ==> RendersProvider(spec, p, rows, lock, schema)
  {
    rows, errors := RenderModels(p, m => RenderItem(spec, Item(p, m), lock.providers, schema));
  }

  lemma AcceptsNext(spec: Spec, n: nat, lock: Lock, schema: Schema)
    requires n < |spec.providers|
    ensures AcceptsUpTo(spec, n + 1, lock, schema)
            <==> AcceptsUpTo(spec, n, lock, schema) && ProviderAccepted(spec, spec.providers[n], lock, schema)
  {}

  lemma KeysNext(all: seq<Provider>, n: nat, out: map<string, map<string, Row>>, rows: map<string, Row>)
    requires n < |all| && KeysUpTo(all, n, out)
    ensures KeysUpTo(all, n + 1, out[all[n].id := rows])
  {}

  method RenderProviders(spec: Spec, lock: Lock, schema: Schema)
    returns (providers: map<string, map<string, Row>>, errors: seq<RenderError>)
    requires ValidSpec(spec)
    ensures errors == [] <==> AcceptsUpTo(spec, |spec.providers|, lock, schema)
    ensures KeysUpTo(spec.providers, |spec.providers|, providers)
    ensures errors == [] ==> RendersUpTo(spec, |spec.providers|, providers, lock, schema)
  {
    providers, errors := map[], [];
    for n := 0 to |spec.providers|
      invariant errors == [] <==> AcceptsUpTo(spec, n, lock, schema)
      invariant KeysUpTo(spec.providers, n, providers)
      invariant errors == [] ==> RendersUpTo(spec, n, providers, lock, schema)
    {
      var p := spec.providers[n];
      assert ProviderOK(p, spec.curated);
      var rows, more := RenderProvider(spec, p, lock, schema);
      AcceptsNext(spec, n, lock, schema);
      KeysNext(spec.providers, n, providers, rows);
      if errors + more == [] {
        RendersNext(spec, n, providers, rows, lock, schema);
      }
      providers := providers[p.id := rows];
      errors := errors + more;
    }
  }

  /** No later entry has the key of entry `i`. */
  predicate IsLast(canonical: seq<Canonical>, i: nat) {
    i < |canonical| && forall j :: i < j < |canonical| ==> canonical[j].key != canonical[i].key
  }

  /** The finished row of a canonical entry. */
  function CanonicalRow(entry: Canonical, row: Row, schema: Schema): Row {
    Project(Obj(row["id" := Str(entry.key)]), schema)
  }

  /** One row for each key, from the last entry with that key. */
  ghost predicate RendersCanonicals(canonical: seq<Canonical>, locked: map<string, Row>, models: map<string, Row>,
      schema: Schema) {
    && (forall key :: key in models ==> KeyOf(canonical, key))
    && (forall i :: 0 <= i < |canonical| ==> canonical[i].key in models && canonical[i].upstream in locked)
    && forall i :: 0 <= i < |canonical| && IsLast(canonical, i) ==>
         models[canonical[i].key] == CanonicalRow(canonical[i], locked[canonical[i].upstream], schema)
  }

  lemma LastBefore(canonical: seq<Canonical>, n: nat, i: nat)
    requires i < n < |canonical| && IsLast(canonical[..n + 1], i)
    ensures IsLast(canonical[..n], i) && canonical[i].key != canonical[n].key
  {
    var before, after := canonical[..n], canonical[..n + 1];
    assert after[n].key != after[i].key;
    forall j | i < j < n ensures before[j].key != before[i].key {
      assert after[j].key != after[i].key;
    }
  }

  /** A row of some entry. */
  ghost predicate KeyOf(canonical: seq<Canonical>, key: string) {
    exists i :: 0 <= i < |canonical| && canonical[i].key == key
  }

  lemma KeysMore(canonical: seq<Canonical>, n: nat, key: string)
    requires n < |canonical|
    ensures KeyOf(canonical[..n + 1], key) <==> KeyOf(canonical[..n], key) || canonical[n].key == key
  {
    var before, after := canonical[..n], canonical[..n + 1];
    if i :| 0 <= i < n && before[i].key == key {
      assert after[i].key == key;
    }
    assert after[n].key == canonical[n].key;
    if i :| 0 <= i < |after| && after[i].key == key {
      assert i < n ==> before[i].key == key;
    }
  }

  lemma RendersMore(canonical: seq<Canonical>, n: nat, locked: map<string, Row>, models: map<string, Row>,
                    schema: Schema)
    requires n < |canonical| && RendersCanonicals(canonical[..n], locked, models, schema)
    requires canonical[n].upstream in locked
    ensures RendersCanonicals(canonical[..n + 1], locked,
                              models[canonical[n].key := CanonicalRow(canonical[n], locked[canonical[n].upstream],
                                  schema)],
                              schema)
  {
    var before, after := canonical[..n], canonical[..n + 1];
    var row := CanonicalRow(canonical[n], locked[canonical[n].upstream], schema);
    var more := models[canonical[n].key := row];
    forall key | key in more ensures KeyOf(after, key) {
      KeysMore(canonical, n, key);
    }
    forall i | 0 <= i < |after| ensures after[i].key in more && after[i].upstream in locked {
      assert i < n ==> after[i] == before[i];
    }
    forall i | 0 <= i < |after| && IsLast(after, i)
      ensures more[after[i].key] == CanonicalRow(after[i], locked[after[i].upstream], schema)
    {
      if i < n {
        LastBefore(canonical, n, i);
        assert after[i] == before[i];
      }
    }
  }

  predicate CanonicalsLocked(canonical: seq<Canonical>, locked: map<string, Row>) {
    forall i :: 0 <= i < |canonical| ==> canonical[i].upstream in locked
  }

  lemma LockedMore(canonical: seq<Canonical>, n: nat, locked: map<string, Row>)
    requires n < |canonical|
    ensures CanonicalsLocked(canonical[..n + 1], locked)
       <==> CanonicalsLocked(canonical[..n], locked) && canonical[n].upstream in locked
  {
    assert canonical[..n + 1] == canonical[..n] + [canonical[n]];
  }

  method RenderCanonical(spec: Spec, lock: Lock, schema: Schema)
    returns (models: map<string, Row>, errors: seq<RenderError>)
    ensures errors == [] <==> CanonicalsLocked(spec.canonical, lock.models)
    ensures errors == [] ==> RendersCanonicals(spec.canonical, lock.models, models, schema)
  {
    models, errors := map[], [];
    var canonical := spec.canonical;
    for n := 0 to |canonical|
      invariant errors == [] <==> CanonicalsLocked(canonical[..n], lock.models)
      invariant errors == [] ==> RendersCanonicals(canonical[..n], lock.models, models, schema)
    {
      var entry := canonical[n];
      LockedMore(canonical, n, lock.models);
      if entry.upstream !in lock.models {
        errors := errors + [CanonicalNotLocked(entry)];
      } else {
        if errors == [] {
          RendersMore(canonical, n, lock.models, models, schema);
        }
        models := models[entry.key := Project(Obj(lock.models[entry.upstream]["id" := Str(entry.key)]), schema)];
      }
    }
    assert canonical[..|canonical|] == canonical;
  }

  /** `render_seed` refuses (None) or gives a seed with one finished row for each model of each
      provider and for each canonical key, and nothing else. `reviewed` is the outcome of `validate_reviewed`. */
  method RenderSeed(spec: Spec, lock: Lock, schema: Schema, canonicalSchema: Schema, reviewed: bool)
    returns (seed: Option<Seed>)
    requires ValidSpec(spec)
    ensures seed.Some? <==> reviewed && RenderAccepts(spec, lock, schema)
    ensures seed.Some? ==> SeedOf(spec, lock, seed.value, schema)
    ensures seed.Some? ==> RendersCanonicals(spec.canonical, lock.models, seed.value.models, canonicalSchema)
  {
    var providers, errors := RenderProviders(spec, lock, schema);
    var models, more := RenderCanonical(spec, lock, canonicalSchema);
    seed := if errors + more == [] && reviewed then Some(Seed(models, providers)) else None;
  }

  /** One entry for each provider, with one finished row for each of its models. */
  ghost predicate SeedOf(spec: Spec, lock: Lock, seed: Seed, schema: Schema) {
    && KeysUpTo(spec.providers, |spec.providers|, seed.providers)
    && RendersUpTo(spec, |spec.providers|, seed.providers, lock, schema)
  }
}
