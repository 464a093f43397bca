/** The lock and the seed agree: what was found in the whole upstream catalog is found again in
    its locked part, and exactly when the render step refuses what the lock step accepted. */
module SeedAgreement {
  import opened Common
  import opened SeedRows
  import opened SeedCompiler

  /** The provider-model fields of the source, and what is kept inside nested ones. */
  const PROVIDER_SCHEMA: Schema := Schema(
    {"id", "base_model", "canonical_model_id", "name", "description", "type", "family", "knowledge",
     "release_date", "last_updated", "default", "attachment", "reasoning", "reasoning_options",
     "interleaved", "tool_call", "structured_output", "temperature", "open_weights", "modalities",
     "limit", "cost", "provider", "status", "experimental"},
    map["limit" := {"context", "input", "output"},
        "modalities" := {"input", "output"},
        "cost" := {"input", "output", "cache_read", "cache_write", "reasoning", "input_audio", "output_audio",
            "tiers", "context_over_200k"},
        "provider" := {"npm", "api", "shape", "body", "headers"}])

  /** The fields that the seed writes are kept whole by the projection. */
  predicate SchemaOK(schema: Schema) {
    && {"id", "base_model", "default"} <= schema.fields
    && {"id", "base_model", "default"} !! schema.nested.Keys
  }

  /** The fields of the source are such a schema. */
  lemma ProviderSchemaIsOK()
    ensures SchemaOK(PROVIDER_SCHEMA)
  {
    assert |"id"| == 2 && |"base_model"| == 10 && |"default"| == 7;
    assert |"limit"| == 5 && |"modalities"| == 10 && |"cost"| == 4 && |"provider"| == 8;
    assert "base_model"[0] == 'b' && "modalities"[0] == 'm';
  }

  // ---------------------------------------------------------------- one row

  /** The row found upstream for a row of the spec that is not curated, projected. */
  function UpstreamRow(item: Item, upstream: Upstream, schema: Schema): Row
    requires Source(item, upstream).Some?
  {
    Project(RowsAt(upstream.providers, item.UpProvider())[Source(item, upstream).value], schema)
  }

  /** The lookup in the lock finds the very row that the lookup upstream found. */
  lemma LockedRowIsSource(items: seq<Item>, n: nat, upstream: Upstream, locked: map<string, map<string, Row>>,
      schema: Schema)
    requires n < |items| && LockOf(items, upstream, locked, schema)
    requires !items[n].model.curated && Source(items[n], upstream).Some?
    ensures var rows := RowsAt(locked, items[n].UpProvider());
            && FindRow(rows, items[n].UpId()) == Source(items[n], upstream)
            && rows[Source(items[n], upstream).value] == UpstreamRow(items[n], upstream, schema)
  {
    var item := items[n];
    var all, part := RowsAt(upstream.providers, item.UpProvider()), RowsAt(locked, item.UpProvider());
    assert ChoiceIsLocked(item, upstream, locked);
    forall k | k in part ensures k in all && part[k] == Project(all[k], schema) {
      assert LockedIsChosen(items, upstream, item.UpProvider(), k, part[k], schema);
    }
    FindAgrees(all, part, item.UpId());
  }

  lemma RewrittenIsProjected(row: Row, item: Item, schema: Schema)
    requires Projected(row, schema) && SchemaOK(schema)
    ensures Projected(Rewritten(row, item), schema)
  {
    var out := Rewritten(row, item);
    forall f | f in out
      ensures f in schema.fields && out[f] != Null && Inner(f, Strip(out[f]), schema) == Some(out[f])
    {
      if f in {"id", "base_model", "default"} && (f !in row || out[f] != row[f]) {
        assert out[f].Str? || out[f].Bool?;
      } else {
        assert f in row && out[f] == row[f];
      }
    }
  }

  /** Finishing a projected row only rewrites the fields of the seed. */
  lemma FinishedRow(row: Row, item: Item, schema: Schema)
    requires Projected(row, schema) && SchemaOK(schema)
    ensures Finished(row, item, schema) == if Conflicts(row, item) then BaseConflict else Rendered(Rewritten(row, item))
  {
    RewrittenIsProjected(row, item, schema);
    ProjectedIsKept(Rewritten(row, item), schema);
    assert |"id"| != |"canonical_model_id"|;
  }

  /** What `render_seed` makes of a row that was derived from upstream. */
  lemma DerivedItem(spec: Spec, items: seq<Item>, n: nat, upstream: Upstream, locked: map<string, map<string, Row>>,
      schema: Schema)
    requires n < |items| && LockOf(items, upstream, locked, schema) && SchemaOK(schema)
    requires !items[n].model.curated && Source(items[n], upstream).Some?
    ensures var row := UpstreamRow(items[n], upstream, schema);
            RenderItem(spec, items[n], locked, schema)
              == if Conflicts(row, items[n]) then BaseConflict else Rendered(Rewritten(row, items[n]))
  {
    LockedRowIsSource(items, n, upstream, locked, schema);
    ProjectIsProjected(RowsAt(upstream.providers, items[n].UpProvider())[Source(items[n], upstream).value], schema);
    FinishedRow(UpstreamRow(items[n], upstream, schema), items[n], schema);
  }

  /** Exactly one of the case variants of the curated id is locked, on account of other rows. */
  ghost predicate OneVariantChosen(item: Item, items: seq<Item>, upstream: Upstream) {
    exists k :: VariantChosen(item, items, upstream, k)
                && forall l :: VariantChosen(item, items, upstream, l) ==> l == k
  }

  ghost predicate VariantChosen(item: Item, items: seq<Item>, upstream: Upstream, k: string) {
    k in RowsAt(upstream.providers, item.UpProvider()) && SameId(k, item.UpId())
        && ChosenBy(items, upstream, item.UpProvider(), k)
  }

  lemma LockedVariants(item: Item, items: seq<Item>, upstream: Upstream, locked: map<string, map<string, Row>>,
      schema: Schema)
    requires LockOf(items, upstream, locked, schema)
    ensures forall k :: k in Variants(RowsAt(locked, item.UpProvider()), item.UpId()) <==>
          VariantChosen(item, items, upstream, k)
  {
    var part := RowsAt(locked, item.UpProvider());
    forall k ensures k in Variants(part, item.UpId()) <==> VariantChosen(item, items, upstream, k) {
      if k in part {
        assert LockedIsChosen(items, upstream, item.UpProvider(), k, part[k], schema);
      }
      if VariantChosen(item, items, upstream, k) {
        var n :| 0 <= n < |items| && Chooses(items[n], upstream, item.UpProvider(), k);
        assert ChoiceIsLocked(items[n], upstream, locked);
      }
    }
  }

  lemma SingleIff(s: set<string>)
    ensures |s| == 1 <==> exists k :: k in s && forall l :: l in s ==> l == k
  {
    if |s| == 1 {
      var k := TheMember(s);
      forall l | l in s ensures l == k { OnlyMember(s, k, l); }
    }
    if k :| k in s && forall l :: l in s ==> l == k {
      assert s == {k};
    }
  }

  /** Exactly when the render step refuses a curated row that passed the lock step. */
  lemma CuratedIsRefusedIff(spec: Spec, item: Item, items: seq<Item>, upstream: Upstream,
                            
                         locked: map<string, map<string, Row>>, schema: Schema)
    requires LockOf(items, upstream, locked, schema) && item.model.curated && Source(item, upstream).None?
    ensures RenderItem(spec, item, locked, schema).CuratedInLock? <==> OneVariantChosen(item, items, upstream)
  {
    var part := RowsAt(locked, item.UpProvider());
    LockedVariants(item, items, upstream, locked, schema);
    OneVariantIff(item, items, upstream, Variants(part, item.UpId()));
    LockedIsListed(items, upstream, locked, item.UpProvider(), schema);
  }

  lemma LockedIsListed(items: seq<Item>, upstream: Upstream, locked: map<string, map<string, Row>>, provider: string,
      schema: Schema)
    requires LockOf(items, upstream, locked, schema)
    ensures RowsAt(locked, provider).Keys <= RowsAt(upstream.providers, provider).Keys
  {
    var part := RowsAt(locked, provider);
    forall k | k in part ensures k in RowsAt(upstream.providers, provider) {
      assert LockedIsChosen(items, upstream, provider, k, part[k], schema);
    }
  }

  lemma OneVariantIff(item: Item, items: seq<Item>, upstream: Upstream, variants: set<string>)
    requires forall k :: k in variants <==> VariantChosen(item, items, upstream, k)
    ensures |variants| == 1 <==> OneVariantChosen(item, items, upstream)
  {
    SingleIff(variants);
    if k :| k in variants && forall l :: l in variants ==> l == k {
      assert VariantChosen(item, items, upstream, k);
    }
    if OneVariantChosen(item, items, upstream) {
      var k :| VariantChosen(item, items, upstream, k)
               && forall l :: VariantChosen(item, items, upstream, l) ==> l == k;
      assert k in variants;
    }
  }

  // ---------------------------------------------------------------- the whole seed

  /** What a maintainer can check of one row before rendering. */
  ghost predicate ItemFits(spec: Spec, item: Item, items: seq<Item>, upstream: Upstream, schema: Schema) {
    if item.model.curated then
      && !OneVariantChosen(item, items, upstream)
      && item.Key() in spec.curated && !Conflicts(Project(spec.curated[item.Key()], schema), item)
    else
      Source(item, upstream).Some? && !Conflicts(UpstreamRow(item, upstream, schema), item)
  }

  lemma ItemIsRenderedIff(spec: Spec, items: seq<Item>, n: nat, upstream: Upstream,
                         locked: map<string, map<string, Row>>, schema: Schema)
    requires n < |items| && LockOf(items, upstream, locked, schema) && SchemaOK(schema)
    requires !LockRefuses(items[n], upstream)
    ensures RenderItem(spec, items[n], locked, schema).Rendered? <==> ItemFits(spec, items[n], items, upstream, schema)
  {
    var item := items[n];
    if item.model.curated {
      CuratedIsRefusedIff(spec, item, items, upstream, locked, schema);
      if item.Key() in spec.curated {
        ProjectIsProjected(spec.curated[item.Key()], schema);
        FinishedRow(Project(spec.curated[item.Key()], schema), item, schema);
      }
    } else {
      DerivedItem(spec, items, n, upstream, locked, schema);
    }
  }

  ghost predicate AllFit(spec: Spec, upstream: Upstream, schema: Schema) {
    forall i, j :: 0 <= i < |spec.providers| && 0 <= j < |spec.providers[i].models| ==>
      ItemFits(spec, Item(spec.providers[i], spec.providers[i].models[j]), Items(spec.providers), upstream, schema)
  }

  /** A lock that `BuildSeedLock` reports without errors. */
  ghost predicate GoodLock(spec: Spec, upstream: Upstream, lock: Lock, schema: Schema) {
    && LockOf(Items(spec.providers), upstream, lock.providers, schema) && LockIsClean(spec, upstream)
    && CanonicalsLocked(spec.canonical, lock.models)
  }

  /** After a lock without errors, the render step refuses nothing exactly if every row fits. */
  lemma RenderAcceptsIff(spec: Spec, upstream: Upstream, lock: Lock, schema: Schema)
    requires GoodLock(spec, upstream, lock, schema) && SchemaOK(schema)
    ensures RenderAccepts(spec, lock, schema) <==> AllFit(spec, upstream, schema)
  {
    var items := Items(spec.providers);
    forall i, j | 0 <= i < |spec.providers| && 0 <= j < |spec.providers[i].models|
      ensures var item := Item(spec.providers[i], spec.providers[i].models[j]);
              && (RenderItem(spec, item, lock.providers, schema).Rendered?
                  <==> ItemFits(spec, item, items, upstream, schema))
    {
      ItemIsListed(spec.providers, i, j);
      var n :| 0 <= n < |items| && items[n] == Item(spec.providers[i], spec.providers[i].models[j]);
      ItemIsRenderedIff(spec, items, n, upstream, lock.providers, schema);
    }
    if AllFit(spec, upstream, schema) {
      forall i | 0 <= i < |spec.providers| ensures ProviderAccepted(spec, spec.providers[i], lock, schema) {
        forall j | 0 <= j < |spec.providers[i].models|
          ensures var item := Item(spec.providers[i], spec.providers[i].models[j]);
                  RenderItem(spec, item, lock.providers, schema).Rendered?
        {
          assert ItemFits(spec, Item(spec.providers[i], spec.providers[i].models[j]), items, upstream, schema);
        }
      }
    } else {
      var i, j :| 0 <= i < |spec.providers| && 0 <= j < |spec.providers[i].models|
                  && !ItemFits(spec, Item(spec.providers[i], spec.providers[i].models[j]), items, upstream, schema);
      assert !ProviderAccepted(spec, spec.providers[i], lock, schema);
    }
  }

  /** The promise of the pipeline: with no case variant of a curated id upstream and with base
      models that agree, a lock without errors always renders. */
  lemma LockedSpecRenders(spec: Spec, upstream: Upstream, lock: Lock, schema: Schema)
    requires GoodLock(spec, upstream, lock, schema) && SchemaOK(schema) && ValidSpec(spec)
    requires forall i, j :: 0 <= i < |spec.providers| && 0 <= j < |spec.providers[i].models| ==>
               var item := Item(spec.providers[i], spec.providers[i].models[j]);
               if item.model.curated
                 then Variants(RowsAt(upstream.providers, item.UpProvider()), item.UpId()) == {}
                      && !(item.Key() in spec.curated && Conflicts(Project(spec.curated[item.Key()], schema), item))
                 else Source(item, upstream).None? || !Conflicts(UpstreamRow(item, upstream, schema), item)
    ensures RenderAccepts(spec, lock, schema)
  {
    var items := Items(spec.providers);
    forall i, j | 0 <= i < |spec.providers| && 0 <= j < |spec.providers[i].models|
      ensures ItemFits(spec, Item(spec.providers[i], spec.providers[i].models[j]), items, upstream, schema)
    {
      var item := Item(spec.providers[i], spec.providers[i].models[j]);
      assert ProviderOK(spec.providers[i], spec.curated);
      ItemIsListed(spec.providers, i, j);
      var n :| 0 <= n < |items| && items[n] == item;
      assert !LockRefuses(items[n], upstream);
      assert forall k :: VariantChosen(item, items, upstream, k) ==>
          k in Variants(RowsAt(upstream.providers, item.UpProvider()), item.UpId());
    }
    RenderAcceptsIff(spec, upstream, lock, schema);
  }

  /** In the seed, a derived row is the projection of the very upstream row that was found, with
      the fields of the seed rewritten. */
  lemma SeedRowIsUpstreamRow(spec: Spec, upstream: Upstream, lock: Lock, seed: Seed, schema: Schema, i: nat, j: nat)
    requires GoodLock(spec, upstream, lock, schema) && SchemaOK(schema) && SeedOf(spec, lock, seed, schema)
    requires i < |spec.providers| && j < |spec.providers[i].models| && !spec.providers[i].models[j].curated
    ensures var p, item := spec.providers[i], Item(spec.providers[i], spec.providers[i].models[j]);
            && Source(item, upstream).Some? && p.id in seed.providers && item.model.id in seed.providers[p.id]
            && seed.providers[p.id][item.model.id] == Rewritten(UpstreamRow(item, upstream, schema), item)
  {
    var items, item := Items(spec.providers), Item(spec.providers[i], spec.providers[i].models[j]);
    ItemIsListed(spec.providers, i, j);
    var n :| 0 <= n < |items| && items[n] == item;
    assert !LockRefuses(items[n], upstream);
    DerivedItem(spec, items, n, upstream, lock.providers, schema);
    assert RendersProvider(spec, spec.providers[i], seed.providers[spec.providers[i].id], lock, schema);
  }

  /** The fields of such a row: its id is the model's, its base model is the stated one, it is
      marked if it is the default, and every other field is as upstream has it. */
  lemma RewrittenFields(row: Row, item: Item)
    ensures var out := Rewritten(row, item);
            && "id" in out && out["id"] == Str(item.model.id)
            && (item.Base().Some? ==> "base_model" in out && out["base_model"] == Str(item.Base().value))
            && ("default" in out <==> item.model.id == item.provider.default)
            && ("default" in out ==> out["default"] == Bool(true))
            && forall f :: f != "id" && f != "default" && (f != "base_model" || item.Base().None?) ==>
                 (f in out <==> f in row) && (f in row ==> out[f] == row[f])
  {
    assert |"id"| == 2 && |"base_model"| == 10 && |"default"| == 7;
  }

  lemma BaseInRow(row: Row, item: Item)
    requires !Conflicts(row, item) && item.Base().Some?
          && ("canonical_model_id" in row ==> row["canonical_model_id"] != Null)
    ensures var out := Rewritten(row, item);
            && "base_model" in out && out["base_model"] == Str(item.Base().value)
            && ("canonical_model_id" in out ==> out["canonical_model_id"] == out["base_model"])
  {
    RewrittenFields(row, item);
    assert |"canonical_model_id"| == 18 && |"id"| == 2 && |"base_model"| == 10 && |"default"| == 7;
  }

  /** A derived row that is in the seed does not contradict the spec. */
  lemma SeedRowFits(spec: Spec, upstream: Upstream, lock: Lock, seed: Seed, schema: Schema, i: nat, j: nat)
    requires GoodLock(spec, upstream, lock, schema) && SchemaOK(schema) && SeedOf(spec, lock, seed, schema)
    requires i < |spec.providers| && j < |spec.providers[i].models| && !spec.providers[i].models[j].curated
    ensures var item := Item(spec.providers[i], spec.providers[i].models[j]);
            Source(item, upstream).Some? && !Conflicts(UpstreamRow(item, upstream, schema), item)
  {
    var p, item := spec.providers[i], Item(spec.providers[i], spec.providers[i].models[j]);
    var items := Items(spec.providers);
    ItemIsListed(spec.providers, i, j);
    var n :| 0 <= n < |items| && items[n] == item;
    assert !LockRefuses(items[n], upstream);
    DerivedItem(spec, items, n, upstream, lock.providers, schema);
    assert RendersOne(spec, p, seed.providers, lock, schema);
  }

  /** No row of the seed contradicts itself: where the spec states a base model, a canonical id
      that the row carries is the same. */
  lemma BaseAgrees(spec: Spec, upstream: Upstream, lock: Lock, seed: Seed, schema: Schema, i: nat, j: nat)
    requires GoodLock(spec, upstream, lock, schema) && SchemaOK(schema) && SeedOf(spec, lock, seed, schema)
    requires i < |spec.providers| && j < |spec.providers[i].models| && !spec.providers[i].models[j].curated
    requires Item(spec.providers[i], spec.providers[i].models[j]).Base().Some?
    ensures var p, item := spec.providers[i], Item(spec.providers[i], spec.providers[i].models[j]);
            && p.id in seed.providers && item.model.id in seed.providers[p.id]
            && var row := seed.providers[p.id][item.model.id];
               && "base_model" in row && row["base_model"] == Str(item.Base().value)
               && ("canonical_model_id" in row ==> row["canonical_model_id"] == row["base_model"])
  {
    var item := Item(spec.providers[i], spec.providers[i].models[j]);
    SeedRowFits(spec, upstream, lock, seed, schema, i, j);
    SeedRowIsUpstreamRow(spec, upstream, lock, seed, schema, i, j);
    ProjectIsProjected(RowsAt(upstream.providers, item.UpProvider())[Source(item, upstream).value], schema);
    BaseInRow(UpstreamRow(item, upstream, schema), item);
  }

  // ---------------------------------------------------------------- canonical models

  const CANONICAL_SCHEMA: Schema := Schema(
    {"id", "name", "description", "type", "family", "knowledge", "release_date", "last_updated", "attachment",
     "reasoning", "tool_call", "structured_output", "temperature", "open_weights", "modalities", "limit",
     "license", "links", "weights", "benchmarks"},
    PROVIDER_SCHEMA.nested)

  predicate KeepsId(schema: Schema) {
    "id" in schema.fields && "id" !in schema.nested
  }

  lemma CanonicalSchemaKeepsId()
    ensures KeepsId(CANONICAL_SCHEMA)
  {
    assert |"id"| == 2 && |"limit"| == 5 && |"modalities"| == 10 && |"cost"| == 4 && |"provider"| == 8;
  }

  lemma RenamedRow(row: Row, key: string, schema: Schema)
    requires Projected(row, schema) && KeepsId(schema)
    ensures Project(Obj(row["id" := Str(key)]), schema) == row["id" := Str(key)]
  {
    var renamed := row["id" := Str(key)];
    forall f | f in renamed
      ensures f in schema.fields && renamed[f] != Null && Inner(f, Strip(renamed[f]), schema) == Some(renamed[f])
    {
      if f != "id" { assert f in row && renamed[f] == row[f]; }
    }
    ProjectedIsKept(renamed, schema);
  }

  /** After a clean lock the row under a canonical key is the upstream row of its last entry,
      projected, with that key as its id. */
  lemma SeedModelIsUpstreamModel(spec: Spec, upstream: Upstream, lock: Lock, seed: Seed, schema: Schema, i: nat)
    requires KeepsId(schema) && LocksCanonicals(spec.canonical, upstream, lock.models, schema)
    requires RendersCanonicals(spec.canonical, lock.models, seed.models, schema)
    requires i < |spec.canonical| && IsLast(spec.canonical, i)
    ensures var entry := spec.canonical[i];
            && entry.key in seed.models && entry.upstream in upstream.models
            && seed.models[entry.key] == Project(upstream.models[entry.upstream], schema)["id" := Str(entry.key)]
  {
    var entry := spec.canonical[i];
    assert entry.upstream in lock.models;
    var row := Project(upstream.models[entry.upstream], schema);
    ProjectIsProjected(upstream.models[entry.upstream], schema);
    RenamedRow(row, entry.key, schema);
    assert seed.models[entry.key] == CanonicalRow(entry, row, schema);
  }

  /** The models of the seed have exactly the canonical keys. */
  lemma SeedModelsAreCanonical(spec: Spec, lock: Lock, seed: Seed, schema: Schema, key: string)
    requires RendersCanonicals(spec.canonical, lock.models, seed.models, schema)
    ensures key in seed.models <==> exists i :: 0 <= i < |spec.canonical| && spec.canonical[i].key == key
  {}

  /** A rendered row is marked as the default exactly if its model is the provider's default. */
  lemma DefaultMark(spec: Spec, item: Item, 
                         locked: map<string, map<string, Row>>, schema: Schema)
    requires SchemaOK(schema) && RenderItem(spec, item, locked, schema).Rendered?
    ensures var row := RenderItem(spec, item, locked, schema).row;
            && ("default" in row <==> item.model.id == item.provider.default)
            && ("default" in row ==> row["default"] == Bool(true))
            && forall f :: f in row ==> Clean(row[f])
  {
    var rows := RowsAt(locked, item.UpProvider());
    var base := if item.model.curated then Project(spec.curated[item.Key()], schema)
                else rows[FindRow(rows, item.UpId()).value];
    var out := Rewritten(base, item);
    assert "default" in out <==> item.model.id == item.provider.default;
    forall f | f in Project(Obj(out), schema) ensures Clean(Project(Obj(out), schema)[f]) {
      KeptTwice(out, f, schema);
    }
    if item.model.id == item.provider.default {
      assert KeptField(out, "default", schema) == Some(Bool(true));
    }
  }

  /** In the seed of a valid spec each provider has exactly one default row, and no row carries
      a credential-shaped key at any depth. */
  lemma OneDefaultEach(spec: Spec, lock: Lock, seed: Seed, schema: Schema, i: nat)
    requires ValidSpec(spec) && SchemaOK(schema) && SeedOf(spec, lock, seed, schema) && i < |spec.providers|
    ensures var p, rows := spec.providers[i], seed.providers[spec.providers[i].id];
            && p.default in rows
            && (forall id :: id in rows ==> ("default" in rows[id] <==> id == p.default))
            && forall id, f :: id in rows && f in rows[id] ==> Clean(rows[id][f])
  {
    var p, rows := spec.providers[i], seed.providers[spec.providers[i].id];
    assert ProviderOK(p, spec.curated) && RendersProvider(spec, p, rows, lock, schema);
    forall id | id in rows
      ensures ("default" in rows[id] <==> id == p.default) && forall f :: f in rows[id] ==> Clean(rows[id][f])
    {
      var j :| 0 <= j < |p.models| && p.models[j].id == id;
      assert Rendered(rows[id]) == RenderItem(spec, Item(p, p.models[j]), lock.providers, schema);
      DefaultMark(spec, Item(p, p.models[j]), lock.providers, schema);
    }
  }

  // ---------------------------------------------------------------- the refused case

  /** Upstream lists "AB" and "aB"; the spec derives "AB" and curates "ab". The lock step has no
      error, since "ab" has two variants; the render step finds the one locked variant. */
  lemma CuratedBetweenVariants(lock: Lock, schema: Schema)
    requires SchemaOK(schema)
    requires var rows := map["AB" := Obj(map[]), "aB" := Obj(map[])];
             var derived := Model("AB", None, None, None, false);
             var curated := Model("ab", None, None, None, true);
             var p := Provider("u", "u", "AB", [derived, curated]);
             LockOf([Item(p, derived), Item(p, curated)], Upstream(map[], map["u" := rows]), lock.providers, schema)
    ensures var rows := map["AB" := Obj(map[]), "aB" := Obj(map[])];
            var derived := Model("AB", None, None, None, false);
            var curated := Model("ab", None, None, None, true);
            var p := Provider("u", "u", "AB", [derived, curated]);
            var upstream, spec := Upstream(map[], map["u" := rows]), Spec([p], map[("u", "ab") := Obj(map[])], []);
            && !LockRefuses(Item(p, derived), upstream) && !LockRefuses(Item(p, curated), upstream)
            && RenderItem(spec, Item(p, curated), lock.providers, schema) == CuratedInLock
  {
    var rows: map<string, Json> := map["AB" := Obj(map[]), "aB" := Obj(map[])];
    var derived, curated := Model("AB", None, None, None, false), Model("ab", None, None, None, true);
    var p := Provider("u", "u", "AB", [derived, curated]);
    var upstream, spec := Upstream(map[], map["u" := rows]), Spec([p], map[("u", "ab") := Obj(map[])], []);
    var items := [Item(p, derived), Item(p, curated)];
    TwoVariants(rows);
    assert Source(Item(p, curated), upstream).None?;
    assert Chooses(items[0], upstream, "u", "AB");
    assert ChosenBy(items, upstream, "u", "AB");
    forall l | VariantChosen(Item(p, curated), items, upstream, l) ensures l == "AB" {}
    assert VariantChosen(Item(p, curated), items, upstream, "AB");
    CuratedIsRefusedIff(spec, Item(p, curated), items, upstream, lock.providers, schema);
  }

  lemma TwoVariants(rows: map<string, Json>)
    requires rows.Keys == {"AB", "aB"}
    ensures Variants(rows, "ab") == {"AB", "aB"} && "ab" !in rows && "AB" != "aB"
  {
    assert "AB"[0] != "ab"[0] && "aB"[1] != "ab"[1] && "AB"[0] != "aB"[0];
    LowerTwo("AB");
    LowerTwo("aB");
    LowerTwo("ab");
  }

  lemma LowerTwo(s: string)
    requires |s| == 2
    ensures Lower(s) == [LowerChar(s[0]), LowerChar(s[1])]
  {}
}
