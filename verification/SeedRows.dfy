/**
 Rows of the model catalog (scripts/catalog_models_dev.py): scrubbing, projection and lookup.
 Dictionaries are maps here, so the order of keys is not modelled.
 */
module SeedRows {
  import opened Common

  type Row = map<string, Json>

  // ---------------------------------------------------------------- credential keys

  predicate EndsWith(s: string, tail: string) {
    |tail| <= |s| && s[|s| - |tail|..] == tail
  }

  const BANNED: set<string> := {"api_key", "apikey", "authorization", "token", "access_token",
                                "refresh_token", "secret", "password", "client_secret"}

  /** Compared by `str.lower`, modelled on ASCII text. */
  predicate IsCredentialKey(key: string) {
    var low := Lower(key);
    low in BANNED || EndsWith(low, "_api_key") || EndsWith(low, "_secret")
  }

  /** Credential-shaped keys are dropped at every depth. */
  function Strip(node: Json): Json {
    match node
    case Obj(fields) => Obj(map k | k in fields && !IsCredentialKey(k) :: Strip(fields[k]))
    case Arr(items) => Arr(seq(|items|, i requires 0 <= i < |items| => Strip(items[i])))
    case _ => node
  }

  /** No object at any depth has a credential-shaped key. */
  predicate Clean(node: Json) {
    match node
    case Obj(fields) => forall k :: k in fields ==> !IsCredentialKey(k) && Clean(fields[k])
    case Arr(items) => forall i :: 0 <= i < |items| ==> Clean(items[i])
    case _ => true
  }

  lemma {:induction false} StripIsClean(node: Json)
    ensures Clean(Strip(node))
  {
    match node
    case Obj(fields) =>
      forall k | k in fields ensures Clean(Strip(fields[k])) { StripIsClean(fields[k]); }
    case Arr(items) =>
      forall i | 0 <= i < |items| ensures Clean(Strip(items[i])) { StripIsClean(items[i]); }
    case _ =>
  }

  /** Nothing but credential-shaped keys is dropped. */
  lemma OnlyCredentialsAreDropped(fields: map<string, Json>, k: string)
    ensures k in Strip(Obj(fields)).fields <==> k in fields && !IsCredentialKey(k)
    ensures k in fields && !IsCredentialKey(k) ==> Strip(Obj(fields)).fields[k] == Strip(fields[k])
  {}

  lemma LowerOfBoth(a: string, b: string)
    ensures Lower(a + b) == Lower(a) + Lower(b)
  {}

  /** Whatever stands before them and in any case, the two endings mark a credential. */
  lemma CredentialsAreFound(before: string, key: string)
    requires Lower(key) == "_api_key" || Lower(key) == "_secret"
    ensures IsCredentialKey(before + key)
  {
    LowerOfBoth(before, key);
  }

  lemma CaseDoesNotMatter(key: string, other: string)
    requires Lower(key) == Lower(other)
    ensures IsCredentialKey(key) <==> IsCredentialKey(other)
  {}

  lemma {:induction false} CleanIsKept(node: Json)
    requires Clean(node)
    ensures Strip(node) == node
  {
    match node
    case Obj(fields) =>
      forall k | k in fields ensures Strip(fields[k]) == fields[k] { CleanIsKept(fields[k]); }
    case Arr(items) =>
      forall i | 0 <= i < |items| ensures Strip(items[i]) == items[i] { CleanIsKept(items[i]); }
      assert Strip(node).items == items;
    case _ =>
  }

  // ---------------------------------------------------------------- projection

  /** The fields to keep, and for some fields the keys to keep inside. */
  datatype Schema = Schema(fields: set<string>, nested: map<string, set<string>>)

  /** The value to keep for a field; nothing if a nested field has nothing to keep. */
  function Inner(field: string, value: Json, schema: Schema): Option<Json> {
    if field !in schema.nested then Some(value)
    else if !value.Obj? then None
    else
      var kept := map k | k in schema.nested[field] && k in value.fields && value.fields[k] != Null :: value.fields[k];
      if kept == map[] then None else Some(Obj(kept))
  }

  /** What a projection keeps of one field of a row. */
  function KeptField(row: Row, field: string, schema: Schema): Option<Json> {
    if field !in schema.fields || field !in row || row[field] == Null then None
    else Inner(field, Strip(row[field]), schema)
  }

  /** `project_fields`. */
  function Project(row: Json, schema: Schema): Row {
    if !row.Obj? then map[]
    else
      map field | field in schema.fields && KeptField(row.fields, field, schema).Some? ::
        KeptField(row.fields, field, schema).value
  }

  lemma InnerTwice(field: string, value: Json, schema: Schema)
    requires Inner(field, value, schema).Some? && Clean(value)
    ensures Inner(field, Inner(field, value, schema).value, schema) == Inner(field, value, schema)
    ensures Clean(Inner(field, value, schema).value)
    ensures value != Null ==> Inner(field, value, schema).value != Null
  {
    if field in schema.nested {
      var kept := Inner(field, value, schema).value.fields;
      assert kept == map k | k in schema.nested[field] && k in kept && kept[k] != Null :: kept[k];
    }
  }

  lemma StripKeepsNull(value: Json)
    ensures Strip(value) == Null <==> value == Null
  {}

  /** A projected value passes through another projection unchanged. */
  lemma KeptTwice(row: Row, field: string, schema: Schema)
    requires KeptField(row, field, schema).Some?
    ensures var v := KeptField(row, field, schema).value;
            v != Null && Clean(v) && Inner(field, Strip(v), schema) == Some(v)
  {
    StripIsClean(row[field]);
    StripKeepsNull(row[field]);
    InnerTwice(field, Strip(row[field]), schema);
    CleanIsKept(KeptField(row, field, schema).value);
  }

  /** A row whose every field survives projection unchanged. */
  ghost predicate Projected(row: Row, schema: Schema) {
    forall field :: field in row ==> field in schema.fields && row[field] != Null
                                     && Inner(field, Strip(row[field]), schema) == Some(row[field])
  }

  /** Every listed field that has something to keep is kept, scrubbed; of a nested field exactly the
      listed keys that are not null. */
  lemma ProjectKeepsListed(row: Row, field: string, schema: Schema)
    requires field in schema.fields && field in row && row[field] != Null
    ensures field !in schema.nested ==>
              field in Project(Obj(row), schema) && Project(Obj(row), schema)[field] == Strip(row[field])
    ensures field in schema.nested && field in Project(Obj(row), schema) ==>
              var kept := Project(Obj(row), schema)[field];
              && kept.Obj? && Strip(row[field]).Obj?
              && forall k :: k in kept.fields <==>
                   k in schema.nested[field] && k in Strip(row[field]).fields && Strip(row[field]).fields[k] != Null
    ensures field in schema.nested && field !in Project(Obj(row), schema) ==>
              !Strip(row[field]).Obj? || forall k :: k in schema.nested[field] && k in Strip(row[field]).fields ==>
                                           Strip(row[field]).fields[k] == Null
  {
    if field in schema.nested && Strip(row[field]).Obj? {
      var value := Strip(row[field]).fields;
      var kept := map k | k in schema.nested[field] && k in value && value[k] != Null :: value[k];
      if k :| k in schema.nested[field] && k in value && value[k] != Null {
        assert k in kept;
      }
    }
  }

  lemma ProjectIsProjected(row: Json, schema: Schema)
    ensures Projected(Project(row, schema), schema)
  {
    forall field | field in Project(row, schema)
      ensures field in schema.fields && Project(row, schema)[field] != Null
      ensures Inner(field, Strip(Project(row, schema)[field]), schema) == Some(Project(row, schema)[field])
    {
      KeptTwice(row.fields, field, schema);
    }
  }

  /** Projection changes nothing in a projected row. */
  lemma ProjectedIsKept(row: Row, schema: Schema)
    requires Projected(row, schema)
    ensures Project(Obj(row), schema) == row
  {}

  // ---------------------------------------------------------------- lookup

  predicate SameId(a: string, b: string) {
    Lower(a) == Lower(b)
  }

  function Variants<T>(rows: map<string, T>, id: string): set<string> {
    set k | k in rows && SameId(k, id)
  }

  lemma OnlyMember<T>(s: set<T>, a: T, b: T)
    requires |s| == 1 && a in s && b in s
    ensures a == b
  {
    assert |s - {a}| == 0;
    assert b !in s - {a};
  }

  function TheMember<T(==)>(s: set<T>): (m: T)
    requires |s| == 1
    ensures m in s
  {
    assert s != {};
    assert forall a, b :: a in s && b in s ==> a == b by {
      forall a, b | a in s && b in s ensures a == b { OnlyMember(s, a, b); }
    }
    var m :| m in s;
    m
  }

  /** `find_row`: the exact id first, then a unique match that ignores case. */
  function FindRow<T>(rows: map<string, T>, id: string): (found: Option<string>)
    ensures found.Some? ==> found.value in rows && SameId(found.value, id)
    ensures id in rows ==> found == Some(id)
    ensures id !in rows ==> (found.Some? <==> |Variants(rows, id)| == 1)
  {
    if id in rows then Some(id)
    else if |Variants(rows, id)| == 1 then Some(TheMember(Variants(rows, id)))
    else None
  }

  /** A lookup in a part of the rows that contains the row found in all of them finds it again. */
  lemma FindAgrees<T, U>(all: map<string, T>, part: map<string, U>, id: string)
    requires part.Keys <= all.Keys
    requires FindRow(all, id).Some? && FindRow(all, id).value in part
    ensures FindRow(part, id) == FindRow(all, id)
  {
    var key := FindRow(all, id).value;
    if id !in all {
      assert Variants(part, id) <= Variants(all, id);
      assert Variants(part, id) == {key} by {
        forall k | k in Variants(part, id) ensures k == key { OnlyMember(Variants(all, id), k, key); }
      }
    }
  }

  /** A lookup that fails in all rows can succeed in a part of them, exactly when the part has
      one of several variants. */
  lemma FindInPartIff<T, U>(all: map<string, T>, part: map<string, U>, id: string)
    requires part.Keys <= all.Keys && FindRow(all, id).None?
    ensures FindRow(part, id).Some? <==> |Variants(part, id)| == 1
    ensures FindRow(part, id).Some? ==> |Variants(all, id)| >= 2
  {
    if |Variants(part, id)| == 1 {
      var k := TheMember(Variants(part, id));
      assert k in Variants(all, id);
      assert |Variants(all, id)| != 0;
    }
  }
}
