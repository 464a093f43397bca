/** Small value types shared by the models. */
module Common {

  datatype Option<+T> = None | Some(value: T)

  /** A decoded JSON value. The text form of JSON is outside the model: see Codec. */
  datatype Json =
    | Null
    | Bool(b: bool)
    | Num(n: int)
    | Str(s: string)
    | Arr(items: seq<Json>)
    | Obj(fields: map<string, Json>)

  /** A JSON writer and reader, given by the two functions a program calls. */
  datatype Codec = Codec(dumps: Json -> string, loads: string -> Option<Json>) {

    /** The contract of `json.dumps` and `JSON.parse` on objects: reading inverts writing,
        and the written text is one line that opens with a brace. */
    ghost predicate Faithful() {
      forall j: Json :: j.Obj? ==>
        && loads(dumps(j)) == Some(j)
        && OneLine(dumps(j))
        && dumps(j) != "" && dumps(j)[0] == '{'
    }
  }

  /** No carriage return and no line feed. */
  predicate OneLine(s: string) {
    forall i :: 0 <= i < |s| ==> s[i] != '\n' && s[i] != '\r'
  }

  function LowerChar(c: char): char {
    if 'A' <= c <= 'Z' then 'a' + (c - 'A') else c
  }

  /** The text with its ASCII capitals in lower case. */
  function Lower(s: string): (low: string)
    ensures |low| == |s|
  {
    seq(|s|, i requires 0 <= i < |s| => LowerChar(s[i]))
  }

  function Flatten<T>(parts: seq<seq<T>>): (whole: seq<T>) {
    if parts == [] then [] else parts[0] + Flatten(parts[1..])
  }

  lemma {:induction false} FlattenAppend<T>(a: seq<seq<T>>, b: seq<seq<T>>)
    ensures Flatten(a + b) == Flatten(a) + Flatten(b)
  {
    if a == [] {
      assert a + b == b;
    } else {
      FlattenAppend(a[1..], b);
      assert (a + b)[0] == a[0] && (a + b)[1..] == a[1..] + b;
      Associate(a[0], Flatten(a[1..]), Flatten(b));
    }
  }

  lemma Associate<T>(a: seq<T>, b: seq<T>, c: seq<T>)
    ensures (a + b) + c == a + (b + c)
  {}
}
