/**
 One frame of the event stream, over its text: what `parseSseFrame` of npm/runtime-sdk/index.js
 makes of a frame that is written line by line, with any mixture of line ends, any order of
 lines and any blanks after the colons.
 */
module SseFrames {
  import opened Common
  import opened EventStream

  /** A line of a frame. `blanks` stand between the colon and the value. */
  datatype Line =
    | EventLine(blanks: string, value: string)
    | IdLine(blanks: string, value: string)
    | DataLine(blanks: string, value: string)
    | OtherLine(text: string)

  function Label(l: Line): string
    requires !l.OtherLine?
  {
    match l
    case EventLine(_, _) => "event:"
    case IdLine(_, _) => "id:"
    case DataLine(_, _) => "data:"
  }

  function TextOf(l: Line): string {
    if l.OtherLine? then l.text else Label(l) + l.blanks + l.value
  }

  predicate AllBlank(s: string) {
    forall i :: 0 <= i < |s| ==> IsSpace(s[i])
  }

  /** No line feed in the line, and no carriage return at its end. */
  predicate IsLine(s: string) {
    (forall i :: 0 <= i < |s| ==> s[i] != '\n') && (s != "" ==> s[|s| - 1] != '\r')
  }

  const LABELS: set<string> := {"event:", "id:", "data:"}

  predicate HasLabel(l: Line, name: string) {
    !l.OtherLine? && Label(l) == name
  }

  predicate LineOK(l: Line) {
    && IsLine(TextOf(l))
    && if l.OtherLine? then
         forall name :: name in LABELS ==> !OccursAt(l.text, 0, name)
       else
         AllBlank(l.blanks) && (l.value != "" ==> !IsSpace(l.value[0]))
  }

  /** The frame as it is written; `crlf[i]` says how line `i` ends. */
  function FrameText(lines: seq<Line>, crlf: seq<bool>): string
    requires lines != [] && |crlf| == |lines| - 1
  {
    if |lines| == 1 then TextOf(lines[0])
    else TextOf(lines[0]) + (if crlf[0] then "\r\n" else "\n") + FrameText(lines[1..], crlf[1..])
  }

  // ---------------------------------------------------------------- what the frame says

  /** The value of the first line of the kind, if there is one. */
  function FirstEvent(lines: seq<Line>): Option<string> {
    if lines == [] then None else if lines[0].EventLine? then Some(lines[0].value) else FirstEvent(lines[1..])
  }

  function FirstId(lines: seq<Line>): Option<string> {
    if lines == [] then None else if lines[0].IdLine? then Some(lines[0].value) else FirstId(lines[1..])
  }

  /** The values of the data lines, each with a line feed after it. */
  function DataLines(lines: seq<Line>): string {
    if lines == [] then ""
    else (if lines[0].DataLine? then lines[0].value + "\n" else "") + DataLines(lines[1..])
  }

  /** The same without the last line feed. */
  function DataText(lines: seq<Line>): string {
    var text := DataLines(lines);
    if text == "" then "" else text[..|text| - 1]
  }

  /** `out` is `fields` with `value` added under `key`, where the object has no such key of its
      own and the value is there and not empty. */
  predicate Adds(fields: map<string, Json>, key: string, value: Option<string>, out: map<string, Json>) {
    if key in fields || value.None? || value.value == "" then key in out <==> key in fields
    else key in out && out[key] == Str(value.value)
  }

  // ---------------------------------------------------------------- lines

  lemma NewlineAt(a: string, rest: string)
    requires forall i :: 0 <= i < |a| ==> a[i] != '\n'
    ensures IndexOf(a + "\n" + rest, "\n") == Some(|a|)
  {
    var s := a + "\n" + rest;
    assert s[|a| + 0] == "\n"[0];
    assert OccursAt(s, |a|, "\n");
    IndexOfIsFirst(s, "\n", 0, |a|);
    var i := IndexOf(s, "\n").value;
    assert s[i + 0] == "\n"[0];
  }

  lemma OneLineOnly(a: string)
    requires IsLine(a)
    ensures SplitLines(a) == [a]
  {
    forall i: nat | i < |a| ensures !OccursAt(a, i, "\n") {
      assert a[i + 0] != "\n"[0];
    }
  }

  lemma FirstLineOff(a: string, crlf: bool, rest: string)
    requires IsLine(a)
    ensures SplitLines(a + (if crlf then "\r\n" else "\n") + rest) == [a] + SplitLines(rest)
  {
    var body := if crlf then a + "\r" else a;
    var s := body + "\n" + rest;
    assert a + (if crlf then "\r\n" else "\n") + rest == s;
    NewlineAt(body, rest);
    assert s[|body| + 1..] == rest;
    if crlf {
      assert s[|body| - 1] == '\r' && s[..|body| - 1] == a;
    } else {
      assert s[..|body|] == a;
      assert a != "" ==> s[|body| - 1] == a[|a| - 1];
    }
  }

  function Texts(lines: seq<Line>): seq<string> {
    if lines == [] then [] else [TextOf(lines[0])] + Texts(lines[1..])
  }

  /** Splitting a written frame gives back its lines. */
  lemma {:induction false} LinesReadBack(lines: seq<Line>, crlf: seq<bool>)
    requires lines != [] && |crlf| == |lines| - 1 && forall i :: 0 <= i < |lines| ==> LineOK(lines[i])
    ensures SplitLines(FrameText(lines, crlf)) == Texts(lines)
  {
    if |lines| == 1 {
      OneLineOnly(TextOf(lines[0]));
      assert lines[1..] == [] && [TextOf(lines[0])] + [] == [TextOf(lines[0])];
    } else {
      LinesReadBack(lines[1..], crlf[1..]);
      FirstLineOff(TextOf(lines[0]), crlf[0], FrameText(lines[1..], crlf[1..]));
    }
  }

  // ---------------------------------------------------------------- values

  lemma {:induction false} BlanksAreTrimmed(blanks: string, value: string)
    requires AllBlank(blanks) && (value != "" ==> !IsSpace(value[0]))
    ensures TrimStart(blanks + value) == value
  {
    if blanks == "" {
      assert blanks + value == value;
    } else {
      assert (blanks + value)[1..] == blanks[1..] + value;
      BlanksAreTrimmed(blanks[1..], value);
    }
  }

  lemma StartsWithLabel(name: string, rest: string)
    ensures OccursAt(name + rest, 0, name) && (name + rest)[|name|..] == rest
  {}

  lemma StartsOtherwise(name: string, text: string)
    requires name != "" && text != "" && text[0] != name[0]
    ensures !OccursAt(text, 0, name)
  {
    if 0 + |name| <= |text| {
      assert text[0 + 0] != name[0];
    }
  }

  lemma OneLabelEach(a: string, b: string)
    requires a in LABELS && b in LABELS
    ensures a != "" && b != "" && (a == b <==> a[0] == b[0])
  {
    assert "event:"[0] == 'e' && "id:"[0] == 'i' && "data:"[0] == 'd';
  }

  lemma LineParts(l: Line, name: string)
    requires LineOK(l) && name in LABELS
    ensures l.OtherLine? ==> !OccursAt(l.text, 0, name)
    ensures !l.OtherLine? ==> AllBlank(l.blanks) && (l.value != "" ==> !IsSpace(l.value[0])) && Label(l) in LABELS
  {}

  /** A line that does not start with the label, or starts with blanks and its value after its own. */
  predicate Parted(l: Line, name: string) {
    if l.OtherLine? then !OccursAt(l.text, 0, name)
    else AllBlank(l.blanks) && (l.value != "" ==> !IsSpace(l.value[0])) && Label(l) in LABELS
  }

  lemma Labelled(l: Line, name: string)
    requires Parted(l, name) && name in LABELS
    ensures OccursAt(TextOf(l), 0, name) <==> HasLabel(l, name)
    ensures HasLabel(l, name) ==> TrimStart(TextOf(l)[|name|..]) == l.value
  {
    if !l.OtherLine? {
      BlanksAreTrimmed(l.blanks, l.value);
      WrittenLabel(Label(l), l.blanks, l.value, name);
    }
  }

  lemma WrittenLabel(own: string, blanks: string, value: string, name: string)
    requires own in LABELS && name in LABELS
    ensures OccursAt(own + blanks + value, 0, name) <==> own == name
    ensures own == name ==> (own + blanks + value)[|name|..] == blanks + value
  {
    assert own + blanks + value == own + (blanks + value);
    LabelledText(own, blanks + value, own + blanks + value, name);
  }

  lemma LabelledText(own: string, rest: string, text: string, name: string)
    requires own in LABELS && name in LABELS && text == own + rest
    ensures OccursAt(text, 0, name) <==> own == name
    ensures own == name ==> text[|name|..] == rest
  {
    OneLabelEach(own, name);
    if own == name {
      StartsWithLabel(name, rest);
    } else {
      StartsOtherwise(name, text);
    }
  }

  /** The values of the lines with a label, in order. */
  function ValuesOf(lines: seq<Line>, name: string): seq<string> {
    if lines == [] then []
    else (if HasLabel(lines[0], name) then [lines[0].value] else []) + ValuesOf(lines[1..], name)
  }

  lemma {:induction false} FieldsAreValues(lines: seq<Line>, name: string)
    requires name in LABELS && forall i :: 0 <= i < |lines| ==> LineOK(lines[i])
    ensures FieldValues(Texts(lines), name) == ValuesOf(lines, name)
  {
    if lines != [] {
      FieldsAreValues(lines[1..], name);
      LineParts(lines[0], name);
      Labelled(lines[0], name);
      assert Texts(lines)[0] == TextOf(lines[0]) && Texts(lines)[1..] == Texts(lines[1..]);
    }
  }

  lemma {:induction false} FirstValues(lines: seq<Line>)
    ensures FirstEvent(lines) == HeadOf(ValuesOf(lines, "event:"))
    ensures FirstId(lines) == HeadOf(ValuesOf(lines, "id:"))
  {
    if lines != [] {
      FirstValues(lines[1..]);
      OneLabelEach("event:", "id:");
      OneLabelEach("event:", "data:");
      OneLabelEach("id:", "data:");
    }
  }

  function HeadOf(values: seq<string>): Option<string> {
    if values == [] then None else Some(values[0])
  }

  lemma {:induction false} DataIsJoined(lines: seq<Line>)
    ensures JoinLines(ValuesOf(lines, "data:")) == DataText(lines)
    ensures ValuesOf(lines, "data:") == [] <==> DataLines(lines) == ""
  {
    if lines != [] {
      var rest := lines[1..];
      DataIsJoined(rest);
      OneLabelEach("event:", "data:");
      OneLabelEach("id:", "data:");
      if lines[0].DataLine? {
        DataStep(lines[0].value, ValuesOf(rest, "data:"), DataLines(rest));
      } else {
        assert [] + ValuesOf(rest, "data:") == ValuesOf(rest, "data:") && "" + DataLines(rest) == DataLines(rest);
      }
    }
  }

  lemma DataStep(value: string, values: seq<string>, text: string)
    requires values == [] <==> text == ""
    requires JoinLines(values) == if text == "" then "" else text[..|text| - 1]
    ensures JoinLines([value] + values) == (value + "\n" + text)[..|value + "\n" + text| - 1]
  {
    assert ([value] + values)[1..] == values;
    if text != "" {
      assert (value + "\n" + text)[..|value + "\n" + text| - 1] == value + "\n" + text[..|text| - 1];
    }
  }

  // ---------------------------------------------------------------- the frame

  /** The event received for a frame whose data is an object: the object, with the name of the
      first event line and the cursor of the first id line added, and nothing else. */
  predicate Receives(lines: seq<Line>, fields: map<string, Json>, out: map<string, Json>) {
    && Adds(fields, "event", FirstEvent(lines), out) && Adds(fields, "cursor", FirstId(lines), out)
    && (forall k :: k in fields ==> k in out && out[k] == fields[k])
    && (forall k :: k in out && k != "event" && k != "cursor" ==> k in fields)
  }

  /** What is received: nothing without data or for `[DONE]`, an error for data that is not JSON,
      and the value otherwise; an object with its event name and cursor. */
  predicate Outcome(lines: seq<Line>, codec: Codec, parsed: Parsed) {
    var data := DataText(lines);
    if data == "" || data == "[DONE]" then parsed.Nothing?
    else
      match codec.loads(data)
      case None => parsed.Malformed?
      case Some(Obj(fields)) => parsed.Event? && parsed.value.Obj? && Receives(lines, fields, parsed.value.fields)
      case Some(other) => parsed == Event(other)
  }

  lemma BothAdded(lines: seq<Line>, fields: map<string, Json>, events: seq<string>, ids: seq<string>)
    requires FirstEvent(lines) == HeadOf(events) && FirstId(lines) == HeadOf(ids)
    ensures Receives(lines, fields, WithDefault(WithDefault(fields, "event", events), "cursor", ids))
  {
    assert |"event"| == 5 && |"cursor"| == 6;
  }

  lemma ParsedFrom(lines: seq<Line>, frame: string, texts: seq<string>, codec: Codec)
    requires SplitLines(frame) == texts && JoinLines(FieldValues(texts, "data:")) == DataText(lines)
    requires FirstEvent(lines) == HeadOf(FieldValues(texts, "event:"))
    requires FirstId(lines) == HeadOf(FieldValues(texts, "id:"))
    ensures Outcome(lines, codec, ParseSseFrame(frame, codec))
  {
    match codec.loads(DataText(lines))
    case Some(Obj(fields)) =>
      BothAdded(lines, fields, FieldValues(texts, "event:"), FieldValues(texts, "id:"));
    case _ =>
  }

  /** For every written frame, whatever its lines, their order, their blanks and their ends. */
  lemma FrameIsReceived(lines: seq<Line>, crlf: seq<bool>, codec: Codec)
    requires lines != [] && |crlf| == |lines| - 1 && forall i :: 0 <= i < |lines| ==> LineOK(lines[i])
    ensures Outcome(lines, codec, ParseSseFrame(FrameText(lines, crlf), codec))
  {
    LinesReadBack(lines, crlf);
    FieldsAreValues(lines, "event:");
    FieldsAreValues(lines, "id:");
    FieldsAreValues(lines, "data:");
    FirstValues(lines);
    DataIsJoined(lines);
    ParsedFrom(lines, FrameText(lines, crlf), Texts(lines), codec);
  }

  // ---------------------------------------------------------------- a journal record

  lemma ThreeLines(a: Line, b: Line, c: Line)
    ensures FrameText([a, b, c], [false, false]) == TextOf(a) + "\n" + (TextOf(b) + "\n" + TextOf(c))
  {
    assert [a, b, c][1..] == [b, c] && [b, c][1..] == [c] && [false, false][1..] == [false];
    assert FrameText([b, c], [false]) == TextOf(b) + "\n" + FrameText([c], []);
  }

  lemma Plain(l: Line)
    requires !l.OtherLine? && l.blanks == " " && (l.value != "" ==> !IsSpace(l.value[0]))
    requires IsLine(Label(l)) && l.value != "" && IsLine(l.value)
    ensures LineOK(l)
  {
    var text := TextOf(l);
    assert text == Label(l) + " " + l.value;
    assert text[|text| - 1] == l.value[|l.value| - 1];
  }

  lemma RecordIsReceived(name: string, id: string, data: string, fields: map<string, Json>, codec: Codec, out: Parsed)
    requires forall s :: s in {name, id, data} ==> s != "" && IsLine(s) && !IsSpace(s[0])
    requires data != "[DONE]" && codec.loads(data) == Some(Obj(fields)) && "event" !in fields && "cursor" !in fields
    requires out == ParseSseFrame("event: " + name + "\n" + ("id: " + id + "\n" + ("data: " + data)), codec)
    ensures out == Event(Obj(fields["event" := Str(name)]["cursor" := Str(id)]))
  {
    var a, b, c := EventLine(" ", name), IdLine(" ", id), DataLine(" ", data);
    Plain(a);
    Plain(b);
    Plain(c);
    ThreeLines(a, b, c);
    assert TextOf(a) == "event: " + name && TextOf(b) == "id: " + id && TextOf(c) == "data: " + data;
    FrameIsReceived([a, b, c], [false, false], codec);
    RecordFields(a, b, c);
    OnlyTwoAdded([a, b, c], fields, out.value.fields);
  }

  lemma RecordFields(a: Line, b: Line, c: Line)
    requires a.EventLine? && b.IdLine? && c.DataLine?
    ensures FirstEvent([a, b, c]) == Some(a.value) && FirstId([a, b, c]) == Some(b.value)
    ensures DataText([a, b, c]) == c.value
  {
    assert [a, b, c][1..] == [b, c] && [b, c][1..] == [c] && [c][1..] == [];
    assert DataLines([c]) == c.value + "\n" + "";
    assert DataLines([a, b, c]) == c.value + "\n";
  }

  lemma OnlyTwoAdded(lines: seq<Line>, fields: map<string, Json>, out: map<string, Json>)
    requires Receives(lines, fields, out) && "event" !in fields && "cursor" !in fields
    requires FirstEvent(lines).Some? && FirstEvent(lines).value != "" && FirstId(lines).Some?
          && FirstId(lines).value != ""
    ensures out == fields["event" := Str(FirstEvent(lines).value)]["cursor" := Str(FirstId(lines).value)]
  {
    assert |"event"| == 5 && |"cursor"| == 6;
  }
}
