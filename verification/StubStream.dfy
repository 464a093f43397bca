/**
 The emitter of scripts/concentrate-stub.py, and its round trip through the reader of
 npm/runtime-sdk/index.js: what the stub writes is what the client gets, in any chunking.
 */
module StubStream {
  import opened Common
  import opened EventStream
  import opened Chunking

  // ---------------------------------------------------------------- what is emitted

  /** A one-line name that keeps its first character when it is trimmed. */
  type EventName = s: string | s != "" && !IsSpace(s[0]) && OneLine(s) witness "x"

  const CREATED: EventName := "response.created"
  const IN_PROGRESS: EventName := "response.in_progress"
  const ITEM_ADDED: EventName := "response.output_item.added"
  const PART_ADDED: EventName := "response.content_part.added"
  const DELTA: EventName := "response.output_text.delta"
  const TEXT_DONE: EventName := "response.output_text.done"
  const PART_DONE: EventName := "response.content_part.done"
  const ITEM_DONE: EventName := "response.output_item.done"
  const COMPLETED: EventName := "response.completed"

  datatype Emission = Emission(eventType: EventName, payload: map<string, Json>)

  /** `text.split(" ")`. */
  function SplitSpaces(text: string): (words: seq<string>)
    ensures words != []
    decreases |text|
  {
    match IndexOf(text, " ")
    case None => [text]
    case Some(i) => [text[..i]] + SplitSpaces(text[i + 1..])
  }

  /** Every word keeps the space after it, except the last. */
  function Deltas(words: seq<string>): seq<string>
    requires words != []
  {
    if |words| == 1 then words else [words[0] + " "] + Deltas(words[1..])
  }

  function OutputText(text: string): Json {
    Obj(map["type" := Str("output_text"), "text" := Str(text), "annotations" := Arr([])])
  }

  function Message(status: string, content: seq<Json>): Json {
    Obj(map["type" := Str("message"), "id" := Str("msg_stub_1"), "status" := Str(status),
            "role" := Str("assistant"), "content" := Arr(content)])
  }

  function CompletedResponse(model: string, createdAt: nat, reply: string): map<string, Json> {
    var selected := if '/' in model then model else "stub/" + model;
    map["id" := Str("resp_stub_1"), "object" := Str("response"), "created_at" := Num(createdAt),
        "status" := Str("completed"), "model" := Str(selected),
        "output" := Arr([Message("completed", [OutputText(reply)])]),
        "usage" := Obj(map["input_tokens" := Num(12), "output_tokens" := Num(5), "total_tokens" := Num(17),
                           "input_tokens_details" := Obj(map["cached_tokens" := Num(0)])])]
  }

  function Part(text: string): map<string, Json> {
    map["item_id" := Str("msg_stub_1"), "output_index" := Num(0), "content_index" := Num(0), "part" := OutputText(text)]
  }

  function DeltaEmission(delta: string): Emission {
    Emission(DELTA, map["item_id" := Str("msg_stub_1"), "output_index" := Num(0), "content_index" := Num(0),
                        "delta" := Str(delta)])
  }

  function Mapped(make: string -> Emission, deltas: seq<string>): seq<Emission> {
    seq(|deltas|, i requires 0 <= i < |deltas| => make(deltas[i]))
  }

  function Beginning(response: map<string, Json>): seq<Emission> {
    var inProgress := Obj(response["status" := Str("in_progress")]["output" := Arr([])]["usage" := Null]);
    [Emission(CREATED, map["response" := inProgress]),
     Emission(IN_PROGRESS, map["response" := inProgress]),
     Emission(ITEM_ADDED, map["output_index" := Num(0), "item" := Message("in_progress", [])]),
     Emission(PART_ADDED, Part(""))]
  }

  function Ending(reply: string, response: map<string, Json>): seq<Emission> {
    [Emission(TEXT_DONE,
              map["item_id" := Str("msg_stub_1"), "output_index" := Num(0), "content_index" := Num(0),
                  "text" := Str(reply)]),
     Emission(PART_DONE, Part(reply)),
     Emission(ITEM_DONE,
              map["output_index" := Num(0), "item" := Message("completed", [OutputText(reply)])]),
     Emission(COMPLETED, map["response" := Obj(response)])]
  }

  function Script(reply: string, response: map<string, Json>): seq<Emission> {
    Beginning(response) + Mapped(DeltaEmission, Deltas(SplitSpaces(reply))) + Ending(reply, response)
  }

  /** The JSON object of the emission with sequence number `n`. */
  function Numbered(e: Emission, n: nat): map<string, Json> {
    map["type" := Str(e.eventType), "sequence_number" := Num(n)] + e.payload
  }

  function WireFrame(e: Emission, n: nat, codec: Codec): string {
    EventLine(e) + "\n" + DataLine(codec.dumps(Obj(Numbered(e, n))))
  }

  function Wire(script: seq<Emission>, n: nat, codec: Codec): string {
    if script == [] then "" else WireFrame(script[0], n, codec) + "\n\n" + Wire(script[1..], n + 1, codec)
  }

  lemma {:induction false} WireAppend(a: seq<Emission>, b: seq<Emission>, n: nat, codec: Codec)
    ensures Wire(a + b, n, codec) == Wire(a, n, codec) + Wire(b, n + |a|, codec)
  {
    if a == [] {
      assert a + b == b;
    } else {
      assert (a + b)[1..] == a[1..] + b;
      WireAppend(a[1..], b, n + 1, codec);
      Associate(WireFrame(a[0], n, codec) + "\n\n", Wire(a[1..], n + 1, codec), Wire(b, n + |a|, codec));
    }
  }

  lemma WireOne(e: Emission, n: nat, codec: Codec)
    ensures Wire([e], n, codec) == WireFrame(e, n, codec) + "\n\n"
  {
    assert [e][1..] == [];
    assert WireFrame(e, n, codec) + "\n\n" + "" == WireFrame(e, n, codec) + "\n\n";
  }

  /** One response on the wire; `number` is the closure's `seq`. */
  class Handler {
    var number: nat
    var wire: string
    const codec: Codec
    ghost var script: seq<Emission>

    /** The wire holds the frames of the emitted script, numbered from 0. */
    ghost predicate Valid()
      reads this
    {
      number == |script| && wire == Wire(script, 0, codec)
    }

    constructor (codec: Codec)
      ensures Valid() && script == [] && this.codec == codec
    {
      number, wire, script, this.codec := 0, "", [], codec;
    }

    method Emit(e: Emission)
      requires Valid()
      modifies this
      ensures Valid() && script == old(script) + [e]
    {
      WireAppend(script, [e], 0, codec);
      WireOne(e, number, codec);
      wire := wire + (EventLine(e) + "\n" + DataLine(codec.dumps(Obj(Numbered(e, number)))) + "\n\n");
      number := number + 1;
      script := script + [e];
    }

    method EmitAll(list: seq<Emission>)
      requires Valid()
      modifies this
      ensures Valid() && script == old(script) + list
    {
      for i := 0 to |list|
        invariant Valid() && script == old(script) + list[..i]
      {
        Emit(list[i]);
      }
    }

    method Stream(reply: string, model: string, createdAt: nat)
      requires Valid() && script == []
      modifies this
      ensures Valid() && script == Script(reply, CompletedResponse(model, createdAt, reply))
    {
      var response := CompletedResponse(model, createdAt, reply);
      var words := SplitSpaces(reply);
      EmitAll(Beginning(response));
      EmitWords(words, DeltaEmission);
      EmitAll(Ending(reply, response));
    }

    /** The loop over the words of the reply; `make` is the event of one delta. */
    method EmitWords(words: seq<string>, make: string -> Emission)
      requires Valid() && words != []
      modifies this
      ensures Valid() && script == old(script) + Mapped(make, Deltas(words))
    {
      DeltaCount(words);
      for i := 0 to |words|
        invariant Valid() && script == old(script) + Mapped(make, Deltas(words))[..i]
      {
        DeltaAt(words, i);
        Emit(make(if i == |words| - 1 then words[i] else words[i] + " "));
      }
    }
  }

  lemma {:induction false} DeltaCount(words: seq<string>)
    requires words != []
    ensures |Deltas(words)| == |words|
  {
    if |words| > 1 { DeltaCount(words[1..]); }
  }

  lemma {:induction false} DeltaAt(words: seq<string>, i: nat)
    requires i < |words|
    ensures |Deltas(words)| == |words|
    ensures Deltas(words)[i] == if i == |words| - 1 then words[i] else words[i] + " "
  {
    DeltaCount(words);
    if i > 0 { DeltaAt(words[1..], i - 1); }
  }

  // ---------------------------------------------------------------- reading one frame back

  lemma FirstNewline(a: string, b: string)
    requires OneLine(a)
    ensures IndexOf(a + "\n" + b, "\n") == Some(|a|)
  {
    var s := a + "\n" + b;
    assert forall k :: 0 <= k < |a| ==> s[k] == a[k];
    assert OccursAt(s, |a|, "\n");
    IndexOfIsFirst(s, "\n", 0, |a|);
    var i := IndexOf(s, "\n").value;
    assert s[i + 0] == "\n"[0];
  }

  lemma TwoLines(a: string, b: string)
    requires OneLine(a) && OneLine(b)
    ensures SplitLines(a + "\n" + b) == [a, b]
  {
    FirstNewline(a, b);
    var s := a + "\n" + b;
    assert s[..|a|] == a && s[|a| + 1..] == b;
    assert |a| > 0 ==> s[|a| - 1] == a[|a| - 1];
    assert IndexOf(b, "\n").Some? ==> b[IndexOf(b, "\n").value + 0] == "\n"[0];
  }

  lemma OwnField(name: string, value: string)
    requires value != "" && !IsSpace(value[0])
    ensures OccursAt(name + " " + value, 0, name)
    ensures TrimStart((name + " " + value)[|name|..]) == value
  {
    assert (name + " " + value)[|name|..] == " " + value;
    assert (" " + value)[1..] == value;
  }

  lemma OtherField(name: string, line: string)
    requires name != "" && line != "" && name[0] != line[0]
    ensures !OccursAt(line, 0, name)
  {
    if 0 + |name| <= |line| {
      assert line[0 + 0] != name[0];
    }
  }

  function FieldOf(line: string, name: string): seq<string> {
    if OccursAt(line, 0, name) then [TrimStart(line[|name|..])] else []
  }

  lemma FieldOfTwo(a: string, b: string, name: string)
    ensures FieldValues([a, b], name) == FieldOf(a, name) + FieldOf(b, name)
  {
    assert [a, b][1..] == [b] && [b][1..] == [];
    assert FieldValues([b], name) == FieldOf(b, name);
  }

  /** The payload does not carry an event name of its own. */
  predicate Clean(e: Emission) {
    "event" !in e.payload
  }

  predicate AllClean(script: seq<Emission>) {
    forall i :: 0 <= i < |script| ==> Clean(script[i])
  }

  /** What the client yields for an emission: its object, with the event name added. */
  function Received(e: Emission, n: nat): Json {
    Obj(Numbered(e, n)["event" := Str(e.eventType)])
  }

  function EventLine(e: Emission): string { "event: " + e.eventType }

  function DataLine(text: string): string { "data: " + text }

  lemma LinesAreLines(e: Emission, text: string)
    requires OneLine(text)
    ensures OneLine(EventLine(e)) && OneLine(DataLine(text)) && EventLine(e) != "" && DataLine(text) != ""
  {
    assert OneLine("event: ") && OneLine("data: ");
  }

  /** The fields of the two lines of a frame. */
  lemma FrameFields(e: Emission, text: string)
    requires text != "" && !IsSpace(text[0])
    ensures var lines := [EventLine(e), DataLine(text)];
            && FieldValues(lines, "event:") == [e.eventType]
            && FieldValues(lines, "data:") == [text]
            && FieldValues(lines, "id:") == []
  {
    var a, b := EventLine(e), DataLine(text);
    assert a == "event:" + " " + e.eventType && b == "data:" + " " + text;
    OwnField("event:", e.eventType);
    OwnField("data:", text);
    OtherField("data:", a);
    OtherField("event:", b);
    OtherField("id:", a);
    OtherField("id:", b);
    FieldOfTwo(a, b, "data:");
    FieldOfTwo(a, b, "event:");
    FieldOfTwo(a, b, "id:");
  }

  /** A frame with one event line and one data line that holds an object without that field. */
  lemma ObjectFrame(frame: string, lines: seq<string>, name: EventName, text: string, fields: map<string, Json>,
      codec: Codec)
    requires SplitLines(frame) == lines
    requires FieldValues(lines, "event:") == [name]
    requires FieldValues(lines, "data:") == [text] && text != "" && text[0] == '{'
    requires FieldValues(lines, "id:") == []
    requires codec.loads(text) == Some(Obj(fields)) && "event" !in fields
    ensures ParseSseFrame(frame, codec) == Event(Obj(fields["event" := Str(name)]))
  {
    assert "[DONE]"[0] == '[';
    assert JoinLines([text]) == text;
  }

  lemma FrameIsRead(e: Emission, n: nat, codec: Codec)
    requires codec.Faithful() && Clean(e)
    ensures ParseSseFrame(WireFrame(e, n, codec), codec) == Event(Received(e, n))
  {
    var value := Obj(Numbered(e, n));
    var text := codec.dumps(value);
    assert codec.loads(text) == Some(value) && OneLine(text);
    LinesAreLines(e, text);
    TwoLines(EventLine(e), DataLine(text));
    FrameFields(e, text);
    NoEventField(e, n);
    ObjectFrame(WireFrame(e, n, codec), [EventLine(e), DataLine(text)], e.eventType, text, Numbered(e, n), codec);
  }

  lemma NoEventField(e: Emission, n: nat)
    requires Clean(e)
    ensures "event" !in Numbered(e, n)
  {
    assert |"event"| == 5 && |"type"| == 4 && |"sequence_number"| == 15;
  }

  lemma NoBoundaryInside(a: string, b: string, more: string, i: nat)
    requires OneLine(a) && OneLine(b) && a != "" && b != "" && i < |a + "\n" + b|
    ensures !BoundaryAt(a + "\n" + b + "\n\n" + more, i)
  {
    var body := a + "\n" + b;
    var s := body + "\n\n" + more;
    assert s[i] == body[i] && s[i + 1] == (if i + 1 < |body| then body[i + 1] else '\n');
    assert body[i] == '\n' <==> i == |a|;
    assert s[i] != CRLF[0];
    assert i == |a| ==> s[i + 1] != LF[1];
    assert i != |a| ==> s[i] != LF[0];
  }

  lemma FrameIsCut(a: string, b: string, more: string)
    requires OneLine(a) && OneLine(b) && a != "" && b != ""
    ensures CutAll(a + "\n" + b + "\n\n" + more)
            == Cut([Frame(a + "\n" + b, 2)] + CutAll(more).frames, CutAll(more).rest)
  {
    var body := a + "\n" + b;
    var s := body + "\n\n" + more;
    forall i: nat | i < |body| ensures !BoundaryAt(s, i) {
      NoBoundaryInside(a, b, more, i);
    }
    assert OccursAt(s, |body|, LF);
    FirstBoundaryIsFound(s, Boundary(|body|, 2));
    CutFirst(s, Boundary(|body|, 2));
    assert s[..|body|] == body && s[|body| + 2..] == more;
  }

  function ReceivedAll(script: seq<Emission>, n: nat): seq<Json> {
    if script == [] then [] else [Received(script[0], n)] + ReceivedAll(script[1..], n + 1)
  }

  lemma {:induction false} WireIsRead(script: seq<Emission>, n: nat, codec: Codec)
    requires codec.Faithful() && AllClean(script)
    ensures var cut := CutAll(Wire(script, n, codec));
            && cut.rest == ""
            && TakeFrames(cut.frames, None, codec) == Reading(ReceivedAll(script, n), Running)
  {
    if script == [] {
      BoundaryIsFirst("");
    } else {
      var e := script[0];
      var text := codec.dumps(Obj(Numbered(e, n)));
      assert OneLine(text);
      LinesAreLines(e, text);
      var more := Wire(script[1..], n + 1, codec);
      FrameIsCut(EventLine(e), DataLine(text), more);
      FrameIsRead(e, n, codec);
      WireIsRead(script[1..], n + 1, codec);
      var frame := Frame(WireFrame(e, n, codec), 2);
      assert ([frame] + CutAll(more).frames)[1..] == CutAll(more).frames;
    }
  }

  /** Any clean script, on the wire in any chunking, is received completely and in order. */
  lemma ClientReceivesWire(script: seq<Emission>, chunks: seq<string>, requireBoundary: bool, codec: Codec)
    requires codec.Faithful() && AllClean(script)
    requires Flatten(chunks) == Wire(script, 0, codec)
    ensures ReadStream(chunks, None, requireBoundary, codec) == Reading(ReceivedAll(script, 0), Closed)
  {
    WireIsRead(script, 0, codec);
    NoLimitIsClear(CutAll(Flatten(chunks)).frames, codec);
    ReadingOfClearText(chunks, None, requireBoundary, codec);
    EmptyFrame(codec);
    var events := ReceivedAll(script, 0);
    assert events + [] == events;
  }

  lemma EmptyFrame(codec: Codec)
    ensures ParseSseFrame("", codec) == Nothing && TrimStart("") == ""
  {
    assert IndexOf("", "\n").None?;
    assert FieldValues([""], "data:") == [];
  }

  // ---------------------------------------------------------------- the whole reply

  /** The concatenation of the text deltas among received events. */
  function ReplyText(events: seq<Json>): string {
    if events == [] then ""
    else EventText(events[0]) + ReplyText(events[1..])
  }

  lemma {:induction false} ReceivedAppend(a: seq<Emission>, b: seq<Emission>, n: nat)
    ensures ReceivedAll(a + b, n) == ReceivedAll(a, n) + ReceivedAll(b, n + |a|)
  {
    if a == [] {
      assert a + b == b;
    } else {
      assert (a + b)[1..] == a[1..] + b;
      ReceivedAppend(a[1..], b, n + 1);
    }
  }

  lemma {:induction false} ReplyTextAppend(a: seq<Json>, b: seq<Json>)
    ensures ReplyText(a + b) == ReplyText(a) + ReplyText(b)
  {
    if a == [] {
      assert a + b == b;
    } else {
      assert (a + b)[0] == a[0] && (a + b)[1..] == a[1..] + b;
      ReplyTextAppend(a[1..], b);
    }
  }

  lemma NotADelta(e: Emission, n: nat)
    requires Plain(e)
    ensures EventText(Received(e, n)) == ""
  {
    assert "event"[0] != "delta"[0] && |"type"| != |"delta"| && |"sequence_number"| != |"delta"|;
    assert "delta" !in Received(e, n).fields;
  }

  lemma {:induction false} NoDeltaNoText(script: seq<Emission>, n: nat)
    requires AllPlain(script)
    ensures ReplyText(ReceivedAll(script, n)) == ""
  {
    if script != [] {
      NoDeltaNoText(script[1..], n + 1);
      assert ReceivedAll(script, n)[1..] == ReceivedAll(script[1..], n + 1);
      assert Plain(script[0]);
      NotADelta(script[0], n);
    }
  }

  /** The text of an event, if it is a delta event. */
  function EventText(event: Json): string {
    match event
    case Obj(f) => if "event" in f && f["event"] == Str(DELTA) && "delta" in f && f["delta"].Str? then f["delta"].s
        else ""
    case _ => ""
  }

  /** `make` carries each delta in an event of its own. */
  ghost predicate Carries(make: string -> Emission) {
    && (forall d: string :: Clean(make(d)))
    && (forall d: string, n: nat :: EventText(Received(make(d), n)) == d)
  }

  lemma DeltasAreCarried()
    ensures Carries(DeltaEmission)
  {
    forall d: string, n: nat
      ensures Clean(DeltaEmission(d)) && EventText(Received(DeltaEmission(d), n)) == d
    {
      assert "event"[0] != "delta"[0];
      var f := Received(DeltaEmission(d), n).fields;
      assert f["event"] == Str(DELTA);
      assert f["delta"] == Str(d);
    }
  }

  lemma {:induction false} DeltaText(make: string -> Emission, deltas: seq<string>, n: nat)
    requires Carries(make)
    ensures ReplyText(ReceivedAll(Mapped(make, deltas), n)) == Flatten(deltas)
  {
    var script := Mapped(make, deltas);
    if deltas != [] {
      assert script[1..] == Mapped(make, deltas[1..]);
      DeltaText(make, deltas[1..], n + 1);
      assert ReceivedAll(script, n)[1..] == ReceivedAll(script[1..], n + 1);
      assert EventText(Received(script[0], n)) == deltas[0];
    }
  }

  lemma {:induction false} WordsRejoin(text: string)
    ensures Flatten(Deltas(SplitSpaces(text))) == text
    decreases |text|
  {
    match IndexOf(text, " ")
    case None =>
      assert SplitSpaces(text) == [text] && [text][1..] == [] && text + Flatten([]) == text;
    case Some(i) =>
      var words := SplitSpaces(text[i + 1..]);
      WordsRejoin(text[i + 1..]);
      assert text[i + 0] == " "[0];
      assert ([text[..i]] + words)[1..] == words;
      assert ([text[..i] + " "] + Deltas(words))[1..] == Deltas(words);
      assert text[..i] + " " + text[i + 1..] == text;
  }

  /** No payload carries an event name, and only the delta events carry a delta. */
  predicate Plain(e: Emission) {
    Clean(e) && "delta" !in e.payload
  }

  predicate AllPlain(script: seq<Emission>) {
    forall i :: 0 <= i < |script| ==> Plain(script[i])
  }

  lemma BeginningIsPlain(response: map<string, Json>)
    ensures AllPlain(Beginning(response))
  {
    var s := Beginning(response);
    assert Plain(s[0]) && Plain(s[1]) && Plain(s[2]) && Plain(s[3]);
  }

  lemma EndingIsPlain(reply: string, response: map<string, Json>)
    ensures AllPlain(Ending(reply, response))
  {
    var s := Ending(reply, response);
    assert Plain(s[0]) && Plain(s[1]) && Plain(s[2]) && Plain(s[3]);
  }

  /** No event of the script carries text, whatever its numbers are. */
  ghost predicate Silent(script: seq<Emission>) {
    forall n: nat :: ReplyText(ReceivedAll(script, n)) == ""
  }

  lemma PlainIsSilent(script: seq<Emission>)
    requires AllPlain(script)
    ensures AllClean(script) && Silent(script)
  {
    forall n: nat ensures ReplyText(ReceivedAll(script, n)) == "" {
      NoDeltaNoText(script, n);
    }
  }

  lemma ReceivedParts(a: seq<Emission>, b: seq<Emission>, c: seq<Emission>)
    ensures ReceivedAll(a + b + c, 0) == ReceivedAll(a, 0) + ReceivedAll(b, |a|) + ReceivedAll(c, |a + b|)
  {
    ReceivedAppend(a, b, 0);
    ReceivedAppend(a + b, c, 0);
  }

  lemma TextBetweenSilence(x: seq<Json>, y: seq<Json>, z: seq<Json>)
    requires ReplyText(x) == "" && ReplyText(z) == ""
    ensures ReplyText(x + y + z) == ReplyText(y)
  {
    ReplyTextAppend(x, y);
    ReplyTextAppend(x + y, z);
  }

  /** The text of a script with deltas between two silent parts. */
  lemma TextOfParts(a: seq<Emission>, b: seq<Emission>, c: seq<Emission>)
    requires Silent(a) && Silent(c)
    ensures ReplyText(ReceivedAll(a + b + c, 0)) == ReplyText(ReceivedAll(b, |a|))
  {
    ReceivedParts(a, b, c);
    TextBetweenSilence(ReceivedAll(a, 0), ReceivedAll(b, |a|), ReceivedAll(c, |a + b|));
  }

  lemma {:induction false} ReceivedLength(script: seq<Emission>, n: nat)
    ensures |ReceivedAll(script, n)| == |script|
  {
    if script != [] {
      ReceivedLength(script[1..], n + 1);
    }
  }

  lemma ReceivedLater(script: seq<Emission>, n: nat, i: nat)
    requires 0 < i < |script|
    ensures |ReceivedAll(script, n)| == |script| && |ReceivedAll(script[1..], n + 1)| == |script| - 1
    ensures ReceivedAll(script, n)[i] == ReceivedAll(script[1..], n + 1)[i - 1]
  {
    ReceivedLength(script, n);
    ReceivedLength(script[1..], n + 1);
  }

  lemma {:induction false} ReceivedAt(script: seq<Emission>, n: nat, i: nat, e: Emission, k: nat)
    requires i < |script| && e == script[i] && k == n + i
    ensures |ReceivedAll(script, n)| == |script|
    ensures ReceivedAll(script, n)[i] == Received(e, k)
  {
    ReceivedLength(script, n);
    if i > 0 {
      ReceivedAt(script[1..], n + 1, i - 1, e, k);
      ReceivedLater(script, n, i);
    }
  }

  // ---------------------------------------------------------------- the script tells one story

  function FieldAt(j: Json, key: string): Option<Json> {
    if j.Obj? && key in j.fields then Some(j.fields[key]) else None
  }

  function PayloadAt(e: Emission, key: string): Option<Json> {
    if key in e.payload then Some(e.payload[key]) else None
  }

  /** The events frame the response, then the item, then the part, and close them in reverse order. */
  lemma EventsAreNested(reply: string, response: map<string, Json>)
    ensures Beginning(response)[0].eventType == "response.created"
    ensures Beginning(response)[1].eventType == "response.in_progress"
    ensures Beginning(response)[2].eventType == "response.output_item.added"
    ensures Beginning(response)[3].eventType == "response.content_part.added"
    ensures Ending(reply, response)[0].eventType == "response.output_text.done"
    ensures Ending(reply, response)[1].eventType == "response.content_part.done"
    ensures Ending(reply, response)[2].eventType == "response.output_item.done"
    ensures Ending(reply, response)[3].eventType == "response.completed"
    ensures |Beginning(response)| == |Ending(reply, response)| == 4
  {}

  lemma KeysDiffer()
    ensures "item_id" != "text" && "item_id" != "part" && "output_index" != "item" && "content_index" != "text"
    ensures "content_index" != "part" && "output_index" != "text" && "output_index" != "part"
    ensures "type" != "text" && "type" != "annotations" && "text" != "annotations"
    ensures "type" != "id" && "type" != "status" && "type" != "role" && "type" != "content" && "id" != "status"
    ensures "id" != "role" && "id" != "content" && "status" != "role" && "status" != "content" && "role" != "content"
    ensures "item_id" != "delta" && "output_index" != "delta" && "content_index" != "delta"
    ensures "item_id" != "output_index" && "item_id" != "content_index" && "output_index" != "content_index"
  {
    assert |"item_id"| == 7 && |"text"| == 4 && |"part"| == 4 && |"output_index"| == 12 && |"item"| == 4;
    assert |"content_index"| == 13 && |"type"| == 4 && |"annotations"| == 11 && |"id"| == 2 && |"status"| == 6;
    assert |"role"| == 4 && |"content"| == 7 && |"delta"| == 5;
    assert "type"[0] == 't' && "text"[1] == 'e' && "type"[1] == 'y' && "role"[0] == 'r' && "part"[0] == 'p';
  }

  /** What is closed is what was announced: the completed item holds the completed part, which holds
      the completed text, which is the reply; item and part began empty, under the same id. */
  lemma PartsAreNested(reply: string, response: map<string, Json>)
    ensures var e := Ending(reply, response);
            && PayloadAt(e[0], "text") == Some(Str(reply))
            && PayloadAt(e[1], "part").Some? && FieldAt(PayloadAt(e[1], "part").value, "text") == Some(Str(reply))
            && PayloadAt(e[2], "item").Some?
            && FieldAt(PayloadAt(e[2], "item").value, "content") == Some(Arr([PayloadAt(e[1], "part").value]))
            && FieldAt(PayloadAt(e[2], "item").value, "status") == Some(Str("completed"))
            && PayloadAt(e[0], "item_id") == PayloadAt(e[1], "item_id") == FieldAt(PayloadAt(e[2], "item").value, "id")
    ensures var b, e := Beginning(response), Ending(reply, response);
            && PayloadAt(b[2], "item").Some? && FieldAt(PayloadAt(b[2], "item").value, "content") == Some(Arr([]))
            && FieldAt(PayloadAt(b[2], "item").value, "status") == Some(Str("in_progress"))
            && FieldAt(PayloadAt(b[2], "item").value, "id") == FieldAt(PayloadAt(e[2], "item").value, "id")
            && PayloadAt(b[3], "part").Some? && FieldAt(PayloadAt(b[3], "part").value, "text") == Some(Str(""))
            && PayloadAt(b[3], "item_id") == FieldAt(PayloadAt(b[2], "item").value, "id")
  {
    KeysDiffer();
  }

  /** Every delta belongs to that item and carries its text. */
  lemma DeltasBelong(delta: string, reply: string, response: map<string, Json>)
    ensures var d, e := DeltaEmission(delta), Ending(reply, response);
            && d.eventType == "response.output_text.delta" && PayloadAt(d, "delta") == Some(Str(delta))
            && PayloadAt(d, "item_id") == PayloadAt(e[0], "item_id")
            && PayloadAt(d, "output_index") == PayloadAt(e[0], "output_index")
            && PayloadAt(d, "content_index") == PayloadAt(e[0], "content_index")
  {
    KeysDiffer();
  }

  lemma ResponseKeysDiffer()
    ensures "id" != "object" && "id" != "created_at" && "id" != "status" && "id" != "model" && "id" != "output"
    ensures "object" != "created_at" && "object" != "status" && "object" != "model" && "object" != "output"
    ensures "created_at" != "status" && "created_at" != "model" && "created_at" != "output"
    ensures "status" != "model" && "status" != "output" && "model" != "output"
    ensures "usage" != "id" && "usage" != "object" && "usage" != "created_at" && "usage" != "status"
    ensures "usage" != "model" && "usage" != "output"
  {
    assert |"id"| == 2 && |"object"| == 6 && |"created_at"| == 10 && |"status"| == 6 && |"model"| == 5;
    assert |"output"| == 6 && |"usage"| == 5;
    assert "object"[1] == 'b' && "status"[0] == 's' && "output"[1] == 'u' && "model"[0] == 'm' && "usage"[0] == 'u';
    assert "object"[0] == 'o' && "output"[0] == 'o';
  }

  /** The completed response is the last event, and holds exactly the completed item. */
  lemma ResponseHoldsTheItem(model: string, createdAt: nat, reply: string)
    ensures var r := CompletedResponse(model, createdAt, reply);
            var e := Ending(reply, r);
            && PayloadAt(e[3], "response") == Some(Obj(r))
            && "status" in r && r["status"] == Str("completed")
            && "output" in r && PayloadAt(e[2], "item").Some? && r["output"] == Arr([PayloadAt(e[2], "item").value])
            && "created_at" in r && r["created_at"] == Num(createdAt)
            && "model" in r && r["model"] == Str(if '/' in model then model else "stub/" + model)
  {
    ResponseKeysDiffer();
    KeysDiffer();
  }

  /** The response announced at the beginning differs from the completed one in status, output and
      usage only. */
  lemma ResponseIsAnnounced(response: map<string, Json>)
    requires "status" in response && "output" in response && "usage" in response
    ensures var b := Beginning(response);
            && PayloadAt(b[0], "response") == PayloadAt(b[1], "response")
            && PayloadAt(b[0], "response").Some? && PayloadAt(b[0], "response").value.Obj?
            && var announced := PayloadAt(b[0], "response").value.fields;
               && announced.Keys == response.Keys
               && announced["status"] == Str("in_progress") && announced["output"] == Arr([])
               && forall k :: k in response && k != "status" && k != "output" && k != "usage" ==>
                   announced[k] == response[k]
  {
    ResponseKeysDiffer();
  }

  lemma PartsRoundTrip(first: seq<Emission>, make: string -> Emission, deltas: seq<string>, last: seq<Emission>,
                       chunks: seq<string>, requireBoundary: bool, codec: Codec)
    requires codec.Faithful() && Carries(make)
    requires AllClean(first) && Silent(first) && AllClean(last) && Silent(last)
    requires Flatten(chunks) == Wire(first + Mapped(make, deltas) + last, 0, codec)
    ensures ReadStream(chunks, None, requireBoundary, codec)
            == Reading(ReceivedAll(first + Mapped(make, deltas) + last, 0), Closed)
    ensures ReplyText(ReceivedAll(first + Mapped(make, deltas) + last, 0)) == Flatten(deltas)
  {
    var middle := Mapped(make, deltas);
    assert AllClean(middle);
    ClientReceivesWire(first + middle + last, chunks, requireBoundary, codec);
    TextOfParts(first, middle, last);
    DeltaText(make, deltas, |first|);
  }

  lemma NumberedWithoutGaps(script: seq<Emission>)
    ensures |ReceivedAll(script, 0)| == |script|
    ensures forall i :: 0 <= i < |script| ==> ReceivedAll(script, 0)[i] == Received(script[i], i)
  {
    ReceivedLength(script, 0);
    forall i | 0 <= i < |script| ensures ReceivedAll(script, 0)[i] == Received(script[i], i) {
      ReceivedAt(script, 0, i, script[i], i);
    }
  }

  /** The round trip: in every chunking the client receives exactly the emitted events in
      order and then the normal end; the events are numbered 0, 1, 2, ... without gaps, and
      their text deltas spell the reply. */
  lemma ReplyRoundTrip(reply: string, model: string, createdAt: nat, chunks: seq<string>, requireBoundary: bool,
      codec: Codec)
    requires codec.Faithful()
    requires Flatten(chunks) == Wire(Script(reply, CompletedResponse(model, createdAt, reply)), 0, codec)
    ensures var script := Script(reply, CompletedResponse(model, createdAt, reply));
            var reading := ReadStream(chunks, None, requireBoundary, codec);
            && reading.status == Closed
            && |reading.events| == |script|
            && (forall i :: 0 <= i < |script| ==> reading.events[i] == Received(script[i], i))
            && ReplyText(reading.events) == reply
  {
    var response := CompletedResponse(model, createdAt, reply);
    BeginningIsPlain(response);
    PlainIsSilent(Beginning(response));
    EndingIsPlain(reply, response);
    PlainIsSilent(Ending(reply, response));
    DeltasAreCarried();
    PartsRoundTrip(Beginning(response), DeltaEmission, Deltas(SplitSpaces(reply)), Ending(reply, response),
                   chunks, requireBoundary, codec);
    NumberedWithoutGaps(Script(reply, response));
    WordsRejoin(reply);
  }
}
