/**
 The incremental reader of a server-sent event stream (npm/runtime-sdk/index.js).

 Text arrives in chunks. A frame ends at "\n\n" or at "\r\n\r\n", whichever comes first, and
 both forms may be mixed. The reader keeps one text buffer, and may refuse frames that are
 longer than a limit.
 */
module EventStream {
  import opened Common

  // ---------------------------------------------------------------- frame boundaries

  const LF: string := "\n\n"
  const CRLF: string := "\r\n\r\n"

  /** `pat` occurs in `s` at position `i`. */
  predicate OccursAt(s: string, i: nat, pat: string) {
    i + |pat| <= |s| && forall k {:trigger pat[k]} :: 0 <= k < |pat| ==> s[i + k] == pat[k]
  }

  /** The first position, not before `from`, at which `pat` occurs. */
  function IndexOf(s: string, pat: string, from: nat := 0): (found: Option<nat>)
    ensures found.Some? ==> from <= found.value && OccursAt(s, found.value, pat)
    decreases |s| - from
  {
    if OccursAt(s, from, pat) then Some(from)
    else if from >= |s| then None
    else IndexOf(s, pat, from + 1)
  }

  lemma {:induction false} IndexOfIsFirst(s: string, pat: string, from: nat, i: nat)
    requires from <= i && OccursAt(s, i, pat)
    ensures IndexOf(s, pat, from).Some? && IndexOf(s, pat, from).value <= i
    decreases |s| - from
  {
    if !OccursAt(s, from, pat) && from < |s| {
      IndexOfIsFirst(s, pat, from + 1, i);
    }
  }

  /** The lengths of the two boundary forms. */
  type Closing = n: nat | n == 2 || n == 4 witness 2

  datatype Boundary = Boundary(index: nat, length: Closing)

  /** A boundary of either form starts at `i`. */
  predicate BoundaryAt(s: string, i: nat) {
    OccursAt(s, i, LF) || OccursAt(s, i, CRLF)
  }

  function EventStreamBoundary(buffer: string): (b: Option<Boundary>)
    ensures b.Some? ==> b.value.index + b.value.length <= |buffer|
  {
    var lf := IndexOf(buffer, LF);
    var crlf := IndexOf(buffer, CRLF);
    if lf.None? && crlf.None? then None
    else if crlf.Some? && (lf.None? || crlf.value < lf.value) then Some(Boundary(crlf.value, 4))
    else Some(Boundary(lf.value, 2))
  }

  /** The earliest place where either form starts, with the length of the form found there. */
  ghost predicate IsFirstBoundary(s: string, b: Boundary) {
    && BoundaryAt(s, b.index)
    && (forall i: nat :: i < b.index ==> !BoundaryAt(s, i))
    && b.length == (if OccursAt(s, b.index, LF) then 2 else 4)
  }

  lemma BoundaryIsFirst(s: string)
    ensures match EventStreamBoundary(s)
            case None => forall i: nat :: !BoundaryAt(s, i)
            case Some(b) => IsFirstBoundary(s, b)
  {
    forall i: nat, pat: string | OccursAt(s, i, pat)
      ensures IndexOf(s, pat).Some? && IndexOf(s, pat).value <= i
    {
      IndexOfIsFirst(s, pat, 0, i);
    }
    if EventStreamBoundary(s).Some? {
      var b := EventStreamBoundary(s).value;
      assert OccursAt(s, b.index, LF) ==> b.length == 2;
    }
  }

  /** There is only one first boundary, so the search is determined by its meaning. */
  lemma FirstBoundaryIsFound(s: string, b: Boundary)
    requires IsFirstBoundary(s, b)
    ensures EventStreamBoundary(s) == Some(b)
  {
    BoundaryIsFirst(s);
    var found := EventStreamBoundary(s);
    assert found.Some?;
    assert found.value.index <= b.index && b.index <= found.value.index;
  }

  /** Later text never moves, adds before, or removes the first complete boundary. */
  lemma BoundaryIsStable(a: string, b: string)
    requires EventStreamBoundary(a).Some?
    ensures EventStreamBoundary(a + b) == EventStreamBoundary(a)
  {
    var at := EventStreamBoundary(a).value;
    BoundaryIsFirst(a);
    forall i: nat | i < at.index
      ensures !BoundaryAt(a + b, i)
    {
      assert !BoundaryAt(a, i);
      assert OccursAt(a + b, i, LF) == OccursAt(a, i, LF);
      if i + 4 <= |a| {
        assert OccursAt(a + b, i, CRLF) == OccursAt(a, i, CRLF);
      } else {
        // Only i == index - 1 leaves so little room, and then the texts disagree.
        assert a[at.index + 1] == LF[1];
        assert (a + b)[i + 2] != CRLF[2];
      }
    }
    assert OccursAt(a + b, at.index, LF) == OccursAt(a, at.index, LF);
    assert OccursAt(a, at.index, CRLF) ==> OccursAt(a + b, at.index, CRLF);
    FirstBoundaryIsFound(a + b, at);
  }

  /** A text that starts with a complete frame is cut after that frame. */
  lemma CutFirst(text: string, at: Boundary)
    requires EventStreamBoundary(text) == Some(at)
    ensures var tail := CutAll(text[at.index + at.length..]);
            CutAll(text) == Cut([Frame(text[..at.index], at.length)] + tail.frames, tail.rest)
  {}

  // ---------------------------------------------------------------- cutting a text into frames

  /** A complete frame, and the length of the boundary that closed it. */
  datatype Frame = Frame(body: string, close: Closing)

  datatype Cut = Cut(frames: seq<Frame>, rest: string)

  /** Every complete frame of a text, and what is left after the last boundary. */
  function CutAll(text: string): (cut: Cut)
    decreases |text|
  {
    match EventStreamBoundary(text)
    case None => Cut([], text)
    case Some(b) =>
      var tail := CutAll(text[b.index + b.length..]);
      Cut([Frame(text[..b.index], b.length)] + tail.frames, tail.rest)
  }

  /** Cutting what has arrived and then the rest together with new text is cutting everything. */
  lemma {:induction false} CutAppend(a: string, b: string)
    ensures CutAll(a + b)
         == Cut(CutAll(a).frames + CutAll(CutAll(a).rest + b).frames, CutAll(CutAll(a).rest + b).rest)
    decreases |a|
  {
    if EventStreamBoundary(a).None? {
      assert [] + CutAll(a + b).frames == CutAll(a + b).frames;
    } else {
      var at := EventStreamBoundary(a).value;
      var n := at.index + at.length;
      BoundaryIsStable(a, b);
      CutFirst(a, at);
      CutFirst(a + b, at);
      DropPrefix(a, b, n);
      DropPrefix(a, b, at.index);
      CutAppend(a[n..], b);
      var tail := CutAll(a[n..]);
      FramesAssociate([Frame(a[..at.index], at.length)], tail.frames, CutAll(tail.rest + b).frames);
    }
  }

  lemma DropPrefix(a: string, b: string, n: nat)
    requires n <= |a|
    ensures (a + b)[n..] == a[n..] + b && (a + b)[..n] == a[..n]
  {}

  lemma FramesAssociate(a: seq<Frame>, b: seq<Frame>, c: seq<Frame>)
    ensures a + (b + c) == (a + b) + c
  {}

  // ---------------------------------------------------------------- one frame

  /** The white space that `trim` and `trimStart` remove. */
  predicate IsSpace(c: char) {
    c in {'\t', '\n', '\U{0B}', '\U{0C}', '\r', ' ', '\U{A0}', '\U{1680}', '\U{2028}', '\U{2029}',
          '\U{202F}', '\U{205F}', '\U{3000}', '\U{FEFF}'} || '\U{2000}' <= c <= '\U{200A}'
  }

  function TrimStart(s: string): string {
    if s != "" && IsSpace(s[0]) then TrimStart(s[1..]) else s
  }

  /** `split(/\r?\n/)`: a line ends at a line feed, with at most one carriage return before it. */
  function SplitLines(s: string): (lines: seq<string>)
    ensures lines != []
    decreases |s|
  {
    match IndexOf(s, "\n")
    case None => [s]
    case Some(i) =>
      assert s[i + 0] == "\n"[0];
      [if i > 0 && s[i - 1] == '\r' then s[..i - 1] else s[..i]] + SplitLines(s[i + 1..])
  }

  /** The trimmed values of the lines that start with `name`, in order. */
  function FieldValues(lines: seq<string>, name: string): seq<string> {
    if lines == [] then []
    else if OccursAt(lines[0], 0, name) then [TrimStart(lines[0][|name|..])] + FieldValues(lines[1..], name)
    else FieldValues(lines[1..], name)
  }

  function JoinLines(lines: seq<string>): string {
    if lines == [] then "" else if |lines| == 1 then lines[0] else lines[0] + "\n" + JoinLines(lines[1..])
  }

  datatype Parsed = Nothing | Event(value: Json) | Malformed

  /** Adds a field that is not there, unless the value to add is missing or empty. */
  function WithDefault(fields: map<string, Json>, key: string, values: seq<string>): map<string, Json> {
    if values != [] && values[0] != "" && key !in fields then fields[key := Str(values[0])] else fields
  }

  function ParseSseFrame(frame: string, codec: Codec): Parsed {
    var lines := SplitLines(frame);
    var data := JoinLines(FieldValues(lines, "data:"));
    if data == "" || data == "[DONE]" then Nothing
    else
      match codec.loads(data)
      case None => Malformed
      case Some(Obj(fields)) =>
        var named := WithDefault(fields, "event", FieldValues(lines, "event:"));
        Event(Obj(WithDefault(named, "cursor", FieldValues(lines, "id:"))))
      case Some(other) => Event(other)
  }

  // ---------------------------------------------------------------- a whole stream

  /** Running: nothing refused so far. Closed: the stream ended normally. The others name
      the error that the generator throws after the events it has yielded. */
  datatype Status = Running | Closed | TooLarge | InsideFrame | BadJson

  datatype Reading = Reading(events: seq<Json>, status: Status) {
    /** What a reader does next, if it is still running. */
    function Then(next: Reading): Reading {
      if status.Running? then Reading(events + next.events, next.status) else this
    }
  }

  predicate Over(length: int, limit: Option<nat>) {
    limit.Some? && length > limit.value
  }

  /** One complete frame: refused for its size, or parsed. */
  function TakeFrame(body: string, limit: Option<nat>, codec: Codec): Reading {
    if Over(|body|, limit) then Reading([], TooLarge)
    else
      match ParseSseFrame(body, codec)
      case Nothing => Reading([], Running)
      case Malformed => Reading([], BadJson)
      case Event(value) => Reading([value], Running)
  }

  function TakeFrames(frames: seq<Frame>, limit: Option<nat>, codec: Codec): Reading {
    if frames == [] then Reading([], Running)
    else TakeFrame(frames[0].body, limit, codec).Then(TakeFrames(frames[1..], limit, codec))
  }

  function SizeCheck(buffer: string, limit: Option<nat>): Reading {
    Reading([], if Over(|buffer|, limit) then TooLarge else Running)
  }

  /** The chunks in order, starting with `buffer` already held; also the text held at the end. */
  function TakeChunks(buffer: string, chunks: seq<string>, limit: Option<nat>, codec: Codec): (Reading, string)
    decreases |chunks|
  {
    if chunks == [] then (Reading([], Running), buffer)
    else
      var cut := CutAll(buffer + chunks[0]);
      var now := TakeFrames(cut.frames, limit, codec).Then(SizeCheck(cut.rest, limit));
      var (later, held) := TakeChunks(cut.rest, chunks[1..], limit, codec);
      (now.Then(later), held)
  }

  /** The text after the last boundary when the body ends. */
  function Finish(held: string, requireBoundary: bool, codec: Codec): Reading {
    if requireBoundary && TrimStart(held) != "" then Reading([], InsideFrame)
    else
      match ParseSseFrame(held, codec)
      case Nothing => Reading([], Closed)
      case Malformed => Reading([], BadJson)
      case Event(value) => Reading([value], Closed)
  }

  function ReadStream(chunks: seq<string>, limit: Option<nat>, requireBoundary: bool, codec: Codec): Reading {
    var (reading, held) := TakeChunks("", chunks, limit, codec);
    reading.Then(Finish(held, requireBoundary, codec))
  }

  lemma {:induction false} TakeFramesAppend(a: seq<Frame>, b: seq<Frame>, limit: Option<nat>, codec: Codec)
    ensures TakeFrames(a + b, limit, codec) == TakeFrames(a, limit, codec).Then(TakeFrames(b, limit, codec))
  {
    if a == [] {
      assert a + b == b;
    } else {
      assert (a + b)[1..] == a[1..] + b;
      TakeFramesAppend(a[1..], b, limit, codec);
      var x, y, z := TakeFrame(a[0].body, limit, codec), TakeFrames(a[1..], limit, codec), TakeFrames(b, limit, codec);
      assert x.events + (y.events + z.events) == (x.events + y.events) + z.events;
    }
  }

  /** What the inner loop makes of `held` after `events`, and the text it keeps. */
  ghost function Drain(events: seq<Json>, held: string, limit: Option<nat>, codec: Codec): (Reading, string) {
    (Reading(events, Running).Then(TakeFrames(CutAll(held).frames, limit, codec)), CutAll(held).rest)
  }

  lemma DrainStep(events: seq<Json>, held: string, b: Boundary, now: Reading, limit: Option<nat>, codec: Codec)
    requires EventStreamBoundary(held) == Some(b)
    requires now == TakeFrame(held[..b.index], limit, codec)
    ensures Drain(events, held, limit, codec)
            == if now.status.Running?
               then Drain(events + now.events, held[b.index + b.length..], limit, codec)
               else (Reading(events + now.events, now.status), CutAll(held).rest)
  {
    CutFirst(held, b);
    var frames := CutAll(held[b.index + b.length..]).frames;
    var first := Frame(held[..b.index], b.length);
    assert ([first] + frames)[1..] == frames;
    assert TakeFrames([first] + frames, limit, codec) == now.Then(TakeFrames(frames, limit, codec));
    ReadingAssociates(events, now, TakeFrames(frames, limit, codec));
  }

  lemma ReadingAssociates(events: seq<Json>, now: Reading, later: Reading)
    ensures Reading(events, Running).Then(now.Then(later)) == Reading(events, Running).Then(now).Then(later)
  {
    assert events + (now.events + later.events) == (events + now.events) + later.events;
  }

  /** What a reader that holds `buffer` after `events` does with the remaining chunks. */
  ghost function Continue(events: seq<Json>, buffer: string, chunks: seq<string>,
                          limit: Option<nat>, requireBoundary: bool, codec: Codec): Reading {
    var (reading, held) := TakeChunks(buffer, chunks, limit, codec);
    Reading(events, Running).Then(reading).Then(Finish(held, requireBoundary, codec))
  }

  lemma ContinueStep(events: seq<Json>, buffer: string, chunks: seq<string>,
                     limit: Option<nat>, requireBoundary: bool, codec: Codec)
    requires chunks != []
    ensures var (now, rest) := Drain(events, buffer + chunks[0], limit, codec);
            Continue(events, buffer, chunks, limit, requireBoundary, codec)
              == if !now.status.Running? then now
                 else if Over(|rest|, limit) then Reading(now.events, TooLarge)
                 else Continue(now.events, rest, chunks[1..], limit, requireBoundary, codec)
  {
    var cut := CutAll(buffer + chunks[0]);
    var now := TakeFrames(cut.frames, limit, codec);
    var (later, held) := TakeChunks(cut.rest, chunks[1..], limit, codec);
    assert now.events + [] == now.events;
    ReadingAssociates(events, now, later);
  }

  /** The reader itself: a buffer, an outer loop over chunks and an inner loop over boundaries. */
  method ParseEventStream(chunks: seq<string>, limit: Option<nat>, requireBoundary: bool, codec: Codec)
    returns (events: seq<Json>, status: Status)
    ensures Reading(events, status) == ReadStream(chunks, limit, requireBoundary, codec)
  {
    var buffer := "";
    events := [];
    ghost var goal := ReadStream(chunks, limit, requireBoundary, codec);
    assert goal == Continue([], "", chunks, limit, requireBoundary, codec);
    assert chunks[0..] == chunks;
    for i := 0 to |chunks|
      invariant goal == Continue(events, buffer, chunks[i..], limit, requireBoundary, codec)
    {
      ContinueStep(events, buffer, chunks[i..], limit, requireBoundary, codec);
      assert chunks[i..][1..] == chunks[i + 1..];
      buffer := buffer + chunks[i];
      events, buffer, status := DrainBuffer(events, buffer, limit, codec);
      if !status.Running? {
        return;
      }
      if Over(|buffer|, limit) {
        return events, TooLarge;
      }
    }
    if requireBoundary && TrimStart(buffer) != "" {
      return events, InsideFrame;
    }
    match ParseSseFrame(buffer, codec) {
      case Nothing => return events, Closed;
      case Malformed => return events, BadJson;
      case Event(value) => return events + [value], Closed;
    }
  }

  /** The inner loop: every complete frame now in the buffer. */
  method DrainBuffer(before: seq<Json>, held: string, limit: Option<nat>, codec: Codec)
    returns (events: seq<Json>, buffer: string, status: Status)
    ensures Drain(before, held, limit, codec).0 == Reading(events, status)
    ensures status.Running? ==> buffer == CutAll(held).rest
  {
    events, buffer := before, held;
    var boundary := EventStreamBoundary(buffer);
    while boundary.Some?
      invariant boundary == EventStreamBoundary(buffer)
      invariant Drain(events, buffer, limit, codec) == Drain(before, held, limit, codec)
      decreases |buffer|
    {
      var b := boundary.value;
      var frame := buffer[..b.index];
      DrainStep(events, buffer, b, TakeFrame(frame, limit, codec), limit, codec);
      assert events + [] == events;
      if Over(b.index, limit) {
        return events, buffer, TooLarge;
      }
      buffer := buffer[b.index + b.length..];
      match ParseSseFrame(frame, codec) {
        case Nothing =>
        case Malformed => return events, buffer, BadJson;
        case Event(value) => events := events + [value];
      }
      boundary := EventStreamBoundary(buffer);
    }
    status := Running;
  }
}
