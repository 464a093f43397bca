/**
 How the event-stream reader depends on the way its input is cut into chunks: not at all
 without a size limit, and with a limit exactly through frames whose closing boundary may be
 counted before it is complete.
 */
module Chunking {
  import opened Common
  import opened EventStream

  lemma NoBoundaryLeft(text: string)
    ensures EventStreamBoundary(CutAll(text).rest).None?
    decreases |text|
  {
    if EventStreamBoundary(text).Some? {
      var at := EventStreamBoundary(text).value;
      CutFirst(text, at);
      NoBoundaryLeft(text[at.index + at.length..]);
    }
  }

  /** While the first frame is incomplete, less than that frame and its boundary is held. */
  lemma PartialFrame(held: string, more: string)
    requires EventStreamBoundary(held).None? && EventStreamBoundary(held + more).Some?
    ensures var at := EventStreamBoundary(held + more).value;
            |held| < at.index + at.length
  {
    BoundaryIsFirst(held);
    BoundaryIsFirst(held + more);
    var at := EventStreamBoundary(held + more).value;
    assert !BoundaryAt(held, at.index);
    assert at.index + 2 <= |held| ==> OccursAt(held + more, at.index, LF) == OccursAt(held, at.index, LF);
    assert at.index + 4 <= |held| ==> OccursAt(held + more, at.index, CRLF) == OccursAt(held, at.index, CRLF);
  }

  // ---------------------------------------------------------------- frames and the limit

  /** No part of the frame, with all of its boundary but the last character, is over the limit. */
  predicate Passable(frame: Frame, limit: Option<nat>) {
    !Over(|frame.body| + frame.close - 1, limit)
  }

  predicate Oversized(frame: Frame, limit: Option<nat>) {
    Over(|frame.body|, limit)
  }

  /** Every frame that is reached is either passable or oversized. */
  predicate Clear(frames: seq<Frame>, limit: Option<nat>, codec: Codec) {
    frames == []
    || Oversized(frames[0], limit)
    || (Passable(frames[0], limit)
        && (TakeFrame(frames[0].body, limit, codec).status.Running? ==> Clear(frames[1..], limit, codec)))
  }

  /** Some frame that is reached is not passable, or the text after the last frame is too long. */
  predicate MayRefuse(frames: seq<Frame>, rest: string, limit: Option<nat>, codec: Codec) {
    if frames == [] then Over(|rest|, limit)
    else
      !Passable(frames[0], limit)
      || (TakeFrame(frames[0].body, limit, codec).status.Running? && MayRefuse(frames[1..], rest, limit, codec))
  }

  lemma {:induction false} ClearSuffix(a: seq<Frame>, b: seq<Frame>, limit: Option<nat>, codec: Codec)
    requires Clear(a + b, limit, codec) && TakeFrames(a, limit, codec).status.Running?
    ensures Clear(b, limit, codec)
  {
    if a == [] {
      assert a + b == b;
    } else {
      assert (a + b)[1..] == a[1..] + b;
      ClearSuffix(a[1..], b, limit, codec);
    }
  }

  /** The reading of a text that does not depend on chunks. */
  function Verdict(text: string, limit: Option<nat>, codec: Codec): Reading {
    TakeFrames(CutAll(text).frames, limit, codec).Then(SizeCheck(CutAll(text).rest, limit))
  }

  /** Text that is over the limit before its boundary is complete is refused in any case. */
  lemma PartialIsOver(held: string, more: string, limit: Option<nat>, codec: Codec)
    requires EventStreamBoundary(held).None? && Over(|held|, limit)
    requires Clear(CutAll(held + more).frames, limit, codec)
    ensures Verdict(held + more, limit, codec) == Reading([], TooLarge)
  {
    if EventStreamBoundary(held + more).Some? {
      PartialFrame(held, more);
      var at := EventStreamBoundary(held + more).value;
      CutFirst(held + more, at);
      assert |CutAll(held + more).frames[0].body| == at.index;
    }
  }

  /** One chunk after another is one text, for every clear text. */
  lemma {:induction false} ChunksAgree(buffer: string, chunks: seq<string>, limit: Option<nat>, codec: Codec)
    requires EventStreamBoundary(buffer).None? && !Over(|buffer|, limit)
    requires Clear(CutAll(buffer + Flatten(chunks)).frames, limit, codec)
    ensures TakeChunks(buffer, chunks, limit, codec)
            == (Verdict(buffer + Flatten(chunks), limit, codec), CutAll(buffer + Flatten(chunks)).rest)
    decreases |chunks|
  {
    if chunks == [] {
      assert buffer + Flatten(chunks) == buffer;
      assert CutAll(buffer) == Cut([], buffer);
      assert Verdict(buffer, limit, codec).events == [] + [];
    } else {
      var now, tail := buffer + chunks[0], Flatten(chunks[1..]);
      var c := CutAll(now);
      assert buffer + Flatten(chunks) == now + tail by { Associate(buffer, chunks[0], tail); }
      CutAppend(now, tail);
      NoBoundaryLeft(now);
      var d := CutAll(c.rest + tail);
      TakeFramesAppend(c.frames, d.frames, limit, codec);
      HeldText(c.rest, chunks[1..], limit, codec);
      var first, next := TakeFrames(c.frames, limit, codec), TakeFrames(d.frames, limit, codec);
      assert first.events + [] == first.events;
      if first.status.Running? {
        ClearSuffix(c.frames, d.frames, limit, codec);
        ReadingAssociates(first.events, next, SizeCheck(d.rest, limit));
        if Over(|c.rest|, limit) {
          PartialIsOver(c.rest, tail, limit, codec);
        } else {
          ChunksAgree(c.rest, chunks[1..], limit, codec);
        }
      }
    }
  }

  /** The text held at the end is what follows the last boundary, in every chunking. */
  lemma {:induction false} HeldText(buffer: string, chunks: seq<string>, limit: Option<nat>, codec: Codec)
    requires EventStreamBoundary(buffer).None?
    ensures TakeChunks(buffer, chunks, limit, codec).1 == CutAll(buffer + Flatten(chunks)).rest
    decreases |chunks|
  {
    if chunks == [] {
      assert buffer + Flatten(chunks) == buffer;
    } else {
      var now, tail := buffer + chunks[0], Flatten(chunks[1..]);
      assert buffer + Flatten(chunks) == now + tail by { Associate(buffer, chunks[0], tail); }
      CutAppend(now, tail);
      NoBoundaryLeft(now);
      HeldText(CutAll(now).rest, chunks[1..], limit, codec);
    }
  }

  // ---------------------------------------------------------------- main results

  lemma ReadingOfClearText(chunks: seq<string>, limit: Option<nat>, requireBoundary: bool, codec: Codec)
    requires Clear(CutAll(Flatten(chunks)).frames, limit, codec)
    ensures ReadStream(chunks, limit, requireBoundary, codec)
            == Verdict(Flatten(chunks), limit, codec).Then(
                 Finish(CutAll(Flatten(chunks)).rest, requireBoundary, codec))
  {
    BoundaryIsFirst("");
    assert "" + Flatten(chunks) == Flatten(chunks);
    ChunksAgree("", chunks, limit, codec);
  }

  lemma {:induction false} NoLimitIsClear(frames: seq<Frame>, codec: Codec)
    ensures Clear(frames, None, codec)
  {
    if frames != [] {
      NoLimitIsClear(frames[1..], codec);
    }
  }

  /** Without a limit, only the text matters: any two chunkings give the same events in the
      same order and the same end. */
  lemma ChunkingIsInvisible(chunks: seq<string>, others: seq<string>, requireBoundary: bool, codec: Codec)
    requires Flatten(chunks) == Flatten(others)
    ensures ReadStream(chunks, None, requireBoundary, codec) == ReadStream(others, None, requireBoundary, codec)
  {
    NoLimitIsClear(CutAll(Flatten(chunks)).frames, codec);
    ReadingOfClearText(chunks, None, requireBoundary, codec);
    ReadingOfClearText(others, None, requireBoundary, codec);
  }

  lemma {:induction false} PassableThenOversized(frames: seq<Frame>, k: nat, limit: Option<nat>, codec: Codec)
    requires k < |frames| && Oversized(frames[k], limit)
    requires forall i :: 0 <= i < k ==> Passable(frames[i], limit)
    ensures Clear(frames, limit, codec)
    ensures TakeFrames(frames[..k], limit, codec).status.Running? ==>
              TakeFrames(frames, limit, codec) == Reading(TakeFrames(frames[..k], limit, codec).events, TooLarge)
  {
    if k > 0 {
      assert frames[..k][1..] == frames[1..][..k - 1];
      PassableThenOversized(frames[1..], k - 1, limit, codec);
    }
  }

  /** In every chunking, an oversized frame after passable frames stops the stream right after
      the events of the earlier frames. */
  lemma OversizedFrameStops(chunks: seq<string>, k: nat, limit: Option<nat>, requireBoundary: bool, codec: Codec)
    requires var frames := CutAll(Flatten(chunks)).frames;
             && k < |frames| && Oversized(frames[k], limit)
             && (forall i :: 0 <= i < k ==> Passable(frames[i], limit))
             && TakeFrames(frames[..k], limit, codec).status.Running?
    ensures ReadStream(chunks, limit, requireBoundary, codec)
            == Reading(TakeFrames(CutAll(Flatten(chunks)).frames[..k], limit, codec).events, TooLarge)
  {
    PassableThenOversized(CutAll(Flatten(chunks)).frames, k, limit, codec);
    ReadingOfClearText(chunks, limit, requireBoundary, codec);
  }

  lemma {:induction false} NotRefused(frames: seq<Frame>, rest: string, limit: Option<nat>, codec: Codec)
    requires !MayRefuse(frames, rest, limit, codec)
    ensures Clear(frames, limit, codec)
    ensures TakeFrames(frames, limit, codec).Then(SizeCheck(rest, limit)).status in {Running, BadJson}
  {
    if frames != [] && TakeFrame(frames[0].body, limit, codec).status.Running? {
      NotRefused(frames[1..], rest, limit, codec);
    }
  }

  lemma CutShort(text: string, at: Boundary)
    requires EventStreamBoundary(text) == Some(at)
    ensures CutAll(text[..at.index + at.length - 1]) == Cut([], text[..at.index + at.length - 1])
  {
    var n := at.index + at.length - 1;
    var short := text[..n];
    assert text == short + text[n..];
    if EventStreamBoundary(short).Some? {
      BoundaryIsStable(short, text[n..]);
    }
  }

  lemma CutExactly(text: string, at: Boundary)
    requires EventStreamBoundary(text) == Some(at)
    ensures CutAll(text[..at.index + at.length]) == Cut([Frame(text[..at.index], at.length)], "")
  {
    var n := at.index + at.length;
    var exact := text[..n];
    assert text == exact + text[n..];
    if EventStreamBoundary(exact).None? {
      PartialFrame(exact, text[n..]);
    } else {
      BoundaryIsStable(exact, text[n..]);
      CutFirst(exact, at);
      BoundaryIsFirst("");
      assert exact[n..] == "" && exact[..at.index] == text[..at.index];
    }
  }

  /** A first chunk that is one exact frame leaves nothing held for the chunks after it. */
  lemma ExactChunk(text: string, at: Boundary, later: seq<string>, limit: Option<nat>, codec: Codec)
    requires EventStreamBoundary(text) == Some(at)
    ensures TakeChunks("", [text[..at.index + at.length]] + later, limit, codec).0
            == TakeFrame(text[..at.index], limit, codec).Then(TakeChunks("", later, limit, codec).0)
  {
    var chunk, frame := text[..at.index + at.length], Frame(text[..at.index], at.length);
    CutExactly(text, at);
    assert ([chunk] + later)[1..] == later && "" + chunk == chunk;
    assert [frame][1..] == [];
    var now := TakeFrame(frame.body, limit, codec);
    assert TakeFrames([frame], limit, codec) == now.Then(TakeFrames([], limit, codec));
    assert now.events + [] == now.events;
  }

  /** A first chunk that lacks the last character of a boundary is measured as a whole. */
  lemma ShortChunk(text: string, at: Boundary, limit: Option<nat>, codec: Codec)
    requires EventStreamBoundary(text) == Some(at) && Over(at.index + at.length - 1, limit)
    ensures TakeChunks("", [text[..at.index + at.length - 1], text[at.index + at.length - 1..]], limit, codec).0
            == Reading([], TooLarge)
  {
    CutShort(text, at);
    assert "" + text[..at.index + at.length - 1] == text[..at.index + at.length - 1];
  }

  /** A text without a boundary, in one chunk, is measured as a whole. */
  lemma UnfinishedChunk(text: string, limit: Option<nat>, codec: Codec)
    requires EventStreamBoundary(text).None? && Over(|text|, limit)
    ensures Flatten([text]) == text
    ensures TakeChunks("", [text], limit, codec).0 == Reading([], TooLarge)
  {
    assert "" + text == text && [text][1..] == [] && text + Flatten([]) == text;
  }

  lemma FlattenTwo(a: string, b: string)
    ensures Flatten([a, b]) == a + b
  {
    assert [a, b][1..] == [b] && [b][1..] == [];
    assert b + Flatten([]) == b;
  }

  lemma Rejoin(text: string, n: nat)
    requires n <= |text|
    ensures text[..n] + text[n..] == text
  {}

  lemma FlattenCons(a: string, later: seq<string>)
    ensures Flatten([a] + later) == a + Flatten(later)
  {
    assert ([a] + later)[1..] == later;
  }

  /** A chunking of `text` that meets a size error: one chunk for each frame, and the first
      frame that is not passable without the last character of its boundary. */
  lemma {:induction false} Refusal(text: string, limit: Option<nat>, codec: Codec) returns (chunks: seq<string>)
    requires MayRefuse(CutAll(text).frames, CutAll(text).rest, limit, codec)
    ensures Flatten(chunks) == text
    ensures TakeChunks("", chunks, limit, codec).0.status == TooLarge
    decreases |text|
  {
    if EventStreamBoundary(text).None? {
      chunks := [text];
      UnfinishedChunk(text, limit, codec);
    } else {
      var at := EventStreamBoundary(text).value;
      var n := at.index + at.length;
      CutFirst(text, at);
      if !Passable(CutAll(text).frames[0], limit) {
        chunks := [text[..n - 1], text[n - 1..]];
        ShortChunk(text, at, limit, codec);
        FlattenTwo(text[..n - 1], text[n - 1..]);
        Rejoin(text, n - 1);
      } else {
        var later := Refusal(text[n..], limit, codec);
        chunks := [text[..n]] + later;
        ExactChunk(text, at, later, limit, codec);
        FlattenCons(text[..n], later);
        Rejoin(text, n);
      }
    }
  }

  /** Exactly when a size error is possible: some chunking meets one if and only if a frame
      that is reached is not passable, or the final text is over the limit. */
  lemma SizeErrorIff(text: string, limit: Option<nat>, requireBoundary: bool, codec: Codec)
    ensures (exists chunks ::
               Flatten(chunks) == text && ReadStream(chunks, limit, requireBoundary, codec).status == TooLarge)
       <==> MayRefuse(CutAll(text).frames, CutAll(text).rest, limit, codec)
  {
    if MayRefuse(CutAll(text).frames, CutAll(text).rest, limit, codec) {
      var chunks := Refusal(text, limit, codec);
      assert ReadStream(chunks, limit, requireBoundary, codec).status == TooLarge;
    } else {
      NotRefused(CutAll(text).frames, CutAll(text).rest, limit, codec);
      forall chunks | Flatten(chunks) == text
        ensures ReadStream(chunks, limit, requireBoundary, codec).status != TooLarge
      {
        ReadingOfClearText(chunks, limit, requireBoundary, codec);
      }
    }
  }

  /** If every frame is at least three characters under the limit and the final text is within
      it, no chunking meets a size error. */
  lemma {:induction false} RoomForTheBoundary(frames: seq<Frame>, rest: string, limit: nat, codec: Codec)
    requires forall f :: f in frames ==> |f.body| + 3 <= limit
    requires |rest| <= limit
    ensures !MayRefuse(frames, rest, Some(limit), codec)
  {
    if frames != [] {
      RoomForTheBoundary(frames[1..], rest, limit, codec);
    }
  }

  lemma RoomMeansNoSizeError(chunks: seq<string>, limit: nat, requireBoundary: bool, codec: Codec)
    requires forall f :: f in CutAll(Flatten(chunks)).frames ==> |f.body| + 3 <= limit
    requires |CutAll(Flatten(chunks)).rest| <= limit
    ensures ReadStream(chunks, Some(limit), requireBoundary, codec).status != TooLarge
  {
    var cut := CutAll(Flatten(chunks));
    RoomForTheBoundary(cut.frames, cut.rest, limit, codec);
    SizeErrorIff(Flatten(chunks), Some(limit), requireBoundary, codec);
  }

  /** One chunk that holds one complete frame is that frame taken and nothing held. */
  lemma OneFrameInOneChunk(text: string, frame: Frame, limit: Option<nat>, codec: Codec)
    requires CutAll(text) == Cut([frame], "")
    ensures TakeChunks("", [text], limit, codec).0.status == TakeFrame(frame.body, limit, codec).status
  {
    var now := TakeFrame(frame.body, limit, codec);
    assert "" + [text][0] == text && [text][1..] == [];
    assert [frame][1..] == [];
    assert TakeFrames([frame], limit, codec) == now.Then(TakeFrames([], limit, codec));
  }

  /** A frame within the limit whose boundary reaches over it is accepted in one chunk and
      refused in another chunking: the limit counts a partly received boundary. */
  lemma GapDependsOnChunking(text: string, frame: Frame, limit: nat, codec: Codec)
    requires CutAll(text) == Cut([frame], "")
    requires !Oversized(frame, Some(limit)) && !Passable(frame, Some(limit))
    ensures ReadStream([text], Some(limit), false, codec).status != TooLarge
    ensures exists chunks :: Flatten(chunks) == text && ReadStream(chunks, Some(limit), false, codec).status == TooLarge
  {
    SizeErrorIff(text, Some(limit), false, codec);
    OneFrameInOneChunk(text, frame, Some(limit), codec);
    var (reading, held) := TakeChunks("", [text], Some(limit), codec);
    assert Finish(held, false, codec).status != TooLarge;
  }
}
