/**
 The chunked export of a pet recording in pet/src/core/pet-world.ts: a cursor hands out the
 text of a recording piece by piece, with 16 buckets or interactions in a piece. Joined in
 order, the pieces are the text of the whole recording.
 */
module PetExport {
  import opened Common

  const SIZE: nat := 16

  /** What a recording is written from: the text before the buckets, each bucket, the text
      between, each interaction, the text after, and what stands between two items. */
  datatype Parts<T> = Parts(head: seq<T>, tape: seq<seq<T>>, middle: seq<T>, inputs: seq<seq<T>>, tail: seq<T>,
      comma: seq<T>)

  /** The inside of a JSON array with these items. */
  function Joined<T>(items: seq<seq<T>>, comma: seq<T>): (text: seq<T>) {
    if items == [] then [] else if |items| == 1 then items[0] else items[0] + comma + Joined(items[1..], comma)
  }

  /** The recording written at once. */
  function Whole<T>(p: Parts<T>): seq<T> {
    p.head + Joined(p.tape, p.comma) + p.middle + Joined(p.inputs, p.comma) + p.tail
  }

  // ---------------------------------------------------------------- pieces of one list

  function Pieces(n: nat): (k: nat) {
    (n + SIZE - 1) / SIZE
  }

  function Upto(n: nat, k: nat): (end: nat)
    ensures end <= n
  {
    if k * SIZE < n then k * SIZE else n
  }

  function Piece<T>(items: seq<seq<T>>, comma: seq<T>, k: nat): seq<T>
    requires k < Pieces(|items|)
  {
    PieceIsInside(|items|, k);
    (if k == 0 then [] else comma) + Joined(items[k * SIZE..Upto(|items|, k + 1)], comma)
  }

  lemma PieceIsInside(n: nat, k: nat)
    requires k < Pieces(n)
    ensures k * SIZE < Upto(n, k + 1)
    ensures Upto(n, k) == k * SIZE
    ensures k + 1 == Pieces(n) ==> Upto(n, k + 1) == n
  {}

  lemma {:induction false} JoinedAppend<T>(a: seq<seq<T>>, b: seq<seq<T>>, comma: seq<T>)
    requires a != [] && b != []
    ensures Joined(a + b, comma) == Joined(a, comma) + (comma + Joined(b, comma))
  {
    assert (a + b)[0] == a[0] && (a + b)[1..] == a[1..] + b;
    if |a| == 1 {
      assert a[1..] + b == b;
      Associate(a[0], comma, Joined(b, comma));
    } else {
      JoinedAppend(a[1..], b, comma);
      Associate(a[0] + comma, Joined(a[1..], comma), comma + Joined(b, comma));
    }
  }

  function PieceList<T>(items: seq<seq<T>>, comma: seq<T>): seq<seq<T>> {
    seq(Pieces(|items|), k requires 0 <= k < Pieces(|items|) => Piece(items, comma, k))
  }

  lemma FlattenOneMore<T>(parts: seq<seq<T>>, k: nat)
    requires k < |parts|
    ensures Flatten(parts[..k + 1]) == Flatten(parts[..k]) + parts[k]
  {
    assert parts[..k + 1] == parts[..k] + [parts[k]];
    FlattenAppend(parts[..k], [parts[k]]);
    assert [parts[k]][1..] == [] && parts[k] + [] == parts[k];
  }

  lemma OneMorePiece<T>(items: seq<seq<T>>, comma: seq<T>, k: nat, from: nat, end: nat)
    requires from < end <= |items| && (k == 0 <==> from == 0)
    ensures Joined(items[..from], comma) + ((if k == 0 then [] else comma) + Joined(items[from..end], comma))
            == Joined(items[..end], comma)
  {
    assert items[..from] + items[from..end] == items[..end];
    if k > 0 {
      JoinedAppend(items[..from], items[from..end], comma);
    } else {
      assert items[from..end] == items[..end] && Joined(items[..from], comma) == [];
      assert [] + ([] + Joined(items[..end], comma)) == Joined(items[..end], comma);
    }
  }

  /** The first `k` pieces are the first items. */
  lemma {:induction false} FirstPiecesAre<T>(items: seq<seq<T>>, comma: seq<T>, k: nat)
    requires k <= Pieces(|items|)
    ensures Flatten(PieceList(items, comma)[..k]) == Joined(items[..Upto(|items|, k)], comma)
  {
    if k > 0 {
      FirstPiecesAre(items, comma, k - 1);
      FlattenOneMore(PieceList(items, comma), k - 1);
      PieceIsInside(|items|, k - 1);
      OneMorePiece(items, comma, k - 1, (k - 1) * SIZE, Upto(|items|, k));
    }
  }

  lemma PiecesAreTheList<T>(items: seq<seq<T>>, comma: seq<T>)
    ensures Flatten(PieceList(items, comma)) == Joined(items, comma)
  {
    var last := Pieces(|items|);
    FirstPiecesAre(items, comma, last);
    assert PieceList(items, comma)[..last] == PieceList(items, comma);
    if last > 0 {
      PieceIsInside(|items|, last - 1);
    }
    assert items[..|items|] == items;
  }

  // ---------------------------------------------------------------- the cursor

  /** `recordingChunk`: nothing past the last piece. */
  function RecordingChunk<T>(p: Parts<T>, index: nat): (chunk: Option<seq<T>>) {
    var tapes, inputs := Pieces(|p.tape|), Pieces(|p.inputs|);
    if index == 0 then Some(p.head)
    else if index <= tapes then Some(Piece(p.tape, p.comma, index - 1))
    else if index == tapes + 1 then Some(p.middle)
    else if index - tapes - 2 < inputs then Some(Piece(p.inputs, p.comma, index - tapes - 2))
    else if index - tapes - 2 == inputs then Some(p.tail)
    else None
  }

  /** All that the cursor gives, one call after the other. */
  function Chunks<T>(p: Parts<T>): seq<seq<T>> {
    [p.head] + PieceList(p.tape, p.comma) + [p.middle] + PieceList(p.inputs, p.comma) + [p.tail]
  }

  lemma CursorReads<T>(p: Parts<T>, index: nat)
    ensures RecordingChunk(p, index) == if index < |Chunks(p)| then Some(Chunks(p)[index]) else None
  {
    var tapes, inputs := PieceList(p.tape, p.comma), PieceList(p.inputs, p.comma);
    var front := [p.head] + tapes + [p.middle];
    assert index < |front| ==> Chunks(p)[index] == front[index];
    assert |front| <= index < |front| + |inputs| ==> Chunks(p)[index] == inputs[index - |front|];
  }

  lemma FlattenOne<T>(part: seq<T>)
    ensures Flatten([part]) == part
  {
    assert [part][1..] == [] && part + [] == part;
  }

  lemma ChunksJoin<T>(p: Parts<T>)
    ensures Flatten(Chunks(p)) == Whole(p)
  {
    var tapes, inputs := PieceList(p.tape, p.comma), PieceList(p.inputs, p.comma);
    FlattenOne(p.head);
    FlattenOne(p.middle);
    FlattenOne(p.tail);
    PiecesAreTheList(p.tape, p.comma);
    PiecesAreTheList(p.inputs, p.comma);
    FlattenAppend([p.head], tapes);
    FlattenAppend([p.head] + tapes, [p.middle]);
    FlattenAppend([p.head] + tapes + [p.middle], inputs);
    FlattenAppend([p.head] + tapes + [p.middle] + inputs, [p.tail]);
  }

  /** The export loses nothing: the pieces joined in order are the recording written at once,
      for any number of buckets and interactions, and the cursor ends exactly there. */
  lemma ChunksAreTheRecording<T>(p: Parts<T>)
    ensures forall index: nat :: RecordingChunk(p, index).Some? <==> index < |Chunks(p)|
    ensures forall index: nat :: index < |Chunks(p)| ==> RecordingChunk(p, index) == Some(Chunks(p)[index])
    ensures Flatten(Chunks(p)) == Whole(p)
  {
    forall index: nat
      ensures RecordingChunk(p, index) == if index < |Chunks(p)| then Some(Chunks(p)[index]) else None
    {
      CursorReads(p, index);
    }
    ChunksJoin(p);
  }

  // ---------------------------------------------------------------- the reader

  lemma PrefixIsNoLonger<T>(parts: seq<seq<T>>, k: nat)
    requires k <= |parts|
    ensures |Flatten(parts[..k])| <= |Flatten(parts)|
  {
    assert parts == parts[..k] + parts[k..];
    FlattenAppend(parts[..k], parts[k..]);
  }

  /** What one call of the cursor says about the whole recording. */
  lemma AfterCall<T>(p: Parts<T>, index: nat)
    requires index <= |Chunks(p)|
    ensures RecordingChunk(p, index).None? ==> Flatten(Chunks(p)[..index]) == Whole(p)
    ensures RecordingChunk(p, index).Some? ==>
              && index < |Chunks(p)| && |Flatten(Chunks(p)[..index + 1])| <= |Whole(p)|
              && Flatten(Chunks(p)[..index + 1]) == Flatten(Chunks(p)[..index]) + RecordingChunk(p, index).value
  {
    var chunks := Chunks(p);
    CursorReads(p, index);
    ChunksJoin(p);
    if index < |chunks| {
      FlattenOneMore(chunks, index);
      PrefixIsNoLonger(chunks, index + 1);
    } else {
      assert chunks[..index] == chunks;
    }
  }

  /** Asking until the cursor ends, within a bound on the whole: a recording is exported
      completely or, if it is over the bound, not at all. */
  method Export<T>(p: Parts<T>, limit: nat) returns (ok: bool, text: seq<T>)
    ensures ok <==> |Whole(p)| <= limit
    ensures ok ==> text == Whole(p)
  {
    text := [];
    var index := 0;
    ghost var chunks := Chunks(p);
    while true
      invariant index <= |chunks| && text == Flatten(chunks[..index]) && |text| <= limit
      decreases |chunks| - index
    {
      var chunk := RecordingChunk(p, index);
      AfterCall(p, index);
      if chunk.None? {
        return true, text;
      }
      if |text| + |chunk.value| > limit {
        return false, [];
      }
      text := text + chunk.value;
      index := index + 1;
    }
  }
}
