/**
 * The pseudo-streaming part of `/v1/chat/completions`: a finished translation
 * is written out as server-sent events, one role chunk, then one chunk per
 * code point, then a finish chunk and the `[DONE]` line.
 */
module Stream {
  import opened Wrappers
  import opened Api

  const Assistant := "assistant"
  const Stop := "stop"

  /** The first chunk: the assistant role, empty content, no finish reason. */
  function RoleChunk(created: int, model: string): Event {
    Chunk(created, model, Assistant, "", None)
  }

  /** A chunk carrying the single code point `c`. */
  function ContentChunk(created: int, model: string, c: char): Event {
    Chunk(created, model, "", [c], None)
  }

  /** The chunk that closes the stream. */
  function FinishChunk(created: int, model: string): Event {
    Chunk(created, model, "", "", Some(Stop))
  }

  /** One content chunk per code point of `text`, in order. */
  function ContentChunks(created: int, model: string, text: string): seq<Event> {
    if text == [] then []
    else ContentChunks(created, model, text[..|text| - 1]) + [ContentChunk(created, model, text[|text| - 1])]
  }

  /** Everything the chat handler writes for a translated `text`. */
  function StreamEvents(created: int, model: string, text: string): seq<Event> {
    [RoleChunk(created, model)] + ContentChunks(created, model, text)
    + (if text == [] then [] else [FinishChunk(created, model), DoneMarker])
  }

  /** The delta content an event carries; the `[DONE]` line carries none. */
  function ContentOf(e: Event): string {
    if e.Chunk? then e.content else ""
  }

  /** What a client reassembles from a stream: the delta contents in order. */
  function Transcript(events: seq<Event>): string {
    if events == [] then ""
    else Transcript(events[..|events| - 1]) + ContentOf(events[|events| - 1])
  }

  predicate IsFinish(e: Event) {
    e.Chunk? && e.finishReason.Some?
  }

  /** How many events of `events` carry a finish reason. */
  function FinishCount(events: seq<Event>): nat {
    if events == [] then 0
    else FinishCount(events[..|events| - 1]) + (if IsFinish(events[|events| - 1]) then 1 else 0)
  }

  lemma {:induction false} TranscriptAppend(a: seq<Event>, b: seq<Event>)
    ensures Transcript(a + b) == Transcript(a) + Transcript(b)
  {
    if b != [] {
      assert (a + b)[..|a + b| - 1] == a + b[..|b| - 1];
      TranscriptAppend(a, b[..|b| - 1]);
    } else {
      assert a + b == a;
    }
  }

  lemma {:induction false} FinishCountAppend(a: seq<Event>, b: seq<Event>)
    ensures FinishCount(a + b) == FinishCount(a) + FinishCount(b)
  {
    if b != [] {
      assert (a + b)[..|a + b| - 1] == a + b[..|b| - 1];
      FinishCountAppend(a, b[..|b| - 1]);
    } else {
      assert a + b == a;
    }
  }

  /** The content chunks are exactly the code points of `text`, one each, with no role and no finish reason. */
  lemma {:induction false} ContentChunksAt(created: int, model: string, text: string)
    ensures |ContentChunks(created, model, text)| == |text|
    ensures forall k :: 0 <= k < |text| ==> ContentChunks(created, model, text)[k] == ContentChunk(created, model, text[k])
  {
    if text != [] {
      ContentChunksAt(created, model, text[..|text| - 1]);
    }
  }

  lemma {:induction false} ContentChunksTranscript(created: int, model: string, text: string)
    ensures Transcript(ContentChunks(created, model, text)) == text
  {
    if text != [] {
      var init := text[..|text| - 1];
      var last := ContentChunk(created, model, text[|text| - 1]);
      ContentChunksTranscript(created, model, init);
      TranscriptAppend(ContentChunks(created, model, init), [last]);
      assert [last][..0] == [];
      assert text == init + [text[|text| - 1]];
    }
  }

  lemma {:induction false} ContentChunksUnfinished(created: int, model: string, text: string)
    ensures FinishCount(ContentChunks(created, model, text)) == 0
  {
    if text != [] {
      var init := text[..|text| - 1];
      var last := ContentChunk(created, model, text[|text| - 1]);
      ContentChunksUnfinished(created, model, init);
      FinishCountAppend(ContentChunks(created, model, init), [last]);
      assert [last][..0] == [];
    }
  }

  /** The deltas of the stream concatenate to exactly the translated text. */
  lemma StreamTranscript(created: int, model: string, text: string)
    ensures Transcript(StreamEvents(created, model, text)) == text
  {
    var head := [RoleChunk(created, model)];
    var body := ContentChunks(created, model, text);
    ContentChunksTranscript(created, model, text);
    TranscriptAppend(head, body);
    assert head[..0] == [];
    assert Transcript(head) == "";
    if text == [] {
      assert StreamEvents(created, model, text) == head + body + [];
      assert head + body + [] == head + body;
    } else {
      var tail := [FinishChunk(created, model), DoneMarker];
      TranscriptAppend(head + body, tail);
      assert tail[..1] == [FinishChunk(created, model)] && tail[..1][..0] == [];
      assert Transcript(tail) == "";
    }
  }

  /**
   * The stream event by event: the role chunk; then chunk `k` holds code point
   * `k - 1` alone, with no role and no finish reason; then, only for a
   * non-empty text, the finish chunk and the `[DONE]` line, 1 + n + 2 events.
   */
  lemma StreamShape(created: int, model: string, text: string)
    ensures var es := StreamEvents(created, model, text);
      && |es| == (if text == [] then 1 else 1 + |text| + 2)
      && es[0] == Chunk(created, model, "assistant", "", None)
      && (forall k :: 1 <= k <= |text| ==> es[k] == Chunk(created, model, "", [text[k - 1]], None))
      && (text == [] ==> es == [RoleChunk(created, model)])
      && (text != [] ==>
            && es[|es| - 2] == Chunk(created, model, "", "", Some("stop"))
            && es[|es| - 1] == DoneMarker)
  {
    ContentChunksAt(created, model, text);
  }

  /**
   * A non-empty text gets exactly one finish chunk and nothing but the `[DONE]`
   * line after it; an empty text gets no finish chunk at all.
   */
  lemma StreamFinishesOnce(created: int, model: string, text: string)
    ensures var es := StreamEvents(created, model, text);
      && FinishCount(es) == (if text == [] then 0 else 1)
      && (forall i, j :: 0 <= i < j < |es| && IsFinish(es[i]) ==> es[j] == DoneMarker)
  {
    var head := [RoleChunk(created, model)];
    var body := ContentChunks(created, model, text);
    var tail := if text == [] then [] else [FinishChunk(created, model), DoneMarker];
    ContentChunksAt(created, model, text);
    ContentChunksUnfinished(created, model, text);
    FinishCountAppend(head, body);
    FinishCountAppend(head + body, tail);
    assert head[..0] == [];
    if text != [] {
      assert tail[..1] == [FinishChunk(created, model)] && tail[..1][..0] == [];
    }
    var es := StreamEvents(created, model, text);
    assert es == head + body + tail;
    assert forall k :: 1 <= k <= |text| ==> es[k] == body[k - 1];
  }

  /**
   * The handler's loop: the delta of the one choice is updated in place (role
   * cleared after the first chunk, content set to each code point, finish
   * reason reset), every chunk is written as it is built, and the iteration
   * on the last code point also writes the finish chunk and `[DONE]`.
   */
  method EmitStream(created: int, model: string, text: string) returns (written: seq<Event>)
    ensures written == StreamEvents(created, model, text)
  {
    var role, content := Assistant, "";
    var finishReason: Option<string> := None;
    written := [Chunk(created, model, role, content, finishReason)];
    role := "";
    for i := 0 to |text|
      invariant role == ""
      invariant written == [RoleChunk(created, model)] + ContentChunks(created, model, text[..i])
        + (if i == |text| && i > 0 then [FinishChunk(created, model), DoneMarker] else [])
    {
      content := [text[i]];
      finishReason := None;
      written := written + [Chunk(created, model, role, content, finishReason)];
      assert text[..i + 1][..i] == text[..i];
      if i == |text| - 1 {
        content := "";
        finishReason := Some(Stop);
        written := written + [Chunk(created, model, role, content, finishReason)];
        written := written + [DoneMarker];
      }
    }
    assert text[..|text|] == text;
  }
}
