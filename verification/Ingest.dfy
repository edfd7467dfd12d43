/** The ingest session (ai-service/app/ingest.py): speech-to-text events are queued,
    accumulated into a buffer, and flushed as chunk rows with interpolated times. */
module Ingest {
  import opened Text
  import opened Chunker

  const FLUSH_AT_CHARS: nat := 1200

  datatype SttEvent = SttEvent(text: string, isFinal: bool, startMs: int, endMs: int)

  /** A TranscriptChunk row, without identifiers and vectors. */
  datatype Row = Row(chunkIndex: nat, text: string, startMs: int, endMs: int)

  datatype Timed = Timed(text: string, startMs: int, endMs: int)

  /** What the outside world does to one flush: the embedder raises or returns some
      number of vectors, and the insert transaction commits or raises. */
  datatype Embedding = Raised | Vectors(count: nat)
  datatype Outcome = Outcome(embedding: Embedding, commits: bool)

  /** One turn of the drain loop: a timeout, a queued final event, or the sentinel. */
  datatype Delivery =
    | Idle(outcome: Outcome)
    | Got(event: SttEvent, outcome: Outcome)
    | EndOfStream(outcome: Outcome)

  /** The mutable part of a session, and the rows stored for its transcript. */
  datatype State = State(
    hasTranscript: bool, buffer: string, startMs: int, lastMs: int, nextIndex: nat, rows: seq<Row>)

  // ----- Times -----

  /** `buffer_last_event_ms or buffer_start`: zero counts as missing. */
  function EndMs(startMs: int, lastMs: int): int {
    if lastMs != 0 then lastMs else startMs
  }

  function SpanMs(startMs: int, lastMs: int): (span: int)
    ensures span >= 1
  {
    if EndMs(startMs, lastMs) - startMs > 1 then EndMs(startMs, lastMs) - startMs else 1
  }

  /** Character position to milliseconds, with the floor taken exactly. */
  function Interp(startMs: int, span: int, chars: int, pos: int): int
    requires chars > 0
  {
    startMs + pos * span / chars
  }

  function TimedChunks(chunks: seq<Chunk>, startMs: int, span: int, chars: int): (r: seq<Timed>)
    requires chars > 0
    ensures |r| == |chunks|
  {
    seq(|chunks|, i requires 0 <= i < |chunks| =>
      Timed(chunks[i].text, Interp(startMs, span, chars, chunks[i].charStart), Interp(startMs, span, chars, chunks[i].charEnd)))
  }

  /** Rows numbered from `start` on. */
  function Numbered(items: seq<Timed>, start: nat): (r: seq<Row>)
    ensures |r| == |items|
  {
    seq(|items|, i requires 0 <= i < |items| => Row(start + i, items[i].text, items[i].startMs, items[i].endMs))
  }

  // ----- The steps as functions of the state -----

  /** `zip(chunks, vectors)`: chunks beyond the vectors are dropped. */
  function Zipped(chunks: seq<Chunk>, count: nat): seq<Chunk> {
    if count < |chunks| then chunks[..count] else chunks
  }

  /** The items a flush hands to the store. */
  function FlushItems(s: State, count: nat): seq<Timed>
    requires s.buffer != ""
  {
    TimedChunks(Zipped(ChunkAll(s.buffer, DEFAULT_TARGET_CHARS, DEFAULT_OVERLAP_CHARS), count),
                s.startMs, SpanMs(s.startMs, s.lastMs), |s.buffer|)
  }

  function AfterFlush(s: State, o: Outcome): State {
    if s.buffer == "" || !s.hasTranscript then s
    else if o.embedding.Raised? then s.(buffer := "")
    else
      var items := FlushItems(s, o.embedding.count);
      if items == [] || o.commits
      then s.(buffer := "", rows := s.rows + Numbered(items, s.nextIndex), nextIndex := s.nextIndex + |items|)
      else s.(buffer := "")
  }

  function AfterAppend(s: State, text: string, evt: SttEvent): State {
    if s.buffer != "" then s.(buffer := s.buffer + " " + text, lastMs := evt.endMs)
    else s.(buffer := text, startMs := evt.startMs, lastMs := evt.endMs)
  }

  function AfterEvent(s: State, evt: SttEvent, o: Outcome): State {
    var text := Strip(evt.text);
    if text == "" then s
    else
      var s1 := AfterAppend(s, text, evt);
      if |s1.buffer| >= FLUSH_AT_CHARS then AfterFlush(s1, o) else s1
  }

  function AfterDelivery(s: State, d: Delivery): State {
    match d
    case Idle(o) => AfterFlush(s, o)
    case Got(evt, o) => AfterEvent(s, evt, o)
    case EndOfStream(o) => AfterFlush(s, o)
  }

  /** The drain loop: it returns at the first sentinel. */
  function AfterDrain(s: State, ds: seq<Delivery>): State
    decreases |ds|
  {
    if ds == [] then s
    else if ds[0].EndOfStream? then AfterDelivery(s, ds[0])
    else AfterDrain(AfterDelivery(s, ds[0]), ds[1..])
  }

  // ----- The session object -----

  /** Lines 41-60 of the store: number the rows of one batch. */
  method NumberRows(items: seq<Timed>, startingIndex: nat) returns (rows: seq<Row>)
    ensures rows == Numbered(items, startingIndex)
  {
    rows := [];
    for offset := 0 to |items|
      invariant rows == Numbered(items, startingIndex)[..offset]
    {
      var item := items[offset];
      rows := rows + [Row(startingIndex + offset, item.text, item.startMs, item.endMs)];
    }
  }

  /** Lines 425-432: one item per chunk that has a vector. */
  method TimeItems(chunks: seq<Chunk>, vectors: nat, start: int, span: int, chars: int) returns (items: seq<Timed>)
    requires chars > 0
    ensures items == TimedChunks(Zipped(chunks, vectors), start, span, chars)
  {
    items := [];
    var i := 0;
    while i < |chunks| && i < vectors
      invariant 0 <= i <= |chunks| && i <= vectors
      invariant items == TimedChunks(chunks[..i], start, span, chars)
    {
      items := items + [Timed(chunks[i].text, Interp(start, span, chars, chunks[i].charStart),
                              Interp(start, span, chars, chunks[i].charEnd))];
      i := i + 1;
    }
    assert chunks[..i] == Zipped(chunks, vectors);
  }

  class Session {
    var hasTranscript: bool
    var buffer: string
    var bufferStartMs: int
    var bufferLastEventMs: int
    var nextChunkIndex: nat
    var rows: seq<Row>

    ghost function View(): State
      reads this
    {
      State(hasTranscript, buffer, bufferStartMs, bufferLastEventMs, nextChunkIndex, rows)
    }

    constructor ()
      ensures View() == State(false, "", 0, 0, 0, [])
    {
      hasTranscript, buffer, bufferStartMs, bufferLastEventMs, nextChunkIndex, rows := false, "", 0, 0, 0, [];
    }

    method Flush(o: Outcome)
      modifies this
      ensures View() == AfterFlush(old(View()), o)
    {
      hide Packs, Sentences, PackAll, Flushed, Blank;
      if buffer == "" || !hasTranscript {
        return;
      }
      var text, start := buffer, bufferStartMs;
      var end := if bufferLastEventMs != 0 then bufferLastEventMs else start;
      buffer := "";
      var result, _ := ChunkText(text, DEFAULT_TARGET_CHARS, DEFAULT_OVERLAP_CHARS);
      var chunks := result.chunks;
      if chunks == [] {
        return;
      }
      var span := if end - start > 1 then end - start else 1;
      if o.embedding.Raised? {
        return;
      }
      var items := TimeItems(chunks, o.embedding.count, start, span, |text|);
      if items == [] {
        return;
      }
      var batch := NumberRows(items, nextChunkIndex);
      if !o.commits {
        return;
      }
      rows := rows + batch;
      nextChunkIndex := nextChunkIndex + |batch|;
    }

    /** `_drain_pending`. */
    method Drain(deliveries: seq<Delivery>)
      modifies this
      ensures View() == AfterDrain(old(View()), deliveries)
    {
      var rest := deliveries;
      while rest != []
        invariant AfterDrain(View(), rest) == AfterDrain(old(View()), deliveries)
      {
        var d := rest[0];
        rest := rest[1..];
        match d {
          case Idle(o) =>
            Flush(o);
          case EndOfStream(o) =>
            Flush(o);
            return;
          case Got(evt, o) =>
            var text := Strip(evt.text);
            if text == "" {
              continue;
            }
            if buffer != "" {
              buffer := buffer + " " + text;
            } else {
              buffer := text;
              bufferStartMs := evt.startMs;
            }
            bufferLastEventMs := evt.endMs;
            if |buffer| >= FLUSH_AT_CHARS {
              Flush(o);
            }
        }
      }
    }
  }
}
