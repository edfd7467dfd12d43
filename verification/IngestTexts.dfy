/** What the stored rows hold: each flush stores the texts and times of the chunks of its
    buffer, and when nothing failed the rows rebuild what was said. */
module IngestTexts {
  import opened Text
  import opened Chunker
  import opened ChunkerOffsets
  import opened ChunkerFidelity
  import opened ChunkerFaithful
  import opened Ingest
  import opened IngestRuns

  // ----- Buffers are stripped -----

  ghost predicate Solid(s: string) {
    |s| > 0 && !IsSpace(s[0]) && !IsSpace(s[|s| - 1])
  }

  lemma StrippedIsSolid(s: string)
    requires Strip(s) != ""
    ensures Solid(Strip(s))
  {
    LStripFacts(s);
    RStripFacts(LStrip(s));
  }

  lemma SolidIsStripped(s: string)
    requires Solid(s)
    ensures Strip(s) == s && !Blank(s)
  {
    hide IsSpace;
    StripSolidEnd(s);
    assert LStrip(s) == s;
    assert !IsSpace(s[0]);
  }

  // ----- What a flush stores -----

  function AllChunks(f: Flushing): seq<Chunk> {
    ChunkAll(f.text, 1200, 240)
  }

  /** The chunks that reach the store: none when the embedder or the insert raises, else
      those that have a vector. */
  function Stored(f: Flushing): seq<Chunk> {
    if f.outcome.embedding.Raised? || !f.outcome.commits then []
    else Zipped(AllChunks(f), f.outcome.embedding.count)
  }

  /** How long the flushed speech lasted: at least a millisecond, and a last time of zero
      counts as missing. */
  function WindowMs(f: Flushing): int {
    var end := if f.lastMs == 0 then f.startMs else f.lastMs;
    if end <= f.startMs then 1 else end - f.startMs
  }

  /** `ms` is the millisecond in which position `pos` falls when `chars` characters are spoken
      evenly over `window` milliseconds from `start` on. */
  predicate SpokenAt(ms: int, start: int, pos: int, window: int, chars: int) {
    (ms - start) * chars <= pos * window < (ms - start + 1) * chars
  }

  /** The row holds the chunk's text, and the times of its two ends in the flush. */
  ghost predicate RowOf(row: Row, f: Flushing, c: Chunk) {
    && row.text == c.text
    && SpokenAt(row.startMs, f.startMs, c.charStart, WindowMs(f), |f.text|)
    && SpokenAt(row.endMs, f.startMs, c.charEnd, WindowMs(f), |f.text|)
  }

  /** The rows of a flush are those of the chunks it stored, in order. */
  ghost predicate HoldsChunks(rows: seq<Row>, f: Flushing) {
    && f.from <= f.to <= |rows| && f.to - f.from == |Stored(f)|
    && forall i | 0 <= i < |Stored(f)| :: RowOf(rows[f.from + i], f, Stored(f)[i])
  }

  ghost predicate TextsOk(p: Pipeline) {
    && (|p.session.buffer| > 0 ==> Solid(p.session.buffer))
    && (forall i | 0 <= i < |p.flushes| :: Solid(p.flushes[i].text))
    && (forall i | 0 <= i < |p.flushes| :: HoldsChunks(p.session.rows, p.flushes[i]))
  }

  lemma InterpIsSpokenAt(start: int, span: int, chars: int, pos: int)
    requires chars > 0
    ensures SpokenAt(Interp(start, span, chars, pos), start, pos, span, chars)
  {
    var x := pos * span;
    assert x == x / chars * chars + x % chars;
    assert (x / chars + 1) * chars == x / chars * chars + chars;
  }

  /** One flush appends the rows of its chunks. */
  lemma FlushStores(s: State, o: Outcome)
    requires Flushes(s)
    ensures var rows := AfterFlush(s, o).rows;
      s.rows <= rows && HoldsChunks(rows, Flushing(s.buffer, s.startMs, s.lastMs, |s.rows|, |rows|, o))
  {
    hide ChunkAll, Blank, HoldsChunks, Interp, RowOf;
    var rows := AfterFlush(s, o).rows;
    var f := Flushing(s.buffer, s.startMs, s.lastMs, |s.rows|, |rows|, o);
    var items := TimedChunks(Stored(f), s.startMs, SpanMs(s.startMs, s.lastMs), |s.buffer|);
    assert s.rows + [] == s.rows;
    assert rows == s.rows + Numbered(items, s.nextIndex);
    NumberedHolds(s.rows, items, s.nextIndex, f);
  }

  lemma NumberedHolds(rows: seq<Row>, items: seq<Timed>, next: nat, f: Flushing)
    requires f.from == |rows| && f.to == |rows| + |items| && |items| == |Stored(f)| && |f.text| > 0
    requires items == TimedChunks(Stored(f), f.startMs, WindowMs(f), |f.text|)
    ensures HoldsChunks(rows + Numbered(items, next), f)
  {
    hide Stored, Interp, RowOf, WindowMs;
    var rows' := rows + Numbered(items, next);
    forall i | 0 <= i < |Stored(f)| ensures RowOf(rows'[f.from + i], f, Stored(f)[i]) {
      RowIsOf(rows'[f.from + i], f, Stored(f)[i]);
    }
  }

  lemma RowIsOf(row: Row, f: Flushing, c: Chunk)
    requires |f.text| > 0 && row.text == c.text
    requires row.startMs == Interp(f.startMs, WindowMs(f), |f.text|, c.charStart)
    requires row.endMs == Interp(f.startMs, WindowMs(f), |f.text|, c.charEnd)
    ensures RowOf(row, f, c)
  {
    hide Interp, WindowMs, SpokenAt;
    InterpIsSpokenAt(f.startMs, WindowMs(f), |f.text|, c.charStart);
    InterpIsSpokenAt(f.startMs, WindowMs(f), |f.text|, c.charEnd);
  }

  lemma DeliverKeepsTexts(p: Pipeline, s: State, o: Outcome)
    requires TextsOk(p) && s.rows == p.session.rows && (|s.buffer| > 0 ==> Solid(s.buffer) && s.hasTranscript)
    ensures TextsOk(Delivered(p, s, o))
  {
    hide AfterFlush, Stored, Solid;
    if Flushes(s) {
      FlushStores(s, o);
      BufferGone(s, o);
      var p' := Delivered(p, s, o);
      forall i | 0 <= i < |p'.flushes| ensures HoldsChunks(p'.session.rows, p'.flushes[i]) {
        if i < |p.flushes| {
          assert HoldsChunks(s.rows, p.flushes[i]);
        }
      }
    } else {
      NothingToFlush(s, o);
    }
  }

  lemma BufferGone(s: State, o: Outcome)
    requires Flushes(s)
    ensures AfterFlush(s, o).buffer == ""
  {
  }

  lemma NothingToFlush(s: State, o: Outcome)
    requires !Flushes(s)
    ensures AfterFlush(s, o) == s
  {
  }

  lemma TakeKeepsTexts(p: Pipeline, evt: SttEvent, o: Outcome)
    requires TextsOk(p) && p.session.hasTranscript
    ensures TextsOk(TakeEvent(p, evt, o))
  {
    hide AfterFlush, HoldsChunks, Strip;
    if Strip(evt.text) != "" {
      StrippedIsSolid(evt.text);
      var s1 := AfterAppend(p.session, Strip(evt.text), evt);
      assert Solid(s1.buffer);
      DeliverKeepsTexts(p.(taken := p.taken + [evt]), s1, o);
    }
  }

  lemma StepKeepsTexts(p: Pipeline, step: Step)
    requires Inv(p) && TextsOk(p)
    ensures TextsOk(Next(p, step))
  {
    hide AfterFlush, Conserved, HoldsChunks, Solid, TakeEvent, IndicesOk;
    match step
    case SttEventArrives(_, _) =>
    case SttEnds =>
    case DrainTimesOut(o) => DeliverKeepsTexts(p, p.session, o);
    case DrainTakes(o) =>
      if !p.drained && p.queue != [] {
        if p.queue[0].Event? {
          assert p.queue[0] == Event(p.accepted[|p.taken|]);
          TakeKeepsTexts(p.(queue := p.queue[1..]), p.accepted[|p.taken|], o);
        } else {
          DeliverKeepsTexts(p.(queue := p.queue[1..], drained := true), p.session, o);
        }
      }
  }

  lemma {:induction false} RunKeepsTexts(p: Pipeline, steps: seq<Step>)
    requires Inv(p) && TextsOk(p)
    ensures TextsOk(Run(p, steps)) && Inv(Run(p, steps))
    decreases |steps|
  {
    if steps == [] {
    } else {
      StepKeepsTexts(p, steps[0]);
      IngestRuns.StepKeeps(p, steps[0]);
      RunKeepsTexts(Next(p, steps[0]), steps[1..]);
    }
  }

  /** Any run, whatever failed: the rows of each flush hold, in order, the texts and times of
      exactly the chunks of its buffer that were embedded and committed. */
  lemma RowsHoldChunks(steps: seq<Step>)
    ensures var p := Run(START, steps);
      forall i | 0 <= i < |p.flushes| :: HoldsChunks(p.session.rows, p.flushes[i])
  {
    StartOk();
    RunKeepsTexts(START, steps);
  }

  lemma StartOk()
    ensures Inv(START) && TextsOk(START)
  {
    assert START.accepted[|START.taken|..] == [];
  }

  // ----- Rebuilding what was said -----

  /** Every chunk got its vector and the insert committed. */
  predicate Complete(f: Flushing) {
    f.outcome.commits && f.outcome.embedding.Vectors? && f.outcome.embedding.count >= |AllChunks(f)|
  }

  /** The texts of a flush's rows, as chunks. */
  function RowChunks(rows: seq<Row>, f: Flushing): (r: seq<Chunk>)
    requires f.from <= f.to <= |rows|
    ensures |r| == f.to - f.from
  {
    seq(f.to - f.from, i requires 0 <= i < f.to - f.from => Chunk(rows[f.from + i].text, 0, 0))
  }

  lemma NewTextSeesTexts(prev: Chunk, prev': Chunk, c: Chunk, c': Chunk, overlap: nat)
    requires prev.text == prev'.text && c.text == c'.text
    ensures NewText(prev, c, overlap) == NewText(prev', c', overlap)
  {
    hide LStrip;
  }

  lemma {:induction false} RebuildSeesTexts(a: seq<Chunk>, b: seq<Chunk>, overlap: nat)
    requires |a| == |b| && forall i | 0 <= i < |a| :: a[i].text == b[i].text
    ensures Rebuild(a, overlap) == Rebuild(b, overlap)
    decreases |a|
  {
    hide NewText;
    var n := |a|;
    if n <= 1 {
    } else {
      RebuildSeesTexts(a[..n - 1], b[..n - 1], overlap);
      NewTextSeesTexts(a[n - 2], b[n - 2], a[n - 1], b[n - 1], overlap);
    }
  }

  /** The rows of a complete flush alone rebuild its buffer's sentences joined by one space. */
  lemma RowsRebuildBuffer(rows: seq<Row>, f: Flushing)
    requires HoldsChunks(rows, f) && Complete(f) && Solid(f.text)
    ensures Rebuild(RowChunks(rows, f), DEFAULT_OVERLAP_CHARS) == Strip(Join(Texts(Sentences(f.text))))
    ensures OneSpaced(f.text) ==> Rebuild(RowChunks(rows, f), DEFAULT_OVERLAP_CHARS) == f.text
  {
    hide Rebuild, Packs, OneSpaced, Strip, Join, ChunkAll, Solid, Blank, SpokenAt;
    SolidIsStripped(f.text);
    RebuildSeesTexts(RowChunks(rows, f), AllChunks(f), DEFAULT_OVERLAP_CHARS);
    var gs := ChunkAllPacks(f.text, DEFAULT_TARGET_CHARS, DEFAULT_OVERLAP_CHARS);
    ChunksRebuildSentences(f.text, DEFAULT_TARGET_CHARS, DEFAULT_OVERLAP_CHARS, gs);
    if OneSpaced(f.text) {
      OneSpacedChunksRebuildText(f.text, DEFAULT_TARGET_CHARS, DEFAULT_OVERLAP_CHARS, gs);
    }
  }

  /** Any run: the rows of every complete flush rebuild its sentences, whatever happened to
      the others. */
  lemma RowsRebuildFlushes(steps: seq<Step>, i: nat)
    requires var p := Run(START, steps); i < |p.flushes| && Complete(p.flushes[i])
    ensures var p := Run(START, steps); var f := p.flushes[i];
      && f.from <= f.to <= |p.session.rows|
      && Rebuild(RowChunks(p.session.rows, f), DEFAULT_OVERLAP_CHARS) == Strip(Join(Texts(Sentences(f.text))))
  {
    hide Rebuild, Strip, Join, Complete, Stored, Solid;
    StartOk();
    RunKeepsTexts(START, steps);
    var p := Run(START, steps);
    assert HoldsChunks(p.session.rows, p.flushes[i]);
    RowsRebuildBuffer(p.session.rows, p.flushes[i]);
  }

  /** What the rows of each flush rebuild. */
  function Rebuilt(p: Pipeline): (r: seq<string>)
    requires forall i | 0 <= i < |p.flushes| :: p.flushes[i].from <= p.flushes[i].to <= |p.session.rows|
    ensures |r| == |p.flushes|
  {
    seq(|p.flushes|, i requires 0 <= i < |p.flushes| =>
      Rebuild(RowChunks(p.session.rows, p.flushes[i]), DEFAULT_OVERLAP_CHARS))
  }

  /** A session that has ended with every flush complete: the stored rows alone rebuild
      everything said, if sentences are one space apart in every buffer. */
  lemma RowsRebuildSpeech(steps: seq<Step>)
    requires var p := Run(START, steps);
      p.drained && forall i | 0 <= i < |p.flushes| :: Complete(p.flushes[i]) && OneSpaced(p.flushes[i].text)
    ensures var p := Run(START, steps);
      && (forall i | 0 <= i < |p.flushes| :: p.flushes[i].from <= p.flushes[i].to <= |p.session.rows|)
      && Join(Rebuilt(p)) == Join(Spoken(p.accepted))
  {
    hide OneSpaced, Solid, Join, Spoken, Rebuild, Complete, Stored;
    var p := Run(START, steps);
    StartOk();
    RunKeepsTexts(START, steps);
    SessionConserves(steps);
    forall i | 0 <= i < |p.flushes| ensures Rebuilt(p)[i] == FlushedTexts(p.flushes)[i] {
      assert HoldsChunks(p.session.rows, p.flushes[i]);
      RowsRebuildBuffer(p.session.rows, p.flushes[i]);
    }
    assert Rebuilt(p) == FlushedTexts(p.flushes);
  }
}
