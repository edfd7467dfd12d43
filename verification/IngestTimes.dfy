/** Row times over whole sessions: with ordered speech events, every row lies in its
    own flush's window, and start times never decrease, within or across flushes. */
module IngestTimes {
  import opened Text
  import opened Chunker
  import opened ChunkerOffsets
  import opened Ingest
  import opened IngestRuns

  // ----- Interpolation -----

  lemma DivMonotone(x: int, y: int, n: int)
    requires x <= y && n > 0
    ensures x / n <= y / n
  {
    assert x == x / n * n + x % n;
    assert y == y / n * n + y % n;
    if y / n < x / n {
      MulMonotone(y / n + 1, x / n, n);
    }
  }

  lemma MulMonotone(a: int, b: int, c: int)
    requires a <= b && c >= 0
    ensures a * c <= b * c
  {
  }

  lemma FullSpan(n: int, span: int)
    requires n > 0
    ensures n * span / n == span
  {
    assert (n * span) == span * n + 0;
    assert (span * n) / n == span by {
      DivExact(span, n);
    }
  }

  lemma DivExact(q: int, n: int)
    requires n > 0
    ensures q * n / n == q
  {
    var x := q * n;
    assert x == x / n * n + x % n;
    assert (x / n - q) * n == -(x % n);
    if x / n > q {
      MulMonotone(1, x / n - q, n);
    } else if x / n < q {
      MulMonotone(1, q - x / n, n);
    }
  }

  /** Interpolation is monotone and maps the text onto the window; the last
      millisecond of the window is reached only at the end of the text. */
  lemma InterpBounds(start: int, span: int, chars: int, a: int, b: int)
    requires chars > 0 && span >= 1 && 0 <= a <= b <= chars
    ensures start <= Interp(start, span, chars, a) <= Interp(start, span, chars, b) <= start + span
    ensures a < chars ==> Interp(start, span, chars, a) <= start + span - 1
  {
    MulMonotone(0, a, span);
    MulMonotone(a, b, span);
    MulMonotone(b, chars, span);
    DivMonotone(0, a * span, chars);
    DivMonotone(a * span, b * span, chars);
    DivMonotone(b * span, chars * span, chars);
    FullSpan(chars, span);
    if a < chars {
      MulMonotone(a + 1, chars, span);
      DivMonotone(a * span, chars * span - 1, chars);
      JustBelow(span, chars);
    }
  }

  lemma JustBelow(span: int, n: int)
    requires n > 0
    ensures (n * span - 1) / n == span - 1
  {
    var x := n * span - 1;
    assert x == x / n * n + x % n;
    assert (x / n - (span - 1)) * n == n - 1 - x % n;
    if x / n > span - 1 {
      MulMonotone(1, x / n - (span - 1), n);
    } else if x / n < span - 1 {
      MulMonotone(1, (span - 1) - x / n, n);
    }
  }

  // ----- One flush -----

  /** The end of a flush's window. */
  function WindowEnd(startMs: int, lastMs: int): int {
    startMs + if lastMs - startMs > 1 then lastMs - startMs else 1
  }

  /** Times of the rows of one flush. */
  ghost predicate InWindow(items: seq<Timed>, startMs: int, lastMs: int) {
    && (forall i | 0 <= i < |items| :: startMs <= items[i].startMs <= items[i].endMs <= WindowEnd(startMs, lastMs))
    && (forall i | 0 <= i < |items| :: startMs <= lastMs ==> items[i].startMs <= lastMs)
    && (forall i, j | 0 <= i <= j < |items| :: items[i].startMs <= items[j].startMs)
  }

  lemma {:induction false} StartsAscend(text: string, target: nat, overlap: nat, gs: seq<Group>, i: nat, j: nat)
    requires !Blank(text) && Packs(Sentences(text), target, overlap, gs) && i <= j < |gs|
    ensures gs[i].chunk.charStart <= gs[j].chunk.charStart
    decreases j
  {
    if i < j {
      OffsetsIncrease(text, target, overlap, gs, j);
      StartsAscend(text, target, overlap, gs, i, j - 1);
    }
  }

  lemma FlushInWindow(s: State, count: nat)
    requires !Blank(s.buffer) && s.buffer != ""
    ensures InWindow(FlushItems(s, count), s.startMs, s.lastMs)
  {
    var text, span := s.buffer, SpanMs(s.startMs, s.lastMs);
    var gs := ChunkAllPacks(text, DEFAULT_TARGET_CHARS, DEFAULT_OVERLAP_CHARS);
    var chunks, items := ChunkAll(text, DEFAULT_TARGET_CHARS, DEFAULT_OVERLAP_CHARS), FlushItems(s, count);
    forall i | 0 <= i < |items|
      ensures s.startMs <= items[i].startMs <= items[i].endMs <= s.startMs + span
      ensures items[i].startMs <= s.startMs + span - 1
    {
      OffsetsIncrease(text, DEFAULT_TARGET_CHARS, DEFAULT_OVERLAP_CHARS, gs, i);
      InterpBounds(s.startMs, span, |text|, chunks[i].charStart, chunks[i].charEnd);
    }
    forall i, j | 0 <= i <= j < |items| ensures items[i].startMs <= items[j].startMs {
      StartsAscend(text, DEFAULT_TARGET_CHARS, DEFAULT_OVERLAP_CHARS, gs, i, j);
      OffsetsIncrease(text, DEFAULT_TARGET_CHARS, DEFAULT_OVERLAP_CHARS, gs, i);
      OffsetsIncrease(text, DEFAULT_TARGET_CHARS, DEFAULT_OVERLAP_CHARS, gs, j);
      InterpBounds(s.startMs, span, |text|, chunks[i].charStart, chunks[j].charStart);
    }
  }

  // ----- Whole runs -----

  /** Final events do not overlap and come in order. */
  ghost predicate Ordered(events: seq<SttEvent>) {
    && (forall i | 0 <= i < |events| :: events[i].startMs <= events[i].endMs)
    && (forall i, j | 0 <= i < j < |events| :: events[i].endMs <= events[j].startMs)
  }

  ghost predicate RowsAscend(rows: seq<Row>) {
    && (forall i | 0 <= i < |rows| :: rows[i].startMs <= rows[i].endMs)
    && (forall i, j | 0 <= i <= j < |rows| :: rows[i].startMs <= rows[j].startMs)
  }

  /** No row starts after `t`. */
  ghost predicate StartedBy(rows: seq<Row>, t: int) {
    forall i | 0 <= i < |rows| :: rows[i].startMs <= t
  }

  /** The rows of a flush lie in its window. */
  ghost predicate OwnWindow(rows: seq<Row>, f: Flushing) {
    && f.from <= f.to <= |rows|
    && forall i | f.from <= i < f.to :: f.startMs <= rows[i].startMs <= rows[i].endMs <= WindowEnd(f.startMs, f.lastMs)
  }

  /** Each row belongs to one flush. */
  ghost predicate Partition(flushes: seq<Flushing>, rows: nat) {
    && (if flushes == [] then rows == 0 else flushes[0].from == 0 && flushes[|flushes| - 1].to == rows)
    && forall i | 0 < i < |flushes| :: flushes[i].from == flushes[i - 1].to
  }

  ghost predicate TimesOk(p: Pipeline) {
    var s := p.session;
    && RowsAscend(s.rows) && Partition(p.flushes, |s.rows|)
    && (forall i | 0 <= i < |p.flushes| :: OwnWindow(s.rows, p.flushes[i]))
    && (p.taken == [] ==> s.rows == [])
    && (p.taken != [] ==> StartedBy(s.rows, p.taken[|p.taken| - 1].endMs))
    && (s.buffer != "" ==>
        && p.taken != [] && s.startMs <= s.lastMs <= p.taken[|p.taken| - 1].endMs
        && StartedBy(s.rows, s.startMs))
  }

  /** What a flush adds to the rows: items of its window. */
  lemma FlushAdds(s: State, o: Outcome) returns (items: seq<Timed>)
    requires Flushes(s) && !Blank(s.buffer)
    ensures AfterFlush(s, o).rows == s.rows + Numbered(items, s.nextIndex)
    ensures InWindow(items, s.startMs, s.lastMs)
  {
    items := [];
    assert s.rows + [] == s.rows;
    if o.embedding.Vectors? {
      FlushInWindow(s, o.embedding.count);
      if FlushItems(s, o.embedding.count) == [] || o.commits {
        items := FlushItems(s, o.embedding.count);
      }
    }
  }

  lemma AddedRowsAscend(rows: seq<Row>, items: seq<Timed>, next: nat, startMs: int, lastMs: int)
    requires RowsAscend(rows) && StartedBy(rows, startMs) && InWindow(items, startMs, lastMs) && startMs <= lastMs
    ensures RowsAscend(rows + Numbered(items, next)) && StartedBy(rows + Numbered(items, next), lastMs)
  {
  }

  /** Times of the session after a flush of buffer `s`, which ended at or before `t`. */
  lemma DeliverKeepsTimes(p: Pipeline, s: State, o: Outcome, t: int)
    requires s.rows == p.session.rows && (s.buffer != "" ==> s.hasTranscript && !Blank(s.buffer))
    requires RowsAscend(s.rows) && Partition(p.flushes, |s.rows|) && StartedBy(s.rows, t)
    requires forall i | 0 <= i < |p.flushes| :: OwnWindow(s.rows, p.flushes[i])
    requires s.buffer != "" ==> StartedBy(s.rows, s.startMs) && s.startMs <= s.lastMs <= t
    ensures var p' := Delivered(p, s, o);
      && RowsAscend(p'.session.rows) && Partition(p'.flushes, |p'.session.rows|) && StartedBy(p'.session.rows, t)
      && forall i | 0 <= i < |p'.flushes| :: OwnWindow(p'.session.rows, p'.flushes[i])
  {
    hide AfterFlush, Blank;
    if Flushes(s) {
      var items := FlushAdds(s, o);
      var rows := AfterFlush(s, o).rows;
      AddedRowsAscend(s.rows, items, s.nextIndex, s.startMs, s.lastMs);
      var p' := Delivered(p, s, o);
      forall i | 0 <= i < |p'.flushes| ensures OwnWindow(rows, p'.flushes[i]) {
        if i < |p.flushes| {
          assert OwnWindow(s.rows, p.flushes[i]);
        }
      }
    } else {
      NoFlushNoRows(s, o);
    }
  }

  lemma FlushStepKeepsTimes(p: Pipeline, o: Outcome)
    requires Inv(p) && TimesOk(p)
    ensures TimesOk(Delivered(p, p.session, o))
  {
    hide AfterFlush, Conserved, QueueOk, IndicesOk, RowsAscend, Partition, OwnWindow;
    if p.taken == [] {
      assert StartedBy(p.session.rows, 0);
      DeliverKeepsTimes(p, p.session, o, 0);
      NoFlushNoRows(p.session, o);
    } else {
      DeliverKeepsTimes(p, p.session, o, p.taken[|p.taken| - 1].endMs);
    }
    DeliverKeepsTexts(p, p.session, o);
  }

  lemma NoFlushNoRows(s: State, o: Outcome)
    requires !Flushes(s)
    ensures AfterFlush(s, o) == s
  {
  }

  /** Taking an event that starts after everything so far has ended. */
  lemma TakeKeepsTimes(p: Pipeline, evt: SttEvent, o: Outcome)
    requires BufferOk(p) && TimesOk(p) && p.session.hasTranscript
    requires evt.startMs <= evt.endMs && (p.taken != [] ==> p.taken[|p.taken| - 1].endMs <= evt.startMs)
    ensures TimesOk(TakeEvent(p, evt, o))
  {
    hide AfterFlush, Strip, Blank, RowsAscend, Partition, OwnWindow;
    var rows := p.session.rows;
    assert StartedBy(rows, evt.startMs) && StartedBy(rows, evt.endMs);
    if Strip(evt.text) != "" {
      AppendNotBlank(p.session, evt);
      var s1 := AfterAppend(p.session, Strip(evt.text), evt);
      var p1 := p.(taken := p.taken + [evt]);
      DeliverKeepsTimes(p1, s1, o, evt.endMs);
      DeliverKeepsTexts(p1, s1, o);
    }
  }

  lemma StepKeepsTimes(p: Pipeline, step: Step)
    requires Inv(p) && TimesOk(p) && Ordered(p.accepted)
    ensures TimesOk(Next(p, step))
  {
    hide AfterFlush, Conserved, RowsAscend, Partition, OwnWindow, TakeEvent, StartedBy;
    match step
    case SttEventArrives(_, _) =>
    case SttEnds =>
    case DrainTimesOut(o) => FlushStepKeepsTimes(p, o);
    case DrainTakes(o) =>
      if !p.drained && p.queue != [] {
        if p.queue[0].Event? {
          var n := |p.taken|;
          assert p.queue[0] == Event(p.accepted[n]);
          assert n > 0 ==> p.taken[n - 1] == p.accepted[n - 1];
          TakeKeepsTimes(p.(queue := p.queue[1..]), p.accepted[n], o);
        } else {
          FlushStepKeepsTimes(p, o);
        }
      }
  }

  lemma {:induction false} AcceptedGrows(p: Pipeline, steps: seq<Step>)
    ensures p.accepted <= Run(p, steps).accepted
    decreases |steps|
  {
    if steps == [] {
    } else {
      AcceptedGrows(Next(p, steps[0]), steps[1..]);
      assert p.accepted <= Next(p, steps[0]).accepted;
    }
  }

  lemma OrderedPrefix(events: seq<SttEvent>, more: seq<SttEvent>)
    requires events <= more && Ordered(more)
    ensures Ordered(events)
  {
    assert events == more[..|events|];
  }

  lemma {:induction false} RunKeepsTimes(p: Pipeline, steps: seq<Step>)
    requires Inv(p) && TimesOk(p) && Ordered(Run(p, steps).accepted)
    ensures TimesOk(Run(p, steps))
    decreases |steps|
  {
    if steps == [] {
    } else {
      AcceptedGrows(p, steps);
      OrderedPrefix(p.accepted, Run(p, steps).accepted);
      StepKeepsTimes(p, steps[0]);
      IngestRuns.StepKeeps(p, steps[0]);
      RunKeepsTimes(Next(p, steps[0]), steps[1..]);
    }
  }

  /** Any run whose accepted events are ordered: rows start before they end, starts
      never decrease, and each row lies in the window of the one flush it came from. */
  lemma SessionTimes(steps: seq<Step>)
    requires Ordered(Run(START, steps).accepted)
    ensures var p := Run(START, steps); var rows := p.session.rows;
      && (forall i | 0 <= i < |rows| :: rows[i].startMs <= rows[i].endMs)
      && (forall i, j | 0 <= i <= j < |rows| :: rows[i].startMs <= rows[j].startMs)
      && Partition(p.flushes, |rows|)
      && (forall i | 0 <= i < |p.flushes| :: OwnWindow(rows, p.flushes[i]))
  {
    assert Inv(START) by {
      assert START.accepted[|START.taken|..] == [];
    }
    RunKeepsTimes(START, steps);
  }
}
