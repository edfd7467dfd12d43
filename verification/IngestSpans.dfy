/** Which events a flush holds and when it happens: every kept event goes into exactly one
    flush or the buffer, in order, and the flush's window is that of its own events. */
module IngestSpans {
  import opened Text
  import opened Chunker
  import opened ChunkerOffsets
  import opened Ingest
  import opened IngestRuns
  import opened IngestTexts

  // ----- Every event has its place -----

  /** The events with something to say. */
  function Kept(events: seq<SttEvent>): seq<SttEvent> {
    if events == [] then []
    else
      var n := |events| - 1;
      Kept(events[..n]) + if Strip(events[n].text) == "" then [] else [events[n]]
  }

  function Said(events: seq<SttEvent>): (r: seq<string>)
    ensures |r| == |events|
  {
    seq(|events|, i requires 0 <= i < |events| => Strip(events[i].text))
  }

  function Concat(groups: seq<seq<SttEvent>>): seq<SttEvent> {
    if groups == [] then [] else Concat(groups[..|groups| - 1]) + groups[|groups| - 1]
  }

  /** `text` is what the events said, from the start of the first to the end of the last. */
  ghost predicate Spans(group: seq<SttEvent>, text: string, startMs: int, lastMs: int) {
    && group != [] && text == Join(Said(group))
    && startMs == group[0].startMs && lastMs == group[|group| - 1].endMs
  }

  /** Group `i` went into flush `i`; the last group is in the buffer. */
  ghost predicate Placed(p: Pipeline, groups: seq<seq<SttEvent>>) {
    && |groups| == |p.flushes| + 1 && Concat(groups) == Kept(p.taken)
    && (forall i | 0 <= i < |p.flushes| :: Spans(groups[i], p.flushes[i].text, p.flushes[i].startMs, p.flushes[i].lastMs))
    && InBuffer(p.session, groups[|p.flushes|])
  }

  ghost predicate InBuffer(s: State, group: seq<SttEvent>) {
    if s.buffer == "" then group == [] else Spans(group, s.buffer, s.startMs, s.lastMs)
  }

  lemma ConcatSnoc(groups: seq<seq<SttEvent>>, last: seq<SttEvent>)
    ensures Concat(groups + [last]) == Concat(groups) + last
  {
    assert (groups + [last])[..|groups|] == groups;
  }

  lemma KeptSnoc(events: seq<SttEvent>, evt: SttEvent)
    ensures Kept(events + [evt]) == Kept(events) + if Strip(evt.text) == "" then [] else [evt]
  {
    assert (events + [evt])[..|events|] == events;
  }

  /** A flush takes the buffer's group and leaves an empty one. */
  lemma DeliverPlaces(p: Pipeline, s: State, o: Outcome, groups: seq<seq<SttEvent>>) returns (groups': seq<seq<SttEvent>>)
    requires Placed(p.(session := s), groups) && (s.buffer != "" ==> s.hasTranscript)
    ensures Placed(Delivered(p, s, o), groups')
  {
    hide Spans, AfterFlush;
    if Flushes(s) {
      BufferGone(s, o);
      groups' := groups + [[]];
      ConcatSnoc(groups, []);
      assert Concat(groups) + [] == Concat(groups);
    } else {
      NothingToFlush(s, o);
      groups' := groups;
    }
  }

  /** A kept event joins the buffer's group. */
  lemma AppendPlaces(p: Pipeline, evt: SttEvent, groups: seq<seq<SttEvent>>) returns (groups': seq<seq<SttEvent>>)
    requires Placed(p, groups) && Strip(evt.text) != ""
    ensures Placed(p.(taken := p.taken + [evt], session := AfterAppend(p.session, Strip(evt.text), evt)), groups')
  {
    hide Strip, Join;
    var n := |p.flushes|;
    var group := groups[n] + [evt];
    groups' := groups[..n] + [group];
    KeptSnoc(p.taken, evt);
    assert groups == groups[..n] + [groups[n]];
    ConcatSnoc(groups[..n], groups[n]);
    ConcatSnoc(groups[..n], group);
    assert (Concat(groups[..n]) + groups[n]) + [evt] == Concat(groups[..n]) + group;
    BufferGrows(p.session, evt, groups[n]);
  }

  lemma BufferGrows(s: State, evt: SttEvent, group: seq<SttEvent>)
    requires InBuffer(s, group) && Strip(evt.text) != ""
    ensures InBuffer(AfterAppend(s, Strip(evt.text), evt), group + [evt])
  {
    hide Strip;
    assert Said(group + [evt]) == Said(group) + [Strip(evt.text)];
    JoinAppend(Said(group), Strip(evt.text));
  }

  lemma StepPlaces(p: Pipeline, step: Step, groups: seq<seq<SttEvent>>) returns (groups': seq<seq<SttEvent>>)
    requires Inv(p) && Placed(p, groups)
    ensures Placed(Next(p, step), groups')
  {
    hide Placed, Delivered, TakeEvent, Conserved, IndicesOk, QueueOk;
    groups' := groups;
    match step
    case SttEventArrives(_, _) => SamePlaces(p, Next(p, step), groups);
    case SttEnds => SamePlaces(p, Next(p, step), groups);
    case DrainTimesOut(o) =>
      if !p.drained {
        groups' := DeliverPlaces(p, p.session, o, groups);
      }
    case DrainTakes(o) =>
      if !p.drained && p.queue != [] {
        if p.queue[0].Event? {
          groups' := TakePlaces(p, o, groups);
        } else {
          var p1 := p.(queue := p.queue[1..], drained := true);
          SamePlaces(p, p1, groups);
          groups' := DeliverPlaces(p1, p.session, o, groups);
        }
      }
  }

  lemma SamePlaces(p: Pipeline, p': Pipeline, groups: seq<seq<SttEvent>>)
    requires Placed(p, groups) && p'.taken == p.taken && p'.flushes == p.flushes
    requires p'.session.buffer == p.session.buffer && p'.session.startMs == p.session.startMs && p'.session.lastMs == p.session.lastMs
    ensures Placed(p', groups)
  {
    hide Spans;
  }

  lemma TakePlaces(p: Pipeline, o: Outcome, groups: seq<seq<SttEvent>>) returns (groups': seq<seq<SttEvent>>)
    requires Inv(p) && Placed(p, groups) && !p.drained && p.queue != [] && p.queue[0].Event?
    ensures Placed(Next(p, DrainTakes(o)), groups')
  {
    hide AfterFlush, Spans, Strip, Conserved, IndicesOk;
    var evt := p.queue[0].evt;
    assert p.queue[0] == Event(p.accepted[|p.taken|]);
    if Strip(evt.text) == "" {
      KeptSnoc(p.taken, evt);
      assert Kept(p.taken) + [] == Kept(p.taken);
      groups' := groups;
    } else {
      groups' := AppendPlaces(p, evt, groups);
      var s1 := AfterAppend(p.session, Strip(evt.text), evt);
      if |s1.buffer| >= FLUSH_AT_CHARS {
        groups' := DeliverPlaces(p.(queue := p.queue[1..], taken := p.taken + [evt]), s1, o, groups');
      }
    }
  }

  lemma {:induction false} RunPlaces(p: Pipeline, steps: seq<Step>, groups: seq<seq<SttEvent>>) returns (groups': seq<seq<SttEvent>>)
    requires Inv(p) && Placed(p, groups)
    ensures Placed(Run(p, steps), groups')
    decreases |steps|
  {
    hide Inv, Placed;
    if steps == [] {
      groups' := groups;
    } else {
      groups' := StepPlaces(p, steps[0], groups);
      IngestRuns.StepKeeps(p, steps[0]);
      groups' := RunPlaces(Next(p, steps[0]), steps[1..], groups');
    }
  }

  /** Any run: the kept events, in order, are those of the flushes followed by those in the
      buffer; each flush holds their texts joined by spaces, and its window runs from the
      start of its first event to the end of its last. */
  lemma EveryEventPlaced(steps: seq<Step>) returns (groups: seq<seq<SttEvent>>)
    ensures Placed(Run(START, steps), groups)
  {
    StartOk();
    assert Concat([[]]) == [];
    groups := RunPlaces(START, steps, [[]]);
  }

  // ----- When a flush happens -----

  /** How long the buffer is with the event's text. */
  function LengthWith(s: State, evt: SttEvent): nat {
    |s.buffer| + (if s.buffer == "" then 0 else 1) + |Strip(evt.text)|
  }

  /** An event brings a flush exactly when it has something to say and the buffer reaches
      1200 characters with it; then everything up to it is flushed. */
  lemma EventFlushesWhenDue(steps: seq<Step>, o: Outcome)
    requires var p := Run(START, steps); !p.drained && p.queue != [] && p.queue[0].Event?
    ensures var p := Run(START, steps); var p', evt := Next(p, DrainTakes(o)), p.queue[0].evt;
      && !p'.drained
      && |p'.flushes| == |p.flushes| + (if |Strip(evt.text)| > 0 && LengthWith(p.session, evt) >= 1200 then 1 else 0)
      && (|p'.flushes| > |p.flushes| ==> p'.session.buffer == "" && |p'.flushes[|p.flushes|].text| == LengthWith(p.session, evt))
  {
    hide Strip, AfterFlush;
    var p := Run(START, steps);
    StartOk();
    RunKeeps(START, steps);
    var evt := p.queue[0].evt;
    assert p.queue[0] == Event(p.accepted[|p.taken|]);
    FlushEmpties(AfterAppend(p.session, Strip(evt.text), evt), o);
  }

  /** A timeout and the end of the stream bring one exactly when there is anything to flush,
      and leave nothing in the buffer. */
  lemma PauseFlushesAll(steps: seq<Step>, step: Step)
    requires var p := Run(START, steps);
      !p.drained && (step.DrainTimesOut? || (step.DrainTakes? && p.queue != [] && p.queue[0].Sentinel?))
    ensures var p := Run(START, steps); var p' := Next(p, step);
      && p'.session.buffer == "" && p'.drained == step.DrainTakes?
      && |p'.flushes| == |p.flushes| + if p.session.buffer == "" then 0 else 1
  {
    hide AfterFlush;
    var p := Run(START, steps);
    StartOk();
    RunKeeps(START, steps);
    FlushEmpties(p.session, step.outcome);
  }

  lemma FlushEmpties(s: State, o: Outcome)
    requires s.buffer != "" ==> s.hasTranscript
    ensures AfterFlush(s, o).buffer == ""
  {
  }

  // ----- The ends of a flush's window -----

  lemma FirstChunkStarts(f: Flushing)
    requires Solid(f.text)
    ensures |AllChunks(f)| > 0 && AllChunks(f)[0].charStart == 0
    ensures AllChunks(f)[|AllChunks(f)| - 1].charEnd == |f.text|
  {
    hide Strip, Body, Fits, IsSpace, ChunkAll, PackAll;
    SolidIsStripped(f.text);
    var ss := Sentences(f.text);
    var gs := ChunkAllPacks(f.text, 1200, 240);
    SentencesPlaced(f.text);
    assert |gs| > 0;
    GroupSpan(f.text, ss, 1200, 240, gs, 0);
    assert Linked(ss, 240, gs, 0);
    GroupSpan(f.text, ss, 1200, 240, gs, |gs| - 1);
    LastSentenceEnds(f.text, ss);
  }

  lemma LastSentenceEnds(text: string, ss: seq<Sentence>)
    requires Solid(text) && Covers(text, ss, 0)
    ensures ss[|ss| - 1].End() == |text|
  {
    SolidTail(text, ss[|ss| - 1].End());
  }

  lemma SolidTail(text: string, end: nat)
    requires Solid(text) && end <= |text|
    ensures Blank(text[end..]) ==> end == |text|
  {
    var tail := text[end..];
    assert end < |text| ==> tail[|tail| - 1] == text[|text| - 1];
  }

  lemma SpokenAtEnds(ms: int, start: int, window: int, chars: int)
    requires chars > 0
    ensures SpokenAt(ms, start, 0, window, chars) ==> ms == start
    ensures SpokenAt(ms, start, chars, window, chars) ==> ms == start + window
  {
    if SpokenAt(ms, start, 0, window, chars) {
      Between(ms - start, 0, chars);
    }
    if SpokenAt(ms, start, chars, window, chars) {
      assert chars * window == window * chars;
      Between(ms - start, window, chars);
    }
  }

  lemma Between(d: int, w: int, n: int)
    requires n > 0 && d * n <= w * n < (d + 1) * n
    ensures d == w
  {
    Scaled(d + 1, w, n);
    Scaled(w + 1, d, n);
  }

  lemma Scaled(a: int, b: int, n: int)
    requires n > 0
    ensures a <= b ==> a * n <= b * n
    ensures (a + 1) * n == a * n + n
  {
  }

  lemma RowEnds(row: Row, f: Flushing, c: Chunk)
    requires RowOf(row, f, c) && |f.text| > 0
    ensures c.charStart == 0 ==> row.startMs == f.startMs
    ensures c.charEnd == |f.text| ==> row.endMs == f.startMs + WindowMs(f)
  {
    hide SpokenAt, WindowMs;
    SpokenAtEnds(row.startMs, f.startMs, WindowMs(f), |f.text|);
    SpokenAtEnds(row.endMs, f.startMs, WindowMs(f), |f.text|);
  }

  lemma StoredIsPrefix(f: Flushing)
    ensures Stored(f) <= AllChunks(f) && (Complete(f) ==> Stored(f) == AllChunks(f))
  {
    hide AllChunks;
  }

  lemma SolidNonempty(s: string)
    requires Solid(s)
    ensures |s| > 0
  {
  }

  lemma FlushFills(rows: seq<Row>, f: Flushing)
    requires HoldsChunks(rows, f) && Solid(f.text)
    ensures f.from < f.to ==> rows[f.from].startMs == f.startMs
    ensures Complete(f) ==> f.from < f.to && rows[f.to - 1].endMs == f.startMs + WindowMs(f)
  {
    hide AllChunks, Stored, Solid, RowOf, WindowMs, Complete;
    SolidNonempty(f.text);
    FirstChunkStarts(f);
    StoredIsPrefix(f);
    if f.from < f.to {
      var last := |Stored(f)| - 1;
      assert RowOf(rows[f.from + 0], f, Stored(f)[0]) && RowOf(rows[f.from + last], f, Stored(f)[last]);
      RowEnds(rows[f.from], f, Stored(f)[0]);
      RowEnds(rows[f.to - 1], f, Stored(f)[last]);
    }
  }

  /** Any run: the first row of a flush starts when its first event starts; the last row of a
      complete flush ends where the window ends. */
  lemma RowsFillWindow(steps: seq<Step>, i: nat)
    requires i < |Run(START, steps).flushes|
    ensures var p := Run(START, steps); var f, rows := p.flushes[i], p.session.rows;
      && f.from <= f.to <= |rows|
      && (f.from < f.to ==> rows[f.from].startMs == f.startMs)
      && (Complete(f) ==> f.from < f.to && rows[f.to - 1].endMs == f.startMs + WindowMs(f))
  {
    hide WindowMs, Solid, Complete, Stored, RowOf, Inv;
    StartOk();
    RunKeepsTexts(START, steps);
    var p := Run(START, steps);
    assert HoldsChunks(p.session.rows, p.flushes[i]);
    FlushFills(p.session.rows, p.flushes[i]);
  }

  // ----- What is heard is flushed -----

  /** The final events up to the end of the stream, which a transcript that cannot be
      created brings about as well. */
  function Heard(steps: seq<Step>, known: bool): seq<SttEvent>
    decreases |steps|
  {
    if steps == [] then []
    else match steps[0]
      case SttEnds => []
      case SttEventArrives(evt, created) =>
        if !evt.isFinal then Heard(steps[1..], known)
        else if known || created then [evt] + Heard(steps[1..], true)
        else []
      case _ => Heard(steps[1..], known)
  }

  lemma {:induction false} AcceptedFrom(p: Pipeline, steps: seq<Step>)
    ensures Run(p, steps).accepted == p.accepted + if p.sttDone then [] else Heard(steps, p.session.hasTranscript)
    decreases |steps|
  {
    hide AfterFlush, TakeEvent;
    if steps == [] {
    } else {
      var p1 := Next(p, steps[0]);
      AcceptedFrom(p1, steps[1..]);
      DrainKeepsStt(p, steps[0]);
    }
  }

  lemma DrainKeepsStt(p: Pipeline, step: Step)
    ensures var p' := Next(p, step);
      step.DrainTimesOut? || step.DrainTakes? ==>
      p'.accepted == p.accepted && p'.sttDone == p.sttDone && p'.session.hasTranscript == p.session.hasTranscript
  {
  }

  function Takes(outcomes: seq<Outcome>): (r: seq<Step>)
    ensures |r| == |outcomes|
  {
    seq(|outcomes|, i requires 0 <= i < |outcomes| => DrainTakes(outcomes[i]))
  }

  /** Once the stream has ended, as many turns of the drain loop as the queue is long end it. */
  lemma {:induction false} DrainFinishes(p: Pipeline, outcomes: seq<Outcome>)
    requires Inv(p) && p.sttDone && |outcomes| >= |p.queue|
    ensures Run(p, Takes(outcomes)).drained && Run(p, Takes(outcomes)).accepted == p.accepted
    decreases |outcomes|
  {
    hide AfterFlush, Conserved, BufferOk, IndicesOk;
    if outcomes == [] {
    } else {
      var p1 := Next(p, DrainTakes(outcomes[0]));
      IngestRuns.StepKeeps(p, DrainTakes(outcomes[0]));
      DrainKeepsStt(p, DrainTakes(outcomes[0]));
      QueueShortens(p, outcomes[0]);
      assert Takes(outcomes)[1..] == Takes(outcomes[1..]);
      DrainFinishes(p1, outcomes[1..]);
    }
  }

  lemma QueueShortens(p: Pipeline, o: Outcome)
    ensures !p.drained && p.queue != [] ==> Next(p, DrainTakes(o)).queue == p.queue[1..]
    ensures p.drained || p.queue == [] ==> Next(p, DrainTakes(o)) == p
  {
  }

  /** After any run in which the stream has ended, enough turns of the drain loop flush
      everything that was heard, whatever the embedder and the store do. */
  lemma EverythingHeardIsFlushed(steps: seq<Step>, outcomes: seq<Outcome>)
    requires Run(START, steps).sttDone && |outcomes| >= |Run(START, steps).queue|
    ensures var p := Run(Run(START, steps), Takes(outcomes));
      p.drained && Join(Spoken(Heard(steps, false))) == Join(FlushedTexts(p.flushes))
  {
    hide Join, Spoken, Run;
    StartOk();
    RunKeeps(START, steps);
    var p := Run(START, steps);
    AcceptedFrom(START, steps);
    assert [] + Heard(steps, false) == Heard(steps, false);
    DrainFinishes(p, outcomes);
    RunConcat(START, steps, Takes(outcomes));
    SessionConserves(steps + Takes(outcomes));
  }

  lemma {:induction false} RunConcat(p: Pipeline, a: seq<Step>, b: seq<Step>)
    ensures Run(p, a + b) == Run(Run(p, a), b)
    decreases |a|
  {
    if a == [] {
      assert a + b == b;
    } else {
      assert (a + b)[1..] == a[1..] + b;
      RunConcat(Next(p, a[0]), a[1..], b);
    }
  }
}
