/** Whole runs of an ingest session: the speech-to-text task fills the queue while
    the drain task empties it, in any interleaving and with any failures. */
module IngestRuns {
  import opened Text
  import opened Chunker
  import opened ChunkerOffsets
  import opened Ingest

  datatype Queued = Event(evt: SttEvent) | Sentinel

  /** One buffer handed to the chunker, what the world did to it, and the rows
      `rows[from..to]` it produced. */
  datatype Flushing = Flushing(text: string, startMs: int, lastMs: int, from: nat, to: nat, outcome: Outcome)

  /** Both tasks and the queue between them. The last three fields record the run:
      final events accepted, final events taken by the drain task, and flushes. */
  datatype Pipeline = Pipeline(
    session: State, queue: seq<Queued>, sttDone: bool, drained: bool,
    accepted: seq<SttEvent>, taken: seq<SttEvent>, flushes: seq<Flushing>)

  const START: Pipeline := Pipeline(State(false, "", 0, 0, 0, []), [], false, false, [], [], [])

  datatype Step =
    | SttEventArrives(evt: SttEvent, created: bool)
    | SttEnds
    | DrainTimesOut(outcome: Outcome)
    | DrainTakes(outcome: Outcome)

  predicate Flushes(s: State) {
    s.buffer != "" && s.hasTranscript
  }

  /** The session flushes the buffer of `s`; the flush is recorded if there is one. */
  function Delivered(p: Pipeline, s: State, o: Outcome): Pipeline {
    var s' := AfterFlush(s, o);
    p.(session := s',
       flushes := p.flushes + if Flushes(s) then [Flushing(s.buffer, s.startMs, s.lastMs, |s.rows|, |s'.rows|, o)] else [])
  }

  function TakeEvent(p: Pipeline, evt: SttEvent, o: Outcome): Pipeline {
    var text := Strip(evt.text);
    var p1 := p.(taken := p.taken + [evt]);
    if text == "" then p1
    else
      var s1 := AfterAppend(p.session, text, evt);
      if |s1.buffer| >= FLUSH_AT_CHARS then Delivered(p1, s1, o) else p1.(session := s1)
  }

  /** One step; a step that is not enabled changes nothing. */
  function Next(p: Pipeline, step: Step): Pipeline {
    match step
    case SttEventArrives(evt, created) =>
      if p.sttDone || !evt.isFinal then p
      else if !p.session.hasTranscript && !created then p.(queue := p.queue + [Sentinel], sttDone := true)
      else p.(session := p.session.(hasTranscript := true), queue := p.queue + [Event(evt)], accepted := p.accepted + [evt])
    case SttEnds =>
      if p.sttDone then p else p.(queue := p.queue + [Sentinel], sttDone := true)
    case DrainTimesOut(o) =>
      if p.drained then p else Delivered(p, p.session, o)
    case DrainTakes(o) =>
      if p.drained || p.queue == [] then p
      else
        var p1 := p.(queue := p.queue[1..]);
        match p.queue[0]
        case Event(evt) => TakeEvent(p1, evt, o)
        case Sentinel => Delivered(p1.(drained := true), p.session, o)
  }

  function Run(p: Pipeline, steps: seq<Step>): Pipeline
    decreases |steps|
  {
    if steps == [] then p else Run(Next(p, steps[0]), steps[1..])
  }

  /** The drain task's steps are exactly the deliveries of the drain loop. */
  lemma DrainStepIsDelivery(p: Pipeline, o: Outcome)
    ensures !p.drained ==> Next(p, DrainTimesOut(o)).session == AfterDelivery(p.session, Idle(o))
    ensures !p.drained && p.queue != [] ==>
      Next(p, DrainTakes(o)).session == AfterDelivery(p.session,
        if p.queue[0].Event? then Got(p.queue[0].evt, o) else EndOfStream(o))
  {
  }

  // ----- What every run keeps -----

  /** The texts the drain loop keeps: stripped, and not empty. */
  function Spoken(events: seq<SttEvent>): seq<string> {
    if events == [] then []
    else
      var text := Strip(events[|events| - 1].text);
      Spoken(events[..|events| - 1]) + if text == "" then [] else [text]
  }

  function FlushedTexts(flushes: seq<Flushing>): (r: seq<string>)
    ensures |r| == |flushes|
  {
    seq(|flushes|, i requires 0 <= i < |flushes| => flushes[i].text)
  }

  function Buffered(s: State): seq<string> {
    if s.buffer == "" then [] else [s.buffer]
  }

  function Events(events: seq<SttEvent>): (r: seq<Queued>)
    ensures |r| == |events|
  {
    seq(|events|, i requires 0 <= i < |events| => Event(events[i]))
  }

  /** Nothing said is lost or repeated between the events taken and the buffers flushed. */
  ghost predicate Conserved(p: Pipeline) {
    && Join(Spoken(p.taken)) == Join(FlushedTexts(p.flushes) + Buffered(p.session))
    && (Spoken(p.taken) == [] <==> p.flushes == [] && p.session.buffer == "")
  }

  /** The queue holds the accepted events not yet taken, then the sentinel. */
  ghost predicate QueueOk(p: Pipeline) {
    && |p.taken| <= |p.accepted| && p.taken == p.accepted[..|p.taken|]
    && p.queue == Events(p.accepted[|p.taken|..]) + (if p.sttDone && !p.drained then [Sentinel] else [])
    && (p.drained ==> p.sttDone && p.taken == p.accepted)
  }

  /** A nonempty buffer has a transcript to go to, is short, and is not blank. */
  ghost predicate BufferOk(p: Pipeline) {
    && (p.accepted != [] || p.session.buffer != "" ==> p.session.hasTranscript)
    && (p.taken == [] ==> p.session.buffer == "")
    && |p.session.buffer| < FLUSH_AT_CHARS
    && (p.drained ==> p.session.buffer == "")
    && (p.session.buffer != "" ==> !Blank(p.session.buffer))
  }

  /** Row indices have no gap, whatever failed. */
  ghost predicate IndicesOk(s: State) {
    s.nextIndex == |s.rows| && forall i | 0 <= i < |s.rows| :: s.rows[i].chunkIndex == i
  }

  ghost predicate Inv(p: Pipeline) {
    Conserved(p) && QueueOk(p) && BufferOk(p) && IndicesOk(p.session)
  }

  lemma JoinExtendsLast(parts: seq<string>, last: string, text: string)
    ensures Join(parts + [last + " " + text]) == Join(parts + [last]) + " " + text
  {
    JoinAppend(parts, last);
    JoinAppend(parts, last + " " + text);
    if parts != [] {
      assert Join(parts) + " " + (last + " " + text) == Join(parts) + " " + last + " " + text;
    }
  }

  /** A flush moves the buffer to the end of the flushed texts. */
  lemma DeliverKeepsTexts(p: Pipeline, s: State, o: Outcome)
    requires s.buffer != "" ==> s.hasTranscript
    ensures var p' := Delivered(p, s, o);
      && FlushedTexts(p'.flushes) + Buffered(p'.session) == FlushedTexts(p.flushes) + Buffered(s)
      && p'.session.buffer == ""
  {
    assert Buffered(AfterFlush(s, o)) == [];
  }

  lemma FlushKeepsIndices(s: State, o: Outcome)
    requires IndicesOk(s)
    ensures IndicesOk(AfterFlush(s, o)) && AfterFlush(s, o).hasTranscript == s.hasTranscript
    ensures |s.rows| <= |AfterFlush(s, o).rows| && AfterFlush(s, o).rows[..|s.rows|] == s.rows
  {
  }

  lemma SpokenSnoc(events: seq<SttEvent>, evt: SttEvent)
    ensures Spoken(events + [evt]) == Spoken(events) + if Strip(evt.text) == "" then [] else [Strip(evt.text)]
  {
    assert (events + [evt])[..|events|] == events;
  }

  /** Appending a text to the buffer appends it to everything said. */
  lemma AppendConserves(p: Pipeline, evt: SttEvent)
    requires Conserved(p) && Strip(evt.text) != ""
    ensures Conserved(p.(taken := p.taken + [evt], session := AfterAppend(p.session, Strip(evt.text), evt)))
  {
    var text := Strip(evt.text);
    SpokenSnoc(p.taken, evt);
    JoinAppend(Spoken(p.taken), text);
    var flushed := FlushedTexts(p.flushes);
    if p.session.buffer == "" {
      assert flushed + [] == flushed;
      JoinAppend(flushed, text);
    } else {
      JoinExtendsLast(flushed, p.session.buffer, text);
    }
  }

  lemma AppendNotBlank(s: State, evt: SttEvent)
    requires Strip(evt.text) != ""
    ensures !Blank(AfterAppend(s, Strip(evt.text), evt).buffer)
  {
    var text, buffer := Strip(evt.text), AfterAppend(s, Strip(evt.text), evt).buffer;
    StripIdempotent(evt.text);
    StripIdempotent(text);
    var i :| 0 <= i < |text| && !IsSpace(text[i]);
    NotBlankAt(buffer, |buffer| - |text| + i);
  }

  lemma TakeKeeps(p: Pipeline, o: Outcome)
    requires Inv(p) && !p.drained && p.queue != [] && p.queue[0].Event?
    ensures Inv(Next(p, DrainTakes(o)))
  {
    hide Strip, Join, Spoken, Blank, AfterFlush, FlushedTexts;
    var evt := p.accepted[|p.taken|];
    assert p.queue[0] == Event(evt);
    var p1 := p.(queue := p.queue[1..]);
    assert Events(p.accepted[|p.taken|..])[1..] == Events(p.accepted[|p.taken| + 1..]);
    var p2 := p1.(taken := p.taken + [evt]);
    assert QueueOk(p2);
    if Strip(evt.text) == "" {
      SpokenSnoc(p.taken, evt);
      assert Spoken(p.taken) + [] == Spoken(p.taken);
    } else {
      AppendConserves(p, evt);
      AppendNotBlank(p.session, evt);
      var s1 := AfterAppend(p.session, Strip(evt.text), evt);
      DeliverKeepsTexts(p2, s1, o);
      FlushKeepsIndices(s1, o);
    }
  }

  lemma FlushStepKeeps(p: Pipeline, o: Outcome)
    requires Inv(p)
    ensures Conserved(Delivered(p, p.session, o))
    ensures BufferOk(Delivered(p, p.session, o))
    ensures IndicesOk(AfterFlush(p.session, o)) && AfterFlush(p.session, o).buffer == ""
  {
    hide Strip, Join, Spoken, Blank, AfterFlush;
    DeliverKeepsTexts(p, p.session, o);
    FlushKeepsIndices(p.session, o);
  }

  lemma SttKeeps(p: Pipeline, step: Step)
    requires Inv(p) && (step.SttEventArrives? || step.SttEnds?)
    ensures Inv(Next(p, step))
  {
    hide Strip, Join, Spoken, Blank;
    var p', n := Next(p, step), |p.taken|;
    if p'.accepted != p.accepted {
      var evt := step.evt;
      assert p'.accepted[n..] == p.accepted[n..] + [evt];
      assert Events(p'.accepted[n..]) == Events(p.accepted[n..]) + [Event(evt)];
    }
  }

  lemma StepKeeps(p: Pipeline, step: Step)
    requires Inv(p)
    ensures Inv(Next(p, step))
  {
    hide Conserved, BufferOk, IndicesOk, AfterFlush;
    match step
    case SttEventArrives(_, _) => SttKeeps(p, step);
    case SttEnds => SttKeeps(p, step);
    case DrainTimesOut(o) => FlushStepKeeps(p, o);
    case DrainTakes(o) =>
      if !p.drained && p.queue != [] {
        if p.queue[0].Event? {
          TakeKeeps(p, o);
        } else {
          SentinelKeeps(p, o);
        }
      }
  }

  lemma SentinelKeeps(p: Pipeline, o: Outcome)
    requires Inv(p) && !p.drained && p.queue != [] && p.queue[0].Sentinel?
    ensures Inv(Next(p, DrainTakes(o)))
  {
    FlushStepKeeps(p, o);
    assert p.accepted[|p.taken|..] == [];
  }

  lemma {:induction false} RunKeeps(p: Pipeline, steps: seq<Step>)
    requires Inv(p)
    ensures Inv(Run(p, steps))
    decreases |steps|
  {
    if steps == [] {
    } else {
      StepKeeps(p, steps[0]);
      RunKeeps(Next(p, steps[0]), steps[1..]);
    }
  }

  /** Any run, in any state: what was said is what was flushed and what is buffered;
      the buffer is short and has a transcript; indices have no gap; and when the
      drain task has ended, every accepted final event has been flushed. */
  lemma SessionConserves(steps: seq<Step>)
    ensures var p := Run(START, steps);
      && Join(Spoken(p.taken)) == Join(FlushedTexts(p.flushes) + Buffered(p.session))
      && (p.session.buffer != "" ==> p.session.hasTranscript)
      && |p.session.buffer| < 1200
      && IndicesOk(p.session)
      && (p.drained ==> p.session.buffer == "" && Join(Spoken(p.accepted)) == Join(FlushedTexts(p.flushes)))
  {
    assert Inv(START) by {
      assert START.accepted[|START.taken|..] == [];
    }
    RunKeeps(START, steps);
    var p := Run(START, steps);
    assert p.drained ==> FlushedTexts(p.flushes) + [] == FlushedTexts(p.flushes);
  }
}
