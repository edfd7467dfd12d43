/** Whole recordings: the parts in terms of the bytes alone, the order in which S3 gets them,
    and that a failed recording is never finished. */
module RecordingRuns {
  import opened Common
  import opened Recording

  /** Everything FFmpeg wrote. */
  function AllData(events: seq<Event>): Bytes {
    if events == [] then []
    else NewData(events[0]) + AllData(events[1..])
  }

  function NewData(e: Event): Bytes {
    if e.Data? then e.data else []
  }

  lemma {:induction false} ReceivedFrom(s: State, events: seq<Event>)
    requires Possible(s, events)
    ensures After(s, events).received == s.received + AllData(events)
    decreases |events|
  {
    hide Next, Enabled;
    if events == [] {
    } else {
      StepReceives(s, events[0]);
      ReceivedFrom(Next(s, events[0]), events[1..]);
      assert AllData(events) == NewData(events[0]) + AllData(events[1..]);
    }
  }

  lemma StepReceives(s: State, e: Event)
    requires Enabled(s, e)
    ensures Next(s, e).received == s.received + NewData(e)
  {
    if e.Data? {
      DrainFrame(s.(buffer := s.buffer + e.data, received := s.received + e.data), e.outcomes, e.abortOk);
    }
  }

  /** A recording that runs and has not failed, in terms of the bytes written so far: every
      full 5 MiB of them is a part, numbered from 1, and the rest is in the buffer. */
  lemma PartsAreChunks(events: seq<Event>)
    requires Possible(Init(), events) && !After(Init(), events).broken && !After(Init(), events).stopped
    ensures var s, data := After(Init(), events), AllData(events);
      && s.upload.Some?
      && var parts := s.upload.value.parts;
      && |parts| == |data| / 5_242_880
      && (forall i | 0 <= i < |parts| :: (i + 1) * 5_242_880 <= |data| && parts[i] == Part(i + 1, data[i * 5_242_880..(i + 1) * 5_242_880]))
      && |parts| * 5_242_880 <= |data| && s.buffer == data[|parts| * 5_242_880..]
  {
    hide Contents, FullParts;
    assert [] + AllData(events) == AllData(events);
    ReceivedFrom(Init(), events);
    InitHealthy();
    RunKeeps(Init(), events);
    var s := After(Init(), events);
    var parts := s.upload.value.parts;
    ContentsLength(parts);
    forall i | 0 <= i < |parts| ensures (i + 1) * CHUNK <= |s.received| && parts[i] == Part(i + 1, s.received[i * CHUNK..(i + 1) * CHUNK]) {
      PartIsSlice(s, i);
    }
    Quotient(|s.received|, |parts|, |s.buffer|, CHUNK);
    Tail(Contents(parts), s.buffer);
  }

  lemma Tail(front: Bytes, back: Bytes)
    ensures (front + back)[|front|..] == back
  {
  }

  lemma InitHealthy()
    ensures Healthy(Init())
  {
    assert Contents([]) + [] == [];
  }

  /** `uploadChunk` stores the part exactly when S3 knows the upload and takes it, and throws
      exactly when it does not, or when what it publishes at every full 5 MiB fails: then the
      part is in although the upload has failed. */
  lemma UploadStoresIff(s: State, body: Bytes, number: nat, outcome: Outcome)
    ensures var s' := Put(s, body, number, outcome); var known := s.upload.Some?;
      && s'.accepted == s.accepted + (if known && !outcome.Refused? then 1 else 0)
      && (known && !outcome.Refused? ==>
            && s'.upload.Some? && s'.upload.value.parts == s.upload.value.parts + [Part(number, body)]
            && s'.upload.value.uploadedBytes == s.upload.value.uploadedBytes + |body|)
      && (known && outcome.Refused? ==> s'.upload == if outcome.noSuchUpload then None else s.upload)
    ensures Succeeds(s.upload, body, outcome) <==>
      && s.upload.Some? && !outcome.Refused?
      && !(outcome == PublishFailed && (s.upload.value.uploadedBytes + |body|) % 5_242_880 == 0)
  {
  }

  // ----- Failure is final -----

  /** What has failed is marked so, and forgotten by the handler. */
  ghost predicate FailedOnce(s: State) {
    && (s.broken ==> s.status == Failed && s.entry == None)
    && (!s.broken && !s.stopped ==> Healthy(s))
  }

  lemma {:induction false} DrainFails(s: State, outcomes: seq<Outcome>, abortOk: bool)
    requires |s.buffer| / CHUNK <= |outcomes|
    requires s.broken ==> s.status == Failed && s.entry == None
    ensures var s' := Drain(s, outcomes, abortOk); s'.broken ==> s'.status == Failed || s.entry == None
    ensures var s' := Drain(s, outcomes, abortOk); s'.broken ==> s'.entry == None
    ensures s.entry == None ==> Drain(s, outcomes, abortOk).status == s.status
    decreases |s.buffer|
  {
    hide Put, Succeeds;
    if |s.buffer| >= CHUNK && Succeeds(s.upload, s.buffer[..CHUNK], outcomes[0]) {
      CutFrame(s, outcomes[0]);
      DrainFails(Counted(Cut(s, outcomes[0])), outcomes[1..], abortOk);
    } else if |s.buffer| >= CHUNK {
      CutFrame(s, outcomes[0]);
    }
  }

  lemma CutFrame(s: State, outcome: Outcome)
    requires |s.buffer| >= CHUNK
    ensures var s1 := Cut(s, outcome); s1.buffer == s.buffer[CHUNK..] && s1.entry == s.entry && s1.status == s.status && s1.broken == s.broken
  {
  }

  lemma StepFails(s: State, e: Event)
    requires FailedOnce(s) && Enabled(s, e)
    ensures FailedOnce(Next(s, e)) && (s.broken ==> Next(s, e).broken)
  {
    hide Drain, Healthy, Finished, Put;
    if !s.broken {
      StepKeeps(s, e);
      HealthyHasEntry(s);
    }
    if e.Data? {
      var s1 := s.(buffer := s.buffer + e.data, received := s.received + e.data);
      DrainFails(s1, e.outcomes, e.abortOk);
      DrainFrame(s1, e.outcomes, e.abortOk);
    } else if !s.broken {
      StopFrame(s, e);
    }
  }

  lemma HealthyHasEntry(s: State)
    requires Healthy(s)
    ensures s.entry.Some?
  {
  }

  lemma StopFrame(s: State, e: Event)
    requires e.Stop? && s.entry.Some? && Enabled(s, e)
    ensures Next(s, e).broken == s.broken && Next(s, e).stopped
  {
  }

  lemma {:induction false} RunFails(s: State, events: seq<Event>)
    requires FailedOnce(s) && Possible(s, events)
    ensures FailedOnce(After(s, events)) && (s.broken ==> After(s, events).broken)
    decreases |events|
  {
    hide FailedOnce, Next;
    if events == [] {
    } else {
      StepFails(s, events[0]);
      RunFails(Next(s, events[0]), events[1..]);
    }
  }

  /** Once a part has failed to upload while the recording ran, the recording is failed for
      good: no later data and no stop makes it ready. */
  lemma FailedForGood(events: seq<Event>, more: seq<Event>)
    requires Possible(Init(), events) && After(Init(), events).broken && Possible(After(Init(), events), more)
    ensures After(After(Init(), events), more).status == Failed
  {
    hide FailedOnce;
    StartFailsNothing();
    RunFails(Init(), events);
    RunFails(After(Init(), events), more);
    BrokenIsFailed(After(After(Init(), events), more));
  }

  lemma StartFailsNothing()
    ensures FailedOnce(Init())
  {
    InitHealthy();
  }

  lemma BrokenIsFailed(s: State)
    requires FailedOnce(s) && s.broken
    ensures s.status == Failed
  {
  }

  /** A stop ends a recording that has not failed: ready if the upload completes, and
      otherwise failed, with nothing left of the upload if the abort succeeds. */
  lemma StopEnds(s: State, last: Outcome, completeOk: bool, abortOk: bool)
    requires Healthy(s) && !s.stopped
    ensures var s' := Next(s, Stop(last, completeOk, abortOk));
      && s'.stopped && s'.entry == None && (s'.status.Ready? || s'.status == Failed)
      && (s'.status.Ready? ==> s'.upload == None)
      && (s'.status == Failed && abortOk ==> s'.upload == None)
      && (s'.status == Failed && !abortOk && last != Refused(true) ==> s'.upload.Some?)
      && (s'.status.Ready? <==>
            && completeOk && !(last == Refused(true) && |s.buffer| > 0)
            && (|s.upload.value.parts| > 0 || (|s.buffer| > 0 && !last.Refused?)))
  {
    hide Contents, SortParts;
    StopFinishesIff(s, last, completeOk, abortOk);
  }

  // ----- The order of the parts -----

  ghost predicate Ascending(parts: seq<Part>) {
    forall i, j | 0 <= i < j < |parts| :: parts[i].number <= parts[j].number
  }

  lemma {:induction false} InsertUpTo(p: Part, sorted: seq<Part>, bound: nat)
    requires p.number <= bound && forall i | 0 <= i < |sorted| :: sorted[i].number <= bound
    ensures forall i | 0 <= i < |InsertPart(p, sorted)| :: InsertPart(p, sorted)[i].number <= bound
  {
    if sorted == [] {
    } else {
      InsertUpTo(p, sorted[..|sorted| - 1], bound);
    }
  }

  lemma {:induction false} InsertAscends(p: Part, sorted: seq<Part>)
    requires Ascending(sorted)
    ensures Ascending(InsertPart(p, sorted))
  {
    if sorted == [] {
    } else {
      var n := |sorted| - 1;
      if sorted[n].number > p.number {
        InsertAscends(p, sorted[..n]);
        InsertUpTo(p, sorted[..n], sorted[n].number);
      }
    }
  }

  lemma MultisetSnoc(front: seq<Part>, last: Part)
    ensures multiset(front + [last]) == multiset(front) + multiset{last}
  {
  }

  lemma {:induction false} InsertMultiset(p: Part, sorted: seq<Part>)
    ensures multiset(InsertPart(p, sorted)) == multiset(sorted) + multiset{p}
  {
    var n := |sorted| - 1;
    if sorted == [] || sorted[n].number <= p.number {
      MultisetSnoc(sorted, p);
      assert sorted == [] ==> sorted + [p] == [p];
    } else {
      InsertMultiset(p, sorted[..n]);
      MultisetSnoc(sorted[..n], sorted[n]);
      MultisetSnoc(InsertPart(p, sorted[..n]), sorted[n]);
      assert sorted == sorted[..n] + [sorted[n]];
    }
  }

  lemma {:induction false} SortMultiset(parts: seq<Part>)
    ensures multiset(SortParts(parts)) == multiset(parts)
  {
    if parts == [] {
    } else {
      var n := |parts| - 1;
      SortMultiset(parts[..n]);
      InsertMultiset(parts[n], SortParts(parts[..n]));
      MultisetSnoc(parts[..n], parts[n]);
      assert parts == parts[..n] + [parts[n]];
    }
  }

  /** The parts reach S3 in order of their numbers, all of them and no other. */
  lemma {:induction false} SortAscends(parts: seq<Part>)
    ensures Ascending(SortParts(parts))
    ensures multiset(SortParts(parts)) == multiset(parts)
  {
    SortMultiset(parts);
    if parts == [] {
    } else {
      SortAscends(parts[..|parts| - 1]);
      InsertAscends(parts[|parts| - 1], SortParts(parts[..|parts| - 1]));
    }
  }
}
