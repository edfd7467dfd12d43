/** Multipart recording assembly: FFmpeg's output cut into numbered parts
    (backend/src/origin/recordingHandler.js) and the upload bookkeeping
    (backend/src/services/s3Service.js). */
module Recording {
  import opened Common

  newtype byte = x: int | 0 <= x < 256

  type Bytes = seq<byte>

  /** 5 MiB. */
  const CHUNK: nat := 5 * 1024 * 1024

  /** A part S3 has accepted. */
  datatype Part = Part(number: nat, body: Bytes)

  /** An `activeUploads` entry. */
  datatype Upload = Upload(parts: seq<Part>, uploadedBytes: nat)

  /** The `activeRecordings` entry, with its own copies of the handler's variables. */
  datatype Entry = Entry(buffer: Bytes, partNumber: nat, totalBytes: nat)

  datatype Status = Running | Ready(contents: Bytes, fileSize: nat) | Failed

  /** How one `uploadChunk` ends: accepted; accepted but the progress publish after it threw;
      refused, with NoSuchUpload or another error. */
  datatype Outcome = Accepted | PublishFailed | Refused(noSuchUpload: bool)

  /** The data handler's closure variables, the two maps' entries, and what happened so far:
      all bytes received, how many parts S3 accepted, whether an upload has failed. */
  datatype State = State(
    buffer: Bytes,
    partNumber: nat,
    totalBytes: nat,
    entry: Option<Entry>,
    upload: Option<Upload>,
    status: Status,
    stopped: bool,
    received: Bytes,
    accepted: nat,
    broken: bool)

  datatype Event =
    | Data(data: Bytes, outcomes: seq<Outcome>, abortOk: bool)
    | Stop(last: Outcome, completeOk: bool, abortOk: bool)

  /** After `initiateUpload` and `activeRecordings.set`: nothing is awaited between the data
      handler's registration and the entry's, so no data comes before the entry is there. */
  function Init(): State {
    State([], 1, 0, Some(Entry([], 1, 0)), Some(Upload([], 0)), Running, false, [], 0, false)
  }

  // ----- The S3 service -----

  /** Whether `uploadChunk` publishes, and so can fail after the part is in. */
  predicate Publishes(u: Upload, body: Bytes) { (u.uploadedBytes + |body|) % CHUNK == 0 }

  predicate Succeeds(u: Option<Upload>, body: Bytes, outcome: Outcome) {
    u.Some? && (outcome == Accepted || (outcome == PublishFailed && !Publishes(u.value, body)))
  }

  function Put(s: State, body: Bytes, number: nat, outcome: Outcome): State {
    if s.upload.None? then s
    else if outcome.Refused? then if outcome.noSuchUpload then s.(upload := None) else s
    else s.(
      upload := Some(Upload(s.upload.value.parts + [Part(number, body)], s.upload.value.uploadedBytes + |body|)),
      accepted := s.accepted + 1)
  }

  function Abort(s: State, abortOk: bool): State {
    if abortOk then s.(upload := None) else s
  }

  /** The stable sort by part number. */
  function InsertPart(p: Part, sorted: seq<Part>): seq<Part> {
    if sorted == [] then [p]
    else if sorted[|sorted| - 1].number <= p.number then sorted + [p]
    else InsertPart(p, sorted[..|sorted| - 1]) + [sorted[|sorted| - 1]]
  }

  function SortParts(parts: seq<Part>): seq<Part> {
    if parts == [] then [] else InsertPart(parts[|parts| - 1], SortParts(parts[..|parts| - 1]))
  }

  /** The object S3 assembles. */
  function Contents(parts: seq<Part>): Bytes {
    if parts == [] then [] else Contents(parts[..|parts| - 1]) + parts[|parts| - 1].body
  }

  // ----- The recording handler -----

  /** `_markRecordingFailed`, which does nothing once the entry is gone. */
  function MarkFailed(s: State, abortOk: bool): State {
    if s.entry.None? then s.(broken := true)
    else Abort(s, abortOk).(entry := None, status := Failed, broken := true)
  }

  /** The end of the data handler. */
  function CopyBack(s: State): State {
    if s.entry.None? then s else s.(entry := Some(Entry(s.buffer, s.partNumber, s.totalBytes)))
  }

  /** A full chunk leaves the buffer for the service. */
  function Cut(s: State, outcome: Outcome): State
    requires |s.buffer| >= CHUNK
  {
    Put(s.(buffer := s.buffer[CHUNK..]), s.buffer[..CHUNK], s.partNumber, outcome)
  }

  function Counted(s: State): State {
    s.(partNumber := s.partNumber + 1, totalBytes := s.totalBytes + CHUNK)
  }

  /** The upload loop of the data handler. */
  function Drain(s: State, outcomes: seq<Outcome>, abortOk: bool): State
    requires |s.buffer| / CHUNK <= |outcomes|
    decreases |s.buffer|
  {
    if |s.buffer| < CHUNK then CopyBack(s)
    else
      var s1 := Cut(s, outcomes[0]);
      if Succeeds(s.upload, s.buffer[..CHUNK], outcomes[0]) then Drain(Counted(s1), outcomes[1..], abortOk)
      else MarkFailed(s1, abortOk)
  }

  /** `completeUpload`, and the abort where it throws. */
  function Finished(s: State, total: nat, completeOk: bool, abortOk: bool): State {
    if s.upload.None? || s.upload.value.parts == [] || !completeOk then
      Abort(s, abortOk).(entry := None, status := Failed, stopped := true)
    else
      var u := s.upload.value;
      s.(entry := None, upload := None, stopped := true,
         status := Ready(Contents(SortParts(u.parts)), if u.uploadedBytes != 0 then u.uploadedBytes else total))
  }

  /** `stopRecording` works on the entry's copies. */
  function Stopped(s: State, last: Outcome, completeOk: bool, abortOk: bool): State {
    if s.entry.None? then s
    else
      var e := s.entry.value;
      if |e.buffer| == 0 then Finished(s, e.totalBytes, completeOk, abortOk)
      else Finished(
        Put(s, e.buffer, e.partNumber, last),
        e.totalBytes + if Succeeds(s.upload, e.buffer, last) then |e.buffer| else 0,
        completeOk, abortOk)
  }

  predicate Enabled(s: State, e: Event) {
    match e
    case Data(data, outcomes, _) => !s.stopped && (|s.buffer| + |data|) / CHUNK <= |outcomes|
    case Stop(_, _, _) => !s.stopped
  }

  function Next(s: State, e: Event): State
    requires Enabled(s, e)
  {
    match e
    case Data(data, outcomes, abortOk) =>
      Drain(s.(buffer := s.buffer + data, received := s.received + data), outcomes, abortOk)
    case Stop(last, completeOk, abortOk) => Stopped(s, last, completeOk, abortOk)
  }

  predicate Possible(s: State, events: seq<Event>)
    decreases |events|
  {
    events == [] || (Enabled(s, events[0]) && Possible(Next(s, events[0]), events[1..]))
  }

  function After(s: State, events: seq<Event>): State
    requires Possible(s, events)
    decreases |events|
  {
    if events == [] then s else After(Next(s, events[0]), events[1..])
  }

  lemma CutShortens(s: State, outcome: Outcome)
    requires |s.buffer| >= CHUNK
    ensures Cut(s, outcome).buffer == s.buffer[CHUNK..]
  {
  }

  // ----- While no upload has failed -----

  /** Parts 1..n of exactly one chunk each. */
  ghost predicate FullParts(parts: seq<Part>) {
    forall i {:trigger parts[i]} | 0 <= i < |parts| :: parts[i].number == i + 1 && |parts[i].body| == CHUNK
  }

  ghost predicate Aligned(s: State) {
    && s.upload.Some?
    && FullParts(s.upload.value.parts)
    && s.partNumber == |s.upload.value.parts| + 1
    && s.totalBytes == s.upload.value.uploadedBytes == |s.upload.value.parts| * CHUNK
    && Contents(s.upload.value.parts) + s.buffer == s.received
  }

  ghost predicate Healthy(s: State) {
    && Aligned(s)
    && |s.buffer| < CHUNK
    && s.status == Running
    && s.entry == Some(Entry(s.buffer, s.partNumber, s.totalBytes))
  }

  /** One turn of the loop moves a chunk from the buffer to the parts. */
  lemma PutKeeps(s: State, outcome: Outcome)
    requires Aligned(s) && |s.buffer| >= CHUNK && Succeeds(s.upload, s.buffer[..CHUNK], outcome)
    ensures Aligned(Counted(Cut(s, outcome)))
  {
    var parts := s.upload.value.parts;
    var more := parts + [Part(s.partNumber, s.buffer[..CHUNK])];
    assert more[..|parts|] == parts;
    assert s.buffer == s.buffer[..CHUNK] + s.buffer[CHUNK..];
    assert Contents(parts) + s.buffer == Contents(parts) + s.buffer[..CHUNK] + s.buffer[CHUNK..];
  }

  lemma {:induction false} DrainKeeps(s: State, outcomes: seq<Outcome>, abortOk: bool)
    requires Aligned(s) && s.status == Running && s.entry.Some? && |s.buffer| / CHUNK <= |outcomes|
    ensures var s' := Drain(s, outcomes, abortOk); s'.broken || Healthy(s')
    decreases |s.buffer|
  {
    if |s.buffer| >= CHUNK && Succeeds(s.upload, s.buffer[..CHUNK], outcomes[0]) {
      PutKeeps(s, outcomes[0]);
      DrainKeeps(Counted(Cut(s, outcomes[0])), outcomes[1..], abortOk);
    }
  }

  lemma {:induction false} DrainFrame(s: State, outcomes: seq<Outcome>, abortOk: bool)
    requires |s.buffer| / CHUNK <= |outcomes|
    ensures var s' := Drain(s, outcomes, abortOk);
      s'.received == s.received && s'.stopped == s.stopped && (s.broken ==> s'.broken) && s'.accepted >= s.accepted && (s.upload.None? ==> s'.upload.None? && s'.accepted == s.accepted)
    decreases |s.buffer|
  {
    if |s.buffer| >= CHUNK && Succeeds(s.upload, s.buffer[..CHUNK], outcomes[0]) {
      DrainFrame(Counted(Cut(s, outcomes[0])), outcomes[1..], abortOk);
    }
  }

  lemma StepKeeps(s: State, e: Event)
    requires Enabled(s, e) && Healthy(s)
    ensures Next(s, e).broken || Next(s, e).stopped || Healthy(Next(s, e))
  {
    if e.Data? {
      var s1 := s.(buffer := s.buffer + e.data, received := s.received + e.data);
      assert Contents(s.upload.value.parts) + (s.buffer + e.data) == (Contents(s.upload.value.parts) + s.buffer) + e.data;
      DrainKeeps(s1, e.outcomes, e.abortOk);
    }
  }

  /** Any run that has not stopped and in which no upload failed: the parts, full and
      numbered 1..n, followed by the buffer are the bytes received. */
  lemma {:induction false} RunKeeps(s: State, events: seq<Event>)
    requires Possible(s, events) && (s.broken || s.stopped || Healthy(s))
    ensures var s' := After(s, events); s'.broken || s'.stopped || Healthy(s')
    decreases |events|
  {
    if events == [] {
    } else {
      var e := events[0];
      if !s.broken && !s.stopped {
        StepKeeps(s, e);
      } else if e.Data? {
        DrainFrame(s.(buffer := s.buffer + e.data, received := s.received + e.data), e.outcomes, e.abortOk);
      }
      RunKeeps(Next(s, e), events[1..]);
    }
  }

  // ----- Segmentation does not matter -----

  lemma {:induction false} ContentsLength(parts: seq<Part>)
    requires FullParts(parts)
    ensures |Contents(parts)| == |parts| * CHUNK
  {
    if parts == [] {
    } else {
      ContentsLength(parts[..|parts| - 1]);
      assert |parts[|parts| - 1].body| == CHUNK;
    }
  }

  lemma {:induction false} ContentsAt(parts: seq<Part>, i: nat)
    requires FullParts(parts) && i < |parts|
    ensures (i + 1) * CHUNK <= |Contents(parts)|
    ensures Contents(parts)[i * CHUNK..(i + 1) * CHUNK] == parts[i].body
  {
    var n := |parts| - 1;
    var front, last := Contents(parts[..n]), parts[n].body;
    ContentsLength(parts[..n]);
    assert |last| == CHUNK;
    if i < n {
      ContentsAt(parts[..n], i);
      SliceOfFront(front, last, i * CHUNK, (i + 1) * CHUNK);
    } else {
      assert (front + last)[|front|..|front| + CHUNK] == last;
    }
  }

  lemma SliceOfFront(front: Bytes, back: Bytes, i: nat, j: nat)
    requires i <= j <= |front|
    ensures (front + back)[i..j] == front[i..j]
  {
  }

  /** However the stream is cut into data events, the same bytes give the same parts. */
  lemma SameBytesSameParts(s: State, t: State)
    requires Healthy(s) && Healthy(t) && s.received == t.received
    ensures s.upload == t.upload && s.buffer == t.buffer && s.partNumber == t.partNumber
  {
    var p, q := s.upload.value.parts, t.upload.value.parts;
    ContentsLength(p);
    ContentsLength(q);
    assert |p| == |q|;
    forall i | 0 <= i < |p| ensures p[i] == q[i] {
      PartIsSlice(s, i);
      PartIsSlice(t, i);
    }
    assert p == q;
    assert s.buffer == (Contents(p) + s.buffer)[|Contents(p)|..];
  }

  lemma PartIsSlice(s: State, i: nat)
    requires Aligned(s) && i < |s.upload.value.parts|
    ensures (i + 1) * CHUNK <= |s.received|
    ensures s.upload.value.parts[i] == Part(i + 1, s.received[i * CHUNK..(i + 1) * CHUNK])
  {
    var parts := s.upload.value.parts;
    ContentsAt(parts, i);
    SliceOfFront(Contents(parts), s.buffer, i * CHUNK, (i + 1) * CHUNK);
    assert parts[i].number == i + 1;
  }

  // ----- Stopping -----

  ghost predicate Numbered(parts: seq<Part>) {
    forall i {:trigger parts[i]} | 0 <= i < |parts| :: parts[i].number == i + 1
  }

  lemma {:induction false} SortNumbered(parts: seq<Part>)
    requires Numbered(parts)
    ensures SortParts(parts) == parts
  {
    if parts == [] {
    } else {
      var n := |parts| - 1;
      SortNumbered(parts[..n]);
      assert parts[n].number == n + 1;
      assert n > 0 ==> parts[n - 1].number == n;
      assert parts == parts[..n] + [parts[n]];
    }
  }

  /** Stopping a healthy recording finishes exactly when S3 still knows the upload, has a
      part of it, and completes it. */
  lemma StopFinishesIff(s: State, last: Outcome, completeOk: bool, abortOk: bool)
    requires Healthy(s) && !s.stopped
    ensures Stopped(s, last, completeOk, abortOk).status.Ready? <==>
      completeOk && !(last == Refused(true) && |s.buffer| > 0)
      && (|s.upload.value.parts| > 0 || (|s.buffer| > 0 && !last.Refused?))
  {
  }

  /** A finished object has the size it reports and is exactly what was received if and
      only if nothing was left over or the last part was taken; otherwise the tail is missing. */
  lemma FinishedIsReceived(s: State, last: Outcome, completeOk: bool, abortOk: bool)
    requires Healthy(s) && !s.stopped && Stopped(s, last, completeOk, abortOk).status.Ready?
    ensures var r := Stopped(s, last, completeOk, abortOk).status;
      && r.fileSize == |r.contents|
      && r.contents <= s.received
      && (r.contents == s.received <==> |s.buffer| == 0 || !last.Refused?)
      && (r.contents != s.received ==> r.contents + s.buffer == s.received)
  {
    hide Contents, SortParts, FullParts;
    ContentsLength(s.upload.value.parts);
    if |s.buffer| > 0 && !last.Refused? {
      LastPartCompletes(s);
      assert Stopped(s, last, completeOk, abortOk).status == Ready(s.received, |s.received|);
    } else {
      AlignedNumbered(s);
      SortNumbered(s.upload.value.parts);
      var whole := Contents(s.upload.value.parts);
      assert Stopped(s, last, completeOk, abortOk).status == Ready(whole, |whole|);
      assert s.received == whole + s.buffer;
    }
  }

  lemma AlignedNumbered(s: State)
    requires Aligned(s)
    ensures Numbered(s.upload.value.parts)
  {
  }

  lemma LastPartCompletes(s: State)
    requires Aligned(s)
    ensures Contents(SortParts(s.upload.value.parts + [Part(s.partNumber, s.buffer)])) == s.received
  {
    var parts := s.upload.value.parts;
    var more := parts + [Part(s.partNumber, s.buffer)];
    assert more[..|parts|] == parts;
    SortNumbered(more);
  }

  /** A whole recording, however its output was segmented. */
  lemma RecordedIsReceived(events: seq<Event>, last: Outcome, completeOk: bool, abortOk: bool)
    requires Possible(Init(), events)
    requires var s := After(Init(), events);
      !s.broken && !s.stopped && Stopped(s, last, completeOk, abortOk).status.Ready?
    ensures var s := After(Init(), events);
      Stopped(s, last, completeOk, abortOk).status == Ready(s.received, |s.received|) <==> |s.buffer| == 0 || !last.Refused?
  {
    assert Contents([]) + [] == [];
    RunKeeps(Init(), events);
    FinishedIsReceived(After(Init(), events), last, completeOk, abortOk);
  }

  // ----- After a failed upload -----

  lemma StepWithoutUpload(s: State, e: Event)
    requires Enabled(s, e) && s.upload.None?
    ensures Next(s, e).upload.None? && Next(s, e).accepted == s.accepted
  {
    if e.Data? {
      DrainFrame(s.(buffer := s.buffer + e.data, received := s.received + e.data), e.outcomes, e.abortOk);
    }
  }

  lemma {:induction false} RunWithoutUpload(s: State, events: seq<Event>)
    requires Possible(s, events) && s.upload.None?
    ensures After(s, events).accepted == s.accepted
    decreases |events|
  {
    if events == [] {
    } else {
      StepWithoutUpload(s, events[0]);
      RunWithoutUpload(Next(s, events[0]), events[1..]);
    }
  }

  ghost predicate NothingMoreUploaded(s: State) {
    forall events: seq<Event> | Possible(s, events) :: After(s, events).accepted == s.accepted
  }

  /** FFmpeg may still flush output after a failure; S3 is sent no more of it exactly when
      the upload's entry is gone. */
  lemma NothingMoreIffEntryGone(s: State)
    requires !s.stopped
    ensures NothingMoreUploaded(s) <==> s.upload.None?
  {
    if s.upload.None? {
      forall events: seq<Event> | Possible(s, events) ensures After(s, events).accepted == s.accepted {
        RunWithoutUpload(s, events);
      }
    } else {
      LateDataUploads(s);
    }
  }

  lemma LateDataUploads(s: State)
    requires !s.stopped && s.upload.Some?
    ensures !NothingMoreUploaded(s)
  {
    var data: Bytes := seq(if |s.buffer| < CHUNK then CHUNK - |s.buffer| else 0, i => 0);
    var refusals: seq<Outcome> := seq((|s.buffer| + |data|) / CHUNK, i => Refused(false));
    var e := Data(data, [Accepted] + refusals, true);
    var s0 := s.(buffer := s.buffer + data, received := s.received + data);
    assert |s0.buffer| >= CHUNK && Enabled(s, e);
    var s2 := Counted(Cut(s0, Accepted));
    assert e.outcomes[1..] == refusals;
    DrainFrame(s2, refusals, true);
    assert Next(s, e) == Drain(s2, refusals, true);
    assert [e][1..] == [];
    var s3 := Next(s, e);
    assert Possible(s3, []) && After(s3, []) == s3;
    assert Possible(s, [e]) && After(s, [e]) == s3;
  }

  ghost predicate FirstFailure(outcomes: seq<Outcome>, i: int) {
    0 <= i < |outcomes| && outcomes[i] != Accepted && forall j | 0 <= j < i :: outcomes[j] == Accepted
  }

  /** The first failed upload of a healthy recording removes the entry exactly when S3 says
      the upload is unknown or the abort succeeds. */
  lemma {:induction false} FailureRemovesEntryIff(s: State, outcomes: seq<Outcome>, abortOk: bool) returns (i: nat)
    requires Aligned(s) && s.status == Running && s.entry.Some? && !s.broken && |s.buffer| / CHUNK <= |outcomes|
    requires Drain(s, outcomes, abortOk).broken
    ensures FirstFailure(outcomes, i)
    ensures Drain(s, outcomes, abortOk).upload.None? <==> outcomes[i] == Refused(true) || abortOk
    decreases |s.buffer|
  {
    hide Cut, MarkFailed, Aligned, Succeeds;
    BadUpload(s, outcomes[0], abortOk);
    if Succeeds(s.upload, s.buffer[..CHUNK], outcomes[0]) {
      PutKeeps(s, outcomes[0]);
      i := FailureRemovesEntryIff(Counted(Cut(s, outcomes[0])), outcomes[1..], abortOk);
      FirstFailureShifts(outcomes, i);
      i := i + 1;
    } else {
      i := 0;
    }
  }

  /** A full chunk is taken only with the reply `Accepted`, since every full part publishes. */
  lemma BadUpload(s: State, outcome: Outcome, abortOk: bool)
    requires Aligned(s) && s.entry.Some? && |s.buffer| >= CHUNK
    ensures Succeeds(s.upload, s.buffer[..CHUNK], outcome) <==> outcome == Accepted
    ensures !Succeeds(s.upload, s.buffer[..CHUNK], outcome) ==>
      (MarkFailed(Cut(s, outcome), abortOk).upload.None? <==> outcome == Refused(true) || abortOk)
    ensures var s1 := Counted(Cut(s, outcome));
      s1.entry == s.entry && s1.status == s.status && s1.broken == s.broken && s1.buffer == s.buffer[CHUNK..]
  {
  }

  lemma FirstFailureShifts(outcomes: seq<Outcome>, i: nat)
    requires outcomes != [] && outcomes[0] == Accepted && FirstFailure(outcomes[1..], i)
    ensures FirstFailure(outcomes, i + 1) && outcomes[i + 1] == outcomes[1..][i]
  {
    assert outcomes == [outcomes[0]] + outcomes[1..];
  }

  /** After a failed part nothing more is uploaded, whatever comes, exactly when S3 said
      the upload is unknown or the abort succeeded. */
  lemma NothingAfterFailureIff(s: State, data: Bytes, outcomes: seq<Outcome>, abortOk: bool) returns (i: nat)
    requires Healthy(s) && !s.broken && Enabled(s, Data(data, outcomes, abortOk))
    requires Next(s, Data(data, outcomes, abortOk)).broken
    ensures FirstFailure(outcomes, i)
    ensures NothingMoreUploaded(Next(s, Data(data, outcomes, abortOk))) <==> outcomes[i] == Refused(true) || abortOk
  {
    var s1 := s.(buffer := s.buffer + data, received := s.received + data);
    assert Contents(s.upload.value.parts) + (s.buffer + data) == (Contents(s.upload.value.parts) + s.buffer) + data;
    i := FailureRemovesEntryIff(s1, outcomes, abortOk);
    DrainFrame(s1, outcomes, abortOk);
    NothingMoreIffEntryGone(Drain(s1, outcomes, abortOk));
  }

  /** A part is refused, the abort fails, and FFmpeg's next output is uploaded. */
  function AbortFails(chunk: Bytes): seq<Event> {
    [Data(chunk, [Refused(false)], false), Data(chunk, [Accepted], true)]
  }

  /** A run from the start: the recording has failed and its entry is deleted, yet the next
      chunk goes up, under the number of the part that was lost. */
  lemma UploadsAfterFailure(chunk: Bytes)
    requires |chunk| == CHUNK
    ensures Possible(Init(), AbortFails(chunk))
    ensures var s1 := Next(Init(), AbortFails(chunk)[0]);
      s1.broken && s1.status == Failed && s1.entry == None && s1.accepted == 0
    ensures var s2 := After(Init(), AbortFails(chunk));
      s2.accepted == 1 && s2.upload == Some(Upload([Part(1, chunk)], CHUNK)) && s2.received == chunk + chunk
  {
    var es := AbortFails(chunk);
    assert [] + chunk == chunk && chunk[..CHUNK] == chunk && chunk[CHUNK..] == [];
    var s1 := Next(Init(), es[0]);
    assert s1 == Init().(buffer := [], received := chunk, entry := None, status := Failed, broken := true);
    LateChunk(s1, chunk, es[1]);
    assert es[1..] == [es[1]] && es[1..][1..] == [];
    var s2 := Next(s1, es[1]);
    assert Possible(s2, []) && After(s2, []) == s2;
    assert Possible(s1, es[1..]) && After(s1, es[1..]) == s2;
    assert After(Init(), es) == s2;
  }

  lemma LateChunk(s: State, chunk: Bytes, e: Event)
    requires |chunk| == CHUNK && e == Data(chunk, [Accepted], true)
    requires s == Init().(buffer := [], received := chunk, entry := None, status := Failed, broken := true)
    ensures Enabled(s, e)
    ensures Next(s, e).accepted == 1 && Next(s, e).upload == Some(Upload([Part(1, chunk)], CHUNK))
    ensures Next(s, e).received == chunk + chunk
  {
    assert [] + chunk == chunk && chunk[..CHUNK] == chunk && chunk[CHUNK..] == [];
    assert e.outcomes[1..] == [];
    var s0 := s.(buffer := chunk, received := chunk + chunk);
    var s2 := Counted(Cut(s0, Accepted));
    assert [] + [Part(1, chunk)] == [Part(1, chunk)];
    assert Drain(s2, [], true) == s2;
  }

  // ----- The handler and the service, in place -----

  class Recorder {
    var chunkBuffer: Bytes
    var partNumber: nat
    var totalUploadedBytes: nat
    var entry: Option<Entry>
    var upload: Option<Upload>
    var status: Status
    var stopped: bool
    // What has happened so far, which the code does not store.
    var received: Bytes
    var accepted: nat
    var broken: bool

    function Value(): State
      reads this
    {
      State(chunkBuffer, partNumber, totalUploadedBytes, entry, upload, status, stopped, received, accepted, broken)
    }

    /** A recording that has just been registered. */
    constructor ()
      ensures Value() == Init()
    {
      chunkBuffer, partNumber, totalUploadedBytes, entry, upload := [], 1, 0, Some(Entry([], 1, 0)), Some(Upload([], 0));
      status, stopped, received, accepted, broken := Running, false, [], 0, false;
    }

    /** `uploadChunk`; `ok` is false where the source throws. */
    method UploadChunk(chunk: Bytes, number: nat, outcome: Outcome) returns (ok: bool)
      modifies `upload, `accepted
      ensures Value() == Put(old(Value()), chunk, number, outcome)
      ensures ok == Succeeds(old(upload), chunk, outcome)
    {
      if upload.None? {
        return false;
      }
      if outcome.Refused? {
        if outcome.noSuchUpload {
          upload := None;
        }
        return false;
      }
      var u := upload.value;
      var bytes := u.uploadedBytes + |chunk|;
      upload := Some(Upload(u.parts + [Part(number, chunk)], bytes));
      accepted := accepted + 1;
      return !(bytes % CHUNK == 0 && outcome == PublishFailed);
    }

    method AbortUpload(abortOk: bool)
      modifies `upload
      ensures Value() == Abort(old(Value()), abortOk)
    {
      if upload.Some? && abortOk {
        upload := None;
      }
    }

    method MarkRecordingFailed(abortOk: bool)
      modifies this
      ensures Value() == MarkFailed(old(Value()), abortOk)
    {
      broken := true;
      if entry.None? {
        return;
      }
      AbortUpload(abortOk);
      status := Failed;
      entry := None;
    }

    /** The body of the handler's loop, up to its catch. */
    method UploadNext(outcome: Outcome) returns (ok: bool)
      requires |chunkBuffer| >= CHUNK
      modifies this
      ensures ok == Succeeds(old(upload), old(chunkBuffer)[..CHUNK], outcome)
      ensures Value() == if ok then Counted(Cut(old(Value()), outcome)) else Cut(old(Value()), outcome)
    {
      hide Put, Succeeds;
      var chunk := chunkBuffer[..CHUNK];
      chunkBuffer := chunkBuffer[CHUNK..];
      ok := UploadChunk(chunk, partNumber, outcome);
      if ok {
        totalUploadedBytes := totalUploadedBytes + |chunk|;
        partNumber := partNumber + 1;
      }
    }

    /** The handler's loop, its catch and the copy back. */
    method DrainBuffer(outcomes: seq<Outcome>, abortOk: bool)
      requires |chunkBuffer| / CHUNK <= |outcomes|
      modifies this
      ensures Value() == Drain(old(Value()), outcomes, abortOk)
    {
      hide Put, Succeeds, MarkFailed;
      var left := outcomes;
      while |chunkBuffer| >= CHUNK
        invariant |chunkBuffer| / CHUNK <= |left|
        invariant Drain(Value(), left, abortOk) == Drain(old(Value()), outcomes, abortOk)
        decreases |chunkBuffer|
      {
        CutShortens(Value(), left[0]);
        var ok := UploadNext(left[0]);
        if !ok {
          MarkRecordingFailed(abortOk);
          return;
        }
        left := left[1..];
      }
      if entry.Some? {
        entry := Some(Entry(chunkBuffer, partNumber, totalUploadedBytes));
      }
    }

    /** The `data` handler. */
    method OnData(data: Bytes, outcomes: seq<Outcome>, abortOk: bool)
      requires Enabled(Value(), Data(data, outcomes, abortOk))
      modifies this
      ensures Value() == Next(old(Value()), Data(data, outcomes, abortOk))
    {
      hide Drain;
      received := received + data;
      chunkBuffer := chunkBuffer + data;
      DrainBuffer(outcomes, abortOk);
    }

    method FinishUpload(total: nat, completeOk: bool, abortOk: bool)
      modifies this
      ensures Value() == Finished(old(Value()), total, completeOk, abortOk)
    {
      if upload.None? || upload.value.parts == [] || !completeOk {
        AbortUpload(abortOk);
        status := Failed;
      } else {
        var u := upload.value;
        upload := None;
        status := Ready(Contents(SortParts(u.parts)), if u.uploadedBytes != 0 then u.uploadedBytes else total);
      }
      entry := None;
      stopped := true;
    }

    method StopRecording(last: Outcome, completeOk: bool, abortOk: bool)
      modifies this
      ensures Value() == Stopped(old(Value()), last, completeOk, abortOk)
    {
      hide Put, Succeeds, Finished;
      if entry.None? {
        return;
      }
      var e := entry.value;
      var total := e.totalBytes;
      if |e.buffer| > 0 {
        var ok := UploadChunk(e.buffer, e.partNumber, last);
        if ok {
          total := total + |e.buffer|;
        }
      }
      FinishUpload(total, completeOk, abortOk);
    }
  }
}
