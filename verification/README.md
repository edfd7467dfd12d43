# BroadClass models

BroadClass streams lectures: teachers broadcast to an origin server, which pipes media to edge
servers; a system manager carries chat and talks to an AI service that transcribes, chunks and
retrieves. These Dafny modules model the parts of it that keep state, and prove what that state
obeys over every run.

Each stateful component appears twice: as functions from an old state to a new one (`Next`,
`AfterFlush`, `Packed`, ...) and as a class whose methods change the same fields in place and are
proved to do exactly what those functions say. The invariants are lemmas about the functions, so
they hold of the methods. What a step is for is stated apart from those functions: what it brings about
exactly when, and what that adds up to over a run. Calls to Redis, S3, the database, mediasoup, the AI service and the clock
are parameters: their outcomes and times are arbitrary unless a lemma says otherwise.

| module | component |
|---|---|
| `Text`, `Chunker`, `ChunkerSplit`, `ChunkerOffsets`, `ChunkerFidelity`, `ChunkerFaithful` | transcript chunking: sentence splitting, greedy packing with overlap, offsets, reconstruction |
| `Ingest`, `IngestRuns`, `IngestTimes`, `IngestTexts`, `IngestSpans` | the ingest session: two concurrent tasks and a queue, buffer, flushes, row numbers, times and texts |
| `Viewers`, `ViewersInvariant`, `ViewersRuns`, `ViewersCounts` | the viewer counter, one step per Redis command |
| `Lifecycle`, `LifecycleInvariant`, `LifecycleEffects`, `LifecycleReconnect` | who broadcasts, grace windows, lecture sessions, one step per handler |
| `Pipes`, `PipesEffects` | origin-to-edge pipe bookkeeping, one step per await-free segment |
| `Recording`, `RecordingRuns` | multipart assembly of a recording |
| `Breaker`, `BreakerCalls`, `RateLimit`, `RateLimitRuns` | sliding-window controllers and their whole-history references |
| `RedisIndex`, `RedisRuns` | set indexes against the keys they index, with reads, deletions and reaps as separate commands |
| `Autoscaler`, `AutoscalerTicks`, `Workers` | fleet size control, worker selection |
| `Gate`, `GateMeans`, `Paging`, `ChatList` | retrieval gate, message history paging, chat list merge |
| `Common` | optional values, a counting fact and one about division |

## What the proofs found

- A chunk's text is the transcript between its offsets only when sentences are separated by exactly
  one space each (`AlwaysFaithfulIffOneSpaced`, and `TwoSpacesUnfaithful` for the text "A.  B.").
  What holds for every white space is that the chunks alone rebuild the sentences joined by single
  spaces (`ChunksRebuildSentences`).
- The viewer count is bounded by the increments minus the decrements as long as no connected
  socket's EXISTS is answered before the room's key is in Redis: `updateBroadcastViewerCount`
  returns null then, and the caller still sets `viewerCounted`. A fallback viewer who joins
  between the opening of the room and its registration is enough, with no fault at all
  (`AnswerSafeIffRegistered`, `EarlyJoinBreaksBound`). The count is exact at every point exactly when
  every reset comes with no increment outstanding (`ExactIffHarmless`), and then, with no failures and
  no one leaving in the middle of a join, it is the number of sockets watching (`CountIsWatching`).
- When one socket broadcasts in several rooms and drops, only the first room in map order is left
  with the socket's producers; the others lose their session on reconnect (`ReconnectKeepsSession`,
  `SecondRoomLosesSession`).
- A non-OK response of the AI service counts as two failures, so three of them within 30 seconds trip
  the breaker whose threshold is five (`ThreeBadResponses`).
- After a failed part a recording goes on uploading when the abort fails: the upload entry stays,
  the recording's own entry is deleted, and the next output goes up under the number of the lost
  part (`NothingAfterFailureIff`, `UploadsAfterFailure`). The comment at recordingHandler.js:296-297
  says data may come before `activeRecordings.set`; nothing is awaited between the two, so the model
  follows the code and starts with the entry in place.
- An edge or room that registers between the command that found it stale (or deleted it) and that
  call's SREM can be hidden from its index while alive, and heartbeats do not list it again; without
  such a registration the indexes are exact (`DisturbanceIff`, `CalmRunsIndexed`, `ReapRace`).
- A result added to a passing list of three or more never fails the retrieval gate; added to one or
  two it can, through the mean (`AddingDecides`).
- The autoscaler can exceed its maximum exactly when it is configured with a minimum above it
  (`NeverAboveMaxIff`).

## Model

| member | source | states |
|---|---|---|
| `Chunker.FindHitsTrueStart` | ai-service/app/chunker.py:68-73 | searching for a piece from the cursor stops at the piece's own start: it cannot match earlier inside the white space that was skipped |
| `Chunker.SearchRecoversOffsets` | ai-service/app/chunker.py:63-75 | for every text the cursor search gives every nonempty piece of the split its true position, so the defensive branch is never taken |
| `Chunker.LocateAll` | ai-service/app/chunker.py:63-75 | the loop over pieces computes the cursor search for any list of pieces |
| `Chunker.Locate` | ai-service/app/chunker.py:63-75 | split and search together give the sentences at their true offsets |
| `Chunker.Packer.Flush` | ai-service/app/chunker.py:83-99 | in place: emits the joined buffer and keeps its last `overlap` characters only when it is longer than that |
| `Chunker.Packer.Add` | ai-service/app/chunker.py:101-114 | in place: flushes first when the sentence does not fit behind existing content, then appends it |
| `Chunker.PackAllHolds` | ai-service/app/chunker.py:101-114 | after any number of sentences the emitted chunks are a greedy packing of a prefix and the buffer is the last chunk's overlap followed by the sentences since |
| `Chunker.PackingComplete` | ai-service/app/chunker.py:77-120 | the final flush completes the packing: every sentence is new in exactly one chunk, in order, none is overlap only, and each chunk was closed only because the next sentence did not fit |
| `Chunker.ChunkText` | ai-service/app/chunker.py:40-120 | rejects exactly the bad arguments with the right error, returns nothing for blank text, and otherwise the complete greedy packing of the text's sentences |
| `ChunkerSplit.SentencesAreTheSplit` | ai-service/app/chunker.py:24-75 | for every text the sentences are the one list in which each white space after '.', '!' or '?' ends a sentence, no other does, and the next begins after it |
| `ChunkerSplit.SplitsAtTerminators` | ai-service/app/chunker.py:27 | in characters: a sentence with a successor ends in '.', '!' or '?', and none has one of them before white space inside |
| `ChunkerSplit.GreedyInCharacters` | ai-service/app/chunker.py:101-114 | a chunk was closed only because one more sentence would have made the joined text longer than the target; each sentence after its first was joined within it |
| `ChunkerOffsets.PackingUnique` | ai-service/app/chunker.py:101-120 | the declarative packing determines every chunk, carry and offset: there is only one |
| `ChunkerOffsets.SentencesPlaced` | ai-service/app/chunker.py:61-75 | the sentences lie in order in the text, are not blank, and leave only white space between them |
| `ChunkerOffsets.ChunkSize` | ai-service/app/chunker.py:105-114 | a chunk is at most the target, or at most its overlap, a space and the longest sentence; hence at most the target when that sum is |
| `ChunkerOffsets.OffsetsIncrease` | ai-service/app/chunker.py:87-112 | for any white space the offsets are in range, each chunk's start is before its end, and starts and ends are strictly increasing |
| `ChunkerFidelity.ChunksRebuildSentences` | ai-service/app/chunker.py:83-118 | for any white space the chunks alone, each without the overlap it repeats, rebuild all sentences joined by one space |
| `ChunkerFaithful.FaithfulIffTight` | ai-service/app/chunker.py:31-37 | in one run, every chunk's text equals the stripped text between its offsets if and only if every gap inside a chunk is one space |
| `ChunkerFaithful.AlwaysFaithfulIffOneSpaced` | ai-service/app/chunker.py:31-37 | offsets delimit the chunk text for every target and overlap if and only if sentences are separated by exactly one space |
| `ChunkerFaithful.TwoSpacesUnfaithful` | ai-service/app/chunker.py:61-120 | "A.  B." splits into two sentences and is not always chunked faithfully |
| `ChunkerFaithful.OneSpacedChunksRebuildText` | ai-service/app/chunker.py:83-118 | for one-spaced text the chunks alone rebuild the stripped text itself |
| `Ingest.NumberRows` | ai-service/app/store/chunks.py:41-60 | rows are numbered consecutively from the starting index, one per item, in order |
| `Ingest.TimeItems` | ai-service/app/ingest.py:425-432 | one timed item per chunk that has a vector, in order, both ends interpolated |
| `Ingest.Session.Flush` | ai-service/app/ingest.py:397-447 | in place: no buffer or no transcript changes nothing; otherwise the buffer is emptied and rows and index advance only if embedding and insert succeed |
| `Ingest.Session.Drain` | ai-service/app/ingest.py:360-394 | in place: any list of timeouts, events and end-of-stream is processed as one delivery after another up to the first sentinel |
| `IngestRuns.DrainStepIsDelivery` | ai-service/app/ingest.py:369-394 | the drain task's steps in the interleaved model are the deliveries of the drain loop |
| `IngestRuns.StepKeeps` | ai-service/app/ingest.py:272-292 | every step of either task keeps conservation, queue, buffer and index invariants |
| `IngestRuns.SessionConserves` | ai-service/app/ingest.py:369-403 | for any interleaving and any failures: texts taken, joined by spaces, are the flushed buffers followed by the buffer; a nonempty buffer has a transcript and is under 1200 characters; indices are exactly 0..n-1; at the end everything accepted was flushed |
| `IngestTimes.InterpBounds` | ai-service/app/ingest.py:412-416 | interpolation is monotone and stays within [start, start + span] |
| `IngestTimes.FlushInWindow` | ai-service/app/ingest.py:400-432 | items of one flush start before they end, start in nondecreasing order, and lie in the flush's own window |
| `IngestTimes.SessionTimes` | ai-service/app/ingest.py:382-432 | for events in order of time, over the whole session: startMs <= endMs, startMs nondecreasing across chunks and flushes, every row in the window of the one flush it came from |
| `IngestTexts.RowsHoldChunks` | ai-service/app/ingest.py:405-447 | any run, whatever failed: each flush's rows hold, in order, exactly the chunks of its buffer that were embedded and committed: the text, and for both ends of a chunk the millisecond in which its character falls when the buffer is spoken evenly over the window |
| `IngestTexts.RowsRebuildFlushes` | ai-service/app/ingest.py:405-447 | in any run the rows of a flush with a vector per chunk and a committed insert rebuild its buffer's sentences joined by one space |
| `IngestTexts.RowsRebuildSpeech` | ai-service/app/ingest.py:360-447 | at the end of a session in which every flush was complete and sentences are one space apart, the stored rows alone rebuild everything said |
| `IngestSpans.RowsFillWindow` | ai-service/app/ingest.py:412-432 | any run: a flush's first row starts when its first event starts; the last row of a complete flush ends where the window ends |
| `IngestSpans.EveryEventPlaced` | ai-service/app/ingest.py:382-403 | any run: the events that say something, in order, are those of the flushes and then those in the buffer; each flush holds its events' texts joined by spaces and spans them from the first start to the last end |
| `IngestSpans.EventFlushesWhenDue` | ai-service/app/ingest.py:382-394 | any run: an event brings a flush if and only if it says something and the buffer reaches 1200 characters with it; all of it is flushed then |
| `IngestSpans.PauseFlushesAll` | ai-service/app/ingest.py:371-380 | any run: a timeout or the end of the stream flushes if and only if there is anything in the buffer, and empties it |
| `IngestSpans.EverythingHeardIsFlushed` | ai-service/app/ingest.py:272-394 | any run in which the stream has ended: as many turns of the drain loop as the queue is long end it, and what was flushed is every final event up to the end of the stream, whatever the embedder and the store do |
| `ViewersInvariant.StepKeeps` | backend/src/services/redisClient.js:212-226 | every Redis command and await-free segment, but a missing key answered to a connected socket's join, keeps the invariant: a decrement holds an increment whose join was acknowledged, no two hold the same one, and the counter is at most the difference |
| `ViewersInvariant.IncrCounts` | backend/src/services/redisClient.js:217 | INCRBY moves counter and difference alike and the difference stays nonnegative |
| `ViewersRuns.BoundedWhenGrounded` | backend/src/services/redisClient.js:212-226 | in every run in which no connected socket's join finds the key missing, published counts lie between 0 and the difference at their INCRBY, across resets, clamps and failures |
| `ViewersRuns.ExactIffHarmless` | backend/src/services/redisClient.js:199-223 | in such a run the counter is increments minus decrements, with no call about to clamp, at every point if and only if every reset comes with no increment outstanding |
| `ViewersRuns.NeverUndercounts` | backend/src/edge/socketHandlers.js:40-47 | then the counter is never below the number of connected sockets flagged as counted, whatever calls are pending or failed |
| `ViewersRuns.RegisteredFirst` | backend/src/origin/socketHandlers.js:386-391 | the code's order for a fresh room: anything without a join, the key written, then anything: the count is bounded, and exact unless a reset follows |
| `ViewersRuns.EarlyJoinBreaksBound` | backend/src/services/redisClient.js:213-215 | from the start: a fallback viewer joins an open room before it is registered and leaves after; 0 is published where the bound is -1 |
| `ViewersRuns.AnswerSafeIffRegistered` | backend/src/services/redisClient.js:214-215 | at any point of a run so far without such a step, answering a join's EXISTS keeps the count bounded in every continuation if and only if the key is there or the socket is gone |
| `ViewersCounts.IncrThenPublish` | backend/src/services/redisClient.js:217-224 | an INCRBY that answers leaves its call about to publish the counter it produced, or to clamp when that is negative |
| `ViewersCounts.WholeCall` | backend/src/services/redisClient.js:212-226 | a whole undisturbed call moves the counter by one but not below zero, publishes exactly that number once, and returns |
| `ViewersCounts.FailedCommand` | backend/src/services/redisClient.js:212-226 | a lost reply has the command's effect, a refusal none; either way the call returns with an error |
| `ViewersCounts.CallsStartIff` | backend/src/origin/socketHandlers.js:466-647 | a join starts one increment; giving up a place starts one decrement of the increment behind the flag if and only if the flag is set, and clears it; nothing else starts a call |
| `ViewersCounts.ViewersChangeIff` | backend/src/origin/socketHandlers.js:466-633 | the room's viewers are the origin's sockets that joined, until they leave, disconnect while the room is open, or it opens or closes |
| `ViewersCounts.PublishedExact` | backend/src/services/redisClient.js:217-224 | in every grounded run with harmless resets each count ever published equals increments minus decrements at its INCRBY |
| `ViewersCounts.CountIsWatching` | backend/src/edge/socketHandlers.js:40-47 | in every run in which nothing fails, no socket leaves while it joins, and the origin's room opens and closes only while nobody watches there, once all calls are over the counter is the number of sockets that joined and have not left since |
| `Viewers.Room.JoinBroadcast` | backend/src/origin/socketHandlers.js:466-486 | in place: a join records an origin viewer and starts an increment, and sets no flag yet |
| `Viewers.Room.AfterUpdate` | backend/src/edge/socketHandlers.js:40-47 | in place: only a join whose whole call returned sets the flag, also on the record of a socket already gone |
| `Viewers.Room.LeaveBroadcast` | backend/src/origin/socketHandlers.js:569-581 | in place: leaving clears a set flag and starts exactly one decrement |
| `Viewers.Room.OnDisconnect` | backend/src/origin/socketHandlers.js:600-647 | in place: a flagged edge viewer, or a flagged origin viewer of a live room, starts one decrement; others none |
| `Viewers.Room.Command` | backend/src/services/redisClient.js:212-226 | in place: each command with a reply, a lost reply or a refusal leads to the next command or the return |
| `LifecycleInvariant.StepKeeps` | backend/src/origin/socketHandlers.js:56-659 | every handler keeps grace, order and session invariants together |
| `LifecycleInvariant.StepKeepsGrace` | backend/src/origin/socketHandlers.js:600-622 | a claimed room is in its grace window exactly when its broadcaster is disconnected; each entry has the one pending timer, started when that broadcaster was lost |
| `LifecycleInvariant.ExpiredIsCleanup` | backend/src/origin/socketHandlers.js:615-620 | an expiring timer always finds its own entry and broadcaster, so it does clean up the room |
| `LifecycleInvariant.NoTimerOverwritten` | backend/src/origin/socketHandlers.js:603-622 | a disconnect leaves every pending timer and its entry as they were |
| `LifecycleInvariant.HandoverOnlyInGrace` | backend/src/origin/socketHandlers.js:166-193 | a room changes broadcaster only on a reconnect, from a disconnected one inside its grace window |
| `LifecycleInvariant.StepKeepsSessions` | backend/src/origin/socketHandlers.js:180-252 | every live room has a session, no session is current twice, and each one ever created is exactly one of current, ended, left without endedAt by a failed write, superseded |
| `LifecycleInvariant.EveryRun` | backend/src/origin/socketHandlers.js:120-659 | after any run from the server's start all of these hold |
| `LifecycleEffects.OpensIff` | backend/src/origin/socketHandlers.js:214-258 | a room opens if and only if a sender transport is requested for it and its session row can be written; it is last in order, unclaimed, silent, with a session of its own |
| `LifecycleEffects.ClosesIff` | backend/src/origin/socketHandlers.js:56-59 | a room closes if and only if its broadcaster stops or its own grace timer expires |
| `LifecycleEffects.ClosingFrame` | backend/src/origin/socketHandlers.js:75-86 | closing removes the room, its grace entry and its timer, and leaves every other room, entry and timer |
| `LifecycleEffects.ClosedSession` | backend/src/origin/socketHandlers.js:88-98 | the session of a closing room is marked ended if the row can be written and left without an end otherwise, and no other session changes |
| `LifecycleEffects.SessionFates` | backend/src/origin/socketHandlers.js:88-98 | over any run from the start the ended, unended and superseded sessions are exactly those whose room closed with the row written, closed without, or went on with another session |
| `LifecycleEffects.NoneLeftOpen` | backend/src/origin/socketHandlers.js:88-98 | if those writes succeed no session is left without an end: each is ended, current or superseded |
| `LifecycleEffects.LostLectureEnds` | backend/src/origin/socketHandlers.js:603-622 | when the broadcaster stays away, whatever happens in between, the expiring timer closes the room and ends its session |
| `LifecycleEffects.BroadcasterChangesIff` | backend/src/origin/socketHandlers.js:166-193 | a broadcaster changes in two cases exactly: an unclaimed room is started, or another socket asks for a sender transport in the grace window |
| `LifecycleEffects.ProducersChangeIff` | backend/src/origin/socketHandlers.js:366-381 | a room's producers change in two cases exactly: a socket with a transport produces, or a reconnect starts afresh |
| `LifecycleEffects.HoldingsChangeIff` | backend/src/origin/socketHandlers.js:266-280 | a socket gets a transport exactly when its request is not refused and the media call succeeds, and one producer per production; nobody else's step touches it |
| `LifecycleEffects.ConnectsIff` | backend/src/origin/socketHandlers.js:125-137 | a socket is there from its connection on, with no transport and no producers |
| `LifecycleEffects.RefusedChangesNothing` | backend/src/origin/socketHandlers.js:166-256 | a request refused for another present broadcaster, or for want of a row, changes nothing |
| `LifecycleReconnect.ReconnectKeepsSession` | backend/src/origin/socketHandlers.js:173-211 | a reconnect in the window, whatever happened in between, keeps the session if and only if the lost socket had producers and this was its first room, or the new row cannot be written |
| `LifecycleReconnect.SecondRoomLosesSession` | backend/src/origin/socketHandlers.js:603-611 | a run from the start in which a lecture with a live producer loses its session on reconnect |
| `LifecycleReconnect.DisconnectOpensGrace` | backend/src/origin/socketHandlers.js:603-622 | every room a lost socket was broadcasting in gets a grace window |
| `Lifecycle.Origin.CreateWebRtcTransport` | backend/src/origin/socketHandlers.js:144-274 | in place: creates the room with its session, or takes over in a grace window, or refuses |
| `Lifecycle.Origin.OnStartBroadcast` | backend/src/origin/socketHandlers.js:366-381 | in place: an unclaimed room is claimed before the transport is looked up |
| `Lifecycle.Origin.CleanupBroadcast` | backend/src/origin/socketHandlers.js:56-99 | in place: only the room's broadcaster ends it, with its grace timer and session |
| `Lifecycle.Origin.OnDisconnect` | backend/src/origin/socketHandlers.js:600-659 | in place: the loop over rooms starts a timer per room of the socket, the first with its producers |
| `Lifecycle.Origin.OnGraceExpired` | backend/src/origin/socketHandlers.js:615-620 | in place: deletes the room's entry and cleans up for the lost socket |
| `Pipes.StepKeepsShape` | backend/src/origin/pipeManager.js:163-206 | every step keeps edgeServers duplicate-free and equal to the key set of the pipe map, and every task within three attempts |
| `Pipes.StepKeeps` | backend/src/origin/pipeManager.js:71-206 | every step also keeps ownership: an open transport belongs to an open router and is stored or held by exactly one attempt |
| `Pipes.NothingLeftOpen` | backend/src/origin/pipeManager.js:211-229 | once the room is gone no transport made for it is open |
| `Pipes.BookkeepingHolds` | backend/src/origin/pipeManager.js:99-206 | after any run of interleaved attempts, failures, cleanups, reconnects and ends: the list equals the map's keys, every open transport is in the map or held by an attempt, and stored transports are open until the room ends |
| `PipesEffects.HandshakeLinks` | backend/src/origin/pipeManager.js:163-174 | a finished handshake lists its edge, maps it to the task's transport, keeps every other edge, closes exactly the transport it replaces, and leaves the new one open |
| `PipesEffects.ListedIffLinked` | backend/src/origin/pipeManager.js:99-229 | over any run from the start the live room's list and map hold exactly the edges whose handshake finished for it since their last cleanup and the last reconnect, each with the transport of its last handshake, and these are open until the room ends |
| `PipesEffects.GivesUpAfterThree` | backend/src/origin/pipeManager.js:71-85 | a task is over if and only if its handshake finished or its third attempt failed; any other failure leaves it waiting |
| `PipesEffects.AttemptProgress` | backend/src/origin/pipeManager.js:99-111 | a retry in a live room asks its router; a transport that is made is new, open and held; a failed handshake closes it and no other |
| `PipesEffects.SpawnStarts` | backend/src/origin/pipeManager.js:54-66 | an edge is auto-piped if and only if the live room is not linked to it, with a first attempt |
| `PipesEffects.SpawnedAllStarts` | backend/src/origin/pipeManager.js:36-44 | connecting starts one first attempt per edge, in order, and changes nothing else |
| `PipesEffects.RoomStartsEmpty` | backend/src/origin/socketHandlers.js:214-230 | a new room starts with no pipe, an empty list and an open router |
| `PipesEffects.TeardownCloses` | backend/src/origin/pipeManager.js:188-229 | a cleanup closes and unlinks one edge, a reconnect all; the end of a room leaves nothing open |
| `Pipes.PipeManager.ConnectEdgeServers` | backend/src/origin/pipeManager.js:36-44 | in place: one first attempt per edge, all started |
| `Pipes.PipeManager.RetryPipe` | backend/src/origin/pipeManager.js:73-85 | in place: the next attempt starts, or fails at once when the room is gone |
| `Pipes.PipeManager.OnTransport` | backend/src/origin/pipeManager.js:106-111 | in place: a transport made by an open router is open and held by its attempt |
| `Pipes.PipeManager.CleanupPipes` | backend/src/origin/pipeManager.js:211-229 | in place: closes exactly the stored transports and leaves the map |
| `Pipes.PipeManager.FinishPipe` | backend/src/origin/pipeManager.js:163-174 | in place: closes and forgets a pipe already stored for the edge, stores the new one, lists the edge once |
| `Pipes.PipeManager.FailPipe` | backend/src/origin/pipeManager.js:73-85 | in place: closes the attempt's transport; the task sleeps or, after its third attempt, ends |
| `Pipes.PipeManager.CleanupSingleEdgePipe` | backend/src/origin/pipeManager.js:188-206 | in place: closes and forgets that edge's pipe, or does nothing |
| `Pipes.PipeManager.ClosePipes` | backend/src/origin/socketHandlers.js:187 | the loop closes exactly the stored transports |
| `Pipes.PipeManager.OnReconnect` | backend/src/origin/socketHandlers.js:187-189 | in place: closes all stored pipes and empties map and list |
| `Recording.RunKeeps` | backend/src/origin/recordingHandler.js:293-348 | in any run with no failed upload the parts, numbered 1..n and 5 MiB each, followed by the buffer are the bytes received, with all counters and the entry's copies in agreement |
| `Recording.SameBytesSameParts` | backend/src/origin/recordingHandler.js:301-310 | however the stream is cut into data events, the same bytes give the same parts and buffer |
| `Recording.FinishedIsReceived` | backend/src/origin/recordingHandler.js:478-530 | a finished object has the size reported, is a prefix of what was received, and is all of it if and only if nothing was left over or the last part was taken |
| `Recording.RecordedIsReceived` | backend/src/services/s3Service.js:157-187 | the same for a whole recording from its start |
| `Recording.NothingMoreIffEntryGone` | backend/src/services/s3Service.js:104-108 | no later event uploads anything if and only if the upload's entry is gone |
| `Recording.NothingAfterFailureIff` | backend/src/origin/recordingHandler.js:332-338 | after the first failed part nothing more is uploaded, whatever comes, if and only if S3 reported the upload unknown or the abort succeeded |
| `Recording.UploadsAfterFailure` | backend/src/services/s3Service.js:201-219 | a run from the start: a part is refused, the abort fails, the recording is marked failed and its entry deleted, and the next chunk is uploaded under the lost part's number |
| `RecordingRuns.PartsAreChunks` | backend/src/origin/recordingHandler.js:299-310 | in any run without a failure the parts are exactly the full 5 MiB stretches of everything written, numbered from 1, and the buffer is the rest |
| `RecordingRuns.UploadStoresIff` | backend/src/services/s3Service.js:104-150 | a part is stored if and only if S3 knows the upload and takes it; the upload throws if and only if it is not, or the publish due at a full 5 MiB fails |
| `RecordingRuns.StopEnds` | backend/src/origin/recordingHandler.js:478-560 | a stop of a recording that has not failed leaves it ready if and only if S3 still knows the upload, has a part of it and completes it, and otherwise failed, with nothing left of the upload if the abort succeeds |
| `RecordingRuns.FailedForGood` | backend/src/origin/recordingHandler.js:596-648 | once a part failed in a run from the start, the recording is failed after every continuation; no later data or stop makes it ready |
| `RecordingRuns.SortAscends` | backend/src/services/s3Service.js:157-187 | parts reach S3 in ascending order of their numbers, all of them and no other |
| `Recording.Recorder.UploadChunk` | backend/src/services/s3Service.js:104-150 | in place: throws without an entry, forgets the entry on NoSuchUpload, and also throws when the publish after a stored part fails |
| `Recording.Recorder.DrainBuffer` | backend/src/origin/recordingHandler.js:303-347 | in place: the upload loop, its catch and the copy back |
| `Recording.Recorder.OnData` | backend/src/origin/recordingHandler.js:293-348 | in place: one data event |
| `Recording.Recorder.MarkRecordingFailed` | backend/src/origin/recordingHandler.js:596-648 | in place: tries the abort and deletes the entry; once that is gone it does nothing |
| `Recording.Recorder.FinishUpload` | backend/src/services/s3Service.js:157-195 | in place: completes the sorted parts, or aborts |
| `Recording.Recorder.StopRecording` | backend/src/origin/recordingHandler.js:429-589 | in place: uploads the entry's buffer as the last part, a failure of which is only logged, then completes |
| `Breaker.TrimIsFresh` | backend/src/system-manager/aiClient.js:22-24 | on an ordered array trimming from the front is the filter by age |
| `Breaker.RecordRefines` | backend/src/system-manager/aiClient.js:18-32 | recording in the trimmed array is recording in the whole history: same array, same trip, same deadline |
| `Breaker.NotedKeepsTrips` | backend/src/system-manager/aiClient.js:25-31 | a trip has exactly five fresh failures, of at least three calls |
| `Breaker.RunRefines` | backend/src/system-manager/aiClient.js:14-75 | every run: the array is the failures since the last trip that were fresh at the last record, trips come exactly with the fifth, each from three calls or more, and no call starts between a trip and the end of its open period |
| `Breaker.OpenUntilGrows` | backend/src/system-manager/aiClient.js:26 | the deadline never moves back |
| `Breaker.NeverFive` | backend/src/system-manager/aiClient.js:25-31 | fewer than five failures are held between events |
| `Breaker.NoFetchWhileOpen` | backend/src/system-manager/aiClient.js:44-47 | the fetches the code starts are those of the whole-history reference; none starts between a trip and the end of its open period |
| `BreakerCalls.EndingCounts` | backend/src/system-manager/aiClient.js:50-75 | in numbers: a success counts nothing, a timeout one failure, another rejection one unless the breaker is open, a non-OK response two, or one if the first trips; each keeps the failures of the last 30 seconds, and the fifth opens for 60 |
| `BreakerCalls.ThreeBadResponses` | backend/src/system-manager/aiClient.js:60-70 | three non-OK responses within 30 seconds trip the breaker, since each counts double |
| `BreakerCalls.FetchIffNoRecentTrip` | backend/src/system-manager/aiClient.js:44-47 | after any run a call starts its fetch if and only if no trip was less than 60 seconds ago |
| `BreakerCalls.NoTripMissed` | backend/src/system-manager/aiClient.js:18-31 | in any run, of five failures in a row without a trip the first is more than 30 seconds older than the last |
| `Breaker.AiClient.RecordFailure` | backend/src/system-manager/aiClient.js:18-32 | in place: push, trim from the front, trip |
| `Breaker.AiClient.PostEnds` | backend/src/system-manager/aiClient.js:50-75 | in place: a non-OK response is recorded twice unless the first record trips; a timeout once; another failure once if not open |
| `Breaker.AiClient.Serve` | backend/src/system-manager/aiClient.js:44-75 | in place: any sequence of calls starting and ending, with the times at which fetches start |
| `RateLimit.Limiter.CheckRate` | backend/src/system-manager/chatSocketHandlers.js:19-30 | the decision on the pruned history is the decision on the user's full acceptance history |
| `RateLimit.Limiter.Sweep` | backend/src/system-manager/chatSocketHandlers.js:34-41 | sweeping changes no decision, and leaves exactly the recent entries of the users who have any |
| `RateLimit.Limiter.Serve` | backend/src/system-manager/chatSocketHandlers.js:15-41 | any interleaving of requests and sweeps decides as counting over full histories does |
| `RateLimit.RunsAreSpaced` | backend/src/system-manager/chatSocketHandlers.js:15-30 | over any run a user's acceptances three apart are at least the window apart |
| `RateLimitRuns.AnswerIff` | backend/src/system-manager/chatSocketHandlers.js:15-41 | any run, with sweeps anywhere: a request is rejected if and only if three requests of its user were accepted in the last 10 seconds, and told to wait until the first of the three is 10 seconds old |
| `RateLimit.RetryExactly` | backend/src/system-manager/chatSocketHandlers.js:24-26 | an undisturbed retry is accepted if and only if it comes retryInMs later or more |
| `RedisIndex.StepKeeps` | backend/src/services/redisClient.js:86-177 | every command keeps the indexes exact and what calls are about to reap stale, unless it registers such an id |
| `RedisIndex.CalmRunsIndexed` | backend/src/services/redisClient.js:86-320 | over any run in which no id registers between the command that found it stale and that call's reap, every unexpired edge and every active room is in its set |
| `RedisRuns.StaysIndexedIff` | backend/src/services/redisClient.js:147-167 | from an exact index all such continuations stay exact if and only if nothing live is about to be removed |
| `RedisRuns.DisturbanceIff` | backend/src/services/redisClient.js:112-116 | after any such run a step keeps the indexes exact for good if and only if it does not register an id that a call is about to remove |
| `RedisRuns.ReapRace` | backend/src/services/redisClient.js:140-170 | a run from the start: an edge that registers between a reader's MGET and its SREM is alive, sends heartbeats, and is not listed |
| `RedisRuns.UnlistedStays` | backend/src/services/redisClient.js:121-138 | an id missing from the set stays so until it registers |
| `RedisRuns.DeadStaysDead` | backend/src/services/redisClient.js:121-138 | an expired or removed edge stays gone until it registers, whatever heartbeats come |
| `RedisRuns.LiveWasHeardOf` | backend/src/services/redisClient.js:111-138 | over any run, an unexpired edge registered or sent a heartbeat within the last 30 seconds |
| `RedisRuns.TouchLeases` | backend/src/services/redisClient.js:112-138 | a registration stores an edge for 30 seconds and lists it; a heartbeat of an unexpired edge renews that and the user count alone, one of an expired edge changes no key |
| `RedisRuns.AliveForThirtySeconds` | backend/src/services/redisClient.js:112-138 | over any run an edge last heard of at a time is alive for exactly 30 seconds from then, unless removed |
| `RedisRuns.RemovalUnlists` | backend/src/services/redisClient.js:172-177 | a removed edge is gone at once and unlisted when its SREM is through |
| `RedisRuns.ActiveIffRegisteredLast` | backend/src/services/redisClient.js:181-283 | over any run a room is active if and only if its latest registration or end was a registration |
| `RedisRuns.ReapsOnce` | backend/src/services/redisClient.js:164-283 | a call removes exactly its own ids, once, if the SREM goes through; ending an unknown room changes nothing |
| `RedisRuns.ReadCleans` | backend/src/services/redisClient.js:140-170 | an undisturbed read whose SREM goes through leaves exactly the living edges, or active rooms, in the set |
| `RedisIndex.RedisClient.ReadEdgeKeys` | backend/src/services/redisClient.js:144-162 | in place: lists exactly the unexpired edges among the members read, each once, and keeps the others as stale |
| `RedisIndex.RedisClient.ReapStaleEdges` | backend/src/services/redisClient.js:164-174 | in place: removes the stale ids of its own call if the SREM goes through |
| `RedisIndex.RedisClient.AllEdges` | backend/src/services/redisClient.js:140-170 | undisturbed, returns exactly the unexpired edges, each once, and leaves the index exact |
| `RedisIndex.RedisClient.ReadRoomKeys` | backend/src/services/redisClient.js:289-314 | in place: lists exactly the active rooms among the members read |
| `RedisIndex.RedisClient.AllBroadcasts` | backend/src/services/redisClient.js:285-320 | undisturbed, returns exactly the rooms with status active, each once |
| `RedisIndex.RedisClient.UpdateEdgeHeartbeat` | backend/src/services/redisClient.js:121-138 | extends an unexpired edge, returns null otherwise |
| `Autoscaler.RunKeeps` | backend/src/origin/edgeScalingManager.js:73-123 | over any ticks the fleet stays at most the maximum, does not fall below the minimum once there, and threshold scale-ups and scale-downs are their cooldowns apart |
| `Autoscaler.FleetInRange` | backend/src/origin/edgeScalingManager.js:46-60 | from a start whose launches succeed the fleet is within [min, max] at every tick |
| `Autoscaler.TickChanges` | backend/src/origin/edgeScalingManager.js:83-119 | a tick over a running fleet adds at most one new edge when hot, or removes at most one, managed and empty, when all are quiet |
| `AutoscalerTicks.TickDecides` | backend/src/origin/edgeScalingManager.js:83-119 | a tick over a running fleet scales up if and only if some edge carries the threshold percentage, there is room and the cooldown is over; otherwise down if and only if all are quiet, one can be spared, that cooldown is over and a managed edge is empty; otherwise it changes nothing |
| `AutoscalerTicks.ScalingUp` | backend/src/origin/edgeScalingManager.js:127-141 | a launch adds one edge under a fresh number and records it; every outcome of its three calls |
| `AutoscalerTicks.ScalingDown` | backend/src/origin/edgeScalingManager.js:105-117 | a removal takes away the first edge that is managed and empty |
| `AutoscalerTicks.EmptyFleetRefills` | backend/src/origin/edgeScalingManager.js:78-81 | a tick over an empty fleet whose launches succeed brings it to exactly the minimum and starts no cooldown |
| `AutoscalerTicks.StartRecovers` | backend/src/origin/edgeScalingManager.js:46-60 | a start forgets exactly the recorded edges that are dead, then fills up to the minimum |
| `Autoscaler.CandidateFacts` | backend/src/origin/edgeScalingManager.js:106-109 | the edge chosen is managed and empty, and none is chosen only if there is none |
| `Autoscaler.NeverAboveMaxIff` | backend/src/origin/edgeScalingManager.js:161-172 | no step can overshoot the maximum if and only if min <= max |
| `Autoscaler.EdgeScalingManager.EnsureMinimumEdges` | backend/src/origin/edgeScalingManager.js:161-172 | in place: launches exactly the missing number of edges |
| `Autoscaler.EdgeScalingManager.OnTick` | backend/src/origin/edgeScalingManager.js:73-123 | in place: one tick's decision; a failed launch still starts the cooldown |
| `Autoscaler.EdgeScalingManager.OnStart` | backend/src/origin/edgeScalingManager.js:46-60 | in place: forgets recorded edges that no longer run, then ensures the minimum |
| `Workers.WorkerPool.GetNextWorker` | backend/src/services/mediasoupService.js:69-85 | call k returns worker k mod m |
| `Workers.TurnIsLeast` | backend/src/services/mediasoupService.js:73-83 | the first least loaded worker is the next in turn, and giving it a router keeps the balance |
| `Gate.SortDescends` | ai-service/app/retrieval.py:53 | the sort is a descending rearrangement of the scores |
| `Gate.Top1IsMax` | ai-service/app/retrieval.py:53-54 | top1 is the largest score |
| `GateMeans.MeanOfLargest` | ai-service/app/retrieval.py:55-56 | the mean is that of the three largest scores, or of all when there are fewer |
| `GateMeans.PassesIff` | ai-service/app/retrieval.py:50-68 | the gate passes if and only if both thresholds are reached; a failure names the first that is not |
| `Gate.OrderIndependent` | ai-service/app/retrieval.py:50-68 | permuting the results leaves the whole decision unchanged |
| `Gate.RaisingKeepsPass` | ai-service/app/retrieval.py:50-68 | raising any scores raises top1 and the mean and never turns a pass into a fail |
| `Gate.AddingDecides` | ai-service/app/retrieval.py:53-68 | a result added to three or more of any passing list never fails it; added to fewer, it passes if and only if the mean of all of them reaches the threshold |
| `Paging.PageIs` | backend/src/system-manager/chatRoutes.js:50-64 | a page is the `limit` newest matching messages older than the cursor, oldest first, and nextCursor stands exactly before the rest |
| `Paging.MatchingMembers` | backend/src/system-manager/chatRoutes.js:41-48 | a teacher gets every message no teacher has hidden, a student those that moderation has not hidden either |
| `Paging.ClampLimit` | backend/src/system-manager/chatRoutes.js:35-38 | every parsed limit becomes one between 1 and 100, unchanged if it was |
| `Paging.UnknownCursor` | backend/src/system-manager/chatRoutes.js:50-64 | a cursor that names no message shown gives an empty page and no next cursor |
| `Paging.LoadHistory` | backend/src/system-manager/chatRoutes.js:35-64 | following nextCursor from null with any limits ends, and the pages, each put in front, are every matching message once in ascending order |
| `ChatList.ListIs` | frontend/src/hooks/useChat.js:46-59 | after any deliveries the list holds exactly this session's messages, each once, in order of time |
| `ChatList.LatestWins` | frontend/src/hooks/useChat.js:46-59 | after any deliveries whatever every message of this session is in the list once, in the version delivered last |
| `ChatList.DeliveryOrderIrrelevant` | frontend/src/hooks/useChat.js:46-59 | neither the order of delivery nor duplicates change the list |

## Left out

- Tools outside the process (mediasoup, FFmpeg, Socket.IO, HTTP, Prisma, S3, Redis clients): only success, failure and the state they store.
- Language models, speech-to-text, embedding and moderation providers, prompts, JSON parsing; authentication, enrollment checks, sanitizers, configuration parsing; React components and media code.
- Chunker: Python's `\s` and `strip` on characters outside the Unicode white space listed in `Text.IsSpace`.
- Ingest: floating-point rounding in `interp` (an exact floor is used); the 5 s and 15 s shutdown timeouts that cancel the tasks; an insert that raises after its commit; audio frames and their queue.
- Viewers: sockets that use more than one room; the second publication of the count by the origin's join and leave handlers.
- Viewers.Room: one method per handler segment and per command; `RoomOpens`, `RoomCloses`, `SetKey` and `ResetCounter` are steps of the model without a method.
- Lifecycle: each handler is one step, so two handlers of one room interleaved at their awaits are not covered; a producer is a number, its closing is not tracked.
- Pipes: one room, one `cleanupBroadcast` per broadcast object; the check that the room has producers before piping starts; the retry loop, its delays and the awaits of a handshake are steps, not loops; the edge's side of a pipe.
- Recording: data handlers do not overlap and no data arrives once a stop begins; DB status writes and events.
- RedisIndex: a registration's SETEX or SET and its SADD are one step, as are a heartbeat's GET and SETEX and an ending's GET and SET; a SADD that fails; malformed JSON values; viewer counts merged into the list.
- Breaker: clocks that run backwards.
- Autoscaler: overlapping ticks, edges that vanish or appear on their own between ticks, a tick whose status query throws (it changes nothing).
- Gate: floating-point rounding of scores and means, and the formatted reason texts (an enumeration stands for them).
- Workers: worker death and replacement, workers sharing a pid.
- Paging: messages with equal creation times, whose order the query leaves open; citation hydration; the access checks.
- ChatList: the history load that replaces the list, optimistic messages, and deliveries that carry only some of a message's fields.
- Transcription sessions, RTP port allocation, chat queue, recordings API and the unused recording manager.
