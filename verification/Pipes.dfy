/** The origin's pipe bookkeeping for one room (backend/src/origin/pipeManager.js), with
    concurrent attempts, each await-free segment a step of its own. */
module Pipes {
  import opened Common

  type Edge = string

  /** Broadcast objects, tasks and pipe transports are numbered in order of creation. */
  type BroadcastId = nat
  type TaskId = nat
  type PipeId = nat

  const MAX_ATTEMPTS: nat := 3

  /** The fields of a broadcast object that the pipe code uses. `ending` is set between
      `cleanupPipes` and the closing of the router. */
  datatype Broadcast = Broadcast(pipes: map<Edge, PipeId>, edgeServers: seq<Edge>, ending: bool, routerOpen: bool)

  /** One `pipeToEdgeWithRetry`: waiting for `createPipeTransport`, holding a transport
      through the handshake, sleeping before the next attempt, or over. */
  datatype Phase = Creating(room: BroadcastId) | Flying(room: BroadcastId, pipe: PipeId) | Sleeping | Over

  datatype Task = Task(edge: Edge, tries: nat, phase: Phase)

  /** `live` is the room's entry in the `broadcasts` map; `home` gives the object whose
      router made a transport; `open` holds the transports nobody has closed. */
  datatype State = State(live: Option<BroadcastId>, objects: seq<Broadcast>, tasks: seq<Task>, home: seq<BroadcastId>, open: set<PipeId>)

  datatype Step =
    | RoomCreated
    | Spawn(edge: Edge)
    | AutoPipe(edge: Edge)
    | Retry(task: TaskId)
    | TransportCreated(task: TaskId, ok: bool)
    | HandshakeDone(task: TaskId)
    | HandshakeFailed(task: TaskId)
    | CleanupEdge(edge: Edge)
    | Reconnect
    | BeginEnd
    | FinishEnd

  function Init(): State {
    State(None, [], [], [], {})
  }

  // ----- The steps -----

  predicate Enabled(s: State, step: Step) {
    match step
    case RoomCreated => s.live == None
    case Spawn(_) => true
    case AutoPipe(_) => true
    case Retry(k) => k < |s.tasks| && s.tasks[k].phase.Sleeping?
    case TransportCreated(k, _) =>
      k < |s.tasks| && s.tasks[k].phase.Creating? && s.tasks[k].phase.room < |s.objects|
    case HandshakeDone(k) => k < |s.tasks| && s.tasks[k].phase.Flying? && s.tasks[k].phase.room < |s.objects|
    case HandshakeFailed(k) => k < |s.tasks| && s.tasks[k].phase.Flying?
    case FinishEnd => s.live.Some? && s.live.value < |s.objects| && s.objects[s.live.value].ending
    case _ => s.live.Some? && s.live.value < |s.objects|
  }

  function Without(edges: seq<Edge>, e: Edge): seq<Edge> {
    if edges == [] then []
    else if edges[0] == e then Without(edges[1..], e)
    else [edges[0]] + Without(edges[1..], e)
  }

  /** An attempt begins: with no live broadcast it fails at once. */
  function Attempted(s: State, task: Task): Task {
    Task(task.edge, task.tries + 1, if s.live.Some? then Creating(s.live.value) else AfterFailure(task.tries + 1))
  }

  function AfterFailure(tries: nat): Phase {
    if tries >= MAX_ATTEMPTS then Over else Sleeping
  }

  function SetPhase(s: State, k: TaskId, phase: Phase): State
    requires k < |s.tasks|
  {
    s.(tasks := s.tasks[k := s.tasks[k].(phase := phase)])
  }

  /** The last segment of an attempt: close and forget a pipe already stored for the edge,
      then store this one. */
  function Store(b: Broadcast, e: Edge, p: PipeId): Broadcast {
    b.(pipes := b.pipes[e := p],
       edgeServers := (if e in b.pipes then Without(b.edgeServers, e) else b.edgeServers) + [e])
  }

  function Forget(b: Broadcast, e: Edge): Broadcast {
    b.(pipes := b.pipes - {e}, edgeServers := Without(b.edgeServers, e))
  }

  function Next(s: State, step: Step): State
    requires Enabled(s, step)
  {
    match step
    case RoomCreated => s.(live := Some(|s.objects|), objects := s.objects + [Broadcast(map[], [], false, true)])
    case Spawn(e) => s.(tasks := s.tasks + [Attempted(s, Task(e, 0, Sleeping))])
    case AutoPipe(e) =>
      if s.live.None? || s.live.value >= |s.objects| || e in s.objects[s.live.value].edgeServers then s
      else s.(tasks := s.tasks + [Attempted(s, Task(e, 0, Sleeping))])
    case Retry(k) => s.(tasks := s.tasks[k := Attempted(s, s.tasks[k])])
    case TransportCreated(k, ok) =>
      var g := s.tasks[k].phase.room;
      if ok && s.objects[g].routerOpen then
        SetPhase(s.(home := s.home + [g], open := s.open + {|s.home|}), k, Flying(g, |s.home|))
      else SetPhase(s, k, AfterFailure(s.tasks[k].tries))
    case HandshakeDone(k) =>
      var g, p, e := s.tasks[k].phase.room, s.tasks[k].phase.pipe, s.tasks[k].edge;
      var b := s.objects[g];
      SetPhase(s.(objects := s.objects[g := Store(b, e, p)],
                  open := s.open - if e in b.pipes then {b.pipes[e]} else {}), k, Over)
    case HandshakeFailed(k) =>
      SetPhase(s.(open := s.open - {s.tasks[k].phase.pipe}), k, AfterFailure(s.tasks[k].tries))
    case CleanupEdge(e) =>
      var g := s.live.value;
      var b := s.objects[g];
      if e !in b.pipes then s else s.(objects := s.objects[g := Forget(b, e)], open := s.open - {b.pipes[e]})
    case Reconnect =>
      var g := s.live.value;
      s.(objects := s.objects[g := s.objects[g].(pipes := map[], edgeServers := [])],
         open := s.open - s.objects[g].pipes.Values)
    case BeginEnd =>
      var g := s.live.value;
      s.(objects := s.objects[g := s.objects[g].(ending := true)], open := s.open - s.objects[g].pipes.Values)
    case FinishEnd =>
      var g := s.live.value;
      s.(live := None, objects := s.objects[g := s.objects[g].(routerOpen := false)],
         open := set p | p in s.open && p < |s.home| && s.home[p] != g)
  }

  function SpawnedAll(s: State, edges: seq<Edge>): State
    decreases |edges|
  {
    if edges == [] then s else SpawnedAll(Next(s, Spawn(edges[0])), edges[1..])
  }

  predicate Possible(s: State, steps: seq<Step>)
    decreases |steps|
  {
    steps == [] || (Enabled(s, steps[0]) && Possible(Next(s, steps[0]), steps[1..]))
  }

  function After(s: State, steps: seq<Step>): State
    requires Possible(s, steps)
    decreases |steps|
  {
    if steps == [] then s else After(Next(s, steps[0]), steps[1..])
  }

  // ----- The invariant -----

  /** `edgeServers` lists the keys of the pipe map, each once. */
  ghost predicate ListsPipes(b: Broadcast) {
    && (forall i, j | 0 <= i < j < |b.edgeServers| :: b.edgeServers[i] != b.edgeServers[j])
    && (forall e :: e in b.edgeServers <==> e in b.pipes)
  }

  ghost predicate Stored(objects: seq<Broadcast>, g: BroadcastId, e: Edge, p: PipeId) {
    g < |objects| && e in objects[g].pipes && objects[g].pipes[e] == p
  }

  ghost predicate Held(tasks: seq<Task>, k: TaskId, g: BroadcastId, p: PipeId) {
    k < |tasks| && tasks[k].phase == Flying(g, p)
  }

  /** A transport is stored in the map of the object that made it, or held by one attempt. */
  ghost predicate Owned(s: State, p: PipeId) {
    && p < |s.home|
    && ((exists e: Edge :: Stored(s.objects, s.home[p], e, p)) || (exists k: TaskId :: Held(s.tasks, k, s.home[p], p)))
  }

  /** No transport has two owners, and owners know its home. */
  ghost predicate OwnedOnce(s: State) {
    && (forall g: BroadcastId, e: Edge, p: PipeId | Stored(s.objects, g, e, p) :: p < |s.home| && s.home[p] == g)
    && (forall k: TaskId, g: BroadcastId, p: PipeId | Held(s.tasks, k, g, p) :: p < |s.home| && s.home[p] == g)
    && (forall g: BroadcastId, e: Edge, f: Edge, p: PipeId :: Stored(s.objects, g, e, p) && Stored(s.objects, g, f, p) ==> e == f)
    && (forall k: TaskId, l: TaskId, g: BroadcastId, p: PipeId :: Held(s.tasks, k, g, p) && Held(s.tasks, l, g, p) ==> k == l)
    && (forall k: TaskId, g: BroadcastId, e: Edge, p: PipeId :: !(Held(s.tasks, k, g, p) && Stored(s.objects, g, e, p)))
  }

  /** An open transport belongs to an open router and has an owner. */
  ghost predicate OpenOwned(s: State) {
    forall p {:trigger Owned(s, p)} | p in s.open ::
      Owned(s, p) && s.home[p] < |s.objects| && s.objects[s.home[p]].routerOpen
  }

  /** What an object or an attempt holds is still open, until the router goes. */
  ghost predicate HoldingsOpen(s: State) {
    && (forall g: BroadcastId, e: Edge, p: PipeId | Stored(s.objects, g, e, p) && s.objects[g].routerOpen && !s.objects[g].ending :: p in s.open)
    && (forall k: TaskId, g: BroadcastId, p: PipeId | Held(s.tasks, k, g, p) && g < |s.objects| && s.objects[g].routerOpen :: p in s.open)
  }

  ghost predicate Shape(s: State) {
    && (forall g | 0 <= g < |s.objects| :: ListsPipes(s.objects[g]))
    && (s.live.Some? ==> s.live.value < |s.objects| && s.objects[s.live.value].routerOpen)
    && (forall g | 0 <= g < |s.objects| && s.live != Some(g) :: !s.objects[g].routerOpen)
    && (forall k | 0 <= k < |s.tasks| :: TaskOk(s, s.tasks[k]))
  }

  ghost predicate TaskOk(s: State, task: Task) {
    && task.tries <= MAX_ATTEMPTS
    && (task.phase.Sleeping? ==> task.tries < MAX_ATTEMPTS)
    && (task.phase.Creating? ==> task.phase.room < |s.objects|)
    && (task.phase.Flying? ==> task.phase.room < |s.objects|)
  }

  ghost predicate Inv(s: State) {
    Shape(s) && OwnedOnce(s) && OpenOwned(s) && HoldingsOpen(s)
  }

  // ----- The lists -----

  lemma {:induction false} WithoutFacts(edges: seq<Edge>, e: Edge)
    requires forall i, j | 0 <= i < j < |edges| :: edges[i] != edges[j]
    ensures forall i, j | 0 <= i < j < |Without(edges, e)| :: Without(edges, e)[i] != Without(edges, e)[j]
    ensures forall f :: f in Without(edges, e) <==> f in edges && f != e
  {
    if edges == [] {
    } else {
      WithoutFacts(edges[1..], e);
      assert edges == [edges[0]] + edges[1..];
      if edges[0] != e {
        var rest := Without(edges[1..], e);
        assert edges[0] !in rest;
        assert forall j | 0 < j < |[edges[0]] + rest| :: ([edges[0]] + rest)[j] == rest[j - 1];
      }
    }
  }

  lemma StoreLists(b: Broadcast, e: Edge, p: PipeId)
    requires ListsPipes(b)
    ensures ListsPipes(Store(b, e, p))
  {
    WithoutFacts(b.edgeServers, e);
  }

  lemma ForgetLists(b: Broadcast, e: Edge)
    requires ListsPipes(b)
    ensures ListsPipes(Forget(b, e))
  {
    WithoutFacts(b.edgeServers, e);
  }

  lemma StepKeepsShape(s: State, step: Step)
    requires Shape(s) && Enabled(s, step)
    ensures Shape(Next(s, step))
  {
    var s' := Next(s, step);
    match step {
      case HandshakeDone(k) => StoreLists(s.objects[s.tasks[k].phase.room], s.tasks[k].edge, s.tasks[k].phase.pipe);
      case CleanupEdge(e) => ForgetLists(s.objects[s.live.value], e);
      case _ =>
    }
    forall k | 0 <= k < |s'.tasks| ensures TaskOk(s', s'.tasks[k]) {
      if k < |s.tasks| {
        assert TaskOk(s, s.tasks[k]);
      }
    }
  }

  // ----- Ownership -----

  /** Owners of `s'` were owners in `s`. */
  ghost predicate FewerOwners(s: State, s': State) {
    && s'.home == s.home
    && (forall g: BroadcastId, e: Edge, p: PipeId | Stored(s'.objects, g, e, p) :: Stored(s.objects, g, e, p))
    && (forall k: TaskId, g: BroadcastId, p: PipeId | Held(s'.tasks, k, g, p) :: Held(s.tasks, k, g, p))
  }

  lemma FewerOwnersKeep(s: State, s': State)
    requires OwnedOnce(s) && FewerOwners(s, s')
    ensures OwnedOnce(s')
  {
  }

  /** Attempts that hold nothing come and go. */
  lemma EmptyHandedKeeps(s: State, s': State)
    requires OwnedOnce(s) && OpenOwned(s) && HoldingsOpen(s)
    requires s'.objects == s.objects && s'.home == s.home && s'.open == s.open
    requires forall k: TaskId, g: BroadcastId, p: PipeId :: Held(s'.tasks, k, g, p) <==> Held(s.tasks, k, g, p)
    ensures OwnedOnce(s') && OpenOwned(s') && HoldingsOpen(s')
  {
    FewerOwnersKeep(s, s');
    forall p | p in s.open ensures Owned(s', p) && s.home[p] < |s.objects| && s.objects[s.home[p]].routerOpen {
      assert Owned(s, p);
      if k: TaskId :| Held(s.tasks, k, s.home[p], p) {
        assert Held(s'.tasks, k, s.home[p], p);
      }
    }
  }

  lemma TaskStep(s: State, step: Step)
    requires Inv(s) && Enabled(s, step)
    requires step.Spawn? || step.AutoPipe? || step.Retry? || step.TransportCreated?
    requires step.TransportCreated? ==> !step.ok || !s.objects[s.tasks[step.task].phase.room].routerOpen
    ensures Inv(Next(s, step))
  {
    var s' := Next(s, step);
    StepKeepsShape(s, step);
    forall k: TaskId, g: BroadcastId, p: PipeId ensures Held(s'.tasks, k, g, p) <==> Held(s.tasks, k, g, p) {
    }
    EmptyHandedKeeps(s, s');
  }

  /** Once the room is gone, no transport made for it is left open. */
  lemma NothingLeftOpen(s: State)
    requires Inv(s) && s.live == None
    ensures s.open == {}
  {
    if p :| p in s.open {
      var owned := Owned(s, p);
      assert false;
    }
  }

  lemma RoomCreatedStep(s: State)
    requires Inv(s) && Enabled(s, RoomCreated)
    ensures Inv(Next(s, RoomCreated))
  {
    var s' := Next(s, RoomCreated);
    StepKeepsShape(s, RoomCreated);
    forall g: BroadcastId, e: Edge, p: PipeId ensures Stored(s'.objects, g, e, p) <==> Stored(s.objects, g, e, p) {
    }
    FewerOwnersKeep(s, s');
    NothingLeftOpen(s);
    forall k: TaskId, g: BroadcastId, p: PipeId | Held(s'.tasks, k, g, p) && g < |s'.objects| && s'.objects[g].routerOpen
      ensures p in s'.open
    {
      assert TaskOk(s, s.tasks[k]);
    }
  }

  /** A new transport is held by the attempt that asked for it. */
  lemma OpenStep(s: State, k: TaskId)
    requires Inv(s) && Enabled(s, TransportCreated(k, true)) && s.objects[s.tasks[k].phase.room].routerOpen
    ensures Inv(Next(s, TransportCreated(k, true)))
  {
    var g, q := s.tasks[k].phase.room, |s.home|;
    var s' := Next(s, TransportCreated(k, true));
    StepKeepsShape(s, TransportCreated(k, true));
    assert Held(s'.tasks, k, g, q);
    forall l: TaskId, h: BroadcastId, p: PipeId
      ensures Held(s'.tasks, l, h, p) <==> Held(s.tasks, l, h, p) || (l == k && h == g && p == q)
    {
    }
    forall p | p in s'.open ensures Owned(s', p) && s'.home[p] < |s.objects| && s.objects[s'.home[p]].routerOpen {
      if p == q {
        assert Held(s'.tasks, k, s'.home[q], q);
      } else {
        assert Owned(s, p) && s'.home[p] == s.home[p];
        if l: TaskId :| Held(s.tasks, l, s.home[p], p) {
          assert Held(s'.tasks, l, s.home[p], p);
        }
      }
    }
  }

  /** Steps that close transports and forget their owners. */
  lemma ClosingKeeps(s: State, s': State)
    requires OwnedOnce(s) && OpenOwned(s) && FewerOwners(s, s') && s'.open <= s.open && |s'.objects| == |s.objects|
    requires forall p | p in s'.open && p < |s.home| && s.home[p] < |s.objects| ::
      s'.objects[s.home[p]].routerOpen == s.objects[s.home[p]].routerOpen
    requires forall g: BroadcastId, e: Edge, p: PipeId | Stored(s.objects, g, e, p) && p in s'.open :: Stored(s'.objects, g, e, p)
    requires forall k: TaskId, g: BroadcastId, p: PipeId | Held(s.tasks, k, g, p) && p in s'.open :: Held(s'.tasks, k, g, p)
    ensures OwnedOnce(s') && OpenOwned(s')
  {
    FewerOwnersKeep(s, s');
    forall p | p in s'.open ensures Owned(s', p) && s.home[p] < |s.objects| && s'.objects[s.home[p]].routerOpen {
      assert Owned(s, p);
      if e: Edge :| Stored(s.objects, s.home[p], e, p) {
        assert Stored(s'.objects, s.home[p], e, p);
      }
      if k: TaskId :| Held(s.tasks, k, s.home[p], p) {
        assert Held(s'.tasks, k, s.home[p], p);
      }
    }
  }

  lemma FailStep(s: State, k: TaskId)
    requires Inv(s) && Enabled(s, HandshakeFailed(k))
    ensures Inv(Next(s, HandshakeFailed(k)))
  {
    var g, q := s.tasks[k].phase.room, s.tasks[k].phase.pipe;
    var s' := Next(s, HandshakeFailed(k));
    StepKeepsShape(s, HandshakeFailed(k));
    assert Held(s.tasks, k, g, q);
    forall l: TaskId, h: BroadcastId, p: PipeId
      ensures Held(s'.tasks, l, h, p) <==> Held(s.tasks, l, h, p) && l != k
    {
    }
    ClosingKeeps(s, s');
  }

  lemma CleanupStep(s: State, e: Edge)
    requires Inv(s) && Enabled(s, CleanupEdge(e))
    ensures Inv(Next(s, CleanupEdge(e)))
  {
    var g := s.live.value;
    var b := s.objects[g];
    var s' := Next(s, CleanupEdge(e));
    StepKeepsShape(s, CleanupEdge(e));
    if e in b.pipes {
      assert Stored(s.objects, g, e, b.pipes[e]);
      forall h: BroadcastId, f: Edge, p: PipeId
        ensures Stored(s'.objects, h, f, p) <==> Stored(s.objects, h, f, p) && !(h == g && f == e)
      {
      }
      ClosingKeeps(s, s');
    }
  }

  lemma ReconnectStep(s: State, step: Step)
    requires Inv(s) && Enabled(s, step) && (step.Reconnect? || step.BeginEnd?)
    ensures Inv(Next(s, step))
  {
    var g := s.live.value;
    var s' := Next(s, step);
    StepKeepsShape(s, step);
    forall e: Edge, p: PipeId | Stored(s.objects, g, e, p) ensures p !in s'.open {
    }
    forall p | p in s.objects[g].pipes.Values ensures exists e: Edge :: Stored(s.objects, g, e, p) {
      var e :| e in s.objects[g].pipes && s.objects[g].pipes[e] == p;
      assert Stored(s.objects, g, e, p);
    }
    ClosingKeeps(s, s');
  }

  lemma FinishStep(s: State)
    requires Inv(s) && Enabled(s, FinishEnd)
    ensures Inv(Next(s, FinishEnd))
  {
    var s' := Next(s, FinishEnd);
    StepKeepsShape(s, FinishEnd);
    forall h: BroadcastId, f: Edge, p: PipeId ensures Stored(s'.objects, h, f, p) <==> Stored(s.objects, h, f, p) {
    }
    ClosingKeeps(s, s');
  }

  /** A finished handshake hands its transport to the map and closes the one it replaces. */
  lemma StoreStep(s: State, k: TaskId)
    requires Inv(s) && Enabled(s, HandshakeDone(k))
    ensures Inv(Next(s, HandshakeDone(k)))
  {
    var g, q, e := s.tasks[k].phase.room, s.tasks[k].phase.pipe, s.tasks[k].edge;
    var b := s.objects[g];
    var s' := Next(s, HandshakeDone(k));
    StepKeepsShape(s, HandshakeDone(k));
    assert Held(s.tasks, k, g, q) && Stored(s'.objects, g, e, q);
    if e in b.pipes {
      assert Stored(s.objects, g, e, b.pipes[e]);
    }
    forall l: TaskId, h: BroadcastId, p: PipeId
      ensures Held(s'.tasks, l, h, p) <==> Held(s.tasks, l, h, p) && l != k
    {
    }
    forall h: BroadcastId, f: Edge, p: PipeId
      ensures Stored(s'.objects, h, f, p) <==> if h == g && f == e then p == q else Stored(s.objects, h, f, p)
    {
    }
    StoredKeeps(s, s', k, g, e, q);
  }

  lemma StoredKeeps(s: State, s': State, k: TaskId, g: BroadcastId, e: Edge, q: PipeId)
    requires OwnedOnce(s) && OpenOwned(s) && HoldingsOpen(s)
    requires Held(s.tasks, k, g, q) && g < |s.objects| && s'.home == s.home && |s'.objects| == |s.objects|
    requires forall h | 0 <= h < |s.objects| ::
      s'.objects[h].routerOpen == s.objects[h].routerOpen && s'.objects[h].ending == s.objects[h].ending
    requires forall l: TaskId, h: BroadcastId, p: PipeId :: Held(s'.tasks, l, h, p) <==> Held(s.tasks, l, h, p) && l != k
    requires forall h: BroadcastId, f: Edge, p: PipeId ::
      Stored(s'.objects, h, f, p) <==> if h == g && f == e then p == q else Stored(s.objects, h, f, p)
    requires forall p :: p in s'.open <==> p in s.open && !Stored(s.objects, g, e, p)
    ensures OwnedOnce(s') && OpenOwned(s') && HoldingsOpen(s')
  {
    assert Stored(s'.objects, g, e, q);
    forall p | p in s'.open ensures Owned(s', p) && s.home[p] < |s.objects| && s'.objects[s.home[p]].routerOpen {
      assert Owned(s, p);
      if f: Edge :| Stored(s.objects, s.home[p], f, p) {
        assert Stored(s'.objects, s.home[p], f, p);
      }
      if l: TaskId :| Held(s.tasks, l, s.home[p], p) {
        assert l != k ==> Held(s'.tasks, l, s.home[p], p);
      }
    }
  }

  lemma StepKeeps(s: State, step: Step)
    requires Inv(s) && Enabled(s, step)
    ensures Inv(Next(s, step))
  {
    hide Inv;
    match step {
      case RoomCreated => RoomCreatedStep(s);
      case TransportCreated(k, ok) =>
        if ok && s.objects[s.tasks[k].phase.room].routerOpen {
          OpenStep(s, k);
        } else {
          TaskStep(s, step);
        }
      case HandshakeDone(k) => StoreStep(s, k);
      case HandshakeFailed(k) => FailStep(s, k);
      case CleanupEdge(e) => CleanupStep(s, e);
      case Reconnect => ReconnectStep(s, step);
      case BeginEnd => ReconnectStep(s, step);
      case FinishEnd => FinishStep(s);
      case _ => TaskStep(s, step);
    }
  }

  lemma {:induction false} RunKeeps(s: State, steps: seq<Step>)
    requires Inv(s) && Possible(s, steps)
    ensures Inv(After(s, steps))
    decreases |steps|
  {
    if steps == [] {
    } else {
      StepKeeps(s, steps[0]);
      RunKeeps(Next(s, steps[0]), steps[1..]);
    }
  }

  /** Every run: the live room's edge list is its pipe map's key set, each edge once; every
      open transport is in that map or held by an attempt for this room; and, until
      the room starts to end, every transport in the map is open. */
  lemma BookkeepingHolds(steps: seq<Step>)
    requires Possible(Init(), steps)
    ensures var s := After(Init(), steps);
      match s.live
      case None => s.open == {}
      case Some(g) =>
        && g < |s.objects| && ListsPipes(s.objects[g])
        && (forall p | p in s.open ::
              || p in s.objects[g].pipes.Values
              || (exists k: TaskId :: Held(s.tasks, k, g, p)))
        && (!s.objects[g].ending ==> forall e | e in s.objects[g].pipes :: s.objects[g].pipes[e] in s.open)
  {
    RunKeeps(Init(), steps);
    var s := After(Init(), steps);
    if s.live == None {
      NothingLeftOpen(s);
    } else {
      var g := s.live.value;
      forall p | p in s.open ensures p in s.objects[g].pipes.Values || (exists k: TaskId :: Held(s.tasks, k, g, p)) {
        assert Owned(s, p);
        assert s.home[p] == g;
        if e: Edge :| Stored(s.objects, g, e, p) {
        }
      }
      forall e | e in s.objects[g].pipes ensures !s.objects[g].ending ==> s.objects[g].pipes[e] in s.open {
        assert Stored(s.objects, g, e, s.objects[g].pipes[e]);
      }
    }
  }

  // ----- The pipe manager, in place -----

  class PipeManager {
    var live: Option<BroadcastId>
    var objects: seq<Broadcast>
    var tasks: seq<Task>
    var home: seq<BroadcastId>
    var open: set<PipeId>

    function Value(): State
      reads this
    {
      State(live, objects, tasks, home, open)
    }

    constructor ()
      ensures Value() == Init()
    {
      live, objects, tasks, home, open := None, [], [], [], {};
    }

    /** `connectEdgeServers`: an attempt starts for every edge, all at once. */
    method ConnectEdgeServers(edges: seq<Edge>)
      modifies this
      ensures Value() == SpawnedAll(old(Value()), edges)
    {
      for i := 0 to |edges|
        invariant SpawnedAll(Value(), edges[i..]) == SpawnedAll(old(Value()), edges)
      {
        tasks := tasks + [Task(edges[i], 1, if live.Some? then Creating(live.value) else Sleeping)];
      }
    }

    /** The next turn of the retry loop. */
    method RetryPipe(k: TaskId)
      requires Enabled(Value(), Retry(k))
      modifies this
      ensures Value() == Next(old(Value()), Retry(k))
    {
      var tries := tasks[k].tries + 1;
      var phase := if live.Some? then Creating(live.value) else if tries < MAX_ATTEMPTS then Sleeping else Over;
      tasks := tasks[k := Task(tasks[k].edge, tries, phase)];
    }

    /** `createPipeTransport` has returned or thrown. */
    method OnTransport(k: TaskId, ok: bool)
      requires Enabled(Value(), TransportCreated(k, ok))
      modifies this
      ensures Value() == Next(old(Value()), TransportCreated(k, ok))
    {
      var g := tasks[k].phase.room;
      if ok && objects[g].routerOpen {
        var pipe := |home|;
        home := home + [g];
        open := open + {pipe};
        tasks := tasks[k := tasks[k].(phase := Flying(g, pipe))];
      } else {
        tasks := tasks[k := tasks[k].(phase := if tasks[k].tries < MAX_ATTEMPTS then Sleeping else Over)];
      }
    }

    /** `pipeToNewEdge` */
    method PipeToNewEdge(e: Edge)
      modifies this
      ensures Value() == Next(old(Value()), AutoPipe(e))
    {
      if live.None? || live.value >= |objects| || e in objects[live.value].edgeServers {
        return;
      }
      tasks := tasks + [Task(e, 1, Creating(live.value))];
    }

    /** The await-free end of `pipeToEdge`. */
    method FinishPipe(k: TaskId)
      requires Enabled(Value(), HandshakeDone(k))
      modifies this
      ensures Value() == Next(old(Value()), HandshakeDone(k))
    {
      var g, pipe, e := tasks[k].phase.room, tasks[k].phase.pipe, tasks[k].edge;
      var b := objects[g];
      if e in b.pipes {
        open := open - {b.pipes[e]};
        b := b.(edgeServers := Without(b.edgeServers, e));
      }
      b := b.(pipes := b.pipes[e := pipe]);
      b := b.(edgeServers := b.edgeServers + [e]);
      objects := objects[g := b];
      tasks := tasks[k := tasks[k].(phase := Over)];
    }

    /** The catch of `pipeToEdge` and the retry loop around it. */
    method FailPipe(k: TaskId)
      requires Enabled(Value(), HandshakeFailed(k))
      modifies this
      ensures Value() == Next(old(Value()), HandshakeFailed(k))
    {
      open := open - {tasks[k].phase.pipe};
      tasks := tasks[k := tasks[k].(phase := if tasks[k].tries < MAX_ATTEMPTS then Sleeping else Over)];
    }

    method CleanupSingleEdgePipe(e: Edge)
      requires Enabled(Value(), CleanupEdge(e))
      modifies this
      ensures Value() == Next(old(Value()), CleanupEdge(e))
    {
      var g := live.value;
      var b := objects[g];
      if e !in b.pipes {
        return;
      }
      open := open - {b.pipes[e]};
      b := b.(pipes := b.pipes - {e});
      b := b.(edgeServers := Without(b.edgeServers, e));
      objects := objects[g := b];
    }

    /** The loop closing every stored transport, when the broadcaster reconnects or leaves. */
    method ClosePipes(g: BroadcastId)
      requires g < |objects|
      modifies `open
      ensures open == old(open) - objects[g].pipes.Values
    {
      var todo := objects[g].pipes;
      while todo.Keys != {}
        invariant todo.Keys <= objects[g].pipes.Keys
        invariant forall e | e in todo :: todo[e] == objects[g].pipes[e]
        invariant open <= old(open)
        invariant forall e | e in objects[g].pipes && e !in todo :: objects[g].pipes[e] !in open
        invariant forall p | p in old(open) && p !in objects[g].pipes.Values :: p in open
        decreases todo.Keys
      {
        var e :| e in todo.Keys;
        open := open - {todo[e]};
        todo := todo - {e};
      }
    }

    method OnReconnect()
      requires Enabled(Value(), Reconnect)
      modifies this
      ensures Value() == Next(old(Value()), Reconnect)
    {
      var g := live.value;
      ClosePipes(g);
      objects := objects[g := objects[g].(pipes := map[], edgeServers := [])];
    }

    /** `cleanupPipes` */
    method CleanupPipes()
      requires Enabled(Value(), BeginEnd)
      modifies this
      ensures Value() == Next(old(Value()), BeginEnd)
    {
      var g := live.value;
      ClosePipes(g);
      objects := objects[g := objects[g].(ending := true)];
    }
  }
}
