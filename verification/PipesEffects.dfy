/** What the pipe manager achieves: a finished handshake links its edge, over every run the
    list is the edges linked since, and an edge is given up only after three attempts. */
module PipesEffects {
  import opened Common
  import opened Pipes

  // ----- A finished handshake -----

  /** The task's object lists its edge and maps it to the task's transport; every other edge is
      listed and mapped as before; the transport it replaces is closed, no other is. */
  lemma HandshakeLinks(s: State, k: TaskId)
    requires Inv(s) && Enabled(s, HandshakeDone(k))
    ensures var g, pipe, e := s.tasks[k].phase.room, s.tasks[k].phase.pipe, s.tasks[k].edge;
      var s' := Next(s, HandshakeDone(k));
      && |s'.objects| == |s.objects|
      && e in s'.objects[g].edgeServers && s'.objects[g].pipes == s.objects[g].pipes[e := pipe]
      && (forall f | f != e :: f in s'.objects[g].edgeServers <==> f in s.objects[g].edgeServers)
      && (forall h | 0 <= h < |s.objects| && h != g :: s'.objects[h] == s.objects[h])
      && (forall p | p in s.open :: p in s'.open <==> !(e in s.objects[g].pipes && s.objects[g].pipes[e] == p))
      && s'.tasks == s.tasks[k := s.tasks[k].(phase := Over)] && s'.live == s.live
      && (s.objects[g].routerOpen ==> pipe in s'.open)
  {
    var g, pipe, e := s.tasks[k].phase.room, s.tasks[k].phase.pipe, s.tasks[k].edge;
    assert Held(s.tasks, k, g, pipe);
    if e in s.objects[g].pipes {
      assert Stored(s.objects, g, e, s.objects[g].pipes[e]);
    }
    assert ListsPipes(s.objects[g]);
    WithoutFacts(s.objects[g].edgeServers, e);
  }

  // ----- Linked edges over a run -----

  /** The transports of the edges linked to the live room: a finished handshake of the room
      links its edge, until the edge is cleaned up, the broadcaster reconnects or the room
      ends. */
  function Linked(s: State, links: map<Edge, PipeId>, step: Step): map<Edge, PipeId>
    requires Enabled(s, step)
  {
    match step
    case HandshakeDone(k) =>
      if s.live == Some(s.tasks[k].phase.room) then links[s.tasks[k].edge := s.tasks[k].phase.pipe] else links
    case CleanupEdge(e) => links - {e}
    case Reconnect => map[]
    case RoomCreated => map[]
    case FinishEnd => map[]
    case _ => links
  }

  function LinkedAfter(s: State, links: map<Edge, PipeId>, steps: seq<Step>): map<Edge, PipeId>
    requires Possible(s, steps)
    decreases |steps|
  {
    if steps == [] then links else LinkedAfter(Next(s, steps[0]), Linked(s, links, steps[0]), steps[1..])
  }

  ghost predicate Agrees(s: State, links: map<Edge, PipeId>) {
    match s.live
    case None => links == map[]
    case Some(g) => g < |s.objects| && s.objects[g].pipes == links
  }

  lemma LinkedStep(s: State, links: map<Edge, PipeId>, step: Step)
    requires Inv(s) && Agrees(s, links) && Enabled(s, step)
    ensures Agrees(Next(s, step), Linked(s, links, step))
  {
    hide OwnedOnce, OpenOwned, HoldingsOpen;
  }

  lemma {:induction false} LinkedFrom(s: State, links: map<Edge, PipeId>, steps: seq<Step>)
    requires Inv(s) && Agrees(s, links) && Possible(s, steps)
    ensures Agrees(After(s, steps), LinkedAfter(s, links, steps)) && Inv(After(s, steps))
    decreases |steps|
  {
    hide Inv, Agrees, Linked, Next;
    if steps == [] {
    } else {
      LinkedStep(s, links, steps[0]);
      StepKeeps(s, steps[0]);
      LinkedFrom(Next(s, steps[0]), Linked(s, links, steps[0]), steps[1..]);
    }
  }

  /** Every run: the live room's pipe map holds exactly the linked edges, each with the
      transport of its last finished handshake; its list names them once each; and until the
      room starts to end all those transports are open. */
  lemma ListedIffLinked(steps: seq<Step>)
    requires Possible(Init(), steps) && After(Init(), steps).live.Some?
    ensures var s, links := After(Init(), steps), LinkedAfter(Init(), map[], steps);
      && s.live.value < |s.objects|
      && var b := s.objects[s.live.value];
      && b.pipes == links
      && (forall e :: e in b.edgeServers <==> e in links)
      && (forall i, j | 0 <= i < j < |b.edgeServers| :: b.edgeServers[i] != b.edgeServers[j])
      && (!b.ending ==> forall e | e in links :: links[e] in s.open)
  {
    LinkedFrom(Init(), map[], steps);
    BookkeepingHolds(steps);
  }

  // ----- Attempts -----

  /** How an attempt of task `k` fails: no room, no transport, or no handshake. */
  predicate Fails(s: State, step: Step, k: TaskId) {
    || (step == Retry(k) && s.live == None)
    || (step.TransportCreated? && step.task == k && k < |s.tasks| && s.tasks[k].phase.Creating?
          && s.tasks[k].phase.room < |s.objects| && !(step.ok && s.objects[s.tasks[k].phase.room].routerOpen))
    || step == HandshakeFailed(k)
  }

  /** The attempt number of task `k` during a step. */
  function AttemptIn(s: State, step: Step, k: TaskId): nat
    requires k < |s.tasks|
  {
    s.tasks[k].tries + if step.Retry? then 1 else 0
  }

  /** A task is over after its handshake, or after a failure of its third attempt; any other
      failure leaves it waiting for the next one. */
  lemma GivesUpAfterThree(s: State, step: Step, k: TaskId)
    requires Inv(s) && Enabled(s, step) && k < |s.tasks| && !s.tasks[k].phase.Over?
    ensures k < |Next(s, step).tasks| && Next(s, step).tasks[k].edge == s.tasks[k].edge
    ensures Next(s, step).tasks[k].phase.Over? <==> step == HandshakeDone(k) || (Fails(s, step, k) && AttemptIn(s, step, k) == 3)
    ensures Fails(s, step, k) && AttemptIn(s, step, k) < 3 ==> Next(s, step).tasks[k].phase == Sleeping
    ensures Next(s, step).tasks[k].tries == s.tasks[k].tries + if step == Retry(k) then 1 else 0
  {
    assert TaskOk(s, s.tasks[k]);
  }

  /** A retry in a live room asks its router for a transport; one that is made is new, open,
      and held by the attempt; a failed handshake closes it, and closes nothing else. */
  lemma AttemptProgress(s: State, k: TaskId)
    requires Inv(s) && k < |s.tasks|
    ensures Enabled(s, Retry(k)) && s.live.Some? ==> Next(s, Retry(k)).tasks[k].phase == Creating(s.live.value)
    ensures Enabled(s, TransportCreated(k, true)) && s.objects[s.tasks[k].phase.room].routerOpen ==>
      var s' := Next(s, TransportCreated(k, true));
      s'.tasks[k].phase.Flying? && s'.tasks[k].phase.room == s.tasks[k].phase.room
      && s'.tasks[k].phase.pipe !in s.open && s'.open == s.open + {s'.tasks[k].phase.pipe}
    ensures Enabled(s, HandshakeFailed(k)) ==> Next(s, HandshakeFailed(k)).open == s.open - {s.tasks[k].phase.pipe}
  {
    if |s.home| in s.open {
      var owned := Owned(s, |s.home|);
      assert false;
    }
  }

  /** Spawning starts a first attempt for the edge; auto-piping does so exactly for an edge the
      live room is not linked to. */
  lemma SpawnStarts(s: State, e: Edge)
    requires Inv(s)
    ensures Next(s, Spawn(e)) == s.(tasks := s.tasks + [Task(e, 1, if s.live.Some? then Creating(s.live.value) else Sleeping)])
    ensures s.live.Some? ==> var g := s.live.value;
      Next(s, AutoPipe(e)) == if e in s.objects[g].pipes then s else s.(tasks := s.tasks + [Task(e, 1, Creating(g))])
    ensures s.live.None? ==> Next(s, AutoPipe(e)) == s
  {
    if s.live.Some? {
      assert ListsPipes(s.objects[s.live.value]);
    }
  }

  /** `connectEdgeServers` starts one first attempt per edge, in order. */
  lemma {:induction false} SpawnedAllStarts(s: State, edges: seq<Edge>)
    ensures var s' := SpawnedAll(s, edges);
      && s' == s.(tasks := s'.tasks) && |s'.tasks| == |s.tasks| + |edges| && s'.tasks[..|s.tasks|] == s.tasks
      && forall i | 0 <= i < |edges| ::
           s'.tasks[|s.tasks| + i] == Task(edges[i], 1, if s.live.Some? then Creating(s.live.value) else Sleeping)
    decreases |edges|
  {
    if edges == [] {
    } else {
      var s1 := Next(s, Spawn(edges[0]));
      SpawnedAllStarts(s1, edges[1..]);
      assert s1.tasks == s.tasks + [Task(edges[0], 1, if s.live.Some? then Creating(s.live.value) else Sleeping)];
      assert SpawnedAll(s, edges).tasks[..|s1.tasks|][..|s.tasks|] == s.tasks;
      assert SpawnedAll(s, edges).tasks[|s.tasks|] == SpawnedAll(s, edges).tasks[..|s1.tasks|][|s.tasks|];
      forall i | 0 < i < |edges|
        ensures SpawnedAll(s, edges).tasks[|s.tasks| + i] == Task(edges[i], 1, if s.live.Some? then Creating(s.live.value) else Sleeping)
      {
        assert edges[i] == edges[1..][i - 1];
      }
    }
  }

  /** A new room starts without pipes, with an open router; rooms before it stay as they were. */
  lemma RoomStartsEmpty(s: State)
    requires Inv(s) && s.live == None
    ensures var s' := Next(s, RoomCreated); var g := |s.objects|;
      && s'.live == Some(g) && |s'.objects| == g + 1 && s'.objects[..g] == s.objects
      && s'.objects[g].pipes == map[] && s'.objects[g].edgeServers == [] && !s'.objects[g].ending && s'.objects[g].routerOpen
      && s'.tasks == s.tasks && s'.open == {}
  {
    NothingLeftOpen(s);
  }

  // ----- Teardown -----

  /** A cleanup closes and unlinks the one edge; a reconnect does so for all; the end of a
      room closes what is stored and then, with the router, all that is left. */
  lemma TeardownCloses(s: State, step: Step)
    requires Inv(s) && Enabled(s, step) && (step.CleanupEdge? || step.Reconnect? || step.BeginEnd? || step.FinishEnd?)
    ensures var s', g := Next(s, step), s.live.value; var b := s.objects[g];
      && s'.tasks == s.tasks
      && (step.CleanupEdge? ==>
            && s'.open == s.open - (if step.edge in b.pipes then {b.pipes[step.edge]} else {})
            && step.edge !in s'.objects[g].pipes && step.edge !in s'.objects[g].edgeServers && s'.live == s.live)
      && (step.Reconnect? ==>
            && s'.objects[g].pipes == map[] && s'.objects[g].edgeServers == []
            && s'.open == s.open - b.pipes.Values && s'.live == s.live)
      && (step.BeginEnd? ==> s'.objects[g].ending && s'.open == s.open - b.pipes.Values && s'.live == s.live)
      && (step.FinishEnd? ==> s'.live == None && s'.open == {} && !s'.objects[g].routerOpen)
  {
    StepKeeps(s, step);
    if step.FinishEnd? {
      NothingLeftOpen(Next(s, step));
    } else if step.CleanupEdge? {
      assert ListsPipes(s.objects[s.live.value]);
      WithoutFacts(s.objects[s.live.value].edgeServers, step.edge);
    }
  }
}
