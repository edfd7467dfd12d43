/** The set indexes in Redis (backend/src/services/redisClient.js): `edges:active` and
    `broadcasts:active` against the keys they index. Reads, deletions and the reaping of
    stale members are separate commands of concurrent calls. */
module RedisIndex {
  import opened Common

  type Id = string

  /** One call of a method that reads or deletes keys and reaps members later. */
  type CallId = nat

  /** Seconds in the source; here milliseconds. */
  const TTL: nat := 30_000

  /** An `edge:<id>` key with its expiry time. */
  datatype Edge = Edge(serverId: Id, userCount: int, maxCapacity: int, expiresAt: int)

  datatype Status = Active | Ended

  /** Where a call stands: it has read the set's members, or it is about to remove `ids`. */
  datatype Pending = Members(ids: set<Id>) | Stale(ids: set<Id>)

  datatype State = State(
    edges: map<Id, Edge>,
    activeEdges: set<Id>,
    edgeCalls: map<CallId, Pending>,
    broadcasts: map<Id, Status>,
    activeBroadcasts: set<Id>,
    roomCalls: map<CallId, Pending>,
    clock: int)

  /** `ok`: the best-effort SREM at the end of a call went through. */
  datatype Step =
    | RegisterEdge(id: Id, maxCapacity: int, now: int)
    | Heartbeat(id: Id, userCount: int, now: int)
    | EdgeMembers(call: CallId, now: int)
    | EdgeKeys(call: CallId, now: int)
    | DeleteEdge(call: CallId, id: Id, now: int)
    | ReapEdges(call: CallId, ok: bool, now: int)
    | RegisterBroadcast(id: Id, now: int)
    | RoomMembers(call: CallId, now: int)
    | RoomKeys(call: CallId, now: int)
    | EndRoom(call: CallId, id: Id, now: int)
    | ReapRooms(call: CallId, ok: bool, now: int)

  function Init(now: int): State {
    State(map[], {}, map[], map[], {}, map[], now)
  }

  /** The key exists: it was set and has not expired. */
  predicate Live(s: State, id: Id, now: int) {
    id in s.edges && now < s.edges[id].expiresAt
  }

  predicate Running(s: State, id: Id) {
    id in s.broadcasts && s.broadcasts[id] == Active
  }

  /** The clock does not run backwards, and a call's commands come in order. */
  predicate Enabled(s: State, step: Step) {
    && s.clock <= step.now
    && match step
       case EdgeMembers(c, _) => c !in s.edgeCalls
       case EdgeKeys(c, _) => c in s.edgeCalls && s.edgeCalls[c].Members?
       case DeleteEdge(c, _, _) => c !in s.edgeCalls
       case ReapEdges(c, _, _) => c in s.edgeCalls && s.edgeCalls[c].Stale?
       case RoomMembers(c, _) => c !in s.roomCalls
       case RoomKeys(c, _) => c in s.roomCalls && s.roomCalls[c].Members?
       case EndRoom(c, _, _) => c !in s.roomCalls
       case ReapRooms(c, _, _) => c in s.roomCalls && s.roomCalls[c].Stale?
       case _ => true
  }

  function Next(s: State, step: Step): State
    requires Enabled(s, step)
  {
    var t := s.(clock := step.now);
    match step
    case RegisterEdge(id, maxCapacity, now) =>
      t.(edges := s.edges[id := Edge(id, 0, maxCapacity, now + TTL)], activeEdges := s.activeEdges + {id})
    case Heartbeat(id, userCount, now) =>
      if Live(s, id, now) then t.(edges := s.edges[id := s.edges[id].(userCount := userCount, expiresAt := now + TTL)]) else t
    case EdgeMembers(c, _) => t.(edgeCalls := s.edgeCalls[c := Members(s.activeEdges)])
    case EdgeKeys(c, now) =>
      t.(edgeCalls := s.edgeCalls[c := Stale(set id | id in s.edgeCalls[c].ids && !Live(s, id, now))])
    case DeleteEdge(c, id, _) => t.(edges := s.edges - {id}, edgeCalls := s.edgeCalls[c := Stale({id})])
    case ReapEdges(c, ok, _) =>
      t.(activeEdges := if ok then s.activeEdges - s.edgeCalls[c].ids else s.activeEdges, edgeCalls := s.edgeCalls - {c})
    case RegisterBroadcast(id, _) =>
      t.(broadcasts := s.broadcasts[id := Active], activeBroadcasts := s.activeBroadcasts + {id})
    case RoomMembers(c, _) => t.(roomCalls := s.roomCalls[c := Members(s.activeBroadcasts)])
    case RoomKeys(c, _) =>
      t.(roomCalls := s.roomCalls[c := Stale(set id | id in s.roomCalls[c].ids && !Running(s, id))])
    case EndRoom(c, id, _) =>
      if id !in s.broadcasts then t
      else t.(broadcasts := s.broadcasts[id := Ended], roomCalls := s.roomCalls[c := Stale({id})])
    case ReapRooms(c, ok, _) =>
      t.(activeBroadcasts := if ok then s.activeBroadcasts - s.roomCalls[c].ids else s.activeBroadcasts,
         roomCalls := s.roomCalls - {c})
  }

  predicate Possible(s: State, steps: seq<Step>)
    decreases |steps|
  {
    steps == [] || (Enabled(s, steps[0]) && Possible(Next(s, steps[0]), steps[1..]))
  }

  function After(s: State, steps: seq<Step>): State
    requires Possible(s, steps)
    decreases |steps|
  {
    if steps == [] then s else After(Next(s, steps[0]), steps[1..])
  }

  // ----- What the indexes promise -----

  /** Every key that matters is in its set; keys are stored under their own id. */
  ghost predicate Indexed(s: State) {
    && (forall id | id in s.edges :: s.edges[id].serverId == id)
    && (forall id | Live(s, id, s.clock) :: id in s.activeEdges)
    && (forall id | Running(s, id) :: id in s.activeBroadcasts)
  }

  /** A call is about to remove `id` from the set. */
  predicate Reaping(calls: map<CallId, Pending>, c: CallId, id: Id) {
    c in calls && calls[c].Stale? && id in calls[c].ids
  }

  /** What calls are about to remove is stale indeed. */
  ghost predicate ReapsStale(s: State) {
    && (forall c, id | Reaping(s.edgeCalls, c, id) :: !Live(s, id, s.clock))
    && (forall c, id | Reaping(s.roomCalls, c, id) :: !Running(s, id))
  }

  /** A registration comes between the read that found the id stale, or its deletion, and
      that call's reap. */
  ghost predicate Disturbs(s: State, step: Step) {
    || (step.RegisterEdge? && exists c :: Reaping(s.edgeCalls, c, step.id))
    || (step.RegisterBroadcast? && exists c :: Reaping(s.roomCalls, c, step.id))
  }

  ghost predicate Calm(s: State, steps: seq<Step>)
    requires Possible(s, steps)
    decreases |steps|
  {
    steps == [] || (!Disturbs(s, steps[0]) && Calm(Next(s, steps[0]), steps[1..]))
  }

  lemma EdgesStayIndexed(s: State, step: Step)
    requires Indexed(s) && ReapsStale(s) && Enabled(s, step)
    ensures forall id | Live(Next(s, step), id, step.now) :: id in Next(s, step).activeEdges
    ensures forall id | id in Next(s, step).edges :: Next(s, step).edges[id].serverId == id
  {
    var s' := Next(s, step);
    forall id | Live(s', id, step.now) ensures id in s'.activeEdges {
      assert Live(s, id, s.clock) || (step.RegisterEdge? && step.id == id);
      if step.ReapEdges? {
        assert !Reaping(s.edgeCalls, step.call, id);
      }
    }
  }

  lemma RoomsStayIndexed(s: State, step: Step)
    requires Indexed(s) && ReapsStale(s) && Enabled(s, step)
    ensures forall id | Running(Next(s, step), id) :: id in Next(s, step).activeBroadcasts
  {
    var s' := Next(s, step);
    forall id | Running(s', id) ensures id in s'.activeBroadcasts {
      assert Running(s, id) || (step.RegisterBroadcast? && step.id == id);
      if step.ReapRooms? {
        assert !Reaping(s.roomCalls, step.call, id);
      }
    }
  }

  lemma EdgeReapsStale(s: State, step: Step)
    requires ReapsStale(s) && Enabled(s, step) && !Disturbs(s, step)
    ensures forall c, id | Reaping(Next(s, step).edgeCalls, c, id) :: !Live(Next(s, step), id, step.now)
  {
    var s' := Next(s, step);
    forall c, id | Reaping(s'.edgeCalls, c, id) ensures !Live(s', id, step.now) {
      if Reaping(s.edgeCalls, c, id) {
        assert !Live(s, id, s.clock);
      }
    }
  }

  lemma RoomReapsStale(s: State, step: Step)
    requires ReapsStale(s) && Enabled(s, step) && !Disturbs(s, step)
    ensures forall c, id | Reaping(Next(s, step).roomCalls, c, id) :: !Running(Next(s, step), id)
  {
    var s' := Next(s, step);
    forall c, id | Reaping(s'.roomCalls, c, id) ensures !Running(s', id) {
      if Reaping(s.roomCalls, c, id) {
        assert !Running(s, id);
      }
    }
  }

  lemma StepKeeps(s: State, step: Step)
    requires Indexed(s) && ReapsStale(s) && Enabled(s, step) && !Disturbs(s, step)
    ensures Indexed(Next(s, step)) && ReapsStale(Next(s, step))
  {
    hide Disturbs;
    EdgesStayIndexed(s, step);
    RoomsStayIndexed(s, step);
    EdgeReapsStale(s, step);
    RoomReapsStale(s, step);
  }

  lemma {:induction false} RunKeeps(s: State, steps: seq<Step>)
    requires Indexed(s) && ReapsStale(s) && Possible(s, steps) && Calm(s, steps)
    ensures Indexed(After(s, steps)) && ReapsStale(After(s, steps))
    decreases |steps|
  {
    if steps == [] {
    } else {
      StepKeeps(s, steps[0]);
      RunKeeps(Next(s, steps[0]), steps[1..]);
    }
  }

  /** Over any run in which no id registers between the command that found it stale and
      that call's reap, every unexpired edge and every active room is in its set. */
  lemma CalmRunsIndexed(now: int, steps: seq<Step>)
    requires Possible(Init(now), steps) && Calm(Init(now), steps)
    ensures Indexed(After(Init(now), steps))
  {
    RunKeeps(Init(now), steps);
  }

  // ----- The client, in place -----

  /** `list` is exactly the unexpired edges among `ids`, each once. */
  ghost predicate ListsEdges(s: State, list: seq<Edge>, ids: set<Id>, now: int) {
    && (forall i, j | 0 <= i < j < |list| :: list[i].serverId != list[j].serverId)
    && (forall i | 0 <= i < |list| ::
          list[i].serverId in ids && Live(s, list[i].serverId, now) && s.edges[list[i].serverId] == list[i])
    && (forall id | id in ids && Live(s, id, now) :: s.edges[id] in list)
  }

  /** `list` is exactly the active rooms among `ids`, each once. */
  ghost predicate ListsRooms(s: State, list: seq<Id>, ids: set<Id>) {
    && (forall i, j | 0 <= i < j < |list| :: list[i] != list[j])
    && (forall id :: id in list <==> id in ids && Running(s, id))
  }

  /** Every unexpired edge, each once. */
  ghost predicate ListsAllEdges(s: State, list: seq<Edge>, now: int) {
    && (forall i, j | 0 <= i < j < |list| :: list[i].serverId != list[j].serverId)
    && (forall i | 0 <= i < |list| :: Live(s, list[i].serverId, now) && s.edges[list[i].serverId] == list[i])
    && (forall id | Live(s, id, now) :: s.edges[id] in list)
  }

  class RedisClient {
    var edges: map<Id, Edge>
    var activeEdges: set<Id>
    var edgeCalls: map<CallId, Pending>
    var broadcasts: map<Id, Status>
    var activeBroadcasts: set<Id>
    var roomCalls: map<CallId, Pending>
    var clock: int

    function Value(): State
      reads this
    {
      State(edges, activeEdges, edgeCalls, broadcasts, activeBroadcasts, roomCalls, clock)
    }

    constructor (now: int)
      ensures Value() == Init(now)
    {
      edges, activeEdges, edgeCalls := map[], {}, map[];
      broadcasts, activeBroadcasts, roomCalls, clock := map[], {}, map[], now;
    }

    method OnRegisterEdge(id: Id, maxCapacity: int, now: int)
      requires clock <= now
      modifies this
      ensures Value() == Next(old(Value()), RegisterEdge(id, maxCapacity, now))
    {
      edges := edges[id := Edge(id, 0, maxCapacity, now + TTL)];
      activeEdges := activeEdges + {id};
      clock := now;
    }

    method UpdateEdgeHeartbeat(id: Id, userCount: int, now: int) returns (edge: Option<Edge>)
      requires clock <= now
      modifies this
      ensures Value() == Next(old(Value()), Heartbeat(id, userCount, now))
      ensures edge == if Live(old(Value()), id, now) then Some(edges[id]) else None
    {
      clock := now;
      if id !in edges || now >= edges[id].expiresAt {
        return None;
      }
      edges := edges[id := edges[id].(userCount := userCount, expiresAt := now + TTL)];
      return Some(edges[id]);
    }

    /** SMEMBERS of `getAllEdges`. */
    method ReadEdgeMembers(c: CallId, now: int)
      requires Enabled(Value(), EdgeMembers(c, now))
      modifies this
      ensures Value() == Next(old(Value()), EdgeMembers(c, now))
    {
      edgeCalls := edgeCalls[c := Members(activeEdges)];
      clock := now;
    }

    /** MGET of `getAllEdges` and the loop after it. */
    method ReadEdgeKeys(c: CallId, now: int) returns (list: seq<Edge>)
      requires Enabled(Value(), EdgeKeys(c, now))
      requires forall id | id in edges :: edges[id].serverId == id
      modifies this
      ensures Value() == Next(old(Value()), EdgeKeys(c, now))
      ensures ListsEdges(Value(), list, old(edgeCalls)[c].ids, now)
    {
      list := [];
      var ids := edgeCalls[c].ids;
      var todo, stale := ids, {};
      while todo != {}
        invariant todo <= ids && stale <= ids
        invariant forall id | id in ids && id !in todo :: id in stale <==> !Live(Value(), id, now)
        invariant forall id | id in todo :: id !in stale
        invariant forall i | 0 <= i < |list| :: list[i].serverId in ids - todo && Live(Value(), list[i].serverId, now) && edges[list[i].serverId] == list[i]
        invariant forall i, j | 0 <= i < j < |list| :: list[i].serverId != list[j].serverId
        invariant forall id | id in ids && id !in todo && Live(Value(), id, now) :: edges[id] in list
        decreases todo
      {
        var id :| id in todo;
        todo := todo - {id};
        if id !in edges || now >= edges[id].expiresAt {
          stale := stale + {id};
        } else {
          list := list + [edges[id]];
        }
      }
      assert stale == set id | id in ids && !Live(Value(), id, now);
      edgeCalls := edgeCalls[c := Stale(stale)];
      clock := now;
    }

    /** The SREM at the end of `getAllEdges` and of `removeEdge`. */
    method ReapStaleEdges(c: CallId, ok: bool, now: int)
      requires Enabled(Value(), ReapEdges(c, ok, now))
      modifies this
      ensures Value() == Next(old(Value()), ReapEdges(c, ok, now))
    {
      if ok {
        activeEdges := activeEdges - edgeCalls[c].ids;
      }
      edgeCalls := edgeCalls - {c};
      clock := now;
    }

    /** `getAllEdges` undisturbed: from an exact index, exactly the unexpired edges, whatever
        stale members the set holds, and the index is exact again. */
    method AllEdges(c: CallId, ok: bool, now: int) returns (list: seq<Edge>)
      requires Indexed(Value()) && ReapsStale(Value()) && Enabled(Value(), EdgeMembers(c, now))
      modifies this
      ensures Indexed(Value()) && ReapsStale(Value())
      ensures Value() == Next(Next(Next(old(Value()), EdgeMembers(c, now)), EdgeKeys(c, now)), ReapEdges(c, ok, now))
      ensures ListsAllEdges(Value(), list, now)
    {
      StepKeeps(Value(), EdgeMembers(c, now));
      ReadEdgeMembers(c, now);
      StepKeeps(Value(), EdgeKeys(c, now));
      list := ReadEdgeKeys(c, now);
      assert forall id | Live(Value(), id, now) :: id in activeEdges;
      StepKeeps(Value(), ReapEdges(c, ok, now));
      ReapStaleEdges(c, ok, now);
    }

    /** DEL of `removeEdge`. */
    method DeleteEdgeKey(c: CallId, id: Id, now: int)
      requires Enabled(Value(), DeleteEdge(c, id, now))
      modifies this
      ensures Value() == Next(old(Value()), DeleteEdge(c, id, now))
    {
      edges := edges - {id};
      edgeCalls := edgeCalls[c := Stale({id})];
      clock := now;
    }

    method OnRegisterBroadcast(id: Id, now: int)
      requires clock <= now
      modifies this
      ensures Value() == Next(old(Value()), RegisterBroadcast(id, now))
    {
      broadcasts := broadcasts[id := Active];
      activeBroadcasts := activeBroadcasts + {id};
      clock := now;
    }

    /** GET and SET of `endBroadcast`. */
    method EndBroadcastKey(c: CallId, id: Id, now: int) returns (found: bool)
      requires Enabled(Value(), EndRoom(c, id, now))
      modifies this
      ensures Value() == Next(old(Value()), EndRoom(c, id, now))
      ensures found <==> id in old(broadcasts)
    {
      clock := now;
      if id !in broadcasts {
        return false;
      }
      broadcasts := broadcasts[id := Ended];
      roomCalls := roomCalls[c := Stale({id})];
      return true;
    }

    method ReadRoomMembers(c: CallId, now: int)
      requires Enabled(Value(), RoomMembers(c, now))
      modifies this
      ensures Value() == Next(old(Value()), RoomMembers(c, now))
    {
      roomCalls := roomCalls[c := Members(activeBroadcasts)];
      clock := now;
    }

    /** MGET of `getAllBroadcasts` and the loop after it. */
    method ReadRoomKeys(c: CallId, now: int) returns (list: seq<Id>)
      requires Enabled(Value(), RoomKeys(c, now))
      modifies this
      ensures Value() == Next(old(Value()), RoomKeys(c, now))
      ensures ListsRooms(Value(), list, old(roomCalls)[c].ids)
    {
      list := [];
      var ids := roomCalls[c].ids;
      var todo, stale := ids, {};
      while todo != {}
        invariant todo <= ids && stale <= ids
        invariant forall id | id in ids && id !in todo :: id in stale <==> !Running(Value(), id)
        invariant forall id | id in todo :: id !in stale
        invariant forall id :: id in list <==> id in ids && id !in todo && Running(Value(), id)
        invariant forall i, j | 0 <= i < j < |list| :: list[i] != list[j]
        decreases todo
      {
        var id :| id in todo;
        todo := todo - {id};
        if id in broadcasts && broadcasts[id] == Active {
          list := list + [id];
        } else {
          stale := stale + {id};
        }
      }
      assert stale == set id | id in ids && !Running(Value(), id);
      roomCalls := roomCalls[c := Stale(stale)];
      clock := now;
    }

    /** The SREM at the end of `getAllBroadcasts` and of `endBroadcast`. */
    method ReapStaleRooms(c: CallId, ok: bool, now: int)
      requires Enabled(Value(), ReapRooms(c, ok, now))
      modifies this
      ensures Value() == Next(old(Value()), ReapRooms(c, ok, now))
    {
      if ok {
        activeBroadcasts := activeBroadcasts - roomCalls[c].ids;
      }
      roomCalls := roomCalls - {c};
      clock := now;
    }

    /** `getAllBroadcasts` undisturbed: exactly the rooms with status active. */
    method AllBroadcasts(c: CallId, ok: bool, now: int) returns (list: seq<Id>)
      requires Indexed(Value()) && ReapsStale(Value()) && Enabled(Value(), RoomMembers(c, now))
      modifies this
      ensures Indexed(Value()) && ReapsStale(Value())
      ensures Value() == Next(Next(Next(old(Value()), RoomMembers(c, now)), RoomKeys(c, now)), ReapRooms(c, ok, now))
      ensures (forall i, j | 0 <= i < j < |list| :: list[i] != list[j]) && forall id :: id in list <==> Running(Value(), id)
    {
      StepKeeps(Value(), RoomMembers(c, now));
      ReadRoomMembers(c, now);
      StepKeeps(Value(), RoomKeys(c, now));
      list := ReadRoomKeys(c, now);
      StepKeeps(Value(), ReapRooms(c, ok, now));
      ReapStaleRooms(c, ok, now);
    }
  }
}
