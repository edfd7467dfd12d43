/** The viewer counter of one room: Redis commands of concurrent calls from the origin
    (backend/src/origin/socketHandlers.js) and the edges (backend/src/edge/socketHandlers.js),
    each command and each await-free segment a step of its own. */
module Viewers {
  import opened Common

  type Socket = string

  /** A call's position in the sequence of calls. */
  type CallId = nat

  /** Where an `updateBroadcastViewerCount` call stands: the command it issues next, or its
      return. `bound` is increments minus decrements applied when its INCRBY ran. */
  datatype Phase =
    | AtExists
    | AtIncr
    | AtClamp(bound: int)
    | AtPublish(value: int, bound: int)
    | Returned(ok: bool)
    | Finished

  /** `token` is the increment a call makes or takes back. */
  datatype Call = Call(delta: int, socket: Socket, token: CallId, phase: Phase)

  /** A socket's `socketResources` record. `counted` is the flag `viewerCounted`, with the
      increment that set it. The record outlives the socket when a join is still pending. */
  datatype Record = Record(edge: bool, connected: bool, counted: Option<CallId>)

  datatype Notice = Notice(value: int, bound: int)

  datatype State = State(
    keyExists: bool,
    counter: int,
    live: bool,
    viewers: set<Socket>,
    records: map<Socket, Record>,
    calls: seq<Call>,
    applied: set<CallId>,
    spent: set<CallId>,
    published: seq<Notice>)

  /** `Lost`: the server applied the command but the reply never arrived. */
  datatype Reply = Done | Lost | Refused

  datatype Step =
    | Connect(socket: Socket, edge: bool)
    | Join(socket: Socket)
    | Leave(socket: Socket)
    | Disconnect(socket: Socket, broadcaster: bool)
    | Exec(call: CallId, reply: Reply)
    | Resume(call: CallId)
    | RoomOpens
    | RoomCloses
    | SetKey
    | ResetCounter

  /** Before the room is registered: no key, no counter. */
  function Init(): State {
    State(false, 0, false, {}, map[], [], {}, {}, [])
  }

  function Difference(s: State): int { |s.applied| - |s.spent| }

  // ----- The steps -----

  predicate Enabled(s: State, step: Step) {
    match step
    case Connect(x, _) => x !in s.records
    case Join(x) => x in s.records && s.records[x].connected && (s.records[x].edge || s.live)
    case Leave(x) => x in s.records && s.records[x].connected && !s.records[x].edge
    case Disconnect(x, _) => x in s.records && s.records[x].connected
    case Exec(c, _) => c < |s.calls| && !s.calls[c].phase.Returned? && !s.calls[c].phase.Finished?
    case Resume(c) => c < |s.calls| && s.calls[c].phase.Returned?
    case _ => true
  }

  function SetPhase(s: State, c: CallId, phase: Phase): State
    requires c < |s.calls|
  {
    s.(calls := s.calls[c := s.calls[c].(phase := phase)])
  }

  /** `if (res.viewerCounted) { res.viewerCounted = false; update(-1) }` */
  function DropFlag(s: State, x: Socket): State
    requires x in s.records
  {
    match s.records[x].counted
    case None => s
    case Some(c) => s.(
      records := s.records[x := s.records[x].(counted := None)],
      calls := s.calls + [Call(-1, x, c, AtExists)])
  }

  function HangUp(s: State, x: Socket): State
    requires x in s.records
  {
    s.(records := s.records[x := s.records[x].(connected := false)])
  }

  /** INCRBY reaches the server. */
  function Incremented(s: State, c: CallId): State
    requires c < |s.calls|
  {
    var k := s.calls[c];
    if k.delta == 1 then s.(counter := s.counter + 1, applied := s.applied + {k.token})
    else s.(counter := s.counter - 1, spent := s.spent + {k.token})
  }

  function Executed(s: State, c: CallId, reply: Reply): State
    requires c < |s.calls|
  {
    match s.calls[c].phase
    case AtExists =>
      SetPhase(s, c, if reply != Done then Returned(false) else if s.keyExists then AtIncr else Returned(true))
    case AtIncr =>
      if reply == Refused then SetPhase(s, c, Returned(false))
      else
        var s' := Incremented(s, c);
        SetPhase(s', c,
          if reply == Lost then Returned(false)
          else if s'.counter < 0 then AtClamp(Difference(s'))
          else AtPublish(s'.counter, Difference(s')))
    case AtClamp(b) =>
      SetPhase(if reply == Refused then s else s.(counter := 0), c, if reply == Done then AtPublish(0, b) else Returned(false))
    case AtPublish(v, b) =>
      SetPhase(if reply == Refused then s else s.(published := s.published + [Notice(v, b)]), c, Returned(reply == Done))
    case _ => s
  }

  /** The code after the await: a join that did not throw sets the flag. */
  function Resumed(s: State, c: CallId): State
    requires c < |s.calls|
  {
    var k := s.calls[c];
    var s' := SetPhase(s, c, Finished);
    if k.delta == 1 && k.phase == Returned(true) && k.socket in s.records
    then s'.(records := s.records[k.socket := s.records[k.socket].(counted := Some(k.token))])
    else s'
  }

  function Next(s: State, step: Step): State
    requires Enabled(s, step)
  {
    match step
    case Connect(x, edge) => s.(records := s.records[x := Record(edge, true, None)])
    case Join(x) => s.(
      viewers := if s.records[x].edge then s.viewers else s.viewers + {x},
      calls := s.calls + [Call(1, x, |s.calls|, AtExists)])
    case Leave(x) => DropFlag(s.(viewers := s.viewers - {x}), x)
    case Disconnect(x, broadcaster) =>
      if s.records[x].edge then HangUp(DropFlag(s, x), x)
      else if s.live && !broadcaster && x in s.viewers then HangUp(DropFlag(s.(viewers := s.viewers - {x}), x), x)
      else HangUp(s, x)
    case Exec(c, reply) => Executed(s, c, reply)
    case Resume(c) => Resumed(s, c)
    case RoomOpens => s.(live := true, viewers := {})
    case RoomCloses => s.(live := false, viewers := {})
    case SetKey => s.(keyExists := true)
    case ResetCounter => s.(counter := 0)
  }

  /** Every step of a run is enabled when its turn comes. */
  predicate Possible(s: State, steps: seq<Step>)
    decreases |steps|
  {
    steps == [] || (Enabled(s, steps[0]) && Possible(Next(s, steps[0]), steps[1..]))
  }

  function After(s: State, steps: seq<Step>): State
    requires Possible(s, steps)
    decreases |steps|
  {
    if steps == [] then s else After(Next(s, steps[0]), steps[1..])
  }

  predicate Connected(records: map<Socket, Record>, x: Socket) {
    x in records && records[x].connected
  }

  /** The EXISTS of a connected socket's join is answered while the room's key is missing:
      the call returns null without incrementing, and the join will set its flag all the same. */
  predicate Hollow(s: State, step: Step) {
    && step.Exec? && step.reply == Done && step.call < |s.calls|
    && s.calls[step.call].delta == 1 && s.calls[step.call].phase.AtExists?
    && !s.keyExists && Connected(s.records, s.calls[step.call].socket)
  }

  /** No step of a run is hollow. */
  predicate Grounded(s: State, steps: seq<Step>)
    requires Possible(s, steps)
    decreases |steps|
  {
    steps == [] || (!Hollow(s, steps[0]) && Grounded(Next(s, steps[0]), steps[1..]))
  }

  // ----- The handlers and the Redis client, in place -----

  class Room {
    var keyExists: bool
    var counter: int
    var live: bool
    var viewers: set<Socket>
    var records: map<Socket, Record>
    var calls: seq<Call>
    // What has happened so far, which the code does not store.
    var applied: set<CallId>
    var spent: set<CallId>
    var published: seq<Notice>

    function Value(): State
      reads this
    {
      State(keyExists, counter, live, viewers, records, calls, applied, spent, published)
    }

    constructor ()
      ensures Value() == Init()
    {
      keyExists, counter, live, viewers, records, calls := false, 0, false, {}, map[], [];
      applied, spent, published := {}, {}, [];
    }

    method OnConnection(x: Socket, edge: bool)
      requires Enabled(Value(), Connect(x, edge))
      modifies this
      ensures Value() == Next(old(Value()), Connect(x, edge))
    {
      records := records[x := Record(edge, true, None)];
    }

    method JoinBroadcast(x: Socket)
      requires Enabled(Value(), Join(x))
      modifies this
      ensures Value() == Next(old(Value()), Join(x))
    {
      if !records[x].edge {
        viewers := viewers + {x};
      }
      calls := calls + [Call(1, x, |calls|, AtExists)];
    }

    method LeaveBroadcast(x: Socket)
      requires Enabled(Value(), Leave(x))
      modifies this
      ensures Value() == Next(old(Value()), Leave(x))
    {
      viewers := viewers - {x};
      TakeFlag(x);
    }

    method TakeFlag(x: Socket)
      requires x in records
      modifies this
      ensures Value() == DropFlag(old(Value()), x)
    {
      if records[x].counted.Some? {
        var token := records[x].counted.value;
        records := records[x := records[x].(counted := None)];
        calls := calls + [Call(-1, x, token, AtExists)];
      }
    }

    method OnDisconnect(x: Socket, broadcaster: bool)
      requires Enabled(Value(), Disconnect(x, broadcaster))
      modifies this
      ensures Value() == Next(old(Value()), Disconnect(x, broadcaster))
    {
      if records[x].edge {
        TakeFlag(x);
      } else if live && !broadcaster && x in viewers {
        viewers := viewers - {x};
        TakeFlag(x);
      }
      records := records[x := records[x].(connected := false)];
    }

    /** INCRBY reaches the server. */
    method IncrBy(c: CallId)
      requires c < |calls|
      modifies `counter, `applied, `spent
      ensures Value() == Incremented(old(Value()), c)
    {
      if calls[c].delta == 1 {
        counter := counter + 1;
        applied := applied + {calls[c].token};
      } else {
        counter := counter - 1;
        spent := spent + {calls[c].token};
      }
    }

    /** One Redis command of a pending `updateBroadcastViewerCount`. */
    method Command(c: CallId, reply: Reply)
      requires Enabled(Value(), Exec(c, reply))
      modifies this
      ensures Value() == Next(old(Value()), Exec(c, reply))
    {
      hide Incremented;
      var k := calls[c];
      var phase := Returned(reply == Done);
      match k.phase {
        case AtExists =>
          if reply == Done && keyExists {
            phase := AtIncr;
          }
        case AtIncr =>
          if reply == Refused {
          } else {
            IncrBy(c);
            if reply == Done {
              phase := if counter < 0 then AtClamp(|applied| - |spent|) else AtPublish(counter, |applied| - |spent|);
            }
          }
        case AtClamp(b) =>
          if reply != Refused {
            counter := 0;
          }
          if reply == Done {
            phase := AtPublish(0, b);
          }
        case AtPublish(v, b) =>
          if reply != Refused {
            published := published + [Notice(v, b)];
          }
        case _ =>
      }
      calls := calls[c := k.(phase := phase)];
    }

    /** What follows the await in a join. */
    method AfterUpdate(c: CallId)
      requires Enabled(Value(), Resume(c))
      modifies this
      ensures Value() == Next(old(Value()), Resume(c))
    {
      var k := calls[c];
      if k.delta == 1 && k.phase == Returned(true) && k.socket in records {
        records := records[k.socket := records[k.socket].(counted := Some(k.token))];
      }
      calls := calls[c := k.(phase := Finished)];
    }
  }
}
