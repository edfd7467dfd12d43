/** The origin's broadcast lifecycle (backend/src/origin/socketHandlers.js): who broadcasts
    in a room, the grace window after a lost broadcaster, and the lecture session rows.
    Each handler is one step. */
module Lifecycle {
  import opened Common

  type RoomId = string
  type Socket = string
  type Kind = string
  type ProducerId = nat
  type SessionId = nat
  type TimerId = nat

  datatype Broadcast = Broadcast(broadcaster: Option<Socket>, producers: map<Kind, ProducerId>, session: Option<SessionId>)

  /** A socket's `socketResources` entry. */
  datatype Resources = Resources(transport: bool, producers: seq<ProducerId>)

  /** A pending grace timer with what its callback captured. */
  datatype Timer = Timer(room: RoomId, lost: Socket, saved: seq<ProducerId>)

  /** The database rows: sessions are numbered in order of creation. `ended` have an
      endedAt; `unended` lost it to a failed write; `superseded` were dropped on reconnect. */
  datatype Sessions = Sessions(created: nat, ended: set<SessionId>, unended: set<SessionId>, superseded: set<SessionId>)

  /** `order` is the insertion order of the `broadcasts` map. */
  datatype State = State(
    order: seq<RoomId>,
    rooms: map<RoomId, Broadcast>,
    grace: map<RoomId, TimerId>,
    timers: map<TimerId, Timer>,
    timerCount: nat,
    sockets: map<Socket, Resources>,
    seen: set<Socket>,
    producerCount: nat,
    sessions: Sessions)

  /** The handlers, with the outcomes of the database writes and of the media calls. */
  datatype Event =
    | Connect(socket: Socket)
    | CreateSender(socket: Socket, room: RoomId, rowOk: bool, transportOk: bool)
    | StartBroadcast(socket: Socket, room: RoomId, kind: Kind, produceOk: bool)
    | StopBroadcast(socket: Socket, room: RoomId, rowOk: bool)
    | Disconnect(socket: Socket)
    | GraceExpires(timer: TimerId, rowOk: bool)

  function Init(): State {
    State([], map[], map[], map[], 0, map[], {}, 0, Sessions(0, {}, {}, {}))
  }

  // ----- The handlers -----

  predicate Enabled(s: State, e: Event) {
    match e
    case Connect(x) => x !in s.seen
    case GraceExpires(t, _) => t in s.timers
    case _ => e.socket in s.sockets
  }

  function Remove(order: seq<RoomId>, r: RoomId): seq<RoomId> {
    if order == [] then []
    else if order[0] == r then Remove(order[1..], r)
    else [order[0]] + Remove(order[1..], r)
  }

  /** `clearTimeout(grace.timer); broadcasterGraceTimers.delete(roomId)` */
  function CancelGrace(s: State, r: RoomId): State {
    if r in s.grace then s.(grace := s.grace - {r}, timers := s.timers - {s.grace[r]}) else s
  }

  function EndSession(rows: Sessions, session: Option<SessionId>, rowOk: bool): Sessions {
    match session
    case None => rows
    case Some(i) => if rowOk then rows.(ended := rows.ended + {i}) else rows.(unended := rows.unended + {i})
  }

  /** `cleanupBroadcast` */
  function Cleanup(s: State, r: RoomId, x: Socket, rowOk: bool): State {
    if r !in s.rooms || s.rooms[r].broadcaster != Some(x) then s
    else CancelGrace(s, r).(
      order := Remove(s.order, r),
      rooms := s.rooms - {r},
      sessions := EndSession(s.sessions, s.rooms[r].session, rowOk))
  }

  /** A reconnect during the grace window: the same session when the lost socket had
      producers, otherwise a new row if it can be written. */
  function Takeover(s: State, x: Socket, r: RoomId, rowOk: bool): State
    requires r in s.rooms && r in s.grace && s.grace[r] in s.timers
  {
    var b := s.rooms[r].(broadcaster := Some(x), producers := map[]);
    var s' := CancelGrace(s, r);
    if s.timers[s.grace[r]].saved != [] || !rowOk then s'.(rooms := s.rooms[r := b])
    else s'.(
      rooms := s.rooms[r := b.(session := Some(s.sessions.created))],
      sessions := s.sessions.(
        created := s.sessions.created + 1,
        superseded := s.sessions.superseded + if b.session.Some? then {b.session.value} else {}))
  }

  function GiveTransport(s: State, x: Socket, transportOk: bool): State
    requires x in s.sockets
  {
    if transportOk then s.(sockets := s.sockets[x := s.sockets[x].(transport := true)]) else s
  }

  /** The sender path of `createWebRtcTransport`, past the ownership check. */
  function SenderCreated(s: State, x: Socket, r: RoomId, rowOk: bool, transportOk: bool): State
    requires x in s.sockets
  {
    if r !in s.rooms then
      if rowOk then GiveTransport(s.(
        order := s.order + [r],
        rooms := s.rooms[r := Broadcast(None, map[], Some(s.sessions.created))],
        sessions := s.sessions.(created := s.sessions.created + 1)), x, transportOk)
      else s
    else if s.rooms[r].broadcaster in {None, Some(x)} then GiveTransport(s, x, transportOk)
    else if r in s.grace && s.grace[r] in s.timers then GiveTransport(Takeover(s, x, r, rowOk), x, transportOk)
    else s
  }

  /** `startBroadcast` claims an unclaimed room before it looks for a transport. */
  function Started(s: State, x: Socket, r: RoomId, kind: Kind, produceOk: bool): State
    requires x in s.sockets
  {
    if r !in s.rooms then s
    else
      var b := if s.rooms[r].broadcaster == None then s.rooms[r].(broadcaster := Some(x)) else s.rooms[r];
      if s.sockets[x].transport && produceOk then s.(
        rooms := s.rooms[r := b.(producers := b.producers[kind := s.producerCount])],
        sockets := s.sockets[x := s.sockets[x].(producers := s.sockets[x].producers + [s.producerCount])],
        producerCount := s.producerCount + 1)
      else s.(rooms := s.rooms[r := b])
  }

  /** One room of the disconnect loop. */
  function LoseRoom(s: State, x: Socket, r: RoomId): State
    requires x in s.sockets
  {
    if r !in s.rooms || s.rooms[r].broadcaster != Some(x) then s
    else s.(
      sockets := s.sockets[x := Resources(false, [])],
      timers := s.timers[s.timerCount := Timer(r, x, s.sockets[x].producers)],
      grace := s.grace[r := s.timerCount],
      timerCount := s.timerCount + 1)
  }

  function LoseRooms(s: State, x: Socket, rs: seq<RoomId>): (s': State)
    requires x in s.sockets
    ensures x in s'.sockets
    decreases |rs|
  {
    if rs == [] then s else LoseRooms(LoseRoom(s, x, rs[0]), x, rs[1..])
  }

  function Disconnected(s: State, x: Socket): State
    requires x in s.sockets
  {
    var s' := LoseRooms(s, x, s.order);
    s'.(sockets := s'.sockets - {x})
  }

  /** The timer callback deletes whatever entry its room has, then cleans up. */
  function Expired(s: State, t: TimerId, rowOk: bool): State
    requires t in s.timers
  {
    var timer := s.timers[t];
    Cleanup(s.(grace := s.grace - {timer.room}, timers := s.timers - {t}), timer.room, timer.lost, rowOk)
  }

  function Next(s: State, e: Event): State
    requires Enabled(s, e)
  {
    match e
    case Connect(x) => s.(sockets := s.sockets[x := Resources(false, [])], seen := s.seen + {x})
    case CreateSender(x, r, rowOk, transportOk) => SenderCreated(s, x, r, rowOk, transportOk)
    case StartBroadcast(x, r, kind, produceOk) => Started(s, x, r, kind, produceOk)
    case StopBroadcast(x, r, rowOk) => Cleanup(s, r, x, rowOk)
    case Disconnect(x) => Disconnected(s, x)
    case GraceExpires(t, rowOk) => Expired(s, t, rowOk)
  }

  predicate Possible(s: State, events: seq<Event>)
    decreases |events|
  {
    events == [] || (Enabled(s, events[0]) && Possible(Next(s, events[0]), events[1..]))
  }

  function After(s: State, events: seq<Event>): State
    requires Possible(s, events)
    decreases |events|
  {
    if events == [] then s else After(Next(s, events[0]), events[1..])
  }

  // ----- The handlers, in place -----

  class Origin {
    var order: seq<RoomId>
    var rooms: map<RoomId, Broadcast>
    var grace: map<RoomId, TimerId>
    var timers: map<TimerId, Timer>
    var timerCount: nat
    var sockets: map<Socket, Resources>
    var seen: set<Socket>
    var producerCount: nat
    var sessions: Sessions

    function Value(): State
      reads this
    {
      State(order, rooms, grace, timers, timerCount, sockets, seen, producerCount, sessions)
    }

    constructor ()
      ensures Value() == Init()
    {
      order, rooms, grace, timers, timerCount := [], map[], map[], map[], 0;
      sockets, seen, producerCount, sessions := map[], {}, 0, Sessions(0, {}, {}, {});
    }

    method OnConnection(x: Socket)
      requires Enabled(Value(), Connect(x))
      modifies this
      ensures Value() == Next(old(Value()), Connect(x))
    {
      sockets := sockets[x := Resources(false, [])];
      seen := seen + {x};
    }

    method CreateWebRtcTransport(x: Socket, r: RoomId, rowOk: bool, transportOk: bool)
      requires Enabled(Value(), CreateSender(x, r, rowOk, transportOk))
      modifies this
      ensures Value() == Next(old(Value()), CreateSender(x, r, rowOk, transportOk))
    {
      if r !in rooms {
        if !rowOk {
          return;
        }
        order := order + [r];
        rooms := rooms[r := Broadcast(None, map[], Some(sessions.created))];
        sessions := sessions.(created := sessions.created + 1);
      } else if rooms[r].broadcaster.Some? && rooms[r].broadcaster.value != x {
        if r !in grace || grace[r] !in timers {
          return;
        }
        var saved := timers[grace[r]].saved;
        timers := timers - {grace[r]};
        grace := grace - {r};
        var b := rooms[r].(broadcaster := Some(x), producers := map[]);
        if saved == [] && rowOk {
          var before := if b.session.Some? then {b.session.value} else {};
          b := b.(session := Some(sessions.created));
          sessions := sessions.(created := sessions.created + 1, superseded := sessions.superseded + before);
        }
        rooms := rooms[r := b];
      }
      if transportOk {
        sockets := sockets[x := sockets[x].(transport := true)];
      }
    }

    method OnStartBroadcast(x: Socket, r: RoomId, kind: Kind, produceOk: bool)
      requires Enabled(Value(), StartBroadcast(x, r, kind, produceOk))
      modifies this
      ensures Value() == Next(old(Value()), StartBroadcast(x, r, kind, produceOk))
    {
      if r !in rooms {
        return;
      }
      if rooms[r].broadcaster == None {
        rooms := rooms[r := rooms[r].(broadcaster := Some(x))];
      }
      if !sockets[x].transport || !produceOk {
        return;
      }
      var producer := producerCount;
      producerCount := producerCount + 1;
      rooms := rooms[r := rooms[r].(producers := rooms[r].producers[kind := producer])];
      sockets := sockets[x := sockets[x].(producers := sockets[x].producers + [producer])];
    }

    method CleanupBroadcast(r: RoomId, x: Socket, rowOk: bool)
      modifies this
      ensures Value() == Cleanup(old(Value()), r, x, rowOk)
    {
      if r !in rooms || rooms[r].broadcaster != Some(x) {
        return;
      }
      if r in grace {
        timers := timers - {grace[r]};
        grace := grace - {r};
      }
      sessions := EndSession(sessions, rooms[r].session, rowOk);
      order := Remove(order, r);
      rooms := rooms - {r};
    }

    method OnDisconnect(x: Socket)
      requires Enabled(Value(), Disconnect(x))
      modifies this
      ensures Value() == Next(old(Value()), Disconnect(x))
    {
      var todo := order;
      while todo != []
        invariant x in sockets
        invariant LoseRooms(Value(), x, todo) == LoseRooms(old(Value()), x, old(order))
        decreases |todo|
      {
        var r := todo[0];
        if r in rooms && rooms[r].broadcaster == Some(x) {
          var saved := sockets[x].producers;
          sockets := sockets[x := Resources(false, [])];
          timers := timers[timerCount := Timer(r, x, saved)];
          grace := grace[r := timerCount];
          timerCount := timerCount + 1;
        }
        todo := todo[1..];
      }
      sockets := sockets - {x};
    }

    /** The grace timer's callback. */
    method OnGraceExpired(t: TimerId, rowOk: bool)
      requires Enabled(Value(), GraceExpires(t, rowOk))
      modifies this
      ensures Value() == Next(old(Value()), GraceExpires(t, rowOk))
    {
      var timer := timers[t];
      timers := timers - {t};
      grace := grace - {timer.room};
      CleanupBroadcast(timer.room, timer.lost, rowOk);
    }
  }
}
