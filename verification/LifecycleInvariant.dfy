/** What every handler keeps: grace windows and their timers, the insertion order, and the
    accounting of lecture sessions. */
module LifecycleInvariant {
  import opened Common
  import opened Lifecycle

  // ----- The grace window -----

  /** A claimed room is in its grace window exactly when its broadcaster is gone. While
      `leaving` is being disconnected, its rooms in `todo` still wait for their timer. */
  ghost predicate RoomOk(s: State, leaving: Option<Socket>, todo: seq<RoomId>, r: RoomId)
    requires r in s.rooms
  {
    match s.rooms[r].broadcaster
    case None => r !in s.grace
    case Some(y) =>
      && y in s.seen
      && if leaving == Some(y) then r in s.grace <==> r !in todo else r in s.grace <==> y !in s.sockets
  }

  /** An entry names a pending timer of that room, started when its broadcaster was lost. */
  ghost predicate EntryOk(s: State, r: RoomId)
    requires r in s.grace
  {
    var t := s.grace[r];
    && r in s.rooms && t in s.timers
    && s.timers[t].room == r
    && s.rooms[r].broadcaster == Some(s.timers[t].lost)
  }

  ghost predicate TimerOk(s: State, t: TimerId)
    requires t in s.timers
  {
    t < s.timerCount && s.timers[t].room in s.grace && s.grace[s.timers[t].room] == t
  }

  ghost predicate GraceOkWhile(s: State, leaving: Option<Socket>, todo: seq<RoomId>) {
    && (forall r {:trigger RoomOk(s, leaving, todo, r)} | r in s.rooms :: RoomOk(s, leaving, todo, r))
    && (forall r {:trigger EntryOk(s, r)} | r in s.grace :: EntryOk(s, r))
    && (forall t {:trigger TimerOk(s, t)} | t in s.timers :: TimerOk(s, t))
    && (forall x | x in s.sockets :: x in s.seen)
  }

  ghost predicate Distinct(order: seq<RoomId>) {
    forall i, j | 0 <= i < j < |order| :: order[i] != order[j]
  }

  ghost predicate OrderOk(s: State) {
    && Distinct(s.order)
    && (forall r :: r in s.order <==> r in s.rooms)
  }

  ghost predicate GraceOk(s: State) { GraceOkWhile(s, None, []) }

  lemma CancelKeeps(s: State, r: RoomId)
    requires GraceOk(s) && r in s.grace
    ensures forall q | q in s.grace && q != r :: q in CancelGrace(s, r).grace && EntryOk(CancelGrace(s, r), q)
    ensures forall t | t in CancelGrace(s, r).timers :: TimerOk(CancelGrace(s, r), t)
  {
    var s' := CancelGrace(s, r);
    assert EntryOk(s, r);
    forall q | q in s.grace && q != r ensures q in s'.grace && EntryOk(s', q) {
      assert EntryOk(s, q);
    }
    forall t | t in s'.timers ensures TimerOk(s', t) {
      assert TimerOk(s, t);
    }
  }

  lemma CleanupKeepsGrace(s: State, r: RoomId, x: Socket, rowOk: bool)
    requires GraceOk(s)
    ensures GraceOk(Cleanup(s, r, x, rowOk))
  {
    var s' := Cleanup(s, r, x, rowOk);
    if s' != s {
      if r in s.grace {
        CancelKeeps(s, r);
      }
      forall q | q in s'.rooms ensures RoomOk(s', None, [], q) {
        assert RoomOk(s, None, [], q);
      }
      forall q | q in s'.grace ensures EntryOk(s', q) {
        assert EntryOk(s, q);
        assert q != r;
      }
      forall t | t in s'.timers ensures TimerOk(s', t) {
        assert TimerOk(s, t);
      }
    }
  }

  /** An expiring timer finds its own entry and its broadcaster still in place. */
  lemma ExpiredIsCleanup(s: State, t: TimerId, rowOk: bool)
    requires GraceOk(s) && t in s.timers
    ensures Expired(s, t, rowOk) == Cleanup(s, s.timers[t].room, s.timers[t].lost, rowOk)
    ensures s.timers[t].room in s.rooms && s.timers[t].room !in Expired(s, t, rowOk).rooms
  {
    assert TimerOk(s, t);
    assert EntryOk(s, s.timers[t].room);
  }

  lemma TakeoverKeepsGrace(s: State, x: Socket, r: RoomId, rowOk: bool)
    requires GraceOk(s) && r in s.rooms && r in s.grace && s.grace[r] in s.timers && x in s.sockets
    ensures GraceOk(Takeover(s, x, r, rowOk))
  {
    var s' := Takeover(s, x, r, rowOk);
    CancelKeeps(s, r);
    forall q | q in s'.rooms ensures RoomOk(s', None, [], q) {
      assert RoomOk(s, None, [], q);
    }
    forall q | q in s'.grace ensures EntryOk(s', q) {
      assert EntryOk(CancelGrace(s, r), q);
    }
    forall t | t in s'.timers ensures TimerOk(s', t) {
      assert TimerOk(CancelGrace(s, r), t);
    }
  }

  /** Changes to what sockets hold, not to which are connected. */
  lemma HoldingsKeepGrace(s: State, sockets: map<Socket, Resources>, count: nat)
    requires GraceOk(s) && sockets.Keys == s.sockets.Keys
    ensures GraceOk(s.(sockets := sockets, producerCount := count))
  {
    var s' := s.(sockets := sockets, producerCount := count);
    forall q | q in s'.rooms ensures RoomOk(s', None, [], q) {
      assert RoomOk(s, None, [], q);
    }
    forall q | q in s'.grace ensures EntryOk(s', q) {
      assert EntryOk(s, q);
    }
    forall t | t in s'.timers ensures TimerOk(s', t) {
      assert TimerOk(s, t);
    }
  }

  /** Writing a room that is new and unclaimed, or claimed by a connected socket outside
      any grace window, or left as it was. */
  lemma WriteRoomKeepsGrace(s: State, r: RoomId, b: Broadcast, order: seq<RoomId>, rows: Sessions)
    requires GraceOk(s)
    requires
      || (r !in s.rooms && b.broadcaster == None)
      || (r in s.rooms && b.broadcaster == s.rooms[r].broadcaster)
      || (r in s.rooms && s.rooms[r].broadcaster == None && b.broadcaster.Some? && b.broadcaster.value in s.sockets)
    ensures GraceOk(s.(rooms := s.rooms[r := b], order := order, sessions := rows))
  {
    var s' := s.(rooms := s.rooms[r := b], order := order, sessions := rows);
    if r in s.grace {
      assert EntryOk(s, r);
    }
    forall q | q in s'.rooms ensures RoomOk(s', None, [], q) {
      if q in s.rooms {
        assert RoomOk(s, None, [], q);
      }
    }
    forall q | q in s'.grace ensures EntryOk(s', q) {
      assert EntryOk(s, q);
      assert q in s.rooms;
      assert RoomOk(s, None, [], q);
    }
    forall t | t in s'.timers ensures TimerOk(s', t) {
      assert TimerOk(s, t);
    }
  }

  lemma GiveTransportKeepsGrace(s: State, x: Socket, transportOk: bool)
    requires GraceOk(s) && x in s.sockets
    ensures GraceOk(GiveTransport(s, x, transportOk))
  {
    if transportOk {
      var sockets := s.sockets[x := s.sockets[x].(transport := true)];
      assert sockets.Keys == s.sockets.Keys;
      HoldingsKeepGrace(s, sockets, s.producerCount);
    }
  }

  lemma SenderKeepsGrace(s: State, x: Socket, r: RoomId, rowOk: bool, transportOk: bool)
    requires GraceOk(s) && x in s.sockets
    ensures GraceOk(SenderCreated(s, x, r, rowOk, transportOk))
  {
    if r !in s.rooms {
      var s' := s.(
        order := s.order + [r],
        rooms := s.rooms[r := Broadcast(None, map[], Some(s.sessions.created))],
        sessions := s.sessions.(created := s.sessions.created + 1));
      WriteRoomKeepsGrace(s, r, s'.rooms[r], s'.order, s'.sessions);
      GiveTransportKeepsGrace(s', x, transportOk);
    } else if s.rooms[r].broadcaster in {None, Some(x)} {
      GiveTransportKeepsGrace(s, x, transportOk);
    } else if r in s.grace && s.grace[r] in s.timers {
      TakeoverKeepsGrace(s, x, r, rowOk);
      GiveTransportKeepsGrace(Takeover(s, x, r, rowOk), x, transportOk);
    }
  }

  lemma StartedKeepsGrace(s: State, x: Socket, r: RoomId, kind: Kind, produceOk: bool)
    requires GraceOk(s) && x in s.sockets
    ensures GraceOk(Started(s, x, r, kind, produceOk))
  {
    if r in s.rooms {
      var s' := Started(s, x, r, kind, produceOk);
      WriteRoomKeepsGrace(s, r, s'.rooms[r], s.order, s.sessions);
      assert s'.sockets.Keys == s.sockets.Keys;
      HoldingsKeepGrace(s.(rooms := s'.rooms), s'.sockets, s'.producerCount);
    }
  }

  /** The loop's turn for one room: a timer is added, none is replaced. */
  lemma LoseRoomKeeps(s: State, x: Socket, todo: seq<RoomId>)
    requires x in s.sockets && todo != [] && Distinct(todo) && GraceOkWhile(s, Some(x), todo)
    ensures GraceOkWhile(LoseRoom(s, x, todo[0]), Some(x), todo[1..])
  {
    var r, rest, s' := todo[0], todo[1..], LoseRoom(s, x, todo[0]);
    assert r in todo && r !in rest;
    assert forall q | q != r :: q in todo <==> q in rest;
    if r in s.rooms {
      assert RoomOk(s, Some(x), todo, r);
    }
    forall q | q in s'.rooms ensures RoomOk(s', Some(x), rest, q) {
      assert RoomOk(s, Some(x), todo, q);
    }
    forall q | q in s'.grace ensures EntryOk(s', q) {
      if q in s.grace {
        assert EntryOk(s, q);
        assert TimerOk(s, s.grace[q]);
      }
    }
    forall t | t in s'.timers ensures TimerOk(s', t) {
      if t in s.timers {
        assert TimerOk(s, t);
      }
    }
  }

  lemma {:induction false} LoseRoomsKeep(s: State, x: Socket, todo: seq<RoomId>)
    requires x in s.sockets && Distinct(todo) && GraceOkWhile(s, Some(x), todo)
    ensures GraceOkWhile(LoseRooms(s, x, todo), Some(x), [])
    decreases |todo|
  {
    if todo == [] {
    } else {
      LoseRoomKeeps(s, x, todo);
      LoseRoomsKeep(LoseRoom(s, x, todo[0]), x, todo[1..]);
    }
  }

  lemma DisconnectKeepsGrace(s: State, x: Socket)
    requires GraceOk(s) && OrderOk(s) && x in s.sockets
    ensures GraceOk(Disconnected(s, x))
  {
    forall r | r in s.rooms ensures RoomOk(s, Some(x), s.order, r) {
      assert RoomOk(s, None, [], r);
    }
    LoseRoomsKeep(s, x, s.order);
    var m := LoseRooms(s, x, s.order);
    var s' := Disconnected(s, x);
    forall q | q in s'.rooms ensures RoomOk(s', None, [], q) {
      assert RoomOk(m, Some(x), [], q);
    }
    forall q | q in s'.grace ensures EntryOk(s', q) {
      assert EntryOk(m, q);
    }
    forall t | t in s'.timers ensures TimerOk(s', t) {
      assert TimerOk(m, t);
    }
  }

  lemma ConnectKeepsGrace(s: State, x: Socket)
    requires GraceOk(s) && x !in s.seen
    ensures GraceOk(Next(s, Connect(x)))
  {
    var s' := Next(s, Connect(x));
    forall q | q in s'.rooms ensures RoomOk(s', None, [], q) {
      assert RoomOk(s, None, [], q);
    }
    forall q | q in s'.grace ensures EntryOk(s', q) {
      assert EntryOk(s, q);
    }
    forall t | t in s'.timers ensures TimerOk(s', t) {
      assert TimerOk(s, t);
    }
  }

  // ----- The insertion order -----

  lemma {:induction false} RemoveFacts(order: seq<RoomId>, r: RoomId)
    requires Distinct(order)
    ensures Distinct(Remove(order, r))
    ensures forall q :: q in Remove(order, r) <==> q in order && q != r
  {
    if order == [] {
    } else {
      RemoveFacts(order[1..], r);
      assert order == [order[0]] + order[1..];
      if order[0] != r {
        var rest := Remove(order[1..], r);
        assert order[0] !in rest;
        assert forall j | 0 < j < |[order[0]] + rest| :: ([order[0]] + rest)[j] == rest[j - 1];
      }
    }
  }

  lemma {:induction false} LoseRoomsFrame(s: State, x: Socket, rs: seq<RoomId>)
    requires x in s.sockets
    ensures var s' := LoseRooms(s, x, rs);
      s'.rooms == s.rooms && s'.order == s.order && s'.sessions == s.sessions && s'.timerCount >= s.timerCount
    decreases |rs|
  {
    if rs == [] {
    } else {
      LoseRoomsFrame(LoseRoom(s, x, rs[0]), x, rs[1..]);
    }
  }

  lemma StepKeepsOrder(s: State, e: Event)
    requires OrderOk(s) && Enabled(s, e)
    ensures OrderOk(Next(s, e))
  {
    match e {
      case StopBroadcast(x, r, _) => RemoveFacts(s.order, r);
      case GraceExpires(t, _) => RemoveFacts(s.order, s.timers[t].room);
      case Disconnect(x) => LoseRoomsFrame(s, x, s.order);
      case CreateSender(_, r, _, _) => if r !in s.rooms { assert r !in s.order; }
      case _ =>
    }
  }

  lemma StepKeepsGrace(s: State, e: Event)
    requires GraceOk(s) && OrderOk(s) && Enabled(s, e)
    ensures GraceOk(Next(s, e))
  {
    hide GraceOkWhile, OrderOk;
    match e {
      case Connect(x) => ConnectKeepsGrace(s, x);
      case CreateSender(x, r, rowOk, transportOk) => SenderKeepsGrace(s, x, r, rowOk, transportOk);
      case StartBroadcast(x, r, kind, produceOk) => StartedKeepsGrace(s, x, r, kind, produceOk);
      case StopBroadcast(x, r, rowOk) => CleanupKeepsGrace(s, r, x, rowOk);
      case Disconnect(x) => DisconnectKeepsGrace(s, x);
      case GraceExpires(t, rowOk) =>
        ExpiredIsCleanup(s, t, rowOk);
        CleanupKeepsGrace(s, s.timers[t].room, s.timers[t].lost, rowOk);
    }
  }

  // ----- Session accounting -----

  ghost predicate Holds(rooms: map<RoomId, Broadcast>, r: RoomId, i: SessionId) {
    r in rooms && rooms[r].session == Some(i)
  }

  ghost predicate Current(rooms: map<RoomId, Broadcast>, i: SessionId) {
    exists r: RoomId :: Holds(rooms, r, i)
  }

  predicate Retired(rows: Sessions, i: SessionId) {
    i in rows.ended || i in rows.unended || i in rows.superseded
  }

  /** Every live room has a session, no session is current for two rooms, and every session
      ever created is exactly one of current, ended, ended without its write, superseded. */
  ghost predicate SessionsOk(rooms: map<RoomId, Broadcast>, rows: Sessions) {
    && (forall r | r in rooms :: rooms[r].session.Some?)
    && (forall q, r, i: SessionId :: Holds(rooms, q, i) && Holds(rooms, r, i) ==> q == r)
    && (forall i: SessionId {:trigger Current(rooms, i)} ::
          Current(rooms, i) <==> i < rows.created && !Retired(rows, i))
    && rows.ended !! rows.unended !! rows.superseded
    && (forall i: SessionId | Retired(rows, i) :: i < rows.created)
  }

  /** Closing a room retires its session and no other. */
  lemma CloseKeepsSessions(rooms: map<RoomId, Broadcast>, rows: Sessions, r: RoomId, rowOk: bool)
    requires SessionsOk(rooms, rows) && r in rooms
    ensures SessionsOk(rooms - {r}, EndSession(rows, rooms[r].session, rowOk))
  {
    var rooms', rows' := rooms - {r}, EndSession(rows, rooms[r].session, rowOk);
    var old_ := rooms[r].session.value;
    assert Holds(rooms, r, old_) && Current(rooms, old_);
    assert forall i :: Retired(rows', i) <==> i == old_ || Retired(rows, i);
    forall i: SessionId ensures Current(rooms', i) <==> i < rows'.created && !Retired(rows', i) {
      assert Current(rooms, i) <==> i < rows.created && !Retired(rows, i);
      if q :| Holds(rooms, q, i) {
        assert q != r ==> Holds(rooms', q, i);
      }
      if q :| Holds(rooms', q, i) {
        assert Holds(rooms, q, i);
      }
    }
    assert forall q, i: SessionId :: Holds(rooms', q, i) ==> Holds(rooms, q, i);
  }

  /** A new row for a room retires the room's previous session as superseded. */
  lemma MintKeepsSessions(rooms: map<RoomId, Broadcast>, rows: Sessions, r: RoomId, b: Broadcast)
    requires SessionsOk(rooms, rows) && b.session == Some(rows.created)
    ensures SessionsOk(rooms[r := b], rows.(
        created := rows.created + 1,
        superseded := rows.superseded + if r in rooms && rooms[r].session.Some? then {rooms[r].session.value} else {}))
  {
    var rooms' := rooms[r := b];
    var dropped := if r in rooms then {rooms[r].session.value} else {};
    var rows' := rows.(created := rows.created + 1, superseded := rows.superseded + dropped);
    if r in rooms {
      var old_ := rooms[r].session.value;
      assert Holds(rooms, r, old_) && Current(rooms, old_);
    }
    assert forall i :: Retired(rows', i) <==> i in dropped || Retired(rows, i);
    assert !Retired(rows, rows.created) && Holds(rooms', r, rows.created);
    forall i: SessionId ensures Current(rooms', i) <==> i < rows'.created && !Retired(rows', i) {
      assert Current(rooms, i) <==> i < rows.created && !Retired(rows, i);
      if q :| Holds(rooms, q, i) {
        assert q != r ==> Holds(rooms', q, i);
      }
      if q :| Holds(rooms', q, i) {
        assert q != r ==> Holds(rooms, q, i);
      }
    }
    forall p, q, i: SessionId | Holds(rooms', p, i) && Holds(rooms', q, i) ensures p == q {
      if p != r && q != r {
        assert Holds(rooms, p, i) && Holds(rooms, q, i);
      } else if p != q {
        var other := if p == r then q else p;
        assert i == rows.created && Holds(rooms, other, i) && Current(rooms, i);
      }
    }
  }

  /** Writing a room without touching its session. */
  lemma WriteKeepsSessions(rooms: map<RoomId, Broadcast>, rows: Sessions, r: RoomId, b: Broadcast)
    requires SessionsOk(rooms, rows) && r in rooms && b.session == rooms[r].session
    ensures SessionsOk(rooms[r := b], rows)
  {
    var rooms' := rooms[r := b];
    assert forall q, i: SessionId :: Holds(rooms', q, i) <==> Holds(rooms, q, i);
    forall i: SessionId ensures Current(rooms', i) <==> Current(rooms, i) {
      if q :| Holds(rooms, q, i) {
        assert Holds(rooms', q, i);
      }
      if q :| Holds(rooms', q, i) {
        assert Holds(rooms, q, i);
      }
    }
  }

  lemma StepKeepsSessions(s: State, e: Event)
    requires SessionsOk(s.rooms, s.sessions) && GraceOk(s) && Enabled(s, e)
    ensures SessionsOk(Next(s, e).rooms, Next(s, e).sessions)
  {
    hide SessionsOk;
    match e {
      case Connect(_) =>
      case CreateSender(x, r, rowOk, _) =>
        if r !in s.rooms {
          MintKeepsSessions(s.rooms, s.sessions, r, Broadcast(None, map[], Some(s.sessions.created)));
          assert s.sessions.superseded + {} == s.sessions.superseded;
        } else {
          var b := s.rooms[r].(broadcaster := Some(x), producers := map[]);
          WriteKeepsSessions(s.rooms, s.sessions, r, b);
          MintKeepsSessions(s.rooms, s.sessions, r, b.(session := Some(s.sessions.created)));
        }
      case StartBroadcast(x, r, kind, produceOk) =>
        if r in s.rooms {
          WriteKeepsSessions(s.rooms, s.sessions, r, Next(s, e).rooms[r]);
        }
      case StopBroadcast(x, r, rowOk) =>
        if r in s.rooms {
          CloseKeepsSessions(s.rooms, s.sessions, r, rowOk);
        }
      case Disconnect(x) => LoseRoomsFrame(s, x, s.order);
      case GraceExpires(t, rowOk) =>
        ExpiredIsCleanup(s, t, rowOk);
        CloseKeepsSessions(s.rooms, s.sessions, s.timers[t].room, rowOk);
    }
  }

  // ----- Whole runs -----

  ghost predicate Inv(s: State) {
    GraceOk(s) && OrderOk(s) && SessionsOk(s.rooms, s.sessions)
  }

  lemma StepKeeps(s: State, e: Event)
    requires Inv(s) && Enabled(s, e)
    ensures Inv(Next(s, e))
  {
    hide GraceOk, OrderOk, SessionsOk;
    StepKeepsGrace(s, e);
    StepKeepsOrder(s, e);
    StepKeepsSessions(s, e);
  }

  lemma {:induction false} RunKeeps(s: State, events: seq<Event>)
    requires Inv(s) && Possible(s, events)
    ensures Inv(After(s, events))
    decreases |events|
  {
    if events == [] {
    } else {
      StepKeeps(s, events[0]);
      RunKeeps(Next(s, events[0]), events[1..]);
    }
  }

  lemma InitInv()
    ensures Inv(Init())
  {
    var s := Init();
    assert forall i: SessionId :: !Current(s.rooms, i);
  }

  /** Every run of the server: grace windows, insertion order and session accounting. */
  lemma EveryRun(events: seq<Event>)
    requires Possible(Init(), events)
    ensures GraceOk(After(Init(), events)) && OrderOk(After(Init(), events))
    ensures SessionsOk(After(Init(), events).rooms, After(Init(), events).sessions)
  {
    InitInv();
    RunKeeps(Init(), events);
  }

  /** A room passes from one broadcaster to another only on a reconnect, and only from one
      that is disconnected and inside its grace window. */
  lemma HandoverOnlyInGrace(s: State, e: Event, r: RoomId)
    requires Inv(s) && Enabled(s, e)
    requires r in s.rooms && s.rooms[r].broadcaster.Some? && r in Next(s, e).rooms
    requires Next(s, e).rooms[r].broadcaster != s.rooms[r].broadcaster
    ensures e.CreateSender? && e.room == r && Next(s, e).rooms[r].broadcaster == Some(e.socket)
    ensures s.rooms[r].broadcaster.value !in s.sockets
    ensures r in s.grace && s.grace[r] in s.timers && s.timers[s.grace[r]].lost == s.rooms[r].broadcaster.value
  {
    hide SessionsOk, OrderOk;
    assert RoomOk(s, None, [], r);
    if e.Disconnect? {
      LoseRoomsFrame(s, e.socket, s.order);
    }
    if r in s.grace {
      assert EntryOk(s, r);
    }
  }

  /** The disconnect loop starts new timers and leaves the pending ones and their entries alone. */
  lemma {:induction false} LoseRoomsKeepTimers(s: State, x: Socket, rs: seq<RoomId>)
    requires x in s.sockets && forall t | t in s.timers :: t < s.timerCount
    ensures forall t | t in s.timers :: t in LoseRooms(s, x, rs).timers && LoseRooms(s, x, rs).timers[t] == s.timers[t]
    ensures forall r | r !in rs && r in s.grace :: r in LoseRooms(s, x, rs).grace && LoseRooms(s, x, rs).grace[r] == s.grace[r]
    decreases |rs|
  {
    if rs == [] {
    } else {
      LoseRoomsKeepTimers(LoseRoom(s, x, rs[0]), x, rs[1..]);
    }
  }

  lemma NoTimerOverwritten(s: State, x: Socket)
    requires Inv(s) && x in s.sockets
    ensures var s' := Disconnected(s, x);
      forall t | t in s.timers :: t in s'.timers && s'.timers[t] == s.timers[t]
        && s.timers[t].room in s'.grace && s'.grace[s.timers[t].room] == t
  {
    var s' := Disconnected(s, x);
    forall t | t in s.timers ensures t < s.timerCount {
      assert TimerOk(s, t);
    }
    LoseRoomsKeepTimers(s, x, s.order);
    DisconnectKeepsGrace(s, x);
    forall t | t in s.timers ensures s.timers[t].room in s'.grace && s'.grace[s.timers[t].room] == t {
      assert TimerOk(s', t);
    }
  }
}
