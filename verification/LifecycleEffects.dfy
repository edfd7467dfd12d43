/** What each handler brings about: exactly when a room opens, closes, changes hands or
    session, and which fate every lecture session meets over a run. */
module LifecycleEffects {
  import opened Common
  import opened Lifecycle
  import opened LifecycleInvariant

  // ----- Rooms -----

  /** A room closes exactly when its broadcaster stops, or the grace timer of the room expires. */
  lemma ClosesIff(s: State, e: Event, r: RoomId)
    requires Inv(s) && Enabled(s, e) && r in s.rooms
    ensures r !in Next(s, e).rooms <==>
      || (e.StopBroadcast? && e.room == r && s.rooms[r].broadcaster == Some(e.socket))
      || (e.GraceExpires? && s.timers[e.timer].room == r)
  {
    hide SessionsOk, OrderOk;
    match e {
      case GraceExpires(t, rowOk) => ExpiredIsCleanup(s, t, rowOk);
      case Disconnect(x) => LoseRoomsFrame(s, x, s.order);
      case _ =>
    }
  }

  /** A room opens exactly when a sender transport is asked for and the session row can be
      written; it is last in order, unclaimed and silent, with a session of its own. */
  lemma OpensIff(s: State, e: Event, r: RoomId)
    requires Inv(s) && Enabled(s, e) && r !in s.rooms
    ensures var s' := Next(s, e);
      && (r in s'.rooms <==> e.CreateSender? && e.room == r && e.rowOk)
      && (r in s'.rooms ==>
            && s'.rooms == s.rooms[r := Broadcast(None, map[], Some(s.sessions.created))]
            && s'.order == s.order + [r] && s'.sessions == s.sessions.(created := s.sessions.created + 1)
            && s'.grace == s.grace && s'.timers == s.timers)
  {
    hide SessionsOk, OrderOk, GraceOk;
    if e.Disconnect? {
      LoseRoomsFrame(s, e.socket, s.order);
    }
  }

  /** A closing room takes its grace entry and timer with it and leaves the others alone. */
  lemma ClosingFrame(s: State, e: Event, r: RoomId)
    requires Inv(s) && Enabled(s, e) && r in s.rooms && r !in Next(s, e).rooms
    ensures var s' := Next(s, e);
      && s'.rooms == s.rooms - {r} && s'.grace == s.grace - {r} && s'.sockets == s.sockets
      && (forall t | t in s.timers :: t in s'.timers <==> s.timers[t].room != r)
      && (forall t | t in s'.timers :: t in s.timers && s'.timers[t] == s.timers[t])
  {
    hide SessionsOk, OrderOk;
    ClosesIff(s, e, r);
    if e.GraceExpires? {
      ExpiredIsCleanup(s, e.timer, e.rowOk);
    }
    var x := if e.GraceExpires? then s.timers[e.timer].lost else e.socket;
    assert Next(s, e) == Cleanup(s, r, x, e.rowOk);
    if r in s.grace {
      assert EntryOk(s, r);
    }
    forall t | t in s.timers ensures t in Next(s, e).timers <==> s.timers[t].room != r {
      assert TimerOk(s, t);
    }
  }

  lemma InGrace(s: State, r: RoomId)
    requires Inv(s) && r in s.grace
    ensures r in s.rooms && s.grace[r] in s.timers
    ensures s.rooms[r].broadcaster.Some? && s.rooms[r].broadcaster.value !in s.sockets
  {
    assert EntryOk(s, r);
    assert RoomOk(s, None, [], r);
  }

  /** A room gets a broadcaster exactly when it has none and someone starts, or when someone
      else asks for a sender transport in its grace window. */
  lemma BroadcasterChangesIff(s: State, e: Event, r: RoomId)
    requires Inv(s) && Enabled(s, e) && r in s.rooms && r in Next(s, e).rooms
    ensures Next(s, e).rooms[r].broadcaster ==
      if e.StartBroadcast? && e.room == r && s.rooms[r].broadcaster == None then Some(e.socket)
      else if e.CreateSender? && e.room == r && r in s.grace then Some(e.socket)
      else s.rooms[r].broadcaster
  {
    hide Inv;
    if r in s.grace {
      InGrace(s, r);
    }
    if e.Disconnect? {
      LoseRoomsFrame(s, e.socket, s.order);
    }
  }

  /** A room's producers change in two ways: a socket with a transport produces a new one, or
      a reconnect in the grace window starts afresh. */
  lemma ProducersChangeIff(s: State, e: Event, r: RoomId)
    requires Inv(s) && Enabled(s, e) && r in s.rooms && r in Next(s, e).rooms
    ensures Next(s, e).rooms[r].producers ==
      if e.StartBroadcast? && e.room == r && s.sockets[e.socket].transport && e.produceOk
        then s.rooms[r].producers[e.kind := s.producerCount]
      else if e.CreateSender? && e.room == r && r in s.grace then map[]
      else s.rooms[r].producers
  {
    hide Inv;
    if r in s.grace {
      InGrace(s, r);
    }
    if e.Disconnect? {
      LoseRoomsFrame(s, e.socket, s.order);
    }
  }

  // ----- Sockets -----

  /** The request is refused: another broadcaster is there, or the row cannot be written. */
  predicate Refused(s: State, x: Socket, r: RoomId, rowOk: bool) {
    if r !in s.rooms then !rowOk
    else s.rooms[r].broadcaster.Some? && s.rooms[r].broadcaster != Some(x) && r !in s.grace
  }

  lemma RefusedChangesNothing(s: State, x: Socket, r: RoomId, rowOk: bool, transportOk: bool)
    requires Inv(s) && x in s.sockets
    ensures Refused(s, x, r, rowOk) ==> Next(s, CreateSender(x, r, rowOk, transportOk)) == s
  {
  }

  /** What a socket holds: a transport once a request for one was granted and made, and one
      more producer for each production; another socket's steps leave it alone. */
  lemma HoldingsChangeIff(s: State, e: Event, x: Socket)
    requires Inv(s) && Enabled(s, e) && x in s.sockets
    ensures e == Disconnect(x) <==> x !in Next(s, e).sockets
    ensures x in Next(s, e).sockets ==> var h, h' := s.sockets[x], Next(s, e).sockets[x];
      && (h'.transport <==>
            || h.transport
            || (e.CreateSender? && e.socket == x && e.transportOk && !Refused(s, x, e.room, e.rowOk)))
      && h'.producers == h.producers +
           if e.StartBroadcast? && e.socket == x && e.room in s.rooms && h.transport && e.produceOk then [s.producerCount] else []
  {
    hide SessionsOk, OrderOk;
    assert s.sockets[x].producers + [] == s.sockets[x].producers;
    match e {
      case Disconnect(y) => LoseRoomsOthers(s, y, s.order);
      case CreateSender(_, r, _, _) =>
        if r in s.grace {
          assert EntryOk(s, r);
        }
      case _ =>
    }
  }

  /** A socket is there from its connection on, and holds nothing at first. */
  lemma ConnectsIff(s: State, e: Event, x: Socket)
    requires Inv(s) && Enabled(s, e) && x !in s.sockets
    ensures x in Next(s, e).sockets <==> e == Connect(x)
    ensures e == Connect(x) ==> Next(s, e).sockets == s.sockets[x := Resources(false, [])]
  {
    hide Inv;
    if e.Disconnect? {
      LoseRoomsOthers(s, e.socket, s.order);
    }
  }

  lemma {:induction false} LoseRoomsOthers(s: State, x: Socket, rs: seq<RoomId>)
    requires x in s.sockets
    ensures var s' := LoseRooms(s, x, rs);
      s'.sockets.Keys == s.sockets.Keys && forall y | y in s.sockets && y != x :: s'.sockets[y] == s.sockets[y]
    decreases |rs|
  {
    if rs == [] {
    } else {
      assert LoseRoom(s, x, rs[0]).sockets.Keys == s.sockets.Keys;
      LoseRoomsOthers(LoseRoom(s, x, rs[0]), x, rs[1..]);
    }
  }

  // ----- The fate of every session -----

  /** The database accepted what the handler wrote when it closed a room. */
  predicate RowWritten(e: Event) {
    (e.StopBroadcast? || e.GraceExpires?) ==> e.rowOk
  }

  /** The sessions of the rooms that a step closes. */
  function ClosedBy(s: State, e: Event): set<SessionId>
    requires Enabled(s, e)
  {
    set r | r in s.rooms && r !in Next(s, e).rooms && s.rooms[r].session.Some? :: s.rooms[r].session.value
  }

  /** The sessions that rooms which stay open lose in a step. */
  function ReplacedBy(s: State, e: Event): set<SessionId>
    requires Enabled(s, e)
  {
    set r | r in s.rooms && r in Next(s, e).rooms && s.rooms[r].session.Some? && Next(s, e).rooms[r].session != s.rooms[r].session
      :: s.rooms[r].session.value
  }

  /** When a room closes, its session is marked ended if the row can be written, and is left
      without an end otherwise. */
  lemma ClosedSession(s: State, e: Event, r: RoomId)
    requires Inv(s) && Enabled(s, e) && r in s.rooms && r !in Next(s, e).rooms
    ensures s.rooms[r].session.Some? && ClosedBy(s, e) == {s.rooms[r].session.value} && ReplacedBy(s, e) == {}
    ensures var rows, i := s.sessions, s.rooms[r].session.value;
      && i !in rows.ended && i !in rows.unended
      && Next(s, e).sessions == if RowWritten(e) then rows.(ended := rows.ended + {i}) else rows.(unended := rows.unended + {i})
  {
    hide OrderOk;
    ClosesIff(s, e, r);
    ClosingFrame(s, e, r);
    if e.GraceExpires? {
      ExpiredIsCleanup(s, e.timer, e.rowOk);
    }
    var i := s.rooms[r].session.value;
    assert Holds(s.rooms, r, i) && Current(s.rooms, i);
    assert ClosedBy(s, e) == {i};
  }

  lemma FatesStep(s: State, e: Event)
    requires Inv(s) && Enabled(s, e)
    ensures var s' := Next(s, e);
      && s'.sessions.ended == s.sessions.ended + (if RowWritten(e) then ClosedBy(s, e) else {})
      && s'.sessions.unended == s.sessions.unended + (if RowWritten(e) then {} else ClosedBy(s, e))
      && s'.sessions.superseded == s.sessions.superseded + ReplacedBy(s, e)
  {
    hide Inv;
    if r :| r in s.rooms && r !in Next(s, e).rooms {
      ClosedSession(s, e, r);
    } else {
      assert ClosedBy(s, e) == {};
      StayingFates(s, e);
    }
  }

  /** A step that closes no room ends no session; a reconnect may replace one. */
  lemma StayingFates(s: State, e: Event)
    requires Inv(s) && Enabled(s, e) && forall r | r in s.rooms :: r in Next(s, e).rooms
    ensures var s' := Next(s, e);
      && s'.sessions.ended == s.sessions.ended && s'.sessions.unended == s.sessions.unended
      && s'.sessions.superseded == s.sessions.superseded + ReplacedBy(s, e)
  {
    match e {
      case Disconnect(x) => LoseRoomsFrame(s, x, s.order);
      case GraceExpires(t, rowOk) => ExpiredIsCleanup(s, t, rowOk);
      case CreateSender(x, r, rowOk, transportOk) => SenderFates(s, x, r, rowOk, transportOk);
      case _ =>
    }
  }

  lemma SenderFates(s: State, x: Socket, r: RoomId, rowOk: bool, transportOk: bool)
    requires Inv(s) && x in s.sockets
    ensures var e := CreateSender(x, r, rowOk, transportOk); var s' := Next(s, e);
      && s'.sessions.ended == s.sessions.ended && s'.sessions.unended == s.sessions.unended
      && s'.sessions.superseded == s.sessions.superseded + ReplacedBy(s, e)
  {
    hide Inv;
    var e := CreateSender(x, r, rowOk, transportOk);
    var s' := Next(s, e);
    assert forall q | q in s.rooms && q != r :: q in s'.rooms && s'.rooms[q] == s.rooms[q];
    if r in s.rooms && s'.sessions != s.sessions {
      SessionIsOld(s, r);
      assert ReplacedBy(s, e) == {s.rooms[r].session.value};
    } else {
      assert ReplacedBy(s, e) == {};
    }
  }

  lemma SessionIsOld(s: State, r: RoomId)
    requires Inv(s) && r in s.rooms
    ensures s.rooms[r].session.Some? && s.rooms[r].session.value < s.sessions.created
  {
    assert Holds(s.rooms, r, s.rooms[r].session.value) && Current(s.rooms, s.rooms[r].session.value);
  }

  /** The sessions whose rooms closed during a run, with the row written or not. */
  function ClosedDuring(s: State, events: seq<Event>, written: bool): set<SessionId>
    requires Possible(s, events)
    decreases |events|
  {
    if events == [] then {}
    else
      var now := if RowWritten(events[0]) == written then ClosedBy(s, events[0]) else {};
      now + ClosedDuring(Next(s, events[0]), events[1..], written)
  }

  function ReplacedDuring(s: State, events: seq<Event>): set<SessionId>
    requires Possible(s, events)
    decreases |events|
  {
    if events == [] then {} else ReplacedBy(s, events[0]) + ReplacedDuring(Next(s, events[0]), events[1..])
  }

  lemma {:induction false} FatesFrom(s: State, events: seq<Event>)
    requires Inv(s) && Possible(s, events)
    ensures var rows := After(s, events).sessions;
      && rows.ended == s.sessions.ended + ClosedDuring(s, events, true)
      && rows.unended == s.sessions.unended + ClosedDuring(s, events, false)
      && rows.superseded == s.sessions.superseded + ReplacedDuring(s, events)
    decreases |events|
  {
    hide Inv, ClosedBy, ReplacedBy, Next;
    if events == [] {
    } else {
      FatesStep(s, events[0]);
      StepKeeps(s, events[0]);
      FatesFrom(Next(s, events[0]), events[1..]);
    }
  }

  /** Every run of the server: a session is marked ended exactly when its room closed and the
      row was written, left open exactly when that write failed, and superseded exactly when
      its room went on with another. */
  lemma SessionFates(events: seq<Event>)
    requires Possible(Init(), events)
    ensures var rows := After(Init(), events).sessions;
      && rows.ended == ClosedDuring(Init(), events, true)
      && rows.unended == ClosedDuring(Init(), events, false)
      && rows.superseded == ReplacedDuring(Init(), events)
  {
    InitInv();
    FatesFrom(Init(), events);
  }

  lemma {:induction false} NoneUnwritten(s: State, events: seq<Event>)
    requires Possible(s, events) && forall i | 0 <= i < |events| :: RowWritten(events[i])
    ensures ClosedDuring(s, events, false) == {}
    decreases |events|
  {
    if events == [] {
    } else {
      assert RowWritten(events[0]);
      NoneUnwritten(Next(s, events[0]), events[1..]);
    }
  }

  /** If all those writes succeed, every session ever created is marked ended, is its room's
      current one, or was superseded. */
  lemma NoneLeftOpen(events: seq<Event>)
    requires Possible(Init(), events) && forall i | 0 <= i < |events| :: RowWritten(events[i])
    ensures var s := After(Init(), events);
      && s.sessions.unended == {}
      && forall i: SessionId | i < s.sessions.created ::
           i in s.sessions.ended || Current(s.rooms, i) || i in s.sessions.superseded
  {
    SessionFates(events);
    NoneUnwritten(Init(), events);
    EveryRun(events);
  }

  /** A room whose broadcaster has gone for good: when its timer expires the room is closed and,
      the row written, its session ended. */
  lemma LostLectureEnds(s: State, x: Socket, r: RoomId, between: seq<Event>)
    requires Inv(s) && x in s.sockets && r in s.rooms && s.rooms[r].broadcaster == Some(x)
    requires Possible(Next(s, Disconnect(x)), between)
    requires var s1, s2 := Next(s, Disconnect(x)), After(Next(s, Disconnect(x)), between);
      r in s1.grace && r in s2.grace && s2.grace[r] == s1.grace[r]
    ensures var s2 := After(Next(s, Disconnect(x)), between); var e := GraceExpires(s2.grace[r], true);
      && Enabled(s2, e) && r in s2.rooms && s2.rooms[r].session.Some?
      && r !in Next(s2, e).rooms && s2.rooms[r].session.value in Next(s2, e).sessions.ended
  {
    var s1 := Next(s, Disconnect(x));
    StepKeeps(s, Disconnect(x));
    RunKeeps(s1, between);
    var s2 := After(s1, between);
    assert EntryOk(s2, r);
    var e := GraceExpires(s2.grace[r], true);
    ClosesIff(s2, e, r);
    ClosedSession(s2, e, r);
  }
}
