/** Reconnecting inside a grace window: when the lecture's session survives. */
module LifecycleReconnect {
  import opened Common
  import opened Lifecycle
  import opened LifecycleInvariant

  // ----- Reconnecting -----

  /** The first room, in insertion order, that `x` broadcasts in. */
  function FirstRoom(s: State, x: Socket, order: seq<RoomId>): Option<RoomId> {
    if order == [] then None
    else if order[0] in s.rooms && s.rooms[order[0]].broadcaster == Some(x) then Some(order[0])
    else FirstRoom(s, x, order[1..])
  }

  /** Only the first of a lost socket's rooms is left with the socket's producers. */
  lemma {:induction false} LoseRoomsSave(s: State, x: Socket, rs: seq<RoomId>, r: RoomId)
    requires x in s.sockets && Distinct(rs) && r in rs && r in s.rooms && s.rooms[r].broadcaster == Some(x)
    requires forall t | t in s.timers :: t < s.timerCount
    ensures var s' := LoseRooms(s, x, rs);
      && r in s'.grace && s'.grace[r] in s'.timers
      && s'.timers[s'.grace[r]] == Timer(r, x, if FirstRoom(s, x, rs) == Some(r) then s.sockets[x].producers else [])
    decreases |rs|
  {
    var s1 := LoseRoom(s, x, rs[0]);
    if rs[0] == r {
      LoseRoomsKeepTimers(s1, x, rs[1..]);
    } else {
      assert r in rs[1..];
      LoseRoomsSave(s1, x, rs[1..], r);
      SameFirst(s, s1, x, rs[1..]);
    }
  }

  lemma {:induction false} SameFirst(s: State, s1: State, x: Socket, order: seq<RoomId>)
    requires s.rooms == s1.rooms
    ensures FirstRoom(s, x, order) == FirstRoom(s1, x, order)
  {
    if order == [] {
    } else {
      SameFirst(s, s1, x, order[1..]);
    }
  }

  lemma {:induction false} GoneStaysGone(s: State, events: seq<Event>, t: TimerId)
    requires Possible(s, events) && t < s.timerCount && t !in s.timers
    ensures t !in After(s, events).timers
    decreases |events|
  {
    if events == [] {
    } else {
      GoneInStep(s, events[0], t);
      GoneStaysGone(Next(s, events[0]), events[1..], t);
    }
  }

  lemma GoneInStep(s: State, e: Event, t: TimerId)
    requires Enabled(s, e) && t < s.timerCount && t !in s.timers
    ensures t < Next(s, e).timerCount && t !in Next(s, e).timers
  {
    if e.Disconnect? {
      LoseRoomsGone(s, e.socket, s.order, t);
    }
  }

  lemma {:induction false} LoseRoomsGone(s: State, x: Socket, rs: seq<RoomId>, t: TimerId)
    requires x in s.sockets && t < s.timerCount && t !in s.timers
    ensures t < LoseRooms(s, x, rs).timerCount && t !in LoseRooms(s, x, rs).timers
    decreases |rs|
  {
    if rs == [] {
    } else {
      LoseRoomsGone(LoseRoom(s, x, rs[0]), x, rs[1..], t);
    }
  }

  /** As long as its timer is pending, a room's saved resources and session are frozen. */
  lemma FrozenStep(s: State, e: Event, r: RoomId)
    requires Inv(s) && Enabled(s, e) && r in s.grace
    ensures r in s.rooms && s.grace[r] in s.timers && s.grace[r] < s.timerCount
    ensures var s', t := Next(s, e), s.grace[r];
      t in s'.timers ==>
        && s'.timers[t] == s.timers[t]
        && r in s'.grace && s'.grace[r] == t && r in s'.rooms && s'.rooms[r].session == s.rooms[r].session
  {
    var t := s.grace[r];
    assert EntryOk(s, r) && TimerOk(s, t);
    match e {
      case Disconnect(x) =>
        NoTimerOverwritten(s, x);
        LoseRoomsFrame(s, x, s.order);
      case GraceExpires(u, rowOk) =>
        assert TimerOk(s, u);
        ExpiredIsCleanup(s, u, rowOk);
      case CreateSender(_, q, _, _) =>
        if q in s.grace {
          assert EntryOk(s, q);
        }
      case StopBroadcast(_, q, _) =>
        if q in s.grace {
          assert EntryOk(s, q);
        }
      case _ =>
    }
  }

  lemma {:induction false} FrozenInGrace(s: State, events: seq<Event>, r: RoomId)
    requires Inv(s) && Possible(s, events) && r in s.grace
    requires r in After(s, events).grace && After(s, events).grace[r] == s.grace[r]
    ensures var s' := After(s, events);
      && r in s.rooms && r in s'.rooms && s'.rooms[r].session == s.rooms[r].session
      && s.grace[r] in s.timers && s.grace[r] in s'.timers && s'.timers[s.grace[r]] == s.timers[s.grace[r]]
    decreases |events|
  {
    var t := s.grace[r];
    assert EntryOk(s, r);
    if events == [] {
    } else {
      var s1 := Next(s, events[0]);
      FrozenStep(s, events[0], r);
      StepKeeps(s, events[0]);
      RunKeeps(s1, events[1..]);
      assert EntryOk(After(s, events), r);
      if t !in s1.timers {
        GoneInStepCount(s, events[0]);
        GoneStaysGone(s1, events[1..], t);
      } else {
        FrozenInGrace(s1, events[1..], r);
      }
    }
  }

  lemma GoneInStepCount(s: State, e: Event)
    requires Enabled(s, e)
    ensures s.timerCount <= Next(s, e).timerCount
  {
    if e.Disconnect? {
      LoseRoomsFrame(s, e.socket, s.order);
    }
  }

  /** A reconnect in the grace window, whatever happens in between, keeps the lecture's
      session exactly when the lost socket had producers and this was the first of its
      rooms (or the new row cannot be written). */
  lemma ReconnectKeepsSession(s: State, x: Socket, r: RoomId, between: seq<Event>, y: Socket, rowOk: bool, transportOk: bool)
    requires Inv(s) && x in s.sockets && r in s.rooms && s.rooms[r].broadcaster == Some(x)
    requires Possible(Next(s, Disconnect(x)), between)
    requires var s1 := Next(s, Disconnect(x)); var s2 := After(s1, between);
      r in s1.grace && r in s2.grace && s2.grace[r] == s1.grace[r] && y in s2.sockets
    ensures var s2 := After(Next(s, Disconnect(x)), between);
      var s3 := Next(s2, CreateSender(y, r, rowOk, transportOk));
      && r in s3.rooms && s3.rooms[r].broadcaster == Some(y)
      && (s3.rooms[r].session == s.rooms[r].session <==>
            (s.sockets[x].producers != [] && FirstRoom(s, x, s.order) == Some(r)) || !rowOk)
  {
    var s1 := Next(s, Disconnect(x));
    var s2 := After(s1, between);
    forall t | t in s.timers ensures t < s.timerCount {
      assert TimerOk(s, t);
    }
    LoseRoomsSave(s, x, s.order, r);
    LoseRoomsFrame(s, x, s.order);
    StepKeeps(s, Disconnect(x));
    RunKeeps(s1, between);
    FrozenInGrace(s1, between, r);
    assert EntryOk(s2, r) && RoomOk(s2, None, [], r);
    var old_ := s2.rooms[r].session.value;
    assert Holds(s2.rooms, r, old_) && Current(s2.rooms, old_);
  }

  /** Whichever lost room it is, its window does open. */
  lemma DisconnectOpensGrace(s: State, x: Socket, r: RoomId)
    requires Inv(s) && x in s.sockets && r in s.rooms && s.rooms[r].broadcaster == Some(x)
    ensures r in Next(s, Disconnect(x)).grace
  {
    forall t | t in s.timers ensures t < s.timerCount {
      assert TimerOk(s, t);
    }
    LoseRoomsSave(s, x, s.order, r);
  }

  // ----- Two rooms on one socket -----

  /** A teacher runs two lectures, each with a live producer, from one socket; the socket
      drops, and the teacher comes back to lecture b. */
  function TwoLectures(): seq<Event> {
    [Connect("t"), CreateSender("t", "a", true, true), StartBroadcast("t", "a", "video", true),
     CreateSender("t", "b", true, true), StartBroadcast("t", "b", "video", true),
     Disconnect("t"), Connect("u"), CreateSender("u", "b", true, true)]
  }

  function Live(producer: ProducerId, session: SessionId): Broadcast {
    Broadcast(Some("t"), map["video" := producer], Some(session))
  }

  function OneLive(): State {
    State(["a"], map["a" := Live(0, 0)], map[], map[], 0,
      map["t" := Resources(true, [0])], {"t"}, 1, Sessions(1, {}, {}, {}))
  }

  function BothLive(): State {
    State(["a", "b"], map["a" := Live(0, 0), "b" := Live(1, 1)], map[], map[], 0,
      map["t" := Resources(true, [0, 1])], {"t"}, 2, Sessions(2, {}, {}, {}))
  }

  lemma FirstLecture(s: State)
    requires s == Next(Init(), Connect("t"))
    ensures Enabled(s, TwoLectures()[1])
    ensures Enabled(Next(s, TwoLectures()[1]), TwoLectures()[2])
    ensures Next(Next(s, TwoLectures()[1]), TwoLectures()[2]) == OneLive()
  {
    var s1 := Next(s, TwoLectures()[1]);
    assert s1.rooms == map["a" := Broadcast(None, map[], Some(0))];
    var s2 := Next(s1, TwoLectures()[2]);
    assert s2.rooms["a"] == Live(0, 0);
    assert s2.rooms == OneLive().rooms;
    assert s2.sockets["t"].producers == [0];
    assert s2.sockets == OneLive().sockets;
    assert s2.order == ["a"];
  }

  lemma SecondLecture()
    ensures Enabled(OneLive(), TwoLectures()[3])
    ensures Enabled(Next(OneLive(), TwoLectures()[3]), TwoLectures()[4])
    ensures Next(Next(OneLive(), TwoLectures()[3]), TwoLectures()[4]) == BothLive()
  {
    var s1 := Next(OneLive(), TwoLectures()[3]);
    assert s1.rooms == OneLive().rooms["b" := Broadcast(None, map[], Some(1))];
    var s2 := Next(s1, TwoLectures()[4]);
    assert s2.rooms["b"] == Live(1, 1);
    assert s2.rooms == BothLive().rooms;
    assert s2.sockets["t"].producers == [0, 1];
    assert s2.sockets == BothLive().sockets;
    assert s2.order == ["a", "b"];
  }

  lemma BackToB()
    ensures var s1 := Next(BothLive(), Disconnect("t"));
      && Enabled(s1, Connect("u"))
      && Enabled(Next(s1, Connect("u")), CreateSender("u", "b", true, true))
      && Next(Next(s1, Connect("u")), CreateSender("u", "b", true, true)).sessions == Sessions(3, {}, {}, {1})
  {
    var s := BothLive();
    var s1 := LoseRoom(s, "t", "a");
    var s2 := LoseRoom(s1, "t", "b");
    assert s.order[1..] == ["b"] && s.order[1..][1..] == [];
    assert LoseRooms(s, "t", s.order) == LoseRooms(s1, "t", s.order[1..]) == s2;
    assert s2.timers[1].saved == [] && s2.grace["b"] == 1;
  }

  lemma RunCons(s: State, events: seq<Event>, k: nat)
    requires k < |events| && Enabled(s, events[k]) && Possible(Next(s, events[k]), events[k + 1..])
    ensures Possible(s, events[k..]) && After(s, events[k..]) == After(Next(s, events[k]), events[k + 1..])
  {
    assert events[k..][1..] == events[k + 1..];
  }

  /** Both lectures had a live producer when the socket dropped, yet lecture b comes back
      with a new session and its old one superseded. */
  lemma SecondRoomLosesSession()
    ensures Possible(Init(), TwoLectures())
    ensures After(Init(), TwoLectures()).sessions == Sessions(3, {}, {}, {1})
  {
    var es := TwoLectures();
    var s1 := Next(Init(), es[0]);
    FirstLecture(s1);
    SecondLecture();
    BackToB();
    TwoLecturesRun(s1, es);
  }

  lemma TwoLecturesRun(s1: State, es: seq<Event>)
    requires |es| == 8 && es == TwoLectures() && Enabled(Init(), es[0]) && s1 == Next(Init(), es[0])
    requires Enabled(s1, es[1]) && Enabled(Next(s1, es[1]), es[2]) && Next(Next(s1, es[1]), es[2]) == OneLive()
    requires Enabled(OneLive(), es[3]) && Enabled(Next(OneLive(), es[3]), es[4])
    requires Next(Next(OneLive(), es[3]), es[4]) == BothLive()
    requires Enabled(BothLive(), es[5]) && Enabled(Next(BothLive(), es[5]), es[6])
    requires Enabled(Next(Next(BothLive(), es[5]), es[6]), es[7])
    ensures Possible(Init(), es)
    ensures After(Init(), es) == Next(Next(Next(BothLive(), es[5]), es[6]), es[7])
  {
    hide Next, Enabled, OneLive, BothLive, TwoLectures, Init;
    var b1 := Next(BothLive(), es[5]);
    var b2 := Next(b1, es[6]);
    assert es[8..] == [];
    RunCons(b2, es, 7);
    RunCons(b1, es, 6);
    RunCons(BothLive(), es, 5);
    RunCons(Next(OneLive(), es[3]), es, 4);
    RunCons(OneLive(), es, 3);
    RunCons(Next(s1, es[1]), es, 2);
    RunCons(s1, es, 1);
    RunCons(Init(), es, 0);
    assert es[0..] == es;
  }
}
