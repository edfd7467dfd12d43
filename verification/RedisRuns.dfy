/** Whole runs over the Redis indexes: registrations that come between a read and its reap,
    and expiry. */
module RedisRuns {
  import opened RedisIndex

  // ----- A registration in between -----

  ghost predicate StaysIndexed(s: State) {
    forall more: seq<Step> | Possible(s, more) && Calm(s, more) :: Indexed(After(s, more))
  }

  lemma OneStep(s: State, step: Step)
    requires Enabled(s, step) && !Disturbs(s, step)
    ensures Possible(s, [step]) && Calm(s, [step]) && After(s, [step]) == Next(s, step)
  {
    var s1 := Next(s, step);
    assert [step][1..] == [];
    assert Possible(s1, []) && Calm(s1, []) && After(s1, []) == s1;
  }

  /** From an exact index, calm runs stay exact if and only if nothing live is about to be
      removed. */
  lemma StaysIndexedIff(s: State)
    requires Indexed(s)
    ensures StaysIndexed(s) <==> ReapsStale(s)
  {
    if ReapsStale(s) {
      forall more: seq<Step> | Possible(s, more) && Calm(s, more) ensures Indexed(After(s, more)) {
        RunKeeps(s, more);
      }
    } else {
      if c, id :| Reaping(s.edgeCalls, c, id) && Live(s, id, s.clock) {
        OneStep(s, ReapEdges(c, true, s.clock));
        assert Live(Next(s, ReapEdges(c, true, s.clock)), id, s.clock);
      } else {
        var c, id :| Reaping(s.roomCalls, c, id) && Running(s, id);
        OneStep(s, ReapRooms(c, true, s.clock));
        assert Running(Next(s, ReapRooms(c, true, s.clock)), id);
      }
    }
  }

  /** After any calm run, a step keeps the indexes exact for good if and only if it does not
      register an id that some call is about to remove; otherwise a continuation hides a
      live edge or an active room. */
  lemma DisturbanceIff(now: int, before: seq<Step>, step: Step)
    requires Possible(Init(now), before) && Calm(Init(now), before) && Enabled(After(Init(now), before), step)
    ensures StaysIndexed(Next(After(Init(now), before), step)) <==> !Disturbs(After(Init(now), before), step)
  {
    var s := After(Init(now), before);
    RunKeeps(Init(now), before);
    EdgesStayIndexed(s, step);
    RoomsStayIndexed(s, step);
    StaysIndexedIff(Next(s, step));
    if Disturbs(s, step) {
      DisturbedNotStale(s, step);
    } else {
      StepKeeps(s, step);
    }
  }

  lemma DisturbedNotStale(s: State, step: Step)
    requires Enabled(s, step) && Disturbs(s, step)
    ensures !ReapsStale(Next(s, step))
  {
    var s' := Next(s, step);
    if step.RegisterEdge? {
      var c :| Reaping(s.edgeCalls, c, step.id);
      assert Reaping(s'.edgeCalls, c, step.id) && Live(s', step.id, s'.clock);
    } else {
      var c :| Reaping(s.roomCalls, c, step.id);
      assert Reaping(s'.roomCalls, c, step.id) && Running(s', step.id);
    }
  }

  /** An id that is not listed stays so until it registers: heartbeats do not list it. */
  lemma {:induction false} UnlistedStays(s: State, steps: seq<Step>, id: Id)
    requires Possible(s, steps) && id !in s.activeEdges
    requires forall i | 0 <= i < |steps| :: !(steps[i].RegisterEdge? && steps[i].id == id)
    ensures id !in After(s, steps).activeEdges
    decreases |steps|
  {
    if steps == [] {
    } else {
      assert !(steps[0].RegisterEdge? && steps[0].id == id);
      UnlistedStays(Next(s, steps[0]), steps[1..], id);
    }
  }

  /** An edge expires, a reader finds it stale, it registers again, and the reader reaps. */
  function Race(): seq<Step> {
    [RegisterEdge("e", 200, 0), EdgeMembers(1, 30_000), EdgeKeys(1, 30_000), RegisterEdge("e", 200, 30_001),
     ReapEdges(1, true, 30_002), Heartbeat("e", 5, 30_003)]
  }

  lemma RunCons(s: State, steps: seq<Step>, k: nat)
    requires k < |steps| && Enabled(s, steps[k]) && Possible(Next(s, steps[k]), steps[k + 1..])
    ensures Possible(s, steps[k..]) && After(s, steps[k..]) == After(Next(s, steps[k]), steps[k + 1..])
  {
    assert steps[k..][1..] == steps[k + 1..];
  }

  /** A run from the start: the edge is alive and sends heartbeats, but is not listed. */
  lemma ReapRace()
    ensures Possible(Init(0), Race())
    ensures var s := After(Init(0), Race());
      Live(s, "e", s.clock) && s.edges["e"].userCount == 5 && "e" !in s.activeEdges
  {
    var steps := Race();
    var s1 := Next(Init(0), steps[0]);
    assert s1.activeEdges == {"e"};
    var s2 := Next(s1, steps[1]);
    assert s2.edgeCalls == map[1 := Members({"e"})];
    var s3 := Next(s2, steps[2]);
    assert s3.edgeCalls[1].ids == {"e"};
    var s4 := Next(s3, steps[3]);
    var s5 := Next(s4, steps[4]);
    var s6 := Next(s5, steps[5]);
    assert steps[6..] == [];
    RaceRuns(s1, s2, s3, s4, s5, s6, steps);
  }

  lemma RaceRuns(s1: State, s2: State, s3: State, s4: State, s5: State, s6: State, steps: seq<Step>)
    requires |steps| == 6 && Enabled(Init(0), steps[0]) && s1 == Next(Init(0), steps[0])
    requires Enabled(s1, steps[1]) && s2 == Next(s1, steps[1]) && Enabled(s2, steps[2]) && s3 == Next(s2, steps[2])
    requires Enabled(s3, steps[3]) && s4 == Next(s3, steps[3]) && Enabled(s4, steps[4]) && s5 == Next(s4, steps[4])
    requires Enabled(s5, steps[5]) && s6 == Next(s5, steps[5])
    ensures Possible(Init(0), steps) && After(Init(0), steps) == s6
  {
    hide Enabled, Next, Init;
    assert steps[6..] == [];
    RunCons(s5, steps, 5);
    RunCons(s4, steps, 4);
    RunCons(s3, steps, 3);
    RunCons(s2, steps, 2);
    RunCons(s1, steps, 1);
    RunCons(Init(0), steps, 0);
    assert steps[0..] == steps;
  }

  // ----- Expiry -----

  /** An expired or removed edge stays gone until it registers again, heartbeats or not. */
  lemma {:induction false} DeadStaysDead(s: State, steps: seq<Step>, id: Id)
    requires Possible(s, steps) && !Live(s, id, s.clock)
    requires forall i | 0 <= i < |steps| :: !(steps[i].RegisterEdge? && steps[i].id == id)
    ensures !Live(After(s, steps), id, After(s, steps).clock)
    decreases |steps|
  {
    if steps == [] {
    } else {
      assert !(steps[0].RegisterEdge? && steps[0].id == id);
      DeadStaysDead(Next(s, steps[0]), steps[1..], id);
    }
  }

  predicate Touches(step: Step, id: Id) {
    (step.RegisterEdge? || step.Heartbeat?) && step.id == id
  }

  /** The edge was heard of within the last 30 seconds. */
  ghost predicate HeardOf(steps: seq<Step>, id: Id, now: int) {
    exists i :: 0 <= i < |steps| && Touches(steps[i], id) && now - TTL < steps[i].now
  }

  lemma {:induction false} LiveUnlessSilent(s: State, steps: seq<Step>, id: Id)
    requires Possible(s, steps) && Live(After(s, steps), id, After(s, steps).clock)
    ensures HeardOf(steps, id, After(s, steps).clock) || (id in s.edges && After(s, steps).clock < s.edges[id].expiresAt)
    decreases |steps|
  {
    if steps == [] {
    } else {
      var s1 := Next(s, steps[0]);
      LiveUnlessSilent(s1, steps[1..], id);
      var now := After(s, steps).clock;
      if HeardOf(steps[1..], id, now) {
        var i :| 0 <= i < |steps[1..]| && Touches(steps[1..][i], id) && now - TTL < steps[1..][i].now;
        assert steps[i + 1] == steps[1..][i];
      } else if Touches(steps[0], id) && (id !in s.edges || s1.edges[id] != s.edges[id]) {
        assert now - TTL < steps[0].now;
      }
    }
  }

  /** Over any run, an unexpired edge registered or sent a heartbeat within the last 30 seconds. */
  lemma LiveWasHeardOf(start: int, steps: seq<Step>, id: Id)
    requires Possible(Init(start), steps)
    requires Live(After(Init(start), steps), id, After(Init(start), steps).clock)
    ensures HeardOf(steps, id, After(Init(start), steps).clock)
  {
    LiveUnlessSilent(Init(start), steps, id);
  }

  /** A registration stores the edge for 30 seconds; a heartbeat of an edge that has not
      expired renews them and the user count alone; one that has expired changes nothing. */
  lemma TouchLeases(s: State, step: Step, id: Id)
    requires Enabled(s, step) && Touches(step, id)
    ensures var s', known := Next(s, step), id in s.edges && step.now < s.edges[id].expiresAt;
      && s'.broadcasts == s.broadcasts
      && (forall other | other != id :: other in s'.edges <==> other in s.edges)
      && (forall other | other != id && other in s.edges :: s'.edges[other] == s.edges[other])
      && (step.RegisterEdge? ==>
            && id in s'.activeEdges && id in s'.edges
            && s'.edges[id] == Edge(id, 0, step.maxCapacity, step.now + 30_000))
      && (step.Heartbeat? && known ==>
            && id in s'.edges && s'.edges[id].userCount == step.userCount && s'.edges[id].expiresAt == step.now + 30_000
            && s'.edges[id].maxCapacity == s.edges[id].maxCapacity && s'.edges[id].serverId == s.edges[id].serverId)
      && (step.Heartbeat? && !known ==> s'.edges == s.edges)
      && (step.Heartbeat? ==> s'.activeEdges == s.activeEdges)
  {
  }

  predicate Mentions(step: Step, id: Id) {
    Touches(step, id) || (step.DeleteEdge? && step.id == id)
  }

  lemma {:induction false} UnmentionedStays(s: State, steps: seq<Step>, id: Id)
    requires Possible(s, steps) && forall i | 0 <= i < |steps| :: !Mentions(steps[i], id)
    ensures id in After(s, steps).edges <==> id in s.edges
    ensures id in s.edges ==> After(s, steps).edges[id] == s.edges[id]
    decreases |steps|
  {
    if steps == [] {
    } else {
      assert !Mentions(steps[0], id);
      UnmentionedStays(Next(s, steps[0]), steps[1..], id);
    }
  }

  /** Over any run an edge that was last heard of at `first` is alive for exactly 30 seconds
      from then on, unless it is removed, whatever other edges, readers and rooms do. */
  lemma AliveForThirtySeconds(s: State, first: Step, rest: seq<Step>, id: Id, t: int)
    requires Enabled(s, first) && Touches(first, id) && (first.Heartbeat? ==> id in s.edges && first.now < s.edges[id].expiresAt)
    requires Possible(Next(s, first), rest) && forall i | 0 <= i < |rest| :: !Mentions(rest[i], id)
    ensures Live(After(Next(s, first), rest), id, t) <==> t < first.now + 30_000
    ensures var s' := After(Next(s, first), rest);
      id in s'.edges && s'.edges[id].userCount == if first.Heartbeat? then first.userCount else 0
  {
    TouchLeases(s, first, id);
    UnmentionedStays(Next(s, first), rest, id);
  }

  // ----- Removal and the end of a room -----

  /** A removed edge is gone at once, and listed no more once its SREM is through. */
  lemma RemovalUnlists(s: State, c: CallId, id: Id, now: int, between: seq<Step>, later: int)
    requires Enabled(s, DeleteEdge(c, id, now)) && Possible(Next(s, DeleteEdge(c, id, now)), between)
    requires var s2 := After(Next(s, DeleteEdge(c, id, now)), between);
      Reaping(s2.edgeCalls, c, id) && Enabled(s2, ReapEdges(c, true, later))
    ensures forall t: int :: !Live(Next(s, DeleteEdge(c, id, now)), id, t)
    ensures Reaping(Next(s, DeleteEdge(c, id, now)).edgeCalls, c, id)
    ensures id !in Next(After(Next(s, DeleteEdge(c, id, now)), between), ReapEdges(c, true, later)).activeEdges
  {
  }

  /** A call removes its own ids once, if the SREM goes through, and is over either way; the
      end of an unknown room changes nothing. */
  lemma ReapsOnce(s: State, step: Step)
    requires Enabled(s, step)
    ensures var s' := Next(s, step);
      && (step.ReapEdges? ==>
            && s'.edgeCalls == s.edgeCalls - {step.call} && s'.edges == s.edges
            && forall id :: id in s'.activeEdges <==> id in s.activeEdges && !(step.ok && Reaping(s.edgeCalls, step.call, id)))
      && (step.ReapRooms? ==>
            && s'.roomCalls == s.roomCalls - {step.call} && s'.broadcasts == s.broadcasts
            && forall id :: id in s'.activeBroadcasts <==> id in s.activeBroadcasts && !(step.ok && Reaping(s.roomCalls, step.call, id)))
      && (step.EndRoom? && step.id !in s.broadcasts ==> s' == s.(clock := step.now))
  {
  }

  predicate Rules(step: Step, id: Id) {
    (step.RegisterBroadcast? || step.EndRoom?) && step.id == id
  }

  lemma {:induction false} UnruledStays(s: State, steps: seq<Step>, id: Id)
    requires Possible(s, steps) && forall i | 0 <= i < |steps| :: !Rules(steps[i], id)
    ensures Running(After(s, steps), id) <==> Running(s, id)
    decreases |steps|
  {
    if steps == [] {
    } else {
      assert !Rules(steps[0], id);
      UnruledStays(Next(s, steps[0]), steps[1..], id);
    }
  }

  /** Over any run a room is active exactly if its latest registration or end was a
      registration. */
  lemma ActiveIffRegisteredLast(s: State, last: Step, rest: seq<Step>, id: Id)
    requires Enabled(s, last) && Rules(last, id)
    requires Possible(Next(s, last), rest) && forall i | 0 <= i < |rest| :: !Rules(rest[i], id)
    ensures Running(After(Next(s, last), rest), id) <==> last.RegisterBroadcast?
    ensures last.RegisterBroadcast? ==> id in Next(s, last).activeBroadcasts
    ensures last.EndRoom? && id in s.broadcasts ==> Reaping(Next(s, last).roomCalls, last.call, id)
  {
    UnruledStays(Next(s, last), rest, id);
  }

  /** An undisturbed read whose SREM goes through leaves exactly the living in the sets. */
  lemma ReadCleans(s: State, c: CallId, now: int)
    requires Indexed(s) && ReapsStale(s) && Enabled(s, EdgeMembers(c, now)) && Enabled(s, RoomMembers(c, now))
    ensures Enabled(Next(s, EdgeMembers(c, now)), EdgeKeys(c, now))
    ensures Enabled(Next(Next(s, EdgeMembers(c, now)), EdgeKeys(c, now)), ReapEdges(c, true, now))
    ensures forall id ::
      id in Next(Next(Next(s, EdgeMembers(c, now)), EdgeKeys(c, now)), ReapEdges(c, true, now)).activeEdges <==> Live(s, id, now)
    ensures Enabled(Next(s, RoomMembers(c, now)), RoomKeys(c, now))
    ensures Enabled(Next(Next(s, RoomMembers(c, now)), RoomKeys(c, now)), ReapRooms(c, true, now))
    ensures forall id ::
      id in Next(Next(Next(s, RoomMembers(c, now)), RoomKeys(c, now)), ReapRooms(c, true, now)).activeBroadcasts <==> Running(s, id)
  {
    hide ReapsStale;
    forall id | Live(s, id, now) ensures id in s.activeEdges {
      assert Live(s, id, s.clock);
    }
  }
}
