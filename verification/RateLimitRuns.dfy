/** The rate limit in plain numbers: which request of a run is accepted, in terms of the
    answers given before. */
module RateLimitRuns {
  import opened RateLimit

  /** With the third last acceptance less than 10 seconds ago a request is rejected until it is
      10 seconds old; in all other cases it is accepted. */
  lemma AcceptedIff(times: seq<int>, clock: int, now: int)
    requires Spaced(times, clock) && clock <= now
    ensures var n, d := |times|, Decide(times, now);
      if n >= 3 && now - times[n - 3] < 10_000 then d == Rejected(times[n - 3] + 10_000 - now) else d == Accepted
  {
    var n := |times|;
    AtMostThree(times, clock, now);
    var k := RecentIsSuffix(times, now);
    if n >= 3 && now - times[n - 3] < WINDOW {
      assert k == n - 3;
      assert Recent(times, now)[0] == times[k];
    } else if n >= 3 {
      assert k > n - 3;
    }
  }

  /** The times of the requests of `u` that were accepted, by the answers given. */
  function AcceptedTo(events: seq<Event>, answers: seq<Decision>, u: User): seq<int>
    decreases |events|
  {
    if events == [] then []
    else match events[0]
      case SweepFires(_) => AcceptedTo(events[1..], answers, u)
      case Request(v, now) =>
        if answers == [] then []
        else
          var rest := AcceptedTo(events[1..], answers[1..], u);
          if v == u && answers[0].Accepted? then [now] + rest else rest
  }

  lemma {:induction false} HistoryIsAnswers(accepted: map<User, seq<int>>, events: seq<Event>, u: User)
    ensures Get(Histories(accepted, events), u) == Get(accepted, u) + AcceptedTo(events, Decisions(accepted, events), u)
    decreases |events|
  {
    if events == [] {
    } else if events[0].SweepFires? {
      HistoryIsAnswers(accepted, events[1..], u);
    } else {
      var v, now := events[0].user, events[0].now;
      var accepted' := accepted[v := Record(Get(accepted, v), now)];
      HistoryIsAnswers(accepted', events[1..], u);
      var all := Decisions(accepted, events);
      assert all[1..] == Decisions(accepted', events[1..]);
      assert v != u ==> Get(accepted', u) == Get(accepted, u);
    }
  }

  lemma {:induction false} LastDecision(accepted: map<User, seq<int>>, events: seq<Event>, u: User, now: int)
    ensures Decisions(accepted, events + [Request(u, now)]) ==
      Decisions(accepted, events) + [Decide(Get(Histories(accepted, events), u), now)]
    decreases |events|
  {
    var more := events + [Request(u, now)];
    if events == [] {
      assert Decisions(accepted[u := Record(Get(accepted, u), now)], more[1..]) == [];
    } else {
      assert more[1..] == events[1..] + [Request(u, now)];
      match events[0]
      case SweepFires(_) => LastDecision(accepted, events[1..], u, now);
      case Request(v, t) => LastDecision(accepted[v := Record(Get(accepted, v), t)], events[1..], u, now);
    }
  }

  lemma {:induction false} SpacedAtClock(accepted: map<User, seq<int>>, events: seq<Event>, clock: int, now: int)
    requires AllSpaced(accepted, clock) && Nondecreasing(events, clock)
    requires clock <= now && forall i | 0 <= i < |events| :: Time(events[i]) <= now
    ensures AllSpaced(Histories(accepted, events), now)
    decreases |events|
  {
    if events == [] {
      assert forall u | u in accepted :: Spaced(accepted[u], clock);
    } else {
      var t := Time(events[0]);
      if events[0].Request? {
        assert Spaced(Get(accepted, events[0].user), clock);
        RecordKeepsSpaced(Get(accepted, events[0].user), clock, t);
        SpacedAtClock(accepted[events[0].user := Record(Get(accepted, events[0].user), t)], events[1..], t, now);
      } else {
        SpacedAtClock(accepted, events[1..], t, now);
      }
    }
  }

  /** Any run, with sweeps anywhere: a request is rejected exactly when three requests of that
      user were accepted within the last 10 seconds, and told to wait until the first of the
      three is 10 seconds old. */
  lemma AnswerIff(events: seq<Event>, u: User, now: int, start: int)
    requires Nondecreasing(events + [Request(u, now)], start)
    ensures var answers := Decisions(map[], events); var taken := AcceptedTo(events, answers, u); var n := |taken|;
      Decisions(map[], events + [Request(u, now)]) == answers +
        [if n >= 3 && now - taken[n - 3] < 10_000 then Rejected(taken[n - 3] + 10_000 - now) else Accepted]
  {
    hide Decisions, Histories, AcceptedTo, Decide, Nondecreasing, Spaced;
    BeforeLast(events, Request(u, now), start);
    SpacedAtClock(map[], events, start, now);
    LastDecision(map[], events, u, now);
    HistoryIsAnswers(map[], events, u);
    var taken := AcceptedTo(events, Decisions(map[], events), u);
    assert [] + taken == taken;
    NothingYet(now);
    assert Spaced(taken, now);
    AcceptedIff(taken, now, now);
  }

  lemma NothingYet(now: int)
    ensures Spaced([], now)
  {
  }

  lemma BeforeLast(events: seq<Event>, last: Event, start: int)
    requires Nondecreasing(events + [last], start)
    ensures Nondecreasing(events, start) && start <= Time(last)
    ensures forall i | 0 <= i < |events| :: Time(events[i]) <= Time(last)
  {
    var more := events + [last];
    assert events == more[..|events|] && more[|events|] == last;
    assert start <= Time(more[|events|]);
    forall i | 0 <= i < |events| ensures start <= Time(events[i]) <= Time(last) {
      assert more[i] == events[i];
    }
  }
}
