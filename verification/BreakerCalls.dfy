/** The breaker as its callers see it: how much each ending counts, when it trips, and which
    calls are let through. */
module BreakerCalls {
  import opened Breaker

  // ----- Endings -----

  /** One failure at `t` is recorded: those at most 30 seconds old are kept; with the fifth
      the breaker opens for 60 seconds and starts from nothing. */
  ghost predicate CountsFailure(s: State, t: int, s': State) {
    exists k :: KeptFrom(s.failures, t, k) &&
      if |s.failures| - k >= 4 then s'.failures == [] && s'.openUntil == t + 60_000
      else s'.failures == s.failures[k..] + [t] && s'.openUntil == s.openUntil
  }

  /** Exactly the failures from the `k`th on are at most 30 seconds old. */
  ghost predicate KeptFrom(failures: seq<int>, t: int, k: int) {
    && 0 <= k <= |failures|
    && forall i | 0 <= i < |failures| :: i >= k <==> t - failures[i] <= 30_000
  }

  ghost predicate Nondecreasing(times: seq<int>) {
    forall i, j | 0 <= i <= j < |times| :: times[i] <= times[j]
  }

  lemma {:induction false} TrimKeeps(failures: seq<int>, t: int) returns (k: nat)
    requires Nondecreasing(failures)
    ensures KeptFrom(failures, t, k) && Trim(failures + [t], t) == failures[k..] + [t]
  {
    var all := failures + [t];
    if failures == [] || t - failures[0] <= 30_000 {
      k := 0;
      assert failures != [] ==> forall i | 0 <= i < |failures| :: failures[0] <= failures[i];
    } else {
      k := TrimKeeps(failures[1..], t);
      assert all[1..] == failures[1..] + [t];
      assert forall i | 0 < i < |failures| :: failures[i] == failures[1..][i - 1];
      k := k + 1;
      assert failures[k..] == failures[1..][k - 1..];
    }
  }

  lemma RecordedCounts(s: State, t: int)
    requires Nondecreasing(s.failures)
    ensures CountsFailure(s, t, Recorded(s, t))
  {
    var k := TrimKeeps(s.failures, t);
  }

  /** A success counts nothing, a timeout one failure, any other rejection one unless the
      breaker is open, and a non-OK response two, or one if the first of them trips. */
  lemma EndingCounts(s: State, ending: Ending, t1: int, t2: int, t3: int)
    requires Nondecreasing(s.failures) && forall i | 0 <= i < |s.failures| :: s.failures[i] <= t1
    ensures var s' := Ended(s, ending, t1, t2, t3);
      match ending
      case Succeeded => s' == s
      case TimedOut => CountsFailure(s, t1, s')
      case Failed => if t1 < s.openUntil then s' == s else CountsFailure(s, t2, s')
      case NotOk => exists mid ::
        && CountsFailure(s, t1, mid)
        && if t2 < mid.openUntil then s' == mid else CountsFailure(mid, t3, s')
  {
    if ending.TimedOut? || ending.NotOk? {
      RecordedCounts(s, t1);
    }
    if ending.NotOk? {
      var mid := Recorded(s, t1);
      var k := TrimKeeps(s.failures, t1);
      assert Nondecreasing(mid.failures);
      RecordedCounts(mid, t3);
    }
    if ending.Failed? {
      RecordedCounts(s, t2);
    }
  }

  /** From a breaker without failures, the third non-OK response within 30 seconds trips it:
      each of the first two counts double. */
  lemma ThreeBadResponses(a: int, b: int, c: int)
    requires 0 <= a <= b <= c <= a + 30_000
    ensures var s1 := Ended(State([], 0), NotOk, a, a, a);
      var s2 := Ended(s1, NotOk, b, b, b);
      s1 == State([a, a], 0) && s2 == State([a, a, b, b], 0) && Ended(s2, NotOk, c, c, c) == State([], c + 60_000)
  {
    assert [] + [a] == [a] && [a] + [a] == [a, a];
    assert [a, a] + [b] == [a, a, b] && [a, a, b] + [b] == [a, a, b, b];
    assert Recorded(State([], 0), a) == State([a], 0);
    assert Recorded(State([a], 0), a) == State([a, a], 0);
    assert Recorded(State([a, a], 0), b) == State([a, a, b], 0);
    assert Recorded(State([a, a, b], 0), b) == State([a, a, b, b], 0);
    var five := [a, a, b, b] + [c];
    assert Trim(five, c) == five;
  }

  // ----- Which calls are let through -----

  lemma TripsAscend(events: seq<Event>)
    requires AllowedRun(events)
    ensures var h := HistoryOf(events);
      && (forall i, j | 0 <= i <= j < |h.trips| :: h.trips[i].time <= h.trips[j].time)
      && Clock(events) >= 0
      && OpenUntil(h) == if h.trips == [] then 0 else h.trips[|h.trips| - 1].time + 60_000
  {
    RunRefines(events);
  }

  /** After any run, a call starts its fetch if and only if no trip was less than 60 seconds
      ago. */
  lemma FetchIffNoRecentTrip(events: seq<Event>, now: int)
    requires AllowedRun(events) && Clock(events) <= now
    ensures var h := HistoryOf(events);
      Starts(State([], 0), events + [Begin(now)]) == Starts(State([], 0), events) +
        if forall j | 0 <= j < |h.trips| :: h.trips[j].time + 60_000 <= now then [now] else []
  {
    hide Fresh;
    var h, more := HistoryOf(events), events + [Begin(now)];
    assert more[..|events|] == events;
    TripsAscend(events);
    NoFetchWhileOpen(more);
    NoFetchWhileOpen(events);
    StartedByBegin(h, Begin(now));
    if h.trips != [] {
      var last := h.trips[|h.trips| - 1];
      assert forall j | 0 <= j < |h.trips| :: h.trips[j].time <= last.time;
    }
  }

  /** A trip is never missed: of five failures in a row without a trip, the first is more than
      30 seconds older than the last. */
  lemma NoTripMissed(events: seq<Event>)
    requires AllowedRun(events)
    ensures var since := HistoryOf(events).since; var n := |since|;
      n >= 5 ==> since[n - 1].time - since[n - 5].time > 30_000
  {
    RunRefines(events);
    var since := HistoryOf(events).since;
    var n := |since|;
    if n >= 5 && since[n - 1].time - since[n - 5].time <= WINDOW {
      FreshFrom(since, since[n - 1].time, n - 5);
    }
  }

  lemma {:induction false} FreshFrom(failures: seq<Failure>, now: int, k: nat)
    requires Ordered(failures) && k < |failures| && now - failures[k].time <= WINDOW
    ensures |Fresh(failures, now)| >= |failures| - k
  {
    if k == 0 {
      AllFresh(failures, now);
    } else {
      FreshFrom(failures[1..], now, k - 1);
    }
  }
}
