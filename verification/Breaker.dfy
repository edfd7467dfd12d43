/** The circuit breaker in front of the AI service (backend/src/system-manager/aiClient.js):
    a trimmed array and a deadline, refining a machine that keeps whole histories. */
module Breaker {
  const THRESHOLD: nat := 5
  const WINDOW: nat := 30_000
  const OPEN_FOR: nat := 60_000

  type CallId = nat

  /** How the awaited part of a call ends: `TimedOut` is an AbortError, `Failed` any other
      rejection, a body that does not parse included. */
  datatype Ending = Succeeded | NotOk | TimedOut | Failed

  /** A call asks to start, or a started call ends. An ending reads the clock up to three times. */
  datatype Event = Begin(now: int) | End(call: CallId, ending: Ending, t1: int, t2: int, t3: int)

  // ----- The breaker's state and what the code does to it -----

  datatype State = State(failures: seq<int>, openUntil: int)

  predicate IsOpen(s: State, now: int) { now < s.openUntil }

  function Trim(failures: seq<int>, now: int): seq<int> {
    if failures != [] && now - failures[0] > WINDOW then Trim(failures[1..], now) else failures
  }

  function Recorded(s: State, now: int): State {
    var kept := Trim(s.failures + [now], now);
    if |kept| >= THRESHOLD then State([], now + OPEN_FOR) else State(kept, s.openUntil)
  }

  /** The outcome paths of `_post`: a non-OK response records, throws, and its own catch
      records again unless the breaker has opened. */
  function Ended(s: State, ending: Ending, t1: int, t2: int, t3: int): State {
    match ending
    case Succeeded => s
    case NotOk =>
      var first := Recorded(s, t1);
      if IsOpen(first, t2) then first else Recorded(first, t3)
    case TimedOut => Recorded(s, t1)
    case Failed => if IsOpen(s, t1) then s else Recorded(s, t2)
  }

  function Next(s: State, e: Event): State {
    match e
    case Begin(_) => s
    case End(_, ending, t1, t2, t3) => Ended(s, ending, t1, t2, t3)
  }

  function Run(s: State, events: seq<Event>): State {
    if events == [] then s else Next(Run(s, events[..|events| - 1]), events[|events| - 1])
  }

  /** The times at which fetches start. */
  function Starts(s: State, events: seq<Event>): seq<int> {
    if events == [] then []
    else
      var front, e := events[..|events| - 1], events[|events| - 1];
      Starts(s, front) + if e.Begin? && !IsOpen(Run(s, front), e.now) then [e.now] else []
  }

  class AiClient {
    var failures: seq<int>
    var breakerOpenUntil: int

    function Value(): State
      reads this
    {
      State(failures, breakerOpenUntil)
    }

    constructor ()
      ensures Value() == State([], 0)
    {
      failures, breakerOpenUntil := [], 0;
    }

    method RecordFailure(now: int)
      modifies this
      ensures Value() == Recorded(old(Value()), now)
    {
      failures := failures + [now];
      ghost var pushed := failures;
      while failures != [] && now - failures[0] > WINDOW
        invariant Trim(failures, now) == Trim(pushed, now)
        invariant breakerOpenUntil == old(breakerOpenUntil)
        decreases |failures|
      {
        failures := failures[1..];
      }
      if |failures| >= THRESHOLD {
        breakerOpenUntil := now + OPEN_FOR;
        failures := [];
      }
    }

    /** The guard of `_post`. */
    method PostBegins(now: int) returns (fetching: bool)
      ensures fetching <==> !IsOpen(Value(), now)
    {
      fetching := !(now < breakerOpenUntil);
    }

    method PostEnds(ending: Ending, t1: int, t2: int, t3: int)
      modifies this
      ensures Value() == Ended(old(Value()), ending, t1, t2, t3)
    {
      match ending {
        case Succeeded =>
        case NotOk =>
          RecordFailure(t1);
          if !(t2 < breakerOpenUntil) {
            RecordFailure(t3);
          }
        case TimedOut =>
          RecordFailure(t1);
        case Failed =>
          if !(t1 < breakerOpenUntil) {
            RecordFailure(t2);
          }
      }
    }

    /** Any sequence of calls starting and ending. */
    method Serve(events: seq<Event>) returns (starts: seq<int>)
      modifies this
      ensures Value() == Run(old(Value()), events)
      ensures starts == Starts(old(Value()), events)
    {
      starts := [];
      for i := 0 to |events|
        invariant Value() == Run(old(Value()), events[..i])
        invariant starts == Starts(old(Value()), events[..i])
      {
        assert events[..i + 1][..i] == events[..i];
        match events[i] {
          case Begin(now) =>
            var fetching := PostBegins(now);
            if fetching {
              starts := starts + [now];
            }
          case End(_, ending, t1, t2, t3) =>
            PostEnds(ending, t1, t2, t3);
        }
      }
      assert events[..|events|] == events;
    }
  }

  // ----- The reference: whole histories, no trimming and no deadline -----

  datatype Failure = Failure(time: int, call: CallId)

  datatype Trip = Trip(time: int, failures: seq<Failure>)

  datatype History = History(since: seq<Failure>, trips: seq<Trip>, started: seq<int>, ended: set<CallId>)

  /** The failures at most one window old. */
  function Fresh(failures: seq<Failure>, now: int): seq<Failure> {
    if failures == [] then []
    else
      var rest := Fresh(failures[1..], now);
      if now - failures[0].time <= WINDOW then [failures[0]] + rest else rest
  }

  function Times(failures: seq<Failure>): seq<int> {
    if failures == [] then [] else [failures[0].time] + Times(failures[1..])
  }

  function OpenUntil(h: History): int {
    if h.trips == [] then 0 else h.trips[|h.trips| - 1].time + OPEN_FOR
  }

  function Noted(h: History, f: Failure): History {
    var all := h.since + [f];
    if |Fresh(all, f.time)| >= THRESHOLD then h.(since := [], trips := h.trips + [Trip(f.time, Fresh(all, f.time))])
    else h.(since := all)
  }

  function HistoryNext(h: History, e: Event): History {
    match e
    case Begin(now) => if now < OpenUntil(h) then h else h.(started := h.started + [now])
    case End(c, ending, t1, t2, t3) =>
      var done := h.(ended := h.ended + {c});
      match ending
      case Succeeded => done
      case NotOk =>
        var first := Noted(done, Failure(t1, c));
        if t2 < OpenUntil(first) then first else Noted(first, Failure(t3, c))
      case TimedOut => Noted(done, Failure(t1, c))
      case Failed => if t1 < OpenUntil(done) then done else Noted(done, Failure(t2, c))
  }

  function HistoryOf(events: seq<Event>): History {
    if events == [] then History([], [], [], {})
    else HistoryNext(HistoryOf(events[..|events| - 1]), events[|events| - 1])
  }

  // ----- Facts about failure lists -----

  ghost predicate Ordered(failures: seq<Failure>) {
    forall i, j | 0 <= i <= j < |failures| :: failures[i].time <= failures[j].time
  }

  function RecordsBy(failures: seq<Failure>, call: CallId): nat {
    if failures == [] then 0 else (if failures[0].call == call then 1 else 0) + RecordsBy(failures[1..], call)
  }

  function CallsOf(failures: seq<Failure>): set<CallId> {
    set i | 0 <= i < |failures| :: failures[i].call
  }

  lemma {:induction false} TimesSnoc(failures: seq<Failure>, f: Failure)
    ensures Times(failures + [f]) == Times(failures) + [f.time]
  {
    if failures == [] {
      assert failures + [f] == [f];
    } else {
      assert (failures + [f])[1..] == failures[1..] + [f];
      TimesSnoc(failures[1..], f);
    }
  }

  lemma {:induction false} RecordsSnoc(failures: seq<Failure>, f: Failure, call: CallId)
    ensures RecordsBy(failures + [f], call) == RecordsBy(failures, call) + if f.call == call then 1 else 0
  {
    if failures == [] {
      assert failures + [f] == [f];
    } else {
      assert (failures + [f])[1..] == failures[1..] + [f];
      RecordsSnoc(failures[1..], f, call);
    }
  }

  lemma {:induction false} FreshSnoc(failures: seq<Failure>, f: Failure, now: int)
    ensures Fresh(failures + [f], now) == Fresh(failures, now) + if now - f.time <= WINDOW then [f] else []
  {
    if failures == [] {
      assert failures + [f] == [f];
    } else {
      assert (failures + [f])[1..] == failures[1..] + [f];
      FreshSnoc(failures[1..], f, now);
    }
  }

  lemma {:induction false} FreshTwice(failures: seq<Failure>, earlier: int, later: int)
    requires earlier <= later
    ensures Fresh(Fresh(failures, earlier), later) == Fresh(failures, later)
  {
    if failures == [] {
    } else {
      FreshTwice(failures[1..], earlier, later);
      var rest := Fresh(failures[1..], earlier);
      assert ([failures[0]] + rest)[1..] == rest;
    }
  }

  lemma {:induction false} AllFresh(failures: seq<Failure>, now: int)
    requires Ordered(failures)
    requires failures != [] ==> now - failures[0].time <= WINDOW
    ensures Fresh(failures, now) == failures
  {
    if failures == [] {
    } else {
      AllFresh(failures[1..], now);
    }
  }

  lemma {:induction false} FreshOrdered(failures: seq<Failure>, now: int)
    requires Ordered(failures)
    ensures Ordered(Fresh(failures, now))
  {
    if failures == [] {
    } else {
      if now - failures[0].time <= WINDOW {
        AllFresh(failures, now);
      } else {
        FreshOrdered(failures[1..], now);
      }
    }
  }

  /** Trimming an ordered array from the front is filtering it. */
  lemma {:induction false} TrimIsFresh(failures: seq<Failure>, now: int)
    requires Ordered(failures)
    ensures Trim(Times(failures), now) == Times(Fresh(failures, now))
  {
    if failures == [] {
    } else {
      assert Times(failures)[1..] == Times(failures[1..]);
      if now - failures[0].time <= WINDOW {
        AllFresh(failures, now);
      } else {
        TrimIsFresh(failures[1..], now);
      }
    }
  }

  lemma {:induction false} TimesLength(failures: seq<Failure>)
    ensures |Times(failures)| == |failures|
  {
    if failures == [] {
    } else {
      TimesLength(failures[1..]);
    }
  }

  /** A filter has no more records of a call than the whole. */
  lemma {:induction false} FreshRecords(failures: seq<Failure>, now: int, call: CallId)
    ensures RecordsBy(Fresh(failures, now), call) <= RecordsBy(failures, call)
  {
    if failures == [] {
    } else {
      FreshRecords(failures[1..], now, call);
      var rest := Fresh(failures[1..], now);
      assert ([failures[0]] + rest)[1..] == rest;
    }
  }

  function Without(failures: seq<Failure>, call: CallId): seq<Failure> {
    if failures == [] then []
    else
      var rest := Without(failures[1..], call);
      if failures[0].call == call then rest else [failures[0]] + rest
  }

  lemma {:induction false} WithoutCounts(failures: seq<Failure>, call: CallId, other: CallId)
    ensures |failures| == |Without(failures, call)| + RecordsBy(failures, call)
    ensures RecordsBy(Without(failures, call), other) == if other == call then 0 else RecordsBy(failures, other)
    ensures CallsOf(Without(failures, call)) == CallsOf(failures) - {call}
  {
    if failures == [] {
    } else {
      WithoutCounts(failures[1..], call, other);
      var rest := Without(failures[1..], call);
      assert ([failures[0]] + rest)[1..] == rest;
      CallsCons(failures[0], failures[1..]);
      CallsCons(failures[0], rest);
    }
  }

  lemma CallsCons(f: Failure, rest: seq<Failure>)
    ensures CallsOf([f] + rest) == {f.call} + CallsOf(rest)
  {
    var all := [f] + rest;
    forall i | 0 <= i < |rest| ensures rest[i].call in CallsOf(all) {
      assert all[i + 1] == rest[i];
    }
    assert all[0] == f;
  }

  ghost predicate AtMostTwiceEach(failures: seq<Failure>) {
    forall c: CallId :: RecordsBy(failures, c) <= 2
  }

  /** With at most two records per call, n failures come from at least n / 2 calls. */
  lemma {:induction false} CallsNeeded(failures: seq<Failure>)
    requires AtMostTwiceEach(failures)
    ensures |failures| <= 2 * |CallsOf(failures)|
    decreases |failures|
  {
    if failures == [] {
    } else {
      var c := failures[0].call;
      assert c in CallsOf(failures);
      forall d: CallId ensures RecordsBy(Without(failures, c), d) <= 2 {
        WithoutCounts(failures, c, d);
      }
      WithoutCounts(failures, c, c);
      assert |CallsOf(failures) - {c}| == |CallsOf(failures)| - 1;
      CallsNeeded(Without(failures, c));
    }
  }

  // ----- What every run keeps -----

  /** The failures that were fresh when the last of them was recorded. */
  function Retained(since: seq<Failure>): seq<Failure> {
    if since == [] then [] else Fresh(since, since[|since| - 1].time)
  }

  ghost predicate GoodTrip(t: Trip) {
    && |t.failures| == 5
    && |CallsOf(t.failures)| >= 3
    && (forall i | 0 <= i < |t.failures| :: t.time - 30_000 <= t.failures[i].time <= t.time)
  }

  /** No call was started between a trip and the end of its open period. */
  ghost predicate NoStartWhileOpen(h: History) {
    forall i, j | 0 <= i < |h.started| && 0 <= j < |h.trips| ::
      h.started[i] <= h.trips[j].time || h.trips[j].time + 60_000 <= h.started[i]
  }

  ghost predicate TripsGood(h: History, clock: int) {
    && (forall j | 0 <= j < |h.trips| :: GoodTrip(h.trips[j]) && h.trips[j].time <= clock)
    && (forall i, j | 0 <= i <= j < |h.trips| :: h.trips[i].time <= h.trips[j].time)
    && (forall i | 0 <= i < |h.started| :: h.started[i] <= clock)
    && NoStartWhileOpen(h)
  }

  ghost predicate SinceGood(h: History, clock: int) {
    && Ordered(h.since)
    && (forall i | 0 <= i < |h.since| :: h.since[i].time <= clock)
    && |Retained(h.since)| < THRESHOLD
    && AtMostTwiceEach(h.since)
    && (forall c: CallId | c !in h.ended :: RecordsBy(h.since, c) == 0)
  }

  ghost predicate Matches(s: State, h: History) {
    s.failures == Times(Retained(h.since)) && s.openUntil == OpenUntil(h)
  }

  /** Before a record is added, the retained failures decide what stays fresh. */
  lemma FreshFromRetained(since: seq<Failure>, f: Failure)
    requires forall i | 0 <= i < |since| :: since[i].time <= f.time
    ensures Fresh(since + [f], f.time) == Fresh(Retained(since), f.time) + [f]
    ensures |Fresh(since + [f], f.time)| <= |Retained(since)| + 1
  {
    FreshSnoc(since, f, f.time);
    if since != [] {
      FreshTwice(since, since[|since| - 1].time, f.time);
    }
    FreshShorter(Retained(since), f.time);
  }

  lemma {:induction false} FreshShorter(failures: seq<Failure>, now: int)
    ensures |Fresh(failures, now)| <= |failures|
  {
    if failures == [] {
    } else {
      FreshShorter(failures[1..], now);
    }
  }

  /** Recording in the trimmed array is recording in the history. */
  lemma RecordRefines(s: State, h: History, f: Failure, clock: int)
    requires SinceGood(h, clock) && Matches(s, h) && clock <= f.time
    ensures Matches(Recorded(s, f.time), Noted(h, f))
  {
    var kept := Retained(h.since);
    if h.since != [] {
      FreshOrdered(h.since, h.since[|h.since| - 1].time);
    }
    FreshFromRetained(h.since, f);
    FreshBefore(h.since, f.time);
    TimesSnoc(kept, f);
    FreshSnoc(kept, f, f.time);
    assert Ordered(kept + [f]);
    TrimIsFresh(kept + [f], f.time);
    TimesLength(Fresh(kept + [f], f.time));
  }

  lemma {:induction false} FreshBefore(failures: seq<Failure>, t: int)
    requires forall i | 0 <= i < |failures| :: failures[i].time <= t
    ensures forall i | 0 <= i < |Retained(failures)| :: Retained(failures)[i].time <= t
  {
    if failures == [] {
    } else {
      FreshMembers(failures, failures[|failures| - 1].time);
    }
  }

  lemma {:induction false} FreshMembers(failures: seq<Failure>, now: int)
    ensures forall f | f in Fresh(failures, now) :: f in failures && now - f.time <= WINDOW
  {
    if failures == [] {
    } else {
      FreshMembers(failures[1..], now);
    }
  }

  /** One record keeps the facts about the failures since the last trip. */
  lemma NotedKeepsSince(h: History, f: Failure, clock: int)
    requires SinceGood(h, clock) && clock <= f.time
    requires f.call in h.ended && RecordsBy(h.since, f.call) <= 1
    ensures SinceGood(Noted(h, f), f.time)
  {
    FreshFromRetained(h.since, f);
    forall c: CallId ensures RecordsBy(h.since + [f], c) <= 2 && (c !in h.ended ==> RecordsBy(h.since + [f], c) == 0) {
      RecordsSnoc(h.since, f, c);
    }
  }

  /** A trip comes exactly with the fifth fresh failure, and from three calls or more. */
  lemma NotedKeepsTrips(h: History, f: Failure, clock: int)
    requires SinceGood(h, clock) && TripsGood(h, clock) && clock <= f.time
    requires RecordsBy(h.since, f.call) <= 1
    ensures TripsGood(Noted(h, f), f.time)
  {
    var all := h.since + [f];
    var five := Fresh(all, f.time);
    if |five| >= THRESHOLD {
      FreshFromRetained(h.since, f);
      forall c: CallId ensures RecordsBy(five, c) <= 2 {
        RecordsSnoc(h.since, f, c);
        FreshRecords(all, f.time, c);
      }
      CallsNeeded(five);
      FreshMembers(all, f.time);
      assert GoodTrip(Trip(f.time, five));
    }
  }

  function Latest(e: Event): int { if e.Begin? then e.now else e.t3 }

  function Clock(events: seq<Event>): int {
    if events == [] then 0 else Latest(events[|events| - 1])
  }

  /** The clock does not run backwards; only a call that was started, and once, ends. */
  predicate Allowed(h: History, e: Event, clock: int) {
    match e
    case Begin(now) => clock <= now
    case End(c, _, t1, t2, t3) => clock <= t1 <= t2 <= t3 && c < |h.started| && c !in h.ended
  }

  predicate AllowedRun(events: seq<Event>) {
    events == [] ||
    var front := events[..|events| - 1];
    AllowedRun(front) && Allowed(HistoryOf(front), events[|events| - 1], Clock(front))
  }

  ghost predicate Good(s: State, h: History, clock: int) {
    SinceGood(h, clock) && TripsGood(h, clock) && Matches(s, h)
  }

  /** A record in the array and in the history, together. */
  lemma RecordStep(s: State, h: History, f: Failure, clock: int)
    requires Good(s, h, clock) && 0 <= clock <= f.time
    requires f.call in h.ended && RecordsBy(h.since, f.call) <= 1
    ensures Good(Recorded(s, f.time), Noted(h, f), f.time)
    ensures s.openUntil <= Recorded(s, f.time).openUntil
  {
    hide SinceGood, TripsGood;
    RecordRefines(s, h, f, clock);
    NotedKeepsSince(h, f, clock);
    NotedKeepsTrips(h, f, clock);
    OpenGrows(h, f, clock);
  }

  lemma OpenGrows(h: History, f: Failure, clock: int)
    requires TripsGood(h, clock) && 0 <= clock <= f.time
    ensures OpenUntil(h) <= OpenUntil(Noted(h, f))
  {
  }

  lemma Later(s: State, h: History, clock: int, later: int)
    requires Good(s, h, clock) && clock <= later
    ensures Good(s, h, later)
  {
  }

  lemma EndStep(s: State, h: History, e: Event, clock: int)
    requires e.End? && Good(s, h, clock) && 0 <= clock && Allowed(h, e, clock)
    ensures Good(Next(s, e), HistoryNext(h, e), Latest(e))
    ensures s.openUntil <= Next(s, e).openUntil
  {
    var c := e.call;
    var done := h.(ended := h.ended + {c});
    assert Good(s, done, clock);
    assert RecordsBy(done.since, c) == 0;
    match e.ending {
      case Succeeded =>
        Later(s, done, clock, e.t3);
      case NotOk =>
        RecordStep(s, done, Failure(e.t1, c), clock);
        var s', h' := Recorded(s, e.t1), Noted(done, Failure(e.t1, c));
        RecordsSnoc(done.since, Failure(e.t1, c), c);
        if IsOpen(s', e.t2) {
          Later(s', h', e.t1, e.t3);
        } else {
          RecordStep(s', h', Failure(e.t3, c), e.t1);
        }
      case TimedOut =>
        RecordStep(s, done, Failure(e.t1, c), clock);
        Later(Recorded(s, e.t1), Noted(done, Failure(e.t1, c)), e.t1, e.t3);
      case Failed =>
        if IsOpen(s, e.t1) {
          Later(s, done, clock, e.t3);
        } else {
          RecordStep(s, done, Failure(e.t2, c), clock);
          Later(Recorded(s, e.t2), Noted(done, Failure(e.t2, c)), e.t2, e.t3);
        }
    }
  }

  lemma BeginStep(s: State, h: History, e: Event, clock: int)
    requires e.Begin? && Good(s, h, clock) && Allowed(h, e, clock)
    ensures Good(Next(s, e), HistoryNext(h, e), Latest(e))
  {
    var h' := HistoryNext(h, e);
    forall i, j | 0 <= i < |h'.started| && 0 <= j < |h'.trips|
      ensures h'.started[i] <= h'.trips[j].time || h'.trips[j].time + OPEN_FOR <= h'.started[i]
    {
      var latest := h.trips[|h.trips| - 1];
      assert h.trips[j].time <= latest.time;
    }
  }

  /** Every run: array and deadline are what the whole history says, every trip has
      exactly five fresh failures of three calls or more, nothing starts while open. */
  lemma {:induction false} RunRefines(events: seq<Event>)
    requires AllowedRun(events)
    ensures 0 <= Clock(events)
    ensures Good(Run(State([], 0), events), HistoryOf(events), Clock(events))
  {
    if events == [] {
    } else {
      var front, e := events[..|events| - 1], events[|events| - 1];
      RunRefines(front);
      if e.Begin? {
        BeginStep(Run(State([], 0), front), HistoryOf(front), e, Clock(front));
      } else {
        EndStep(Run(State([], 0), front), HistoryOf(front), e, Clock(front));
      }
    }
  }

  /** The deadline never moves back. */
  lemma {:induction false} OpenUntilGrows(events: seq<Event>, k: nat)
    requires AllowedRun(events) && k <= |events|
    ensures Run(State([], 0), events[..k]).openUntil <= Run(State([], 0), events).openUntil
  {
    if k == |events| {
      assert events[..k] == events;
    } else {
      var front, e := events[..|events| - 1], events[|events| - 1];
      assert front[..k] == events[..k];
      OpenUntilGrows(front, k);
      RunRefines(front);
      if e.End? {
        EndStep(Run(State([], 0), front), HistoryOf(front), e, Clock(front));
      }
    }
  }

  /** Fewer than five failures are ever held between events. */
  lemma NeverFive(events: seq<Event>)
    requires AllowedRun(events)
    ensures |Run(State([], 0), events).failures| < 5
  {
    RunRefines(events);
    TimesLength(Retained(HistoryOf(events).since));
  }

  /** The fetches the code starts are those the reference starts, so none starts
      between a trip and the end of its open period. */
  lemma {:induction false} NoFetchWhileOpen(events: seq<Event>)
    requires AllowedRun(events)
    ensures Starts(State([], 0), events) == HistoryOf(events).started
    ensures NoStartWhileOpen(HistoryOf(events))
  {
    RunRefines(events);
    if events == [] {
    } else {
      var front := events[..|events| - 1];
      NoFetchWhileOpen(front);
      RunRefines(front);
      StartedByBegin(HistoryOf(front), events[|events| - 1]);
    }
  }

  lemma StartedByBegin(h: History, e: Event)
    ensures HistoryNext(h, e).started == h.started + if e.Begin? && e.now >= OpenUntil(h) then [e.now] else []
  {
    assert h.started + [] == h.started;
  }
}
