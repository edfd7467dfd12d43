/** The chat rate limiter (backend/src/system-manager/chatSocketHandlers.js): a pruned
    history per user and a periodic sweep, refining a count over all acceptances. */
module RateLimit {
  const MAX: nat := 3
  const WINDOW: nat := 10_000

  type User = string

  datatype Decision = Accepted | Rejected(retryInMs: int)

  /** `times.filter((t) => now - t < RATE_LIMIT_WINDOW_MS)`. */
  function Recent(times: seq<int>, now: int): seq<int> {
    if times == [] then []
    else
      var rest := Recent(times[..|times| - 1], now);
      if now - times[|times| - 1] < WINDOW then rest + [times[|times| - 1]] else rest
  }

  function Get(m: map<User, seq<int>>, u: User): seq<int> {
    if u in m then m[u] else []
  }

  // ----- The reference: count over the whole acceptance history -----

  function Decide(accepted: seq<int>, now: int): Decision {
    var recent := Recent(accepted, now);
    if |recent| >= MAX then Rejected(WINDOW - (now - recent[0])) else Accepted
  }

  function Record(accepted: seq<int>, now: int): seq<int> {
    if Decide(accepted, now).Accepted? then accepted + [now] else accepted
  }

  /** A request by a user, or a firing of the sweep timer. */
  datatype Event = Request(user: User, now: int) | SweepFires(now: int)

  /** The decisions of a run, from full histories; sweeps do not exist here. */
  function Decisions(accepted: map<User, seq<int>>, events: seq<Event>): seq<Decision>
    decreases |events|
  {
    if events == [] then []
    else match events[0]
      case SweepFires(_) => Decisions(accepted, events[1..])
      case Request(u, now) =>
        [Decide(Get(accepted, u), now)] + Decisions(accepted[u := Record(Get(accepted, u), now)], events[1..])
  }

  function Histories(accepted: map<User, seq<int>>, events: seq<Event>): map<User, seq<int>>
    decreases |events|
  {
    if events == [] then accepted
    else match events[0]
      case SweepFires(_) => Histories(accepted, events[1..])
      case Request(u, now) => Histories(accepted[u := Record(Get(accepted, u), now)], events[1..])
  }

  // ----- Facts about histories -----

  ghost predicate Sorted(times: seq<int>) {
    forall i, j | 0 <= i <= j < |times| :: times[i] <= times[j]
  }

  /** A sorted history up to `clock` in which any two entries three apart span a window. */
  ghost predicate Spaced(times: seq<int>, clock: int) {
    && Sorted(times)
    && (forall i | 0 <= i < |times| :: times[i] <= clock)
    && (forall i, j | 0 <= i && i + 3 <= j < |times| :: times[j] - times[i] >= WINDOW)
  }

  /** The filter of a sorted history is one of its suffixes. */
  lemma {:induction false} RecentIsSuffix(times: seq<int>, now: int) returns (k: nat)
    requires Sorted(times)
    ensures k <= |times| && Recent(times, now) == times[k..]
    ensures forall i | 0 <= i < |times| :: i >= k <==> now - times[i] < WINDOW
  {
    if times == [] {
      k := 0;
    } else {
      var n := |times| - 1;
      k := RecentIsSuffix(times[..n], now);
      SuffixSnoc(times[..n], times[n], k);
      assert times == times[..n] + [times[n]];
      if now - times[n] >= WINDOW {
        assert forall i | 0 <= i < n :: times[i] <= times[n];
        k := |times|;
      }
    }
  }

  lemma SuffixSnoc(front: seq<int>, last: int, k: nat)
    requires k <= |front|
    ensures (front + [last])[k..] == front[k..] + [last]
  {
  }

  lemma {:induction false} RecentTwice(times: seq<int>, earlier: int, later: int)
    requires earlier <= later
    ensures Recent(Recent(times, earlier), later) == Recent(times, later)
  {
    if times == [] {
    } else {
      var n := |times| - 1;
      RecentTwice(times[..n], earlier, later);
      var rest := Recent(times[..n], earlier);
      assert (rest + [times[n]])[..|rest|] == rest;
    }
  }

  /** Histories that look alike now will look alike for ever. */
  lemma RecentAgrees(a: seq<int>, b: seq<int>, earlier: int, later: int)
    requires earlier <= later && Recent(a, earlier) == Recent(b, earlier)
    ensures Recent(a, later) == Recent(b, later)
  {
    RecentTwice(a, earlier, later);
    RecentTwice(b, earlier, later);
  }

  lemma RecentSnoc(times: seq<int>, t: int, now: int)
    ensures Recent(times + [t], now) == Recent(times, now) + if now - t < WINDOW then [t] else []
  {
    assert (times + [t])[..|times|] == times;
    assert Recent(times, now) + [] == Recent(times, now);
  }

  ghost predicate Agree(pruned: map<User, seq<int>>, full: map<User, seq<int>>, now: int) {
    forall u: User :: Recent(Get(pruned, u), now) == Recent(Get(full, u), now)
  }

  /** Recording one acceptance in both keeps them in agreement. */
  lemma AcceptAgrees(pruned: map<User, seq<int>>, full: map<User, seq<int>>, u: User, now: int)
    requires Agree(pruned, full, now)
    ensures Agree(pruned[u := Recent(Get(pruned, u), now) + [now]], full[u := Get(full, u) + [now]], now)
  {
    RecentTwice(Get(pruned, u), now, now);
    RecentSnoc(Recent(Get(pruned, u), now), now, now);
    RecentSnoc(Get(full, u), now, now);
    var pruned', full' := pruned[u := Recent(Get(pruned, u), now) + [now]], full[u := Get(full, u) + [now]];
    forall v: User ensures Recent(Get(pruned', v), now) == Recent(Get(full', v), now) {
      assert v != u ==> Get(pruned', v) == Get(pruned, v) && Get(full', v) == Get(full, v);
    }
  }

  /** A spaced history has at most three entries in any window. */
  lemma AtMostThree(times: seq<int>, clock: int, now: int)
    requires Spaced(times, clock) && clock <= now
    ensures |Recent(times, now)| <= MAX
  {
    var k := RecentIsSuffix(times, now);
    if k < |times| {
      var oldest, newest := times[k], times[|times| - 1];
    }
  }

  /** Accepting keeps the history spaced. */
  lemma RecordKeepsSpaced(times: seq<int>, clock: int, now: int)
    requires Spaced(times, clock) && clock <= now
    ensures Spaced(Record(times, now), now)
  {
    if Decide(times, now).Accepted? {
      var k := RecentIsSuffix(times, now);
      var times' := times + [now];
      forall i, j | 0 <= i && i + 3 <= j < |times'| ensures times'[j] - times'[i] >= WINDOW {
        assert j < |times| || i < k;
      }
    }
  }

  /** An undisturbed retry at `later` is accepted exactly from `now + retryInMs` on. */
  lemma RetryExactly(times: seq<int>, clock: int, now: int, later: int)
    requires Spaced(times, clock) && clock <= now <= later && Decide(times, now).Rejected?
    ensures 0 < Decide(times, now).retryInMs <= WINDOW
    ensures Decide(times, later).Accepted? <==> later >= now + Decide(times, now).retryInMs
  {
    AtMostThree(times, clock, now);
    var k := RecentIsSuffix(times, now);
    var l := RecentIsSuffix(times, later);
    assert |times| == k + 3 && Recent(times, now)[0] == times[k];
    assert l <= k ==> later - times[k] < WINDOW;
  }

  ghost predicate AllSpaced(accepted: map<User, seq<int>>, clock: int) {
    forall u | u in accepted :: Spaced(accepted[u], clock)
  }

  function Time(e: Event): int { e.now }

  /** The clock does not run backwards. */
  ghost predicate Nondecreasing(events: seq<Event>, clock: int) {
    && (forall i | 0 <= i < |events| :: clock <= Time(events[i]))
    && (forall i, j | 0 <= i <= j < |events| :: Time(events[i]) <= Time(events[j]))
  }

  /** Any run: a user's acceptances three apart are at least one window apart. */
  lemma {:induction false} RunsAreSpaced(accepted: map<User, seq<int>>, events: seq<Event>, clock: int) returns (end: int)
    requires AllSpaced(accepted, clock) && Nondecreasing(events, clock)
    ensures AllSpaced(Histories(accepted, events), end)
    decreases |events|
  {
    end := clock;
    if events == [] {
    } else {
      var now := Time(events[0]);
      assert events[0].Request? ==> Spaced(Get(accepted, events[0].user), clock);
      if events[0].Request? {
        RecordKeepsSpaced(Get(accepted, events[0].user), clock, now);
        end := RunsAreSpaced(accepted[events[0].user := Record(Get(accepted, events[0].user), now)], events[1..], now);
      } else {
        end := RunsAreSpaced(accepted, events[1..], now);
      }
    }
  }

  // ----- The limiter -----

  class Limiter {
    var history: map<User, seq<int>>
    ghost var accepted: map<User, seq<int>>
    ghost var clock: int

    /** For every user the pruned history and the full one agree inside the window. */
    ghost predicate Valid()
      reads this
    {
      && AllSpaced(accepted, clock)
      && Agree(history, accepted, clock)
    }

    constructor (now: int)
      ensures Valid() && accepted == map[] && clock == now
    {
      history, accepted, clock := map[], map[], now;
    }

    lemma SeenAt(u: User, now: int)
      requires Valid() && clock <= now
      ensures Recent(Get(history, u), now) == Recent(Get(accepted, u), now)
      ensures Spaced(Get(accepted, u), clock)
    {
      RecentAgrees(Get(history, u), Get(accepted, u), clock, now);
    }

    /** Pruning any users' histories at `now` keeps the agreement. */
    lemma PruneKeeps(pruned: map<User, seq<int>>, now: int)
      requires Valid() && clock <= now
      requires forall u: User :: Get(pruned, u) == Get(history, u) || Get(pruned, u) == Recent(Get(history, u), now)
      ensures Agree(pruned, accepted, now)
      ensures AllSpaced(accepted, now)
    {
      forall u: User ensures Recent(Get(pruned, u), now) == Recent(Get(accepted, u), now) {
        SeenAt(u, now);
        RecentTwice(Get(history, u), now, now);
      }
    }

    /** `_checkRate`. */
    method CheckRate(u: User, now: int) returns (d: Decision)
      requires Valid() && clock <= now
      modifies this
      ensures Valid() && clock == now
      ensures d == Decide(Get(old(accepted), u), now)
      ensures accepted == old(accepted)[u := Record(Get(old(accepted), u), now)]
    {
      SeenAt(u, now);
      PruneKeeps(history, now);
      RecordKeepsSpaced(Get(accepted, u), clock, now);
      ghost var all := Get(accepted, u);
      AcceptAgrees(history, accepted, u, now);
      var arr := Recent(Get(history, u), now);
      if |arr| >= MAX {
        d := Rejected(WINDOW - (now - arr[0]));
      } else {
        arr := arr + [now];
        history := history[u := arr];
        d := Accepted;
      }
      accepted := accepted[u := Record(all, now)];
      clock := now;
    }

    /** The interval callback: only recent entries stay, and only users who have any. */
    method Sweep(now: int)
      requires Valid() && clock <= now
      modifies this
      ensures Valid() && clock == now && accepted == old(accepted)
      ensures forall u: User :: u in history <==> u in old(history) && |Recent(old(history)[u], now)| > 0
      ensures forall u: User | u in history :: history[u] == Recent(old(history)[u], now)
    {
      hide Recent, Agree, AllSpaced;
      var keys := history.Keys;
      var swept := history;
      while keys != {}
        invariant keys <= history.Keys
        invariant forall u: User | u in keys :: u in swept && swept[u] == Get(history, u)
        invariant forall u: User | u !in keys ::
          if u in history && |Recent(history[u], now)| > 0 then u in swept && swept[u] == Recent(history[u], now) else u !in swept
        invariant forall u: User :: Get(swept, u) == Get(history, u) || Get(swept, u) == Recent(Get(history, u), now)
        decreases keys
      {
        var u :| u in keys;
        keys := keys - {u};
        var fresh_ := Recent(swept[u], now);
        if |fresh_| == 0 {
          swept := swept - {u};
        } else {
          swept := swept[u := fresh_];
        }
      }
      PruneKeeps(swept, now);
      history := swept;
      clock := now;
    }

    /** Any interleaving of requests and sweeps decides as the reference does. */
    method Serve(events: seq<Event>) returns (decisions: seq<Decision>)
      requires Valid() && Nondecreasing(events, clock)
      modifies this
      ensures Valid()
      ensures decisions == Decisions(old(accepted), events)
      ensures accepted == Histories(old(accepted), events)
    {
      hide Agree, Spaced, Decide, Record, Recent;
      decisions := [];
      var rest := events;
      while rest != []
        invariant Valid() && Nondecreasing(rest, clock)
        invariant decisions + Decisions(accepted, rest) == Decisions(old(accepted), events)
        invariant Histories(accepted, rest) == Histories(old(accepted), events)
        decreases |rest|
      {
        match rest[0] {
          case Request(u, now) =>
            var d := CheckRate(u, now);
            decisions := decisions + [d];
          case SweepFires(now) =>
            Sweep(now);
        }
        rest := rest[1..];
      }
    }
  }
}
