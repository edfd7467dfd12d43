/** The worker pool (backend/src/services/mediasoupService.js): the least loaded worker,
    the first of them on ties. */
module Workers {
  import opened Common

  type Pid = nat

  function Count(counts: map<Pid, nat>, pid: Pid): nat {
    if pid in counts then counts[pid] else 0
  }

  ghost predicate Distinct(workers: seq<Pid>) {
    forall i, j | 0 <= i < j < |workers| :: workers[i] != workers[j]
  }

  /** `best` is the first index with the fewest routers. */
  ghost predicate FirstLeast(workers: seq<Pid>, counts: map<Pid, nat>, best: nat) {
    && best < |workers|
    && (forall j | 0 <= j < best :: Count(counts, workers[best]) < Count(counts, workers[j]))
    && (forall j | best <= j < |workers| :: Count(counts, workers[best]) <= Count(counts, workers[j]))
  }

  /** After `calls` calls every worker has been given the same number of routers, those
      before the next in turn one more. */
  ghost predicate RoundRobin(workers: seq<Pid>, counts: map<Pid, nat>, calls: nat)
    requires |workers| > 0
  {
    forall j {:trigger workers[j]} | 0 <= j < |workers| ::
      Count(counts, workers[j]) == calls / |workers| + if j < calls % |workers| then 1 else 0
  }

  lemma Distribute(q: nat, m: nat)
    ensures (q + 1) * m == q * m + m
  {
  }

  lemma NextTurn(calls: nat, q: nat, r: nat, m: nat)
    requires r < m && calls == q * m + r
    ensures (calls + 1) / m == (if r + 1 == m then q + 1 else q)
    ensures (calls + 1) % m == (if r + 1 == m then 0 else r + 1)
  {
    if r + 1 == m {
      Distribute(q, m);
      Quotient(calls + 1, q + 1, 0, m);
    } else {
      Quotient(calls + 1, q, r + 1, m);
    }
  }

  /** From balanced counts the first least loaded worker is the next in turn, and giving
      it a router keeps the balance. */
  lemma TurnIsLeast(workers: seq<Pid>, counts: map<Pid, nat>, calls: nat, best: nat)
    requires Distinct(workers) && |workers| > 0 && RoundRobin(workers, counts, calls)
    requires FirstLeast(workers, counts, best)
    ensures best == calls % |workers|
    ensures RoundRobin(workers, counts[workers[best] := Count(counts, workers[best]) + 1], calls + 1)
  {
    var m := |workers|;
    var turn := calls % m;
    assert Count(counts, workers[turn]) == calls / m;
    NextTurn(calls, calls / m, turn, m);
    var counts' := counts[workers[best] := Count(counts, workers[best]) + 1];
    forall j {:trigger workers[j]} | 0 <= j < m ensures Count(counts', workers[j]) == Count(counts, workers[j]) + if j == best then 1 else 0 {
    }
  }

  class WorkerPool {
    const workers: seq<Pid>
    var routerCount: map<Pid, nat>
    ghost var calls: nat

    ghost predicate Valid()
      reads this
    {
      Distinct(workers) && |workers| > 0 && RoundRobin(workers, routerCount, calls)
    }

    constructor (ws: seq<Pid>)
      requires Distinct(ws) && |ws| > 0
      ensures Valid() && workers == ws && calls == 0
    {
      workers := ws;
      routerCount := map[];
      calls := 0;
    }

    /** Call k returns worker k mod m. */
    method GetNextWorker() returns (best: nat)
      requires Valid()
      modifies this
      ensures Valid() && calls == old(calls) + 1
      ensures best == old(calls) % |workers|
    {
      best := 0;
      var i := 1;
      var minLoad := Count(routerCount, workers[0]);
      while i < |workers|
        invariant 1 <= i <= |workers| && best < i
        invariant minLoad == Count(routerCount, workers[best])
        invariant forall j | 0 <= j < best :: minLoad < Count(routerCount, workers[j])
        invariant forall j | best <= j < i :: minLoad <= Count(routerCount, workers[j])
      {
        var count := Count(routerCount, workers[i]);
        if count < minLoad {
          minLoad := count;
          best := i;
        }
        i := i + 1;
      }
      TurnIsLeast(workers, routerCount, calls, best);
      routerCount := routerCount[workers[best] := Count(routerCount, workers[best]) + 1];
      calls := calls + 1;
    }
  }
}
