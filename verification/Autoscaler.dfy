/** The edge autoscaler (backend/src/origin/edgeScalingManager.js). Ticks do not overlap,
    and what a tick launches or removes is visible to the next one. */
module Autoscaler {
  import opened Common

  /** Launched edges are numbered by a counter in Redis; other edges are static. */
  datatype EdgeId = Auto(number: nat) | Static(name: string)

  datatype Config = Config(minEdges: nat, maxEdges: nat, upAt: real, downAt: real, cooldownUp: int, cooldownDown: int)

  /** A row of `_getEdgeStatuses`. */
  datatype Row = Row(id: EdgeId, users: nat, capacity: nat)

  /** How far `_scaleUp` and `_scaleDown` get before something throws. */
  datatype Launch = NoNumber | NotLaunched | LaunchedUnrecorded | Launched
  datatype Removal = NotRemoved | RemovedUnrecorded | Removed

  /** `ups` and `downs` are the times of the threshold decisions taken so far. */
  datatype State = State(
    fleet: set<EdgeId>,
    managed: set<EdgeId>,
    counter: nat,
    lastScaleUp: int,
    lastScaleDown: int,
    ups: seq<int>,
    downs: seq<int>)

  // ----- Reading the fleet -----

  predicate Measured(rows: seq<Row>) {
    forall i | 0 <= i < |rows| :: rows[i].capacity > 0
  }

  function LoadPct(r: Row): real
    requires r.capacity > 0
  {
    r.users as real / r.capacity as real * 100.0
  }

  predicate Hot(c: Config, rows: seq<Row>)
    requires Measured(rows)
  {
    exists i | 0 <= i < |rows| :: LoadPct(rows[i]) >= c.upAt
  }

  predicate AllLow(c: Config, rows: seq<Row>)
    requires Measured(rows)
  {
    forall i | 0 <= i < |rows| :: LoadPct(rows[i]) <= c.downAt
  }

  /** Empty edges all have load 0, so the stable sort leaves the first one in front. */
  function Candidate(rows: seq<Row>, managed: set<EdgeId>): Option<EdgeId> {
    if rows == [] then None
    else if rows[0].id in managed && rows[0].users == 0 then Some(rows[0].id)
    else Candidate(rows[1..], managed)
  }

  /** The rows list the fleet, each edge once. */
  ghost predicate Lists(rows: seq<Row>, fleet: set<EdgeId>) {
    && (forall i, j | 0 <= i < j < |rows| :: rows[i].id != rows[j].id)
    && fleet == set i | 0 <= i < |rows| :: rows[i].id
  }

  // ----- The manager's steps -----

  function ScaledUp(s: State, o: Launch): State {
    var id := Auto(s.counter + 1);
    match o
    case NoNumber => s
    case NotLaunched => s.(counter := s.counter + 1)
    case LaunchedUnrecorded => s.(counter := s.counter + 1, fleet := s.fleet + {id})
    case Launched => s.(counter := s.counter + 1, fleet := s.fleet + {id}, managed := s.managed + {id})
  }

  function ScaledDown(s: State, id: EdgeId, o: Removal): State {
    match o
    case NotRemoved => s
    case RemovedUnrecorded => s.(fleet := s.fleet - {id})
    case Removed => s.(fleet := s.fleet - {id}, managed := s.managed - {id})
  }

  function LaunchedAll(s: State, outcomes: seq<Launch>): State
    decreases |outcomes|
  {
    if outcomes == [] then s else LaunchedAll(ScaledUp(s, outcomes[0]), outcomes[1..])
  }

  function Needed(c: Config, s: State): nat {
    if |s.fleet| < c.minEdges then c.minEdges - |s.fleet| else 0
  }

  function EnsuredMinimum(c: Config, s: State, outcomes: seq<Launch>): State
    requires Needed(c, s) <= |outcomes|
  {
    LaunchedAll(s, outcomes[..Needed(c, s)])
  }

  /** `start`: the recorded edges found dead are forgotten, then the minimum is launched. */
  datatype Step =
    | Start(dead: set<EdgeId>, outcomes: seq<Launch>)
    | Tick(rows: seq<Row>, now: int, outcomes: seq<Launch>, launch: Launch, removal: Removal)

  function Recovered(s: State, dead: set<EdgeId>): State {
    s.(managed := s.managed - dead, fleet := s.fleet - (dead * s.managed))
  }

  function Ticked(c: Config, s: State, rows: seq<Row>, now: int, outcomes: seq<Launch>, launch: Launch, removal: Removal): State
    requires Measured(rows) && Needed(c, s) <= |outcomes|
  {
    if rows == [] then EnsuredMinimum(c, s, outcomes)
    else if Hot(c, rows) && |rows| < c.maxEdges && now - s.lastScaleUp >= c.cooldownUp then
      ScaledUp(s, launch).(lastScaleUp := now, ups := s.ups + [now])
    else if |rows| > c.minEdges && AllLow(c, rows) && now - s.lastScaleDown >= c.cooldownDown then
      match Candidate(rows, s.managed)
      case None => s
      case Some(id) => ScaledDown(s, id, removal).(lastScaleDown := now, downs := s.downs + [now])
    else s
  }

  ghost predicate Enabled(c: Config, s: State, step: Step) {
    match step
    case Start(dead, outcomes) => Needed(c, Recovered(s, dead)) <= |outcomes|
    case Tick(rows, now, outcomes, _, _) => Measured(rows) && Lists(rows, s.fleet) && Needed(c, s) <= |outcomes|
  }

  ghost function Next(c: Config, s: State, step: Step): State
    requires Enabled(c, s, step)
  {
    match step
    case Start(dead, outcomes) => EnsuredMinimum(c, Recovered(s, dead), outcomes)
    case Tick(rows, now, outcomes, launch, removal) => Ticked(c, s, rows, now, outcomes, launch, removal)
  }

  ghost predicate Possible(c: Config, s: State, steps: seq<Step>)
    decreases |steps|
  {
    steps == [] || (Enabled(c, s, steps[0]) && Possible(c, Next(c, s, steps[0]), steps[1..]))
  }

  ghost function After(c: Config, s: State, steps: seq<Step>): State
    requires Possible(c, s, steps)
    decreases |steps|
  {
    if steps == [] then s else After(c, Next(c, s, steps[0]), steps[1..])
  }

  // ----- Safety -----

  ghost predicate Apart(times: seq<int>, gap: int) {
    forall i | 0 <= i < |times| - 1 :: times[i + 1] - times[i] >= gap
  }

  ghost predicate Inv(c: Config, s: State) {
    && |s.fleet| <= c.maxEdges
    && (forall n: nat | Auto(n) in s.fleet :: n <= s.counter)
    && Apart(s.ups, c.cooldownUp) && (s.ups != [] ==> s.lastScaleUp == s.ups[|s.ups| - 1])
    && Apart(s.downs, c.cooldownDown) && (s.downs != [] ==> s.lastScaleDown == s.downs[|s.downs| - 1])
  }

  lemma {:induction false} ListsCount(rows: seq<Row>, fleet: set<EdgeId>)
    requires Lists(rows, fleet)
    ensures |fleet| == |rows|
  {
    if rows == [] {
      assert fleet == {};
    } else {
      var last := rows[|rows| - 1].id;
      var front := rows[..|rows| - 1];
      assert fleet - {last} == set i | 0 <= i < |front| :: front[i].id;
      ListsCount(front, fleet - {last});
      assert last in fleet;
    }
  }

  /** A launch adds one new edge or none. */
  lemma ScaledUpFleet(s: State, o: Launch)
    requires forall n: nat | Auto(n) in s.fleet :: n <= s.counter
    ensures var s' := ScaledUp(s, o);
      && (forall n: nat | Auto(n) in s'.fleet :: n <= s'.counter)
      && s.fleet <= s'.fleet
      && |s'.fleet| == |s.fleet| + if o.Launched? || o.LaunchedUnrecorded? then 1 else 0
  {
    assert Auto(s.counter + 1) !in s.fleet;
  }

  lemma {:induction false} LaunchedAllFleet(s: State, outcomes: seq<Launch>)
    requires forall n: nat | Auto(n) in s.fleet :: n <= s.counter
    ensures var s' := LaunchedAll(s, outcomes);
      && (forall n: nat | Auto(n) in s'.fleet :: n <= s'.counter)
      && s.fleet <= s'.fleet && |s.fleet| <= |s'.fleet| <= |s.fleet| + |outcomes|
      && ((forall i | 0 <= i < |outcomes| :: outcomes[i].Launched?) ==> |s'.fleet| == |s.fleet| + |outcomes|)
      && s'.lastScaleUp == s.lastScaleUp && s'.lastScaleDown == s.lastScaleDown && s'.ups == s.ups && s'.downs == s.downs
    decreases |outcomes|
  {
    if outcomes == [] {
    } else {
      ScaledUpFleet(s, outcomes[0]);
      LaunchedAllFleet(ScaledUp(s, outcomes[0]), outcomes[1..]);
    }
  }

  /** The edge chosen for removal is a managed one, in the fleet, with nobody on it. */
  lemma {:induction false} CandidateFacts(rows: seq<Row>, managed: set<EdgeId>)
    ensures match Candidate(rows, managed)
      case None => forall i | 0 <= i < |rows| :: !(rows[i].id in managed && rows[i].users == 0)
      case Some(id) => exists i :: 0 <= i < |rows| && rows[i].id == id && id in managed && rows[i].users == 0
  {
    if rows == [] {
    } else {
      CandidateFacts(rows[1..], managed);
      if !(rows[0].id in managed && rows[0].users == 0) && Candidate(rows[1..], managed).Some? {
        var id := Candidate(rows[1..], managed).value;
        var i :| 0 <= i < |rows[1..]| && rows[1..][i].id == id && id in managed && rows[1..][i].users == 0;
        assert rows[i + 1] == rows[1..][i];
      }
    }
  }

  lemma UpKeeps(c: Config, s: State, now: int, o: Launch)
    requires Inv(c, s) && |s.fleet| < c.maxEdges && now - s.lastScaleUp >= c.cooldownUp
    ensures var s' := ScaledUp(s, o).(lastScaleUp := now, ups := s.ups + [now]);
      Inv(c, s') && |s'.fleet| >= |s.fleet|
  {
    ScaledUpFleet(s, o);
  }

  lemma DownKeeps(c: Config, s: State, now: int, id: EdgeId, o: Removal)
    requires Inv(c, s) && |s.fleet| > c.minEdges && now - s.lastScaleDown >= c.cooldownDown && id in s.fleet
    ensures var s' := ScaledDown(s, id, o).(lastScaleDown := now, downs := s.downs + [now]);
      Inv(c, s') && |s'.fleet| >= c.minEdges
  {
    assert |s.fleet - {id}| == |s.fleet| - 1;
  }

  lemma MinimumKeeps(c: Config, s: State, outcomes: seq<Launch>)
    requires Inv(c, s) && c.minEdges <= c.maxEdges && Needed(c, s) <= |outcomes|
    ensures Inv(c, EnsuredMinimum(c, s, outcomes)) && |EnsuredMinimum(c, s, outcomes).fleet| >= |s.fleet|
  {
    LaunchedAllFleet(s, outcomes[..Needed(c, s)]);
  }

  lemma TickKeeps(c: Config, s: State, step: Step)
    requires Inv(c, s) && c.minEdges <= c.maxEdges && step.Tick? && Enabled(c, s, step)
    ensures Inv(c, Next(c, s, step))
    ensures c.minEdges <= |s.fleet| ==> c.minEdges <= |Next(c, s, step).fleet|
  {
    hide Inv, EnsuredMinimum, ScaledUp, ScaledDown, Hot, AllLow;
    ListsCount(step.rows, s.fleet);
    var candidate := Candidate(step.rows, s.managed);
    CandidateFacts(step.rows, s.managed);
    if step.rows == [] {
      MinimumKeeps(c, s, step.outcomes);
    } else if Hot(c, step.rows) && |step.rows| < c.maxEdges && step.now - s.lastScaleUp >= c.cooldownUp {
      UpKeeps(c, s, step.now, step.launch);
    } else if candidate.Some? && |step.rows| > c.minEdges && step.now - s.lastScaleDown >= c.cooldownDown {
      DownKeeps(c, s, step.now, candidate.value, step.removal);
    }
  }

  lemma StartKeeps(c: Config, s: State, step: Step)
    requires Inv(c, s) && c.minEdges <= c.maxEdges && step.Start? && Enabled(c, s, step)
    ensures Inv(c, Next(c, s, step))
    ensures (forall i | 0 <= i < |step.outcomes| :: step.outcomes[i].Launched?) ==> c.minEdges <= |Next(c, s, step).fleet|
  {
    var s1 := Recovered(s, step.dead);
    SubsetSize(s1.fleet, s.fleet);
    LaunchedAllFleet(s1, step.outcomes[..Needed(c, s1)]);
  }

  /** Every run of ticks: the fleet stays within the maximum, and once within [min, max] stays there;
      threshold scale-ups and scale-downs keep their cooldowns. */
  lemma {:induction false} RunKeeps(c: Config, s: State, steps: seq<Step>)
    requires Inv(c, s) && c.minEdges <= c.maxEdges && Possible(c, s, steps)
    requires forall i | 0 <= i < |steps| :: steps[i].Tick?
    ensures Inv(c, After(c, s, steps))
    ensures c.minEdges <= |s.fleet| ==> c.minEdges <= |After(c, s, steps).fleet|
    decreases |steps|
  {
    if steps == [] {
    } else {
      TickKeeps(c, s, steps[0]);
      RunKeeps(c, Next(c, s, steps[0]), steps[1..]);
    }
  }

  /** From a start whose launches succeed, the fleet is within [min, max] at every tick. */
  lemma FleetInRange(c: Config, s: State, start: Step, ticks: seq<Step>)
    requires Inv(c, s) && c.minEdges <= c.maxEdges && start.Start? && Possible(c, s, [start] + ticks)
    requires forall i | 0 <= i < |start.outcomes| :: start.outcomes[i].Launched?
    requires forall i | 0 <= i < |ticks| :: ticks[i].Tick?
    ensures c.minEdges <= |After(c, s, [start] + ticks).fleet| <= c.maxEdges
  {
    assert ([start] + ticks)[1..] == ticks;
    StartKeeps(c, s, start);
    RunKeeps(c, Next(c, s, start), ticks);
  }

  predicate Adds(before: set<EdgeId>, after: set<EdgeId>, id: EdgeId) {
    id !in before && after == before + {id}
  }

  /** One new edge, on a hot fleet below the maximum. */
  ghost predicate Grew(c: Config, s: State, rows: seq<Row>, fleet: set<EdgeId>)
    requires Measured(rows)
  {
    |s.fleet| < c.maxEdges && Hot(c, rows) && exists id :: Adds(s.fleet, fleet, id)
  }

  /** One managed, empty edge gone, from a quiet fleet above the minimum. */
  ghost predicate Shrank(c: Config, s: State, rows: seq<Row>, fleet: set<EdgeId>)
    requires Measured(rows)
  {
    exists i :: 0 <= i < |rows| && rows[i].id in s.managed && rows[i].users == 0
      && fleet == s.fleet - {rows[i].id} && |s.fleet| > c.minEdges && AllLow(c, rows)
  }

  /** A tick over a running fleet launches at most one edge or removes at most one, and
      then one that was managed and empty. */
  lemma TickChanges(c: Config, s: State, step: Step)
    requires Inv(c, s) && step.Tick? && Enabled(c, s, step) && step.rows != []
    ensures var fleet := Next(c, s, step).fleet;
      fleet == s.fleet || Grew(c, s, step.rows, fleet) || Shrank(c, s, step.rows, fleet)
  {
    hide Hot, AllLow, Lists, Shrank, ScaledUp, Adds, Apart;
    ListsCount(step.rows, s.fleet);
    if Hot(c, step.rows) && |step.rows| < c.maxEdges && step.now - s.lastScaleUp >= c.cooldownUp {
      LaunchAdds(s, step.launch);
    } else if |step.rows| > c.minEdges && AllLow(c, step.rows) && step.now - s.lastScaleDown >= c.cooldownDown {
      ShrinkingTick(c, s, step);
    }
  }

  lemma LaunchAdds(s: State, o: Launch)
    requires forall n: nat | Auto(n) in s.fleet :: n <= s.counter
    ensures ScaledUp(s, o).fleet == s.fleet || exists id :: Adds(s.fleet, ScaledUp(s, o).fleet, id)
  {
    var id := Auto(s.counter + 1);
    assert id !in s.fleet;
    assert Adds(s.fleet, s.fleet + {id}, id);
  }

  lemma ShrinkingTick(c: Config, s: State, step: Step)
    requires step.Tick? && Measured(step.rows) && |s.fleet| > c.minEdges && AllLow(c, step.rows)
    ensures match Candidate(step.rows, s.managed)
      case None => true
      case Some(id) => Shrank(c, s, step.rows, s.fleet - {id})
  {
    hide AllLow;
    CandidateFacts(step.rows, s.managed);
  }

  // ----- When the configuration is inverted -----

  ghost predicate NeverAboveMax(c: Config) {
    forall s: State, step: Step | Inv(c, s) && Enabled(c, s, step) :: |Next(c, s, step).fleet| <= c.maxEdges
  }

  /** No step can overshoot the maximum exactly when the minimum is not above it. */
  lemma NeverAboveMaxIff(c: Config)
    ensures NeverAboveMax(c) <==> c.minEdges <= c.maxEdges
  {
    if c.minEdges <= c.maxEdges {
      forall s: State, step: Step | Inv(c, s) && Enabled(c, s, step) ensures |Next(c, s, step).fleet| <= c.maxEdges {
        if step.Tick? {
          TickKeeps(c, s, step);
        } else {
          StartKeeps(c, s, step);
        }
      }
    } else {
      var s := State({}, {}, 0, 0, 0, [], []);
      var outcomes: seq<Launch> := seq(c.minEdges, i => Launched);
      var step := Start({}, outcomes);
      assert Recovered(s, {}) == s;
      assert outcomes[..c.minEdges] == outcomes;
      LaunchedAllFleet(s, outcomes);
      assert Inv(c, s) && Enabled(c, s, step);
    }
  }

  // ----- The manager, in place -----

  class EdgeScalingManager {
    const config: Config
    var fleet: set<EdgeId>
    var managed: set<EdgeId>
    var counter: nat
    var lastScaleUp: int
    var lastScaleDown: int
    // What has happened so far, which the code does not store.
    var ups: seq<int>
    var downs: seq<int>

    function Value(): State
      reads this
    {
      State(fleet, managed, counter, lastScaleUp, lastScaleDown, ups, downs)
    }

    constructor (c: Config, running: set<EdgeId>, recorded: set<EdgeId>, number: nat)
      ensures config == c && Value() == State(running, recorded, number, 0, 0, [], [])
    {
      config := c;
      fleet, managed, counter, lastScaleUp, lastScaleDown, ups, downs := running, recorded, number, 0, 0, [], [];
    }

    method ScaleUp(o: Launch)
      modifies this
      ensures Value() == ScaledUp(old(Value()), o)
    {
      if o.NoNumber? {
        return;
      }
      counter := counter + 1;
      var id := Auto(counter);
      if o.NotLaunched? {
        return;
      }
      fleet := fleet + {id};
      if o.LaunchedUnrecorded? {
        return;
      }
      managed := managed + {id};
    }

    method ScaleDown(id: EdgeId, o: Removal)
      modifies this
      ensures Value() == ScaledDown(old(Value()), id, o)
    {
      if o.NotRemoved? {
        return;
      }
      fleet := fleet - {id};
      if o.Removed? {
        managed := managed - {id};
      }
    }

    method EnsureMinimumEdges(outcomes: seq<Launch>)
      requires Needed(config, Value()) <= |outcomes|
      modifies this
      ensures Value() == EnsuredMinimum(config, old(Value()), outcomes)
    {
      var running := |fleet|;
      if running < config.minEdges {
        var todo := outcomes[..config.minEdges - running];
        while todo != []
          invariant LaunchedAll(Value(), todo) == EnsuredMinimum(config, old(Value()), outcomes)
          decreases |todo|
        {
          ScaleUp(todo[0]);
          todo := todo[1..];
        }
      }
    }

    method FindCandidate(rows: seq<Row>) returns (found: Option<EdgeId>)
      ensures found == Candidate(rows, managed)
    {
      var i := 0;
      while i < |rows|
        invariant 0 <= i <= |rows|
        invariant Candidate(rows[i..], managed) == Candidate(rows, managed)
      {
        if rows[i].id in managed && rows[i].users == 0 {
          return Some(rows[i].id);
        }
        i := i + 1;
      }
      return None;
    }

    method OnTick(rows: seq<Row>, now: int, outcomes: seq<Launch>, launch: Launch, removal: Removal)
      requires Measured(rows) && Needed(config, Value()) <= |outcomes|
      modifies this
      ensures Value() == Ticked(config, old(Value()), rows, now, outcomes, launch, removal)
    {
      if rows == [] {
        EnsureMinimumEdges(outcomes);
        return;
      }
      if Hot(config, rows) && |rows| < config.maxEdges {
        if now - lastScaleUp >= config.cooldownUp {
          ScaleUp(launch);
          lastScaleUp := now;
          ups := ups + [now];
          return;
        }
      }
      if |rows| > config.minEdges {
        if AllLow(config, rows) && now - lastScaleDown >= config.cooldownDown {
          var candidate := FindCandidate(rows);
          if candidate.Some? {
            ScaleDown(candidate.value, removal);
            lastScaleDown := now;
            downs := downs + [now];
          }
        }
      }
    }

    method OnStart(dead: set<EdgeId>, outcomes: seq<Launch>)
      requires Needed(config, Recovered(Value(), dead)) <= |outcomes|
      modifies this
      ensures Value() == EnsuredMinimum(config, Recovered(old(Value()), dead), outcomes)
    {
      var todo := managed * dead;
      while todo != {}
        invariant todo <= old(managed) * dead
        invariant managed == old(managed) - (dead - todo)
        invariant fleet == old(fleet) - ((dead - todo) * old(managed))
        invariant counter == old(counter) && lastScaleUp == old(lastScaleUp) && lastScaleDown == old(lastScaleDown)
        invariant ups == old(ups) && downs == old(downs)
        decreases todo
      {
        var id :| id in todo;
        todo := todo - {id};
        managed := managed - {id};
        fleet := fleet - {id};
      }
      assert Value() == Recovered(old(Value()), dead);
      EnsureMinimumEdges(outcomes);
    }
  }
}
