/** Exactly when the autoscaler acts, and what each action leaves. */
module AutoscalerTicks {
  import opened Common
  import opened Autoscaler

  /** The edge carries at least `bound` percent of its capacity. */
  predicate AtLeast(r: Row, bound: real) {
    r.users as real * 100.0 >= bound * r.capacity as real
  }

  predicate AtMost(r: Row, bound: real) {
    r.users as real * 100.0 <= bound * r.capacity as real
  }

  predicate SomeHot(c: Config, rows: seq<Row>) {
    exists i | 0 <= i < |rows| :: AtLeast(rows[i], c.upAt)
  }

  predicate EveryQuiet(c: Config, rows: seq<Row>) {
    forall i | 0 <= i < |rows| :: AtMost(rows[i], c.downAt)
  }

  predicate MayScaleUp(c: Config, s: State, rows: seq<Row>, now: int) {
    SomeHot(c, rows) && |s.fleet| < c.maxEdges && now - s.lastScaleUp >= c.cooldownUp
  }

  predicate Removable(s: State, row: Row) { row.id in s.managed && row.users == 0 }

  predicate MayScaleDown(c: Config, s: State, rows: seq<Row>, now: int) {
    && !MayScaleUp(c, s, rows, now)
    && EveryQuiet(c, rows) && |s.fleet| > c.minEdges && now - s.lastScaleDown >= c.cooldownDown
    && exists i | 0 <= i < |rows| :: Removable(s, rows[i])
  }

  lemma Percent(r: Row, bound: real)
    requires r.capacity > 0
    ensures LoadPct(r) >= bound <==> AtLeast(r, bound)
    ensures LoadPct(r) <= bound <==> AtMost(r, bound)
  {
    var y := r.capacity as real;
    var q := r.users as real / y;
    assert q * y == r.users as real;
    assert q * 100.0 * y == r.users as real * 100.0;
    Scale(q * 100.0, bound, y);
    Scale(bound, q * 100.0, y);
  }

  lemma Scale(a: real, b: real, y: real)
    requires y > 0.0
    ensures a >= b <==> a * y >= b * y
  {
    assert (a - b) * y == a * y - b * y;
    if a < b {
      assert (b - a) * y > 0.0;
    }
  }

  lemma LoadsInPercent(c: Config, rows: seq<Row>)
    requires Measured(rows)
    ensures Hot(c, rows) <==> SomeHot(c, rows)
    ensures AllLow(c, rows) <==> EveryQuiet(c, rows)
  {
    hide LoadPct, AtLeast, AtMost;
    forall i | 0 <= i < |rows|
      ensures LoadPct(rows[i]) >= c.upAt <==> AtLeast(rows[i], c.upAt)
      ensures LoadPct(rows[i]) <= c.downAt <==> AtMost(rows[i], c.downAt)
    {
      Percent(rows[i], c.upAt);
      Percent(rows[i], c.downAt);
    }
  }

  /** The edge chosen is the first removable one. */
  lemma {:induction false} CandidateIsFirst(s: State, rows: seq<Row>)
    ensures match Candidate(rows, s.managed)
      case None => forall i | 0 <= i < |rows| :: !Removable(s, rows[i])
      case Some(id) => exists i | 0 <= i < |rows| :: FirstRemovable(s, rows, i) && rows[i].id == id
  {
    if rows == [] {
    } else if Removable(s, rows[0]) {
      assert FirstRemovable(s, rows, 0);
    } else {
      CandidateIsFirst(s, rows[1..]);
      assert forall i | 0 < i < |rows| :: rows[i] == rows[1..][i - 1];
      if Candidate(rows[1..], s.managed).Some? {
        var i :| 0 <= i < |rows[1..]| && FirstRemovable(s, rows[1..], i) && rows[1..][i].id == Candidate(rows[1..], s.managed).value;
        assert FirstRemovable(s, rows, i + 1);
      }
    }
  }

  predicate FirstRemovable(s: State, rows: seq<Row>, i: int)
    requires 0 <= i < |rows|
  {
    Removable(s, rows[i]) && forall j | 0 <= j < i :: !Removable(s, rows[j])
  }

  /** What a tick over a running fleet decides: up exactly when some edge is hot, there is room
      and the cooldown is over; otherwise down exactly when all are quiet, there is one to
      spare, that cooldown is over and an edge can be removed; otherwise nothing. */
  lemma TickDecides(c: Config, s: State, step: Step)
    requires step.Tick? && Enabled(c, s, step) && step.rows != []
    ensures var s', now := Next(c, s, step), step.now; var up := MayScaleUp(c, s, step.rows, now);
      var down := MayScaleDown(c, s, step.rows, now);
      && s'.ups == s.ups + (if up then [now] else []) && s'.lastScaleUp == (if up then now else s.lastScaleUp)
      && s'.downs == s.downs + (if down then [now] else []) && s'.lastScaleDown == (if down then now else s.lastScaleDown)
      && (!up && !down ==> s' == s)
  {
    hide Lists, Hot, AllLow, Measured, EveryQuiet, SomeHot;
    LoadsInPercent(c, step.rows);
    ListsCount(step.rows, s.fleet);
    CandidateIsFirst(s, step.rows);
    assert s.ups + [] == s.ups && s.downs + [] == s.downs;
  }

  /** A launch that succeeds adds one edge under a fresh number and remembers it as managed; a
      failed one adds none, but its cooldown runs all the same (`TickDecides`). */
  lemma ScalingUp(c: Config, s: State, step: Step)
    requires Inv(c, s) && step.Tick? && Enabled(c, s, step) && step.rows != [] && MayScaleUp(c, s, step.rows, step.now)
    ensures var s' := Next(c, s, step); var id := Auto(s.counter + 1);
      match step.launch
      case Launched => id !in s.fleet && s'.fleet == s.fleet + {id} && s'.managed == s.managed + {id} && s'.counter == s.counter + 1
      case LaunchedUnrecorded => id !in s.fleet && s'.fleet == s.fleet + {id} && s'.managed == s.managed && s'.counter == s.counter + 1
      case NotLaunched => s'.fleet == s.fleet && s'.managed == s.managed && s'.counter == s.counter + 1
      case NoNumber => s'.fleet == s.fleet && s'.managed == s.managed && s'.counter == s.counter
  {
    hide Lists, Hot, AllLow, SomeHot;
    LoadsInPercent(c, step.rows);
    ListsCount(step.rows, s.fleet);
  }

  /** A removal that succeeds takes away the first edge that is managed and empty. */
  lemma ScalingDown(c: Config, s: State, step: Step)
    requires step.Tick? && Enabled(c, s, step) && step.rows != [] && MayScaleDown(c, s, step.rows, step.now)
    ensures var s' := Next(c, s, step);
      && s'.counter == s.counter
      && exists i | 0 <= i < |step.rows| :: FirstRemovable(s, step.rows, i) && Removes(s, s', step.rows[i].id, step.removal)
  {
    hide Lists, Hot, AllLow, SomeHot, EveryQuiet, FirstRemovable;
    LoadsInPercent(c, step.rows);
    ListsCount(step.rows, s.fleet);
    CandidateIsFirst(s, step.rows);
  }

  predicate Removes(s: State, s': State, id: EdgeId, o: Removal) {
    match o
    case Removed => s'.fleet == s.fleet - {id} && s'.managed == s.managed - {id}
    case RemovedUnrecorded => s'.fleet == s.fleet - {id} && s'.managed == s.managed
    case NotRemoved => s'.fleet == s.fleet && s'.managed == s.managed
  }

  lemma {:induction false} LaunchesAreManaged(s: State, outcomes: seq<Launch>)
    requires forall i | 0 <= i < |outcomes| :: outcomes[i].Launched?
    ensures var s' := LaunchedAll(s, outcomes);
      && s.managed <= s'.managed && s'.counter == s.counter + |outcomes|
      && (forall id | id in s'.fleet && id !in s.fleet :: id in s'.managed)
      && (forall id | id in s'.managed && id !in s.managed :: id.Auto? && id.number > s.counter)
    decreases |outcomes|
  {
    if outcomes == [] {
    } else {
      assert outcomes[0].Launched?;
      var s1 := ScaledUp(s, outcomes[0]);
      LaunchesAreManaged(s1, outcomes[1..]);
    }
  }

  /** A tick over an empty fleet whose launches succeed brings it to the minimum with edges of
      its own, and starts no cooldown. */
  lemma EmptyFleetRefills(c: Config, s: State, step: Step)
    requires Inv(c, s) && step.Tick? && Enabled(c, s, step) && step.rows == []
    requires forall i | 0 <= i < |step.outcomes| :: step.outcomes[i].Launched?
    ensures var s' := Next(c, s, step);
      |s'.fleet| == c.minEdges && s'.fleet <= s'.managed
      && s'.lastScaleUp == s.lastScaleUp && s'.ups == s.ups && s'.lastScaleDown == s.lastScaleDown && s'.downs == s.downs
  {
    hide Apart;
    ListsCount(step.rows, s.fleet);
    var outcomes := step.outcomes[..Needed(c, s)];
    LaunchedAllFleet(s, outcomes);
    LaunchesAreManaged(s, outcomes);
  }

  /** A start whose launches succeed forgets exactly the recorded edges that are dead, then
      fills the fleet up to the minimum. */
  lemma StartRecovers(c: Config, s: State, step: Step)
    requires Inv(c, s) && step.Start? && Enabled(c, s, step)
    requires forall i | 0 <= i < |step.outcomes| :: step.outcomes[i].Launched?
    ensures var s' := Next(c, s, step); var alive := set id | id in s.fleet && !(id in s.managed && id in step.dead);
      && (forall id | id in s.fleet :: id in s'.fleet <==> id in alive)
      && (forall id | id in s.managed && (id.Auto? ==> id.number <= s.counter) :: id in s'.managed <==> id !in step.dead)
      && |s'.fleet| == if |alive| < c.minEdges then c.minEdges else |alive|
  {
    hide Apart;
    var s1 := Recovered(s, step.dead);
    var alive := set id | id in s.fleet && !(id in s.managed && id in step.dead);
    assert s1.fleet == alive;
    var outcomes := step.outcomes[..Needed(c, s1)];
    LaunchedAllFleet(s1, outcomes);
    LaunchesAreManaged(s1, outcomes);
  }
}
