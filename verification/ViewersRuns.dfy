/** Whole runs of the viewer counter: when it is exact, when it is bounded, and what goes
    wrong when a viewer joins before the room is registered. */
module ViewersRuns {
  import opened Common
  import opened Viewers
  import opened ViewersInvariant

  // ----- Exact counts -----

  /** With no reset the counter is exact and a clamp is never due. */
  ghost predicate Exact(s: State) {
    && s.counter == Difference(s)
    && forall c | 0 <= c < |s.calls| :: !s.calls[c].phase.AtClamp?
  }

  lemma ExactIncr(s: State, c: CallId, reply: Reply)
    requires Inv(s) && Exact(s) && Enabled(s, Exec(c, reply)) && s.calls[c].phase.AtIncr? && reply != Refused
    ensures Exact(Executed(s, c, reply))
  {
    hide CallsOk, FlagsOk, CountsOk, AcksOk;
    IncrKeeps(s, c, reply);
    var s' := Incremented(s, c);
    assert s'.counter == Difference(s');
    NonNegative(Executed(s, c, reply));
  }

  lemma ExactStep(s: State, step: Step)
    requires Inv(s) && Exact(s) && Enabled(s, step) && !step.ResetCounter?
    ensures Exact(Next(s, step))
  {
    hide Inv;
    if step.Exec? && s.calls[step.call].phase.AtIncr? && step.reply != Refused {
      ExactIncr(s, step.call, step.reply);
    }
  }

  lemma NonNegative(s: State)
    requires Core(s)
    ensures 0 <= Difference(s)
  {
    SubsetSize(s.spent, s.applied);
  }

  /** Resets come only when no increment is outstanding, as in a registration before the
      first join, or an end after the last viewer has gone. */
  predicate Harmless(s: State, steps: seq<Step>)
    requires Possible(s, steps)
    decreases |steps|
  {
    steps == [] || ((steps[0].ResetCounter? ==> Difference(s) == 0) && Harmless(Next(s, steps[0]), steps[1..]))
  }

  /** Every state along a run is exact. */
  ghost predicate AllExact(s: State, steps: seq<Step>)
    requires Possible(s, steps)
    decreases |steps|
  {
    Exact(s) && (steps == [] || AllExact(Next(s, steps[0]), steps[1..]))
  }

  lemma {:induction false} AllExactIff(s: State, steps: seq<Step>)
    requires Inv(s) && Exact(s) && Possible(s, steps) && Grounded(s, steps)
    ensures AllExact(s, steps) <==> Harmless(s, steps)
    decreases |steps|
  {
    if steps == [] {
    } else {
      var s1 := Next(s, steps[0]);
      StepKeeps(s, steps[0]);
      if !steps[0].ResetCounter? {
        ExactStep(s, steps[0]);
      }
      if Exact(s1) {
        AllExactIff(s1, steps[1..]);
      } else {
        ResetInexact(s, steps);
      }
    }
  }

  lemma ResetInexact(s: State, steps: seq<Step>)
    requires Exact(s) && Possible(s, steps) && steps != [] && steps[0].ResetCounter? && !Exact(Next(s, steps[0]))
    ensures !AllExact(s, steps) && !Harmless(s, steps)
  {
    assert !AllExact(Next(s, steps[0]), steps[1..]);
  }

  lemma {:induction false} AllExactEnds(s: State, steps: seq<Step>)
    requires Possible(s, steps) && AllExact(s, steps)
    ensures Exact(After(s, steps))
    decreases |steps|
  {
    if steps == [] {
    } else {
      AllExactEnds(Next(s, steps[0]), steps[1..]);
    }
  }

  /** In a run with no hollow step, the counter is increments minus decrements and no call
      is about to clamp, at every point, if and only if every reset is harmless. */
  lemma ExactIffHarmless(steps: seq<Step>)
    requires Possible(Init(), steps) && Grounded(Init(), steps)
    ensures AllExact(Init(), steps) <==> Harmless(Init(), steps)
  {
    AllExactIff(Init(), steps);
  }

  /** Different sockets' flags stand for different increments. */
  lemma {:induction false} FlagsCount(s: State, sockets: set<Socket>, tokens: set<CallId>)
    requires FlagsOk(s.records, s.calls, s.applied, s.spent)
    requires forall x | x in sockets :: Flagged(s.records, x) && s.records[x].counted.value in tokens
    ensures |sockets| <= |tokens|
  {
    if x :| x in sockets {
      var c := s.records[x].counted.value;
      assert FlagOk(s.calls, s.applied, s.spent, x, c);
      forall y | y in sockets - {x} ensures s.records[y].counted.value in tokens - {c} {
        assert FlagOk(s.calls, s.applied, s.spent, y, s.records[y].counted.value);
      }
      FlagsCount(s, sockets - {x}, tokens - {c});
    }
  }

  lemma FlaggedAtMost(s: State)
    requires Core(s)
    ensures |set x | x in s.records && Flagged(s.records, x)| <= Difference(s)
  {
    hide CallsOk;
    var flagged := set x | x in s.records && Flagged(s.records, x);
    forall x | x in flagged ensures s.records[x].counted.value in s.applied - s.spent {
      assert FlagOk(s.calls, s.applied, s.spent, x, s.records[x].counted.value);
    }
    FlagsCount(s, flagged, s.applied - s.spent);
    assert s.applied == (s.applied - s.spent) + s.spent;
  }

  /** Then the counter is never below the number of connected sockets counted as viewers,
      whatever calls are pending or have failed. */
  lemma NeverUndercounts(steps: seq<Step>)
    requires Possible(Init(), steps) && Grounded(Init(), steps) && Harmless(Init(), steps)
    ensures var s := After(Init(), steps);
      |set x | x in s.records && Flagged(s.records, x)| <= s.counter
  {
    RunKeeps(Init(), steps);
    ExactIffHarmless(steps);
    AllExactEnds(Init(), steps);
    FlaggedAtMost(After(Init(), steps));
  }

  /** Published counts lie between 0 and the increments minus the decrements applied. */
  ghost predicate Bounded(s: State) {
    && |s.spent| <= |s.applied|
    && forall i | 0 <= i < |s.published| :: 0 <= s.published[i].value <= s.published[i].bound
  }

  /** Every run without a hollow step, across resets, clamps and failures. */
  lemma BoundedWhenGrounded(steps: seq<Step>)
    requires Possible(Init(), steps) && Grounded(Init(), steps)
    ensures Bounded(After(Init(), steps))
  {
    RunKeeps(Init(), steps);
    NonNegative(After(Init(), steps));
  }

  // ----- The room is registered before the first join -----

  ghost predicate NoReset(steps: seq<Step>) {
    forall i | 0 <= i < |steps| :: !steps[i].ResetCounter?
  }

  ghost predicate NoJoin(steps: seq<Step>) {
    forall i | 0 <= i < |steps| :: !steps[i].Join?
  }

  /** Without a join there is no call, no flag and nothing to reset. */
  ghost predicate Untouched(s: State) {
    s.calls == [] && s.applied == {} && s.spent == {} && s.counter == 0 && (forall x | x in s.records :: s.records[x].counted == None)
  }

  lemma {:induction false} UntouchedByNoJoin(s: State, steps: seq<Step>)
    requires Untouched(s) && Possible(s, steps) && NoJoin(steps)
    ensures Untouched(After(s, steps)) && Grounded(s, steps) && Harmless(s, steps)
    decreases |steps|
  {
    if steps == [] {
    } else {
      assert !steps[0].Join?;
      UntouchedByNoJoin(Next(s, steps[0]), steps[1..]);
    }
  }

  lemma {:induction false} GroundedWithKey(s: State, steps: seq<Step>)
    requires s.keyExists && Possible(s, steps)
    ensures Grounded(s, steps)
    ensures NoReset(steps) ==> Harmless(s, steps)
    decreases |steps|
  {
    if steps == [] {
    } else {
      KeyStays(s, steps[0]);
      GroundedWithKey(Next(s, steps[0]), steps[1..]);
    }
  }

  lemma KeyStays(s: State, step: Step)
    requires s.keyExists && Enabled(s, step)
    ensures Next(s, step).keyExists
  {
  }

  /** The code's order for a fresh room: sockets connect, the room opens, the key and the
      counter are written, and only then viewers join. The count is bounded whatever
      follows, and exact as long as no reset does. */
  lemma RegisteredFirst(before: seq<Step>, after: seq<Step>)
    requires NoJoin(before) && Possible(Init(), before)
    requires After(Init(), before).keyExists && Possible(After(Init(), before), after)
    ensures Possible(Init(), before + after)
    ensures Bounded(After(Init(), before + after))
    ensures NoReset(after) ==> Exact(After(Init(), before + after))
  {
    var s := After(Init(), before);
    UntouchedByNoJoin(Init(), before);
    GroundedWithKey(s, after);
    AfterConcat(Init(), before, after);
    BoundedWhenGrounded(before + after);
    if NoReset(after) {
      RunKeeps(Init(), before);
      AllExactIff(s, after);
      AllExactEnds(s, after);
    }
  }

  lemma {:induction false} AfterConcat(s: State, a: seq<Step>, b: seq<Step>)
    requires Possible(s, a) && Possible(After(s, a), b)
    ensures Possible(s, a + b) && After(s, a + b) == After(After(s, a), b)
    ensures Grounded(s, a) && Grounded(After(s, a), b) ==> Grounded(s, a + b)
    decreases |a|
  {
    if a == [] {
      assert a + b == b;
    } else {
      assert (a + b)[1..] == a[1..] + b;
      AfterConcat(Next(s, a[0]), a[1..], b);
    }
  }

  // ----- A hollow step -----

  ghost predicate StaysBounded(s: State) {
    forall more: seq<Step> | Possible(s, more) && Grounded(s, more) :: Bounded(After(s, more))
  }

  /** The viewer goes again: the way its kind of socket takes back a flag. */
  function Go(s: State, x: Socket): Step
    requires x in s.records
  {
    if s.records[x].edge then Disconnect(x, false) else Leave(x)
  }

  /** The join resumes, the key appears, the viewer goes, and the decrement runs its four
      commands as call `d`. */
  function HollowLeave(c: CallId, go: Step, d: CallId): seq<Step> {
    [Resume(c), SetKey, go] + FourCommands(d)
  }

  function FourCommands(d: CallId): seq<Step> {
    [Exec(d, Done), Exec(d, Done), Exec(d, Done), Exec(d, Done)]
  }

  lemma RunsFourCommands(s: State, d: CallId)
    requires d < |s.calls| && s.calls[d].delta == -1 && s.calls[d].phase.AtExists?
    requires s.keyExists && s.counter <= 0 && s.applied == {} && s.spent == {}
    ensures Possible(s, FourCommands(d)) && Grounded(s, FourCommands(d))
    ensures After(s, FourCommands(d)).published == s.published + [Notice(0, -1)]
  {
    var e := Exec(d, Done);
    var s1 := Next(s, e);
    var s2 := Next(s1, e);
    assert s2.calls[d].phase == AtClamp(-1);
    var s3 := Next(s2, e);
    var s4 := Next(s3, e);
    assert Possible(s4, []) && Grounded(s4, []);
    assert Possible(s3, [e]) && Grounded(s3, [e]) && After(s3, [e]) == s4 by { assert [e][1..] == []; }
    assert Possible(s2, [e, e]) && Grounded(s2, [e, e]) && After(s2, [e, e]) == s4 by { assert [e, e][1..] == [e]; }
    assert Possible(s1, [e, e, e]) && Grounded(s1, [e, e, e]) && After(s1, [e, e, e]) == s4 by { assert [e, e, e][1..] == [e, e]; }
    assert FourCommands(d)[1..] == [e, e, e];
  }

  /** After a hollow step of a socket that is still there, the bound can be broken. */
  lemma HollowBreaks(s: State, c: CallId)
    requires Inv(s) && Enabled(s, Exec(c, Done)) && Hollow(s, Exec(c, Done))
    ensures s.calls[c].socket in s.records
    ensures var s1 := Next(s, Exec(c, Done));
      var more := HollowLeave(c, Go(s, s.calls[c].socket), |s.calls|);
      && Possible(s1, more) && Grounded(s1, more)
      && After(s1, more).published == s.published + [Notice(0, -1)] && !Bounded(After(s1, more))
  {
    var x := s.calls[c].socket;
    var go, d := Go(s, x), |s.calls|;
    var more := HollowLeave(c, go, d);
    assert CallOk(s.calls, s.applied, s.spent, c);
    var s1 := Next(s, Exec(c, Done));
    var s2 := Next(s1, Resume(c));
    assert s2.records[x].counted == Some(c);
    var s3 := Next(s2, SetKey);
    var s4 := Next(s3, go);
    assert s4.calls[d] == Call(-1, x, c, AtExists);
    RunsFourCommands(s4, d);
    HollowLeaveRuns(s1, c, go, d);
    var end := After(s1, more);
    assert end.published[|end.published| - 1] == Notice(0, -1);
  }

  lemma HollowLeaveRuns(s: State, c: CallId, go: Step, d: CallId)
    requires Enabled(s, Resume(c)) && Enabled(Next(Next(s, Resume(c)), SetKey), go)
    requires go.Disconnect? || go.Leave?
    requires var s4 := Next(Next(Next(s, Resume(c)), SetKey), go); Possible(s4, FourCommands(d)) && Grounded(s4, FourCommands(d))
    ensures Possible(s, HollowLeave(c, go, d)) && Grounded(s, HollowLeave(c, go, d))
    ensures After(s, HollowLeave(c, go, d)) == After(Next(Next(Next(s, Resume(c)), SetKey), go), FourCommands(d))
  {
    hide Next, Enabled, FourCommands;
    var s2 := Next(s, Resume(c));
    SetKeyEnabled(s2);
    var s3 := Next(s2, SetKey);
    RunCons(s3, go, FourCommands(d));
    RunCons(s2, SetKey, [go] + FourCommands(d));
    RunCons(s, Resume(c), [SetKey] + ([go] + FourCommands(d)));
    assert HollowLeave(c, go, d) == [Resume(c)] + ([SetKey] + ([go] + FourCommands(d)));
  }

  lemma RunCons(s: State, step: Step, rest: seq<Step>)
    requires Enabled(s, step) && Possible(Next(s, step), rest) && Grounded(Next(s, step), rest) && !Hollow(s, step)
    ensures Possible(s, [step] + rest) && Grounded(s, [step] + rest)
    ensures After(s, [step] + rest) == After(Next(s, step), rest)
  {
    assert ([step] + rest)[1..] == rest;
  }

  lemma SetKeyEnabled(s: State)
    ensures Enabled(s, SetKey)
  {
  }

  /** At any point of a run so far without a hollow step, answering a join's EXISTS keeps
      the count bounded for good if and only if the key is there or the socket is gone. */
  lemma AnswerSafeIffRegistered(before: seq<Step>, c: CallId)
    requires Possible(Init(), before) && Grounded(Init(), before)
    requires var s := After(Init(), before);
      Enabled(s, Exec(c, Done)) && s.calls[c].delta == 1 && s.calls[c].phase.AtExists?
    ensures var s := After(Init(), before);
      StaysBounded(Next(s, Exec(c, Done))) <==> s.keyExists || !Connected(s.records, s.calls[c].socket)
  {
    var s := After(Init(), before);
    RunKeeps(Init(), before);
    if s.keyExists || !Connected(s.records, s.calls[c].socket) {
      StepKeeps(s, Exec(c, Done));
      InvStaysBounded(Next(s, Exec(c, Done)));
    } else {
      HollowBreaks(s, c);
    }
  }

  lemma InvStaysBounded(s: State)
    requires Inv(s)
    ensures StaysBounded(s)
  {
    forall more: seq<Step> | Possible(s, more) && Grounded(s, more) ensures Bounded(After(s, more)) {
      RunKeeps(s, more);
      NonNegative(After(s, more));
    }
  }

  /** A fallback viewer joins a room that is open but not registered yet. */
  function EarlyJoin(): seq<Step> {
    [Connect("v", false), RoomOpens, Join("v")]
  }

  /** With no fault at all the count published is above the bound. */
  lemma EarlyJoinBreaksBound()
    ensures var s := After(Init(), EarlyJoin());
      && Possible(Init(), EarlyJoin()) && Enabled(s, Exec(0, Done))
      && Possible(Next(s, Exec(0, Done)), HollowLeave(0, Leave("v"), 1))
      && After(Next(s, Exec(0, Done)), HollowLeave(0, Leave("v"), 1)).published == [Notice(0, -1)]
  {
    var s1 := Next(Init(), Connect("v", false));
    var s2 := Next(s1, RoomOpens);
    var s3 := Next(s2, Join("v"));
    assert EarlyJoin()[1..] == [RoomOpens, Join("v")] && EarlyJoin()[1..][1..] == [Join("v")] && EarlyJoin()[1..][1..][1..] == [];
    assert s3.calls == [Call(1, "v", 0, AtExists)];
    assert Possible(s3, []) && After(s3, []) == s3 && Grounded(s3, []);
    assert Possible(s2, [Join("v")]) && After(s2, [Join("v")]) == s3;
    RunKeeps(Init(), EarlyJoin());
    HollowBreaks(s3, 0);
  }
}
