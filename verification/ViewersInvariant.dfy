/** What every step of the viewer counter's protocol keeps: each decrement takes back an
    acknowledged increment of its own, and the counter stays below the difference. */
module ViewersInvariant {
  import opened Common
  import opened Viewers

  // ----- The invariant -----

  predicate BeforeIncr(p: Phase) { p.AtExists? || p.AtIncr? }

  predicate PastIncr(p: Phase) { p.AtClamp? || p.AtPublish? }

  predicate PhaseOk(p: Phase) {
    match p
    case AtClamp(b) => 0 <= b
    case AtPublish(v, b) => 0 <= v <= b
    case _ => true
  }

  /** A join increments once; a drop takes back an increment whose join has been acknowledged. */
  ghost predicate CallOk(calls: seq<Call>, applied: set<CallId>, spent: set<CallId>, c: CallId)
    requires c < |calls|
  {
    var k := calls[c];
    && PhaseOk(k.phase)
    && if k.delta == 1 then
         && k.token == c
         && (BeforeIncr(k.phase) ==> c !in applied)
         && (PastIncr(k.phase) ==> c in applied)
         && (c in spent ==> k.phase.Finished?)
       else
         && k.delta == -1
         && c !in applied && c !in spent
         && k.token in applied
         && k.token < |calls| && calls[k.token].delta == 1 && calls[k.token].phase.Finished?
         && (BeforeIncr(k.phase) ==> k.token !in spent)
  }

  ghost predicate Untaken(calls: seq<Call>, token: CallId) {
    forall d | 0 <= d < |calls| && calls[d].delta == -1 :: calls[d].token != token
  }

  /** A set flag is an acknowledged increment of this socket that nothing has taken back. */
  ghost predicate FlagOk(calls: seq<Call>, applied: set<CallId>, spent: set<CallId>, x: Socket, c: CallId) {
    && c < |calls| && calls[c].delta == 1 && calls[c].socket == x && calls[c].phase.Finished?
    && c in applied && c !in spent
    && Untaken(calls, c)
  }

  ghost predicate CallsOk(calls: seq<Call>, applied: set<CallId>, spent: set<CallId>) {
    && (forall c {:trigger CallOk(calls, applied, spent, c)} | 0 <= c < |calls| :: CallOk(calls, applied, spent, c))
    && (forall c, d | 0 <= c < d < |calls| && calls[c].delta == -1 && calls[d].delta == -1 ::
          calls[c].token != calls[d].token)
  }

  /** A connected socket with its flag set. What an orphaned record says is never read. */
  predicate Flagged(records: map<Socket, Record>, x: Socket) {
    Connected(records, x) && records[x].counted.Some?
  }

  ghost predicate FlagsOk(records: map<Socket, Record>, calls: seq<Call>, applied: set<CallId>, spent: set<CallId>) {
    forall x | Flagged(records, x) :: FlagOk(calls, applied, spent, x, records[x].counted.value)
  }

  /** A join about to set a connected socket's flag has been counted. */
  ghost predicate AcksOk(s: State) {
    && (forall c | 0 <= c < |s.calls| :: s.calls[c].socket in s.records)
    && (forall c | 0 <= c < |s.calls| && s.calls[c].delta == 1 && s.calls[c].phase == Returned(true)
          && Connected(s.records, s.calls[c].socket) :: c in s.applied)
  }

  ghost predicate CountsOk(s: State) {
    && (s.keyExists || (s.applied == {} && forall c | 0 <= c < |s.calls| :: !s.calls[c].phase.AtIncr?))
    && s.spent <= s.applied
    && (forall c | c in s.applied :: c < |s.calls|)
    && s.counter <= Difference(s)
    && forall i | 0 <= i < |s.published| :: 0 <= s.published[i].value <= s.published[i].bound
  }

  ghost predicate Core(s: State) {
    && CallsOk(s.calls, s.applied, s.spent)
    && FlagsOk(s.records, s.calls, s.applied, s.spent)
    && CountsOk(s)
  }

  ghost predicate Inv(s: State) {
    Core(s) && AcksOk(s)
  }

  /** Appending a call that is well placed and takes a token nobody took. */
  lemma AppendKeeps(calls: seq<Call>, applied: set<CallId>, spent: set<CallId>, k: Call)
    requires CallsOk(calls, applied, spent) && CallOk(calls + [k], applied, spent, |calls|)
    requires k.delta == -1 ==> Untaken(calls, k.token)
    ensures CallsOk(calls + [k], applied, spent)
  {
    var calls' := calls + [k];
    forall c | 0 <= c < |calls'| ensures CallOk(calls', applied, spent, c) {
      if c < |calls| {
        assert CallOk(calls, applied, spent, c);
      }
    }
  }

  lemma AppendKeepsFlags(records: map<Socket, Record>, calls: seq<Call>, applied: set<CallId>, spent: set<CallId>, k: Call)
    requires FlagsOk(records, calls, applied, spent)
    requires k.delta == -1 ==> forall x | Flagged(records, x) :: records[x].counted.value != k.token
    ensures FlagsOk(records, calls + [k], applied, spent)
  {
    var calls' := calls + [k];
    forall x | Flagged(records, x) ensures FlagOk(calls', applied, spent, x, records[x].counted.value) {
      var c := records[x].counted.value;
      assert FlagOk(calls, applied, spent, x, c);
      assert calls'[c] == calls[c];
    }
  }

  lemma DropFlagKeeps(s: State, x: Socket)
    requires Core(s) && Connected(s.records, x)
    ensures Core(DropFlag(s, x))
  {
    if s.records[x].counted.Some? {
      var c := s.records[x].counted.value;
      var k := Call(-1, x, c, AtExists);
      assert FlagOk(s.calls, s.applied, s.spent, x, c);
      assert (s.calls + [k])[c] == s.calls[c];
      AppendKeeps(s.calls, s.applied, s.spent, k);
      var records := s.records[x := s.records[x].(counted := None)];
      forall y | Flagged(records, y)
        ensures FlagOk(s.calls, s.applied, s.spent, y, records[y].counted.value) && records[y].counted.value != c
      {
        assert y != x;
      }
      AppendKeepsFlags(records, s.calls, s.applied, s.spent, k);
    }
  }

  lemma HangUpKeeps(s: State, x: Socket)
    requires Core(s) && x in s.records
    ensures Core(HangUp(s, x))
  {
    var records := HangUp(s, x).records;
    forall y | Flagged(records, y)
      ensures FlagOk(s.calls, s.applied, s.spent, y, records[y].counted.value)
    {
      assert records[y].counted == s.records[y].counted;
    }
  }

  lemma JoinKeeps(s: State, x: Socket)
    requires Core(s) && Enabled(s, Join(x))
    ensures Core(Next(s, Join(x)))
  {
    var k := Call(1, x, |s.calls|, AtExists);
    assert |s.calls| !in s.applied;
    AppendKeeps(s.calls, s.applied, s.spent, k);
    AppendKeepsFlags(s.records, s.calls, s.applied, s.spent, k);
  }

  /** Moving a call on, with its command's effect on the sets. */
  lemma MoveKeeps(s: State, c: CallId, phase: Phase, applied: set<CallId>, spent: set<CallId>)
    requires Core(s) && c < |s.calls| && !s.calls[c].phase.Finished? && !phase.Finished?
    requires applied == s.applied || (applied == s.applied + {c} && s.calls[c].delta == 1)
    requires spent == s.spent || (spent == s.spent + {s.calls[c].token} && s.calls[c].delta == -1)
    requires CallOk(s.calls[c := s.calls[c].(phase := phase)], applied, spent, c)
    ensures CallsOk(SetPhase(s, c, phase).calls, applied, spent)
    ensures FlagsOk(s.records, SetPhase(s, c, phase).calls, applied, spent)
  {
    var calls' := SetPhase(s, c, phase).calls;
    var k := s.calls[c];
    assert CallOk(s.calls, s.applied, s.spent, c);
    forall d | 0 <= d < |calls'| ensures CallOk(calls', applied, spent, d) {
      assert CallOk(s.calls, s.applied, s.spent, d);
      if d != c {
        assert calls'[d] == s.calls[d];
      }
    }
    forall x | Flagged(s.records, x) ensures FlagOk(calls', applied, spent, x, s.records[x].counted.value) {
      var t := s.records[x].counted.value;
      assert FlagOk(s.calls, s.applied, s.spent, x, t);
    }
  }

  lemma FinishKeepsCalls(s: State, c: CallId)
    requires Core(s) && c < |s.calls| && s.calls[c].phase.Returned?
    ensures CallsOk(SetPhase(s, c, Finished).calls, s.applied, s.spent)
  {
    hide FlagsOk, CountsOk;
    assert CallOk(s.calls, s.applied, s.spent, c);
    var calls' := SetPhase(s, c, Finished).calls;
    forall d | 0 <= d < |calls'| ensures CallOk(calls', s.applied, s.spent, d) {
      assert CallOk(s.calls, s.applied, s.spent, d);
    }
  }

  /** Nothing takes an increment whose join has not been acknowledged. */
  lemma PendingUntaken(s: State, c: CallId)
    requires Core(s) && c < |s.calls| && !s.calls[c].phase.Finished?
    ensures Untaken(s.calls, c)
  {
    forall d | 0 <= d < |s.calls| && s.calls[d].delta == -1 ensures s.calls[d].token != c {
      assert CallOk(s.calls, s.applied, s.spent, d);
    }
  }

  lemma ResumeKeeps(s: State, c: CallId)
    requires Inv(s) && c < |s.calls| && s.calls[c].phase.Returned?
    ensures Core(Resumed(s, c))
  {
    hide CallsOk;
    var s' := Resumed(s, c);
    FinishKeepsCalls(s, c);
    PendingUntaken(s, c);
    PendingUnspent(s, c);
    forall x | Flagged(s'.records, x) ensures FlagOk(s'.calls, s.applied, s.spent, x, s'.records[x].counted.value) {
      if s'.records[x] == s.records[x] {
        assert FlagOk(s.calls, s.applied, s.spent, x, s.records[x].counted.value);
      }
    }
  }

  lemma PendingUnspent(s: State, c: CallId)
    requires Core(s) && c < |s.calls| && s.calls[c].phase.Returned?
    ensures s.calls[c].delta == 1 ==> s.calls[c].token == c && c !in s.spent
  {
    assert CallOk(s.calls, s.applied, s.spent, c);
  }

  /** INCRBY: an increment raises both sides of the bound, a decrement lowers both. */
  lemma IncrCounts(s: State, c: CallId)
    requires Core(s) && c < |s.calls| && s.calls[c].phase.AtIncr?
    ensures var s' := Incremented(s, c);
      && s'.counter == s.counter + s.calls[c].delta
      && Difference(s') == Difference(s) + s.calls[c].delta
      && s'.spent <= s'.applied && 0 <= Difference(s')
  {
    assert CallOk(s.calls, s.applied, s.spent, c);
    var s' := Incremented(s, c);
    SubsetSize(s'.spent, s'.applied);
  }

  lemma IncrKeeps(s: State, c: CallId, reply: Reply)
    requires Core(s) && Enabled(s, Exec(c, reply)) && s.calls[c].phase.AtIncr? && reply != Refused
    ensures Core(Executed(s, c, reply))
    ensures Incremented(s, c).counter == s.counter + s.calls[c].delta
    ensures Difference(Incremented(s, c)) == Difference(s) + s.calls[c].delta
  {
    assert CallOk(s.calls, s.applied, s.spent, c);
    IncrCounts(s, c);
    var s' := Incremented(s, c);
    MoveKeeps(s, c, Executed(s, c, reply).calls[c].phase, s'.applied, s'.spent);
  }

  /** A command other than an INCRBY that reaches the server leaves its call in order. */
  lemma CommandOk(s: State, c: CallId, reply: Reply)
    requires Core(s) && Enabled(s, Exec(c, reply))
    requires !(s.calls[c].phase.AtIncr? && reply != Refused)
    ensures CallOk(Executed(s, c, reply).calls, s.applied, s.spent, c)
  {
    assert CallOk(s.calls, s.applied, s.spent, c);
  }

  lemma CommandKeeps(s: State, c: CallId, reply: Reply)
    requires Core(s) && Enabled(s, Exec(c, reply))
    requires !(s.calls[c].phase.AtIncr? && reply != Refused)
    ensures Core(Executed(s, c, reply))
  {
    hide CallOk, FlagOk;
    SubsetSize(s.spent, s.applied);
    CommandOk(s, c, reply);
    MoveKeeps(s, c, Executed(s, c, reply).calls[c].phase, s.applied, s.spent);
    PublishedOk(s, c, reply);
  }

  lemma ExecKeeps(s: State, c: CallId, reply: Reply)
    requires Core(s) && Enabled(s, Exec(c, reply))
    ensures Core(Executed(s, c, reply))
  {
    hide Core, Executed;
    if s.calls[c].phase.AtIncr? && reply != Refused {
      IncrKeeps(s, c, reply);
    } else {
      CommandKeeps(s, c, reply);
    }
  }

  lemma PublishedOk(s: State, c: CallId, reply: Reply)
    requires Core(s) && c < |s.calls|
    ensures forall n | n in Executed(s, c, reply).published :: 0 <= n.value <= n.bound
  {
    assert CallOk(s.calls, s.applied, s.spent, c);
  }

  lemma StepKeepsCore(s: State, step: Step)
    requires Inv(s) && Enabled(s, step)
    ensures Core(Next(s, step))
  {
    match step {
      case Join(x) => JoinKeeps(s, x);
      case Leave(x) => DropFlagKeeps(s.(viewers := s.viewers - {x}), x);
      case Disconnect(x, _) =>
        DropFlagKeeps(s, x);
        HangUpKeeps(DropFlag(s, x), x);
        DropFlagKeeps(s.(viewers := s.viewers - {x}), x);
        HangUpKeeps(DropFlag(s.(viewers := s.viewers - {x}), x), x);
        HangUpKeeps(s, x);
      case Exec(c, reply) => ExecKeeps(s, c, reply);
      case Resume(c) => ResumeKeeps(s, c);
      case _ => SubsetSize(s.spent, s.applied);
    }
  }

  lemma ExecFrame(s: State, c: CallId, reply: Reply)
    requires c < |s.calls|
    ensures var s' := Executed(s, c, reply);
      && s'.records == s.records && s.applied <= s'.applied && |s'.calls| == |s.calls|
      && (forall d | 0 <= d < |s.calls| && d != c :: s'.calls[d] == s.calls[d])
      && s'.calls[c].socket == s.calls[c].socket && s'.calls[c].delta == s.calls[c].delta
  {
  }

  /** Only an EXISTS that finds the key missing lets a join return without an increment. */
  lemma ExecReturns(s: State, c: CallId, reply: Reply)
    requires Core(s) && Enabled(s, Exec(c, reply)) && !Hollow(s, Exec(c, reply))
    requires s.calls[c].delta == 1 && Executed(s, c, reply).calls[c].phase == Returned(true)
    requires Connected(s.records, s.calls[c].socket)
    ensures c in s.applied
  {
    hide CountsOk, FlagsOk;
    assert CallOk(s.calls, s.applied, s.spent, c);
  }

  lemma ExecKeepsAcks(s: State, c: CallId, reply: Reply)
    requires Inv(s) && Enabled(s, Exec(c, reply)) && !Hollow(s, Exec(c, reply))
    ensures AcksOk(Executed(s, c, reply))
  {
    hide Core, Executed;
    ExecFrame(s, c, reply);
    var s' := Executed(s, c, reply);
    if s'.calls[c].delta == 1 && s'.calls[c].phase == Returned(true) && Connected(s.records, s.calls[c].socket) {
      ExecReturns(s, c, reply);
    }
  }

  lemma DropKeepsAcks(s: State, x: Socket, viewers: set<Socket>)
    requires AcksOk(s) && x in s.records
    ensures AcksOk(DropFlag(s.(viewers := viewers), x)) && AcksOk(HangUp(s, x))
  {
  }

  lemma StepKeepsAcks(s: State, step: Step)
    requires Inv(s) && Enabled(s, step) && !Hollow(s, step)
    ensures AcksOk(Next(s, step))
  {
    hide Core;
    match step {
      case Exec(c, reply) => ExecKeepsAcks(s, c, reply);
      case Leave(x) => DropKeepsAcks(s, x, s.viewers - {x});
      case Disconnect(x, _) =>
        DropKeepsAcks(s, x, s.viewers);
        DropKeepsAcks(DropFlag(s, x), x, s.viewers);
        DropKeepsAcks(s, x, s.viewers - {x});
        DropKeepsAcks(DropFlag(s.(viewers := s.viewers - {x}), x), x, s.viewers);
      case _ =>
    }
  }

  lemma StepKeeps(s: State, step: Step)
    requires Inv(s) && Enabled(s, step) && !Hollow(s, step)
    ensures Inv(Next(s, step))
  {
    StepKeepsCore(s, step);
    StepKeepsAcks(s, step);
  }

  lemma {:induction false} RunKeeps(s: State, steps: seq<Step>)
    requires Inv(s) && Possible(s, steps) && Grounded(s, steps)
    ensures Inv(After(s, steps))
    decreases |steps|
  {
    if steps == [] {
    } else {
      StepKeeps(s, steps[0]);
      RunKeeps(Next(s, steps[0]), steps[1..]);
    }
  }
}
