/** What the viewer counter says: what one call publishes, that published counts are exact,
    and that the counter is the number of sockets watching. */
module ViewersCounts {
  import opened Common
  import opened Viewers
  import opened ViewersInvariant
  import opened ViewersRuns

  // ----- One call -----

  /** In any state an INCRBY that answers leaves its call about to publish the counter it
      produced, or about to clamp it when that is negative. */
  lemma IncrThenPublish(s: State, c: CallId)
    requires c < |s.calls| && s.calls[c].phase.AtIncr?
    ensures Enabled(s, Exec(c, Done))
    ensures var s' := Next(s, Exec(c, Done)); var bound := |s'.applied| - |s'.spent|;
      && s'.counter == s.counter + (if s.calls[c].delta == 1 then 1 else -1)
      && |s'.calls| == |s.calls|
      && s'.calls[c].phase == if s'.counter < 0 then AtClamp(bound) else AtPublish(s'.counter, bound)
  {
  }

  /** A lost reply has the effect of the command, a refused command has none, and either way
      the caller returns with an error and issues nothing more. */
  lemma FailedCommand(s: State, c: CallId)
    requires Enabled(s, Exec(c, Done))
    ensures Next(s, Exec(c, Refused)) == s.(calls := s.calls[c := s.calls[c].(phase := Returned(false))])
    ensures var done := Next(s, Exec(c, Done));
      Next(s, Exec(c, Lost)) == done.(calls := done.calls[c := done.calls[c].(phase := Returned(false))])
  {
  }

  function Commands(c: CallId, n: nat): (r: seq<Step>)
    ensures |r| == n
  {
    seq(n, i => Exec(c, Done))
  }

  lemma OneCommand(s: State, c: CallId, n: nat)
    requires n > 0 && Enabled(s, Exec(c, Done)) && Possible(Next(s, Exec(c, Done)), Commands(c, n - 1))
    ensures Possible(s, Commands(c, n))
    ensures After(s, Commands(c, n)) == After(Next(s, Exec(c, Done)), Commands(c, n - 1))
  {
    hide Next, Enabled;
    assert Commands(c, n)[0] == Exec(c, Done) && Commands(c, n)[1..] == Commands(c, n - 1);
  }

  /** A call whose commands all answer, undisturbed: the counter moves by one but not below
      zero, what it is then is published once, and the call returns. */
  lemma WholeCall(s: State, c: CallId)
    requires Inv(s) && s.keyExists && c < |s.calls| && s.calls[c].phase.AtExists?
    ensures var sum := s.counter + s.calls[c].delta; var n := if sum < 0 then 4 else 3;
      && Possible(s, Commands(c, n))
      && var s' := After(s, Commands(c, n));
      && s'.counter == (if sum < 0 then 0 else sum)
      && |s'.published| == |s.published| + 1 && s'.published[..|s.published|] == s.published
      && s'.published[|s.published|].value == s'.counter
      && c < |s'.calls| && s'.calls[c].phase == Returned(true)
  {
    hide Inv, Next;
    var e := Exec(c, Done);
    var s1 := Next(s, e);
    DeltaIsOne(s, c);
    ExistsAnswers(s, c);
    var s2 := Next(s1, e);
    IncrThenPublish(s1, c);
    IncrFrame(s1, c);
    if s2.counter < 0 {
      var s3 := Next(s2, e);
      ClampAnswers(s2, c);
      PublishAnswers(s3, c);
      OneCommand(s2, c, 2);
    } else {
      PublishAnswers(s2, c);
    }
    var n := if s2.counter < 0 then 4 else 3;
    OneCommand(s1, c, n - 1);
    OneCommand(s, c, n);
  }

  lemma DeltaIsOne(s: State, c: CallId)
    requires Inv(s) && c < |s.calls|
    ensures s.calls[c].delta == 1 || s.calls[c].delta == -1
  {
    assert CallOk(s.calls, s.applied, s.spent, c);
  }

  lemma ExistsAnswers(s: State, c: CallId)
    requires s.keyExists && c < |s.calls| && s.calls[c].phase.AtExists?
    ensures Enabled(s, Exec(c, Done)) && !Hollow(s, Exec(c, Done))
    ensures Next(s, Exec(c, Done)) == SetPhase(s, c, AtIncr)
  {
  }

  lemma IncrFrame(s: State, c: CallId)
    requires c < |s.calls| && s.calls[c].phase.AtIncr?
    ensures var s' := Next(s, Exec(c, Done)); s'.published == s.published && |s'.calls| == |s.calls|
  {
  }

  lemma ClampAnswers(s: State, c: CallId)
    requires c < |s.calls| && s.calls[c].phase.AtClamp?
    ensures Enabled(s, Exec(c, Done))
    ensures Next(s, Exec(c, Done)) == SetPhase(s, c, AtPublish(0, s.calls[c].phase.bound)).(counter := 0)
  {
  }

  lemma PublishAnswers(s: State, c: CallId)
    requires c < |s.calls| && s.calls[c].phase.AtPublish?
    ensures Possible(s, Commands(c, 1))
    ensures var s' := After(s, Commands(c, 1));
      && s'.published == s.published + [Notice(s.calls[c].phase.value, s.calls[c].phase.bound)]
      && c < |s'.calls| && s'.calls[c].phase == Returned(true) && s'.counter == s.counter
  {
    var s' := Next(s, Exec(c, Done));
    assert Commands(c, 0) == [];
    assert Possible(s', []) && After(s', []) == s';
    OneCommand(s, c, 1);
  }

  // ----- Which steps count -----

  /** The socket gives up its place: it leaves; or it disconnects from an edge; or from the
      origin, as a viewer of the open room who is not its broadcaster. */
  predicate GivesUp(s: State, step: Step)
    requires Enabled(s, step)
  {
    || step.Leave?
    || (step.Disconnect? && (s.records[step.socket].edge || (s.live && !step.broadcaster && step.socket in s.viewers)))
  }

  /** A join starts one increment under a token of its own. Giving up a place starts one
      decrement of the same increment that set the flag, exactly if the flag is set, and
      clears it. No other step starts a call. */
  lemma CallsStartIff(s: State, step: Step)
    requires Enabled(s, step)
    ensures var s' := Next(s, step); var n := |s.calls|;
      if step.Join? then s'.calls == s.calls + [Call(1, step.socket, n, AtExists)] && s'.records == s.records
      else if GivesUp(s, step) && s.records[step.socket].counted.Some? then
        && s'.calls == s.calls + [Call(-1, step.socket, s.records[step.socket].counted.value, AtExists)]
        && s'.records[step.socket].counted == None
      else
        && |s'.calls| == n
        && forall x | x in s.records && s'.records[x].counted != s.records[x].counted ::
             step.Resume? && s.calls[step.call].delta == 1 && s.calls[step.call].socket == x
  {
    hide Executed;
    if step.Exec? {
      ExecFrame(s, step.call, step.reply);
    }
  }

  /** The room's viewers are the origin's sockets that joined, until they give up their place
      or the room opens or closes. */
  lemma ViewersChangeIff(s: State, step: Step, x: Socket)
    requires Enabled(s, step)
    ensures x in Next(s, step).viewers <==>
      || (step == Join(x) && !s.records[x].edge)
      || (x in s.viewers && !step.RoomOpens? && !step.RoomCloses?
            && !(GivesUp(s, step) && step.socket == x && (step.Leave? || !s.records[x].edge)))
    ensures Next(s, step).live <==> step.RoomOpens? || (s.live && !step.RoomCloses?)
  {
    hide Executed;
    if step.Exec? {
      PhaseMoves(s, step.call, step.reply);
    }
  }

  // ----- Published counts -----

  /** What has been published, or is about to be, is the difference at its INCRBY. */
  ghost predicate PublishesExact(s: State) {
    && (forall i | 0 <= i < |s.published| :: s.published[i].value == s.published[i].bound)
    && (forall c | 0 <= c < |s.calls| && s.calls[c].phase.AtPublish? :: s.calls[c].phase.value == s.calls[c].phase.bound)
  }

  lemma IncrPublishesExact(s: State, c: CallId, reply: Reply)
    requires Inv(s) && Exact(s) && PublishesExact(s) && Enabled(s, Exec(c, reply))
    requires s.calls[c].phase.AtIncr? && reply != Refused
    ensures PublishesExact(Executed(s, c, reply))
  {
    IncrCounts(s, c);
  }

  lemma PublishesExactStep(s: State, step: Step)
    requires Inv(s) && Exact(s) && PublishesExact(s) && Enabled(s, step)
    ensures PublishesExact(Next(s, step))
  {
    hide Inv, Exact;
    if step.Exec? && s.calls[step.call].phase.AtIncr? && step.reply != Refused {
      IncrPublishesExact(s, step.call, step.reply);
    } else if step.Exec? && s.calls[step.call].phase.AtClamp? {
      assert Exact(s);
      NoClamp(s, step.call);
    }
  }

  lemma NoClamp(s: State, c: CallId)
    requires Exact(s) && c < |s.calls|
    ensures !s.calls[c].phase.AtClamp?
  {
  }

  lemma {:induction false} RunPublishesExact(s: State, steps: seq<Step>)
    requires Inv(s) && Exact(s) && PublishesExact(s)
    requires Possible(s, steps) && Grounded(s, steps) && Harmless(s, steps)
    ensures PublishesExact(After(s, steps))
    decreases |steps|
  {
    hide Inv, Exact, PublishesExact;
    if steps == [] {
    } else {
      PublishesExactStep(s, steps[0]);
      StepKeeps(s, steps[0]);
      if steps[0].ResetCounter? {
        ResetExact(s);
      } else {
        ExactStep(s, steps[0]);
      }
      RunPublishesExact(Next(s, steps[0]), steps[1..]);
    }
  }

  lemma ResetExact(s: State)
    requires Exact(s) && Difference(s) == 0
    ensures Exact(Next(s, ResetCounter))
  {
  }

  /** Every grounded run with harmless resets: each count ever published is increments minus
      decrements at its INCRBY. */
  lemma PublishedExact(steps: seq<Step>)
    requires Possible(Init(), steps) && Grounded(Init(), steps) && Harmless(Init(), steps)
    ensures var s := After(Init(), steps);
      forall i | 0 <= i < |s.published| :: s.published[i].value == s.published[i].bound
  {
    RunPublishesExact(Init(), steps);
  }

  // ----- The counter is the number of sockets watching -----

  /** The sockets whose latest move was to join. */
  function Watching(steps: seq<Step>): set<Socket> {
    if steps == [] then {} else Moved(Watching(steps[..|steps| - 1]), steps[|steps| - 1])
  }

  function Moved(watching: set<Socket>, step: Step): set<Socket> {
    match step
    case Join(x) => watching + {x}
    case Leave(x) => watching - {x}
    case Disconnect(x, _) => watching - {x}
    case _ => watching
  }

  predicate PendingJoin(calls: seq<Call>, c: CallId, x: Socket) {
    c < |calls| && calls[c].delta == 1 && calls[c].socket == x && !calls[c].phase.Finished?
  }

  /** A join of `x` is under way. */
  ghost predicate Joining(calls: seq<Call>, x: Socket) {
    exists c: CallId :: PendingJoin(calls, c, x)
  }

  /** `x` is counted or about to be. */
  ghost predicate Counting(s: State, x: Socket) {
    Flagged(s.records, x) || Joining(s.calls, x)
  }

  /** Nothing fails; a socket joins once at a time, and neither leaves nor disconnects while
      it joins; the origin's room opens and closes only while nobody watches there, and its
      broadcaster is no viewer. */
  ghost predicate Tidy(s: State, step: Step)
    requires Enabled(s, step)
  {
    match step
    case Exec(_, reply) => reply == Done && !Hollow(s, step)
    case Join(x) => s.records[x].counted == None && !Joining(s.calls, x)
    case Leave(x) => !Joining(s.calls, x)
    case Disconnect(x, b) => !Joining(s.calls, x) && (s.records[x].edge || !b)
    case ResetCounter => Difference(s) == 0
    case RoomOpens => forall x | x in s.records && Counting(s, x) :: s.records[x].edge
    case RoomCloses => forall x | x in s.records && Counting(s, x) :: s.records[x].edge
    case _ => true
  }

  ghost predicate AllTidy(s: State, steps: seq<Step>)
    requires Possible(s, steps)
    decreases |steps|
  {
    steps == [] || (Tidy(s, steps[0]) && AllTidy(Next(s, steps[0]), steps[1..]))
  }

  /** Call `d` is to take back increment `c`. */
  predicate Undoes(calls: seq<Call>, d: CallId, c: CallId) {
    d < |calls| && calls[d].delta == -1 && calls[d].token == c && BeforeIncr(calls[d].phase)
  }

  predicate FlagHolds(s: State, x: Socket, c: CallId) {
    Connected(s.records, x) && s.records[x].counted == Some(c)
  }

  /** An increment not taken back is of a join under way, or behind a flag, or being undone. */
  ghost predicate Accounted(s: State, c: CallId) {
    && c < |s.calls|
    && (PendingJoin(s.calls, c, s.calls[c].socket) || FlagHolds(s, s.calls[c].socket, c) || exists d: CallId :: Undoes(s.calls, d, c))
  }

  ghost predicate JoinsOk(s: State, watching: set<Socket>) {
    && (forall c | 0 <= c < |s.calls| :: s.calls[c].phase != Returned(false))
    && (forall c: CallId, x | PendingJoin(s.calls, c, x) :: Connected(s.records, x) && s.records[x].counted == None && x in watching)
    && (forall c: CallId, d: CallId, x :: PendingJoin(s.calls, c, x) && PendingJoin(s.calls, d, x) ==> c == d)
    && (forall x | Flagged(s.records, x) :: x in watching)
    && (forall x | x in watching :: Flagged(s.records, x) || Joining(s.calls, x))
  }

  /** Whoever is counted at the origin is among the viewers of its open room. */
  ghost predicate ViewersOk(s: State) {
    forall x | x in s.records && Counting(s, x) && !s.records[x].edge :: s.live && x in s.viewers
  }

  ghost predicate TokensOk(s: State) {
    && (forall d | 0 <= d < |s.calls| && s.calls[d].delta == -1 && !BeforeIncr(s.calls[d].phase) :: s.calls[d].token in s.spent)
    && (forall c {:trigger Accounted(s, c)} | c in s.applied && c !in s.spent :: Accounted(s, c))
  }

  // A join begins.

  lemma JoinTidy(s: State, x: Socket, watching: set<Socket>)
    requires Inv(s) && JoinsOk(s, watching) && TokensOk(s) && Enabled(s, Join(x)) && Tidy(s, Join(x))
    ensures JoinsOk(Next(s, Join(x)), watching + {x}) && TokensOk(Next(s, Join(x)))
  {
    hide Core, AcksOk;
    var s' := Next(s, Join(x));
    var n := |s.calls|;
    forall c: CallId, y ensures PendingJoin(s'.calls, c, y) <==> PendingJoin(s.calls, c, y) || (c == n && y == x) {
    }
    forall y | y in watching + {x} ensures Flagged(s'.records, y) || Joining(s'.calls, y) {
      if y == x {
        assert PendingJoin(s'.calls, n, x);
      } else if !Flagged(s.records, y) {
        var c: CallId :| PendingJoin(s.calls, c, y);
        assert PendingJoin(s'.calls, c, y);
      }
    }
    forall c | c in s.applied && c !in s.spent ensures Accounted(s', c) {
      assert Accounted(s, c);
      if d: CallId :| Undoes(s.calls, d, c) {
        assert Undoes(s'.calls, d, c);
      }
    }
  }

  // A flag is dropped.

  /** What `DropFlag` and the hanging up after it leave. */
  lemma GoTidy(s: State, s': State, x: Socket, watching: set<Socket>)
    requires Inv(s) && JoinsOk(s, watching) && TokensOk(s) && Connected(s.records, x) && !Joining(s.calls, x)
    requires s'.records.Keys == s.records.Keys && s'.applied == s.applied && s'.spent == s.spent
    requires forall y | y in s.records && y != x :: s'.records[y] == s.records[y]
    requires s'.records[x].counted == None
    requires s'.calls == s.calls + if s.records[x].counted == None then [] else [Call(-1, x, s.records[x].counted.value, AtExists)]
    ensures JoinsOk(s', watching - {x}) && TokensOk(s')
  {
    hide Core, AcksOk;
    forall c: CallId, y ensures PendingJoin(s'.calls, c, y) <==> PendingJoin(s.calls, c, y) {
    }
    forall y | y in watching - {x} ensures Flagged(s'.records, y) || Joining(s'.calls, y) {
      if !Flagged(s.records, y) {
        var c: CallId :| PendingJoin(s.calls, c, y);
        assert PendingJoin(s'.calls, c, y);
      }
    }
    forall c: CallId, y | PendingJoin(s'.calls, c, y) ensures y != x {
      assert PendingJoin(s.calls, c, y);
    }
    forall c | c in s.applied && c !in s.spent ensures Accounted(s', c) {
      assert Accounted(s, c);
      if FlagHolds(s, x, c) {
        assert Undoes(s'.calls, |s.calls|, c);
      } else if d: CallId :| Undoes(s.calls, d, c) {
        assert Undoes(s'.calls, d, c);
      }
    }
  }

  /** A decrement's increment was counted, so the key is there. */
  lemma UndoingHasKey(s: State, c: CallId)
    requires Inv(s) && c < |s.calls| && s.calls[c].delta != 1
    ensures s.calls[c].delta == -1 && s.keyExists
  {
    assert CallOk(s.calls, s.applied, s.spent, c);
  }

  lemma JoinHasToken(s: State, c: CallId)
    requires Inv(s) && c < |s.calls| && s.calls[c].delta == 1
    ensures s.calls[c].token == c
  {
    assert CallOk(s.calls, s.applied, s.spent, c);
  }

  // A command is answered.

  lemma ExecTidy(s: State, c: CallId, watching: set<Socket>)
    requires Inv(s) && JoinsOk(s, watching) && TokensOk(s) && Enabled(s, Exec(c, Done)) && Tidy(s, Exec(c, Done))
    ensures JoinsOk(Next(s, Exec(c, Done)), watching) && TokensOk(Next(s, Exec(c, Done)))
  {
    hide Core, AcksOk;
    var s' := Next(s, Exec(c, Done));
    ExecFrame(s, c, Done);
    assert s'.calls[c].token == s.calls[c].token && !s'.calls[c].phase.Finished?;
    assert s'.calls[c].phase != Returned(false);
    forall d: CallId, x ensures PendingJoin(s'.calls, d, x) <==> PendingJoin(s.calls, d, x) {
    }
    forall x | x in watching && !Flagged(s.records, x) ensures Joining(s'.calls, x) {
      var d: CallId :| PendingJoin(s.calls, d, x);
      assert PendingJoin(s'.calls, d, x);
    }
    if s.calls[c].delta == 1 {
      JoinHasToken(s, c);
    } else {
      UndoingHasKey(s, c);
    }
    ExecTokens(s, c);
  }

  lemma ExecTokens(s: State, c: CallId)
    requires JoinsOkCalls(s) && TokensOk(s) && Enabled(s, Exec(c, Done))
    requires s.calls[c].delta == 1 ==> s.calls[c].token == c
    requires s.calls[c].delta != 1 ==> s.calls[c].delta == -1 && s.keyExists
    ensures TokensOk(Next(s, Exec(c, Done)))
  {
    var s' := Next(s, Exec(c, Done));
    ExecFrame(s, c, Done);
    assert s'.calls[c].token == s.calls[c].token && !s'.calls[c].phase.Finished?;
    forall t | t in s'.applied && t !in s'.spent ensures Accounted(s', t) {
      if t in s.applied {
        assert Accounted(s, t);
        if PendingJoin(s.calls, t, s.calls[t].socket) {
          assert PendingJoin(s'.calls, t, s.calls[t].socket);
        } else if d: CallId :| Undoes(s.calls, d, t) {
          assert Undoes(s'.calls, d, t);
        }
      } else {
        assert t == c && PendingJoin(s'.calls, c, s.calls[c].socket);
      }
    }
  }

  predicate JoinsOkCalls(s: State) {
    forall c | 0 <= c < |s.calls| :: s.calls[c].phase != Returned(false)
  }

  // A join resumes.

  lemma ResumeTidy(s: State, c: CallId, watching: set<Socket>)
    requires Inv(s) && JoinsOk(s, watching) && TokensOk(s) && Enabled(s, Resume(c))
    ensures JoinsOk(Next(s, Resume(c)), watching) && TokensOk(Next(s, Resume(c)))
  {
    hide Core, AcksOk;
    var s', x := Next(s, Resume(c)), s.calls[c].socket;
    assert s.calls[c].phase == Returned(true);
    if s.calls[c].delta == 1 {
      JoinHasToken(s, c);
      assert PendingJoin(s.calls, c, x);
      assert FlagHolds(s', x, c);
    } else {
      UndoingHasKey(s, c);
    }
    forall d: CallId, y ensures PendingJoin(s'.calls, d, y) <==> PendingJoin(s.calls, d, y) && d != c {
    }
    forall d: CallId, y | PendingJoin(s'.calls, d, y) ensures s'.records[y] == s.records[y] {
      assert PendingJoin(s.calls, d, y);
    }
    forall y | y in watching ensures Flagged(s'.records, y) || Joining(s'.calls, y) {
      if !Flagged(s.records, y) {
        var d: CallId :| PendingJoin(s.calls, d, y);
        assert d != c ==> PendingJoin(s'.calls, d, y);
      }
    }
    forall t | t in s.applied && t !in s.spent ensures Accounted(s', t) {
      assert Accounted(s, t);
      if FlagHolds(s, s.calls[t].socket, t) {
        assert s.calls[t].socket == x && s.calls[c].delta == 1 ==> PendingJoin(s.calls, c, x);
      } else if d: CallId :| Undoes(s.calls, d, t) {
        assert Undoes(s'.calls, d, t);
      }
    }
  }

  // The other steps leave records, calls and tokens alone.

  lemma QuietTidy(s: State, s': State, watching: set<Socket>)
    requires JoinsOk(s, watching) && TokensOk(s)
    requires s'.calls == s.calls && s'.applied == s.applied && s'.spent == s.spent
    requires s.records.Keys <= s'.records.Keys && forall x | x in s.records :: s'.records[x] == s.records[x]
    requires forall x | x in s'.records && x !in s.records :: s'.records[x].counted == None
    requires forall x | x in s.records :: x in s'.records
    ensures JoinsOk(s', watching) && TokensOk(s')
  {
    forall c | c in s.applied && c !in s.spent ensures Accounted(s', c) {
      assert Accounted(s, c);
    }
  }

  lemma StepTidy(s: State, step: Step, watching: set<Socket>)
    requires Inv(s) && JoinsOk(s, watching) && TokensOk(s) && ViewersOk(s) && Enabled(s, step) && Tidy(s, step)
    ensures JoinsOk(Next(s, step), Moved(watching, step)) && TokensOk(Next(s, step))
  {
    hide Inv, JoinsOk, TokensOk;
    match step {
      case Join(x) => JoinTidy(s, x, watching);
      case Leave(x) => GoTidy(s, Next(s, step), x, watching);
      case Disconnect(x, _) => GoTidy(s, Next(s, step), x, watching);
      case Exec(c, _) => ExecTidy(s, c, watching);
      case Resume(c) => ResumeTidy(s, c, watching);
      case _ => QuietTidy(s, Next(s, step), watching);
    }
  }

  /** Nobody starts to be counted but by a join, which makes the socket a viewer. */
  lemma StepKeepsViewers(s: State, step: Step)
    requires Inv(s) && ViewersOk(s) && Enabled(s, step) && Tidy(s, step)
    ensures ViewersOk(Next(s, step))
  {
    hide Core, AcksOk, Executed;
    var s' := Next(s, step);
    if step.Exec? {
      ExecFrame(s, step.call, step.reply);
      PhaseMoves(s, step.call, step.reply);
    }
    forall x | x in s'.records && Counting(s', x) && !s'.records[x].edge ensures s'.live && x in s'.viewers {
      if step != Join(x) {
        WasCounting(s, step, x);
      }
    }
  }

  lemma PhaseMoves(s: State, c: CallId, reply: Reply)
    requires Enabled(s, Exec(c, reply))
    ensures !Executed(s, c, reply).calls[c].phase.Finished?
    ensures Executed(s, c, reply).live == s.live && Executed(s, c, reply).viewers == s.viewers
  {
  }

  lemma WasPending(s: State, step: Step, c: CallId, x: Socket)
    requires Enabled(s, step) && step != Join(x) && PendingJoin(Next(s, step).calls, c, x)
    ensures PendingJoin(s.calls, c, x)
  {
    hide Executed;
    if step.Exec? {
      ExecFrame(s, step.call, step.reply);
    }
  }

  lemma WasFlagged(s: State, step: Step, x: Socket)
    requires AcksOk(s) && Enabled(s, step) && x in Next(s, step).records
    ensures x !in s.records ==> !Flagged(Next(s, step).records, x)
    ensures x in s.records ==> s.records[x].edge == Next(s, step).records[x].edge
    ensures Flagged(Next(s, step).records, x) && !Flagged(s.records, x) ==> step.Resume? && PendingJoin(s.calls, step.call, x)
    ensures step == Leave(x) || (step.Disconnect? && step.socket == x) ==> !Flagged(Next(s, step).records, x)
  {
    hide Executed;
    if step.Exec? {
      ExecFrame(s, step.call, step.reply);
    }
  }

  lemma WasCounting(s: State, step: Step, x: Socket)
    requires AcksOk(s) && Enabled(s, step) && Tidy(s, step) && step != Join(x)
    requires x in Next(s, step).records && Counting(Next(s, step), x)
    ensures x in s.records && Counting(s, x) && s.records[x].edge == Next(s, step).records[x].edge
    ensures step != Leave(x) && !(step.Disconnect? && step.socket == x)
  {
    hide Next, Enabled;
    WasFlagged(s, step, x);
    if c: CallId :| PendingJoin(Next(s, step).calls, c, x) {
      WasPending(s, step, c, x);
    }
  }

  lemma WatchingSnoc(steps: seq<Step>, step: Step)
    ensures Watching(steps + [step]) == Moved(Watching(steps), step)
  {
    assert (steps + [step])[..|steps|] == steps;
  }

  lemma {:induction false} RunTidy(s: State, before: seq<Step>, steps: seq<Step>)
    requires Inv(s) && JoinsOk(s, Watching(before)) && TokensOk(s) && ViewersOk(s) && Possible(s, steps) && AllTidy(s, steps)
    ensures Grounded(s, steps) && Harmless(s, steps) && Inv(After(s, steps))
    ensures JoinsOk(After(s, steps), Watching(before + steps)) && TokensOk(After(s, steps))
    decreases |steps|
  {
    hide Inv, JoinsOk, TokensOk, ViewersOk;
    if steps == [] {
      assert before + steps == before;
    } else {
      StepTidy(s, steps[0], Watching(before));
      StepKeepsViewers(s, steps[0]);
      StepKeeps(s, steps[0]);
      WatchingSnoc(before, steps[0]);
      assert before + steps == (before + [steps[0]]) + steps[1..];
      RunTidy(Next(s, steps[0]), before + [steps[0]], steps[1..]);
    }
  }

  /** At rest, different outstanding increments are behind the flags of different sockets. */
  lemma {:induction false} TokensCount(s: State, tokens: set<CallId>, sockets: set<Socket>)
    requires forall c | c in tokens :: c < |s.calls| && s.calls[c].socket in sockets && FlagHolds(s, s.calls[c].socket, c)
    ensures |tokens| <= |sockets|
  {
    if c :| c in tokens {
      TokensCount(s, tokens - {c}, sockets - {s.calls[c].socket});
    }
  }

  lemma AtRest(s: State, watching: set<Socket>)
    requires Inv(s) && JoinsOk(s, watching) && TokensOk(s)
    requires forall c | 0 <= c < |s.calls| :: s.calls[c].phase.Finished?
    ensures Difference(s) == |watching|
  {
    hide CallsOk, FlagsOk, AcksOk;
    var flagged := set x | x in s.records && Flagged(s.records, x);
    forall x ensures x in flagged <==> x in watching {
    }
    assert flagged == watching;
    FlaggedAtMost(s);
    var open := s.applied - s.spent;
    forall c | c in open ensures c < |s.calls| && s.calls[c].socket in watching && FlagHolds(s, s.calls[c].socket, c) {
      assert Accounted(s, c);
    }
    TokensCount(s, open, watching);
    assert s.applied == open + s.spent;
  }

  lemma StartTidy()
    ensures Inv(Init()) && JoinsOk(Init(), Watching([])) && TokensOk(Init()) && ViewersOk(Init())
  {
  }

  /** Every tidy run: once all calls are over, the counter is the number of sockets that have
      joined and not left since, at the edges and at the origin alike. */
  lemma CountIsWatching(steps: seq<Step>)
    requires Possible(Init(), steps) && AllTidy(Init(), steps)
    requires forall c | 0 <= c < |After(Init(), steps).calls| :: After(Init(), steps).calls[c].phase.Finished?
    ensures After(Init(), steps).counter == |Watching(steps)|
  {
    hide Inv, JoinsOk, TokensOk, ViewersOk, Init;
    assert [] + steps == steps;
    StartTidy();
    RunTidy(Init(), [], steps);
    ExactIffHarmless(steps);
    AllExactEnds(Init(), steps);
    AtRest(After(Init(), steps), Watching(steps));
  }
}
