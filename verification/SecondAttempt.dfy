// The second attempt is not idle: runs in which the first send comes to nothing, before the click
// or provably after it, and the second one lands.
module SecondAttempt {
  import opened Rows
  import opened ReconcileScan
  import opened SendProtocol
  import opened Scheduler
  import opened SendSafety
  import opened Ledger
  import opened Runs

  const ONE := Config(1, map[0 := 1], {0})

  const COURSE := Course(ONE, 0, {})

  const START := Sys(0, Db(map[], map[0 := SlotRow(Idle, None, None)]), map[], map[], map[], map[], map[], [])

  const CLAIMED: Rec := ClaimRec(NewRec(0), 0, 0)

  const FIRST: Rec := Armed1(0, CLAIMED, 0)

  ghost predicate Fresh(s: Sys) {
    && s.clock == 0 && s.db.recs == map[] && s.procs == map[] && s.owners == map[] && s.senders == map[] && s.landings == []
    && OneIdleSlot(s.db, 0)
  }

  lemma NothingCounts(s: Sys)
    requires s.db.recs == map[]
    ensures |UsedSince(s.db, 0, s.clock - WEEK)| == 0 && |ActiveOn(s.db, 0)| == 0
  {
    assert UsedSince(s.db, 0, s.clock - WEEK) == {} && ActiveOn(s.db, 0) == {};
  }

  /** Request 0 is created, claims the slot and arms its first attempt. */
  lemma ArmsFirst(s: Sys) returns (s': Sys)
    requires Reached(COURSE, s) && Fresh(s)
    ensures Reached(COURSE, Shape(s', 0, ArmedToCall(0, 1), FIRST))
    ensures s' == s.(db := s'.db, owners := map[0 := 0]) && s'.db.recs == map[] && OneIdleSlot(s'.db, 0)
  {
    hide Reached, Shape;
    var s1 := CreatesAndOwns(COURSE, s, 0, NewRec(0));
    NothingCounts(s1);
    s' := Claims(COURSE, s1, 0, NewRec(0), 0);
    Arms(COURSE, s', 0, 0, CLAIMED);
  }

  /** From the staged request that holds the slot to its second attempt, which lands. */
  lemma SendsAgain(s: Sys, again: Rec, result: SendResult) returns (s': Sys)
    requires Reached(COURSE, Shape(s, 0, StagedSeen(0), again)) && IsConversation(result.url)
    requires again.row.status == Staged && again.row.slot == Some(0) && again.attempts == [Attempt(NoSendProven, None, None)]
    ensures Reached(COURSE, s') && s'.landings == s.landings + [Landing(0, 2, result.url, result.userTurn)]
  {
    hide Reached, Shape;
    Sends(COURSE, s, 0, StagedSeen(0), again, TakeSend, Local(SendLocked(0, 0), again));
    Sends(COURSE, s, 0, SendLocked(0, 0), again, CheckSend, Local(Checked(0, 0), again));
    var rec := Arm(again, s.clock).rec;
    Sends(COURSE, s, 0, Checked(0, 0), again, ArmSend, Local(ArmedToCall(0, 2), rec));
    var s1 := Posts(COURSE, s, 0, 2, rec, result);
    s' := Shape(s1, 0, Returned(0, 2, SentReply(result)), rec);
    ShapeKeepsLandings(s1, 0, Returned(0, 2, SentReply(result)), rec);
  }

  lemma ShapeKeepsLandings(s: Sys, p: Pid, pc: Pc, rec: Rec)
    ensures Shape(s, p, pc, rec).landings == s.landings
  {
  }

  lemma BackToStaged(s: Sys, rec: Rec)
    requires Reached(COURSE, Shape(s, 0, SendEnding(0, false), rec)) && rec.row.status == Staged
    ensures Reached(COURSE, Shape(s, 0, StagedSeen(0), rec))
  {
    hide Reached, Shape;
    Sends(COURSE, s, 0, SendEnding(0, false), rec, EndSend, Local(Owned(0), rec));
    Owns(COURSE, s, 0, Owned(0), rec, SeeStaged, Local(StagedSeen(0), rec));
  }

  // ------------------------------------------------------------------ after a failure before the click

  const RESTAGED: Rec := Rec(CLAIMED.row.(status := Staged, slot := None), [Attempt(NoSendProven, None, None)], None)

  /** The daemon answers that it could not get to the click. */
  lemma FailsBeforeTheClick(s: Sys) returns (s': Sys)
    requires Reached(COURSE, Shape(s, 0, ArmedToCall(0, 1), FIRST)) && s.clock == 0
    ensures s' == s.(ops := s'.ops)
    ensures Reached(COURSE, Shape(s', 0, Returned(0, 1, PreClickReply(NeedsLogin)), FIRST))
  {
    hide Reached, OwnerStep, SendStep, RecoverStep, LifecycleStep;
    var s1 := WithOp(s, (0, 1), SendOp(Queued, None, {}, None));
    Calls(COURSE, s, 0, 1, FIRST);
    s' := WithOp(s1, (0, 1), SendOp(Ended, None, {}, None));
    var pc := Returned(0, 1, PreClickReply(NeedsLogin));
    assert s.procs[0 := Calling(0, 1)][0 := pc] == s.procs[0 := pc];
    Continues(COURSE, Shape(s1, 0, Calling(0, 1), FIRST), World(OpFailsBeforeClick((0, 1), 0, NeedsLogin)), Shape(s', 0, pc, FIRST));
  }

  /** The attempt is disproved, and the request staged again without a slot. */
  lemma StagesAgain(s: Sys)
    requires Reached(COURSE, Shape(s, 0, Returned(0, 1, PreClickReply(NeedsLogin)), FIRST)) && s.clock == 0
    ensures Reached(COURSE, Shape(s, 0, StagedSeen(0), RESTAGED))
  {
    hide Reached, Shape;
    var reply := PreClickReply(NeedsLogin);
    var marked := FIRST.(attempts := [Attempt(NoSendProven, None, None)]);
    assert [Attempt(Armed, None, None)][0 := Attempt(NoSendProven, None, None)] == [Attempt(NoSendProven, None, None)];
    Sends(COURSE, s, 0, Returned(0, 1, reply), FIRST, HandleReply(None), Local(PreClickMarked(0, 1, NeedsLogin), marked));
    Sends(COURSE, s, 0, PreClickMarked(0, 1, NeedsLogin), marked, AfterPreClick, Local(SendEnding(0, false), RESTAGED));
    BackToStaged(s, RESTAGED);
  }

  /** Some run lands the second attempt of a request, and only that one, after the first failed before the click. */
  lemma SecondAttemptCanLand() returns (s: Sys)
    ensures Reached(COURSE, s) && s.landings == [Landing(0, 2, Conversation(7, false), 1)]
  {
    hide Reached;
    Starts(ONE, 0, START);
    var s0 := ArmsFirst(START);
    var s1 := FailsBeforeTheClick(s0);
    StagesAgain(s1);
    NothingCounts(s1);
    var s2 := Claims(COURSE, s1, 0, RESTAGED, 0);
    s := SendsAgain(s2, ClaimRec(RESTAGED, 0, 0), SendResult(Conversation(7, false), 1, None));
  }

  // ------------------------------------------------------------------ after a proven absence

  const TALK: Url := Conversation(7, false)

  /** What the daemon reports after a click that did not show: the tab's address and the turns from before. */
  const REPORT := Pending(None, Some(TALK), Some({3}))

  const UNCERTAIN: Rec :=
    Rec(CLAIMED.row.(status := Uncertain, url := Some(TALK), anchor := Some(SendAnchor(Some(TALK), Some({3})))),
        [Attempt(SendUncertain, None, None)], None)

  /** The click is made in a conversation that has one user turn, nothing lands, and the call fails. */
  lemma FailsAfterTheClick(s: Sys) returns (s': Sys)
    requires Reached(COURSE, Shape(s, 0, ArmedToCall(0, 1), FIRST)) && s.clock == 0
    ensures s' == s.(ops := s'.ops)
    ensures Reached(COURSE, Shape(s', 0, Returned(0, 1, UncertainReply(Some(REPORT))), FIRST))
  {
    hide Reached, OwnerStep, SendStep, RecoverStep, LifecycleStep;
    var s1 := WithOp(s, (0, 1), SendOp(Queued, None, {}, None));
    var s2 := WithOp(s1, (0, 1), SendOp(Clicked, Some(TALK), {3}, None));
    s' := WithOp(s2, (0, 1), SendOp(Ended, Some(TALK), {3}, None));
    var pc := Returned(0, 1, UncertainReply(Some(REPORT)));
    Calls(COURSE, s, 0, 1, FIRST);
    Continues(COURSE, Shape(s1, 0, Calling(0, 1), FIRST), World(OpClicks((0, 1), Some(TALK), {3})), Shape(s2, 0, Calling(0, 1), FIRST));
    assert s.procs[0 := Calling(0, 1)][0 := pc] == s.procs[0 := pc];
    Continues(COURSE, Shape(s2, 0, Calling(0, 1), FIRST), World(OpFailsAfterClick((0, 1), 0, REPORT)), Shape(s', 0, pc, FIRST));
  }

  const NO_TEXTS := Matcher({}, {}, {}, {})

  const PARAMS := Params(Query(NO_TEXTS, false, {3}), None, Some(TALK), Some(TALK))

  /** The send is marked uncertain with its anchors, and recovery asks the daemon. */
  lemma AsksForTheSend(s: Sys)
    requires Reached(COURSE, Shape(s, 0, Returned(0, 1, UncertainReply(Some(REPORT))), FIRST)) && s.clock == 0
    ensures Reached(COURSE, Shape(s, 0, Reconciling(0, 1, PARAMS), UNCERTAIN))
  {
    hide Reached, Shape, ReconcileSend;
    assert [Attempt(Armed, None, None)][0 := Attempt(SendUncertain, None, None)] == [Attempt(SendUncertain, None, None)];
    Sends(COURSE, s, 0, Returned(0, 1, UncertainReply(Some(REPORT))), FIRST, HandleReply(None), Local(SendEnding(0, false), UNCERTAIN));
    Sends(COURSE, s, 0, SendEnding(0, false), UNCERTAIN, EndSend, Local(Owned(0), UNCERTAIN));
    Recovers(COURSE, s, 0, Owned(0), UNCERTAIN, TakeRecover, Local(Recovering(0), UNCERTAIN));
    Recovers(COURSE, s, 0, Recovering(0), UNCERTAIN, Recover(NO_TEXTS, false), Local(Reconciling(0, 1, PARAMS), UNCERTAIN));
  }

  const SHOWN := Page(TALK, Some([Turn(true, 3, 0, None)]))

  const BROWSER := Browser([SHOWN], map[], map[], [])

  /** The tab of the conversation shows the turn from before the click and no other. */
  lemma AbsenceIsProven()
    ensures var v := ReconcileSend(PARAMS, BROWSER); !v.found && v.proven
  {
    hide ScanVerdict;
    assert Anchors(PARAMS) == [TALK] && PagesAt([SHOWN], TALK) == [SHOWN];
    assert ExactPages([TALK], [SHOWN]) == [SHOWN];
    AbsenceProvenIff([SHOWN], PARAMS.query, true);
    assert Quiet(SHOWN, PARAMS.query, true);
  }

  lemma DaemonAnswers(s: Sys) returns (verdict: ReconcileResult)
    requires Reached(COURSE, Shape(s, 0, Reconciling(0, 1, PARAMS), UNCERTAIN)) && s.turns == map[TALK := {3}]
    ensures !verdict.found && verdict.proven
    ensures Reached(COURSE, Shape(s, 0, HasVerdict(0, 1, verdict), UNCERTAIN))
  {
    hide Reached, ReconcileSend, OwnerStep, SendStep, WorldStep, LifecycleStep;
    AbsenceIsProven();
    verdict := ReconcileSend(PARAMS, BROWSER);
    var pc, next := Reconciling(0, 1, PARAMS), Local(HasVerdict(0, 1, verdict), UNCERTAIN);
    assert SHOWN.turns.value[0].user && SHOWN.turns.value[0].id == 3;
    assert Faithful(Shape(s, 0, pc, UNCERTAIN), BROWSER);
    ShapeGoto(s, 0, pc, UNCERTAIN, next);
    Continues(COURSE, Shape(s, 0, pc, UNCERTAIN), ByRecovery(0, Answer(BROWSER)), Shape(s, 0, next.pc, next.rec));
  }

  const DISPROVED: Rec :=
    Rec(UNCERTAIN.row.(status := Staged, anchor := None), [Attempt(NoSendProven, None, None)], None)

  /** The verdict disproves the attempt, and the request is staged again with its slot. */
  lemma AbsenceIsApplied(s: Sys, verdict: ReconcileResult)
    requires Reached(COURSE, Shape(s, 0, HasVerdict(0, 1, verdict), UNCERTAIN)) && s.clock == 0
    requires !verdict.found && verdict.proven
    ensures Reached(COURSE, Shape(s, 0, StagedSeen(0), DISPROVED))
  {
    hide Reached, Shape, ReconcileSend;
    var read := Attempt(SendUncertain, None, None);
    assert [read][0 := Attempt(NoSendProven, None, None)] == [Attempt(NoSendProven, None, None)];
    Recovers(COURSE, s, 0, HasVerdict(0, 1, verdict), UNCERTAIN, ReadForApply, Local(Applying(0, 1, read, verdict), UNCERTAIN));
    Recovers(COURSE, s, 0, Applying(0, 1, read, verdict), UNCERTAIN, Apply, Local(SendEnding(0, false), DISPROVED));
    BackToStaged(s, DISPROVED);
  }

  /** Some run lands the second attempt of a request, and only that one, after the first was proven absent. */
  lemma SecondAttemptAfterAbsence() returns (s: Sys)
    ensures Reached(COURSE, s) && s.landings == [Landing(0, 2, TALK, 9)]
  {
    hide Reached;
    Starts(ONE, 0, START);
    var talked := START.(turns := map[TALK := {3}]);
    assert UserTurns(START, TALK) + {3} == {3} && START.turns[TALK := {3}] == map[TALK := {3}];
    Continues(COURSE, START, World(OtherTurn(TALK, 3)), talked);
    var s0 := ArmsFirst(talked);
    var s1 := FailsAfterTheClick(s0);
    AsksForTheSend(s1);
    var verdict := DaemonAnswers(s1);
    AbsenceIsApplied(s1, verdict);
    s := SendsAgain(s1, DISPROVED, SendResult(TALK, 9, None));
  }
}
