// Runs of the send protocol put together step by step: one process creates its request, claims a
// slot, arms, posts and finishes, while the rest of the system stays as it is.
module Runs {
  import opened Rows
  import opened ReconcileScan
  import opened SendProtocol
  import opened Scheduler
  import opened SendSafety
  import opened Ledger

  // ------------------------------------------------------------------ putting runs together

  /** The configuration of a run and the requests it has failed over a send in flight on one slot. */
  datatype Course = Course(c: Config, slot: SlotId, hits: set<RequestId>)

  ghost predicate EndsIn(w: Course, states: seq<Sys>, steps: seq<Step>, s: Sys) {
    IsRun(w.c, states, steps) && states[|steps|] == s && HitsOf(states, steps, w.slot, |steps|) == w.hits
  }

  ghost predicate Reached(w: Course, s: Sys) {
    exists states, steps :: EndsIn(w, states, steps, s)
  }

  lemma Starts(c: Config, slot: SlotId, s: Sys)
    requires Init(s)
    ensures Reached(Course(c, slot, {}), s)
  {
    var states: seq<Sys>, steps: seq<Step> := [s], [];
    assert EndsIn(Course(c, slot, {}), states, steps, s);
  }

  lemma {:induction false} HitsOfPrefix(states: seq<Sys>, steps: seq<Step>, slot: SlotId, n: nat, s': Sys, step: Step)
    requires |states| == |steps| + 1 && n <= |steps|
    ensures HitsOf(states + [s'], steps + [step], slot, n) == HitsOf(states, steps, slot, n)
  {
    hide HitsAt;
    if n > 0 {
      HitsOfPrefix(states, steps, slot, n - 1, s', step);
    }
  }

  lemma OneMoreStep(c: Config, states: seq<Sys>, steps: seq<Step>, step: Step, s': Sys)
    requires IsRun(c, states, steps) && Next(c, states[|steps|], step, s')
    ensures IsRun(c, states + [s'], steps + [step])
  {
    hide Next, Init;
    var states', steps' := states + [s'], steps + [step];
    forall i | 0 <= i < |steps'| ensures Next(c, states'[i], steps'[i], states'[i + 1]) {
      if i < |steps| {
        assert Next(c, states[i], steps[i], states[i + 1]);
      }
    }
  }

  lemma ContinuesWith(w: Course, s: Sys, step: Step, s': Sys)
    requires Reached(w, s) && Next(w.c, s, step, s')
    ensures Reached(w.(hits := w.hits + HitsAt(s, step, w.slot)), s')
  {
    hide Next, Init, HitsAt;
    var states, steps :| EndsIn(w, states, steps, s);
    OneMoreStep(w.c, states, steps, step, s');
    HitsOfPrefix(states, steps, w.slot, |steps|, s', step);
    assert EndsIn(w.(hits := w.hits + HitsAt(s, step, w.slot)), states + [s'], steps + [step], s');
  }

  predicate IsStagingFailure(step: Step) {
    step.Lifecycle? && step.lifecycle.StagingFails?
  }

  lemma Continues(w: Course, s: Sys, step: Step, s': Sys)
    requires Reached(w, s) && Next(w.c, s, step, s') && !IsStagingFailure(step)
    ensures Reached(w, s')
  {
    hide Next;
    ContinuesWith(w, s, step, s');
    assert HitsAt(s, step, w.slot) == {};
    assert w.hits + {} == w.hits;
  }

  // ------------------------------------------------------------------ one process at work on its request

  predicate OneIdleSlot(db: Db, slot: SlotId) {
    db.slots.Keys == {slot} && slot in db.slots && db.slots[slot].state == Idle
  }

  /** The slot may take one more claim while `sent` and `active` count against it. */
  predicate HasRoom(c: Config, slot: SlotId, sent: nat, active: nat) {
    slot in c.slots && slot in c.weeklyLimit && sent < c.weeklyLimit[slot] && active < c.maxConcurrent
  }

  function UsedNow(s: Sys, slot: SlotId): Sys {
    if slot in s.db.slots
    then s.(db := s.db.(slots := s.db.slots[slot := s.db.slots[slot].(lastUsedAt := Some(s.clock))])) else s
  }

  predicate OpIs(s: Sys, key: OpKey, op: SendOp) {
    key in s.ops && s.ops[key] == op
  }

  function WithOp(s: Sys, key: OpKey, op: SendOp): Sys {
    s.(ops := s.ops[key := op])
  }

  /** The turn appears in the conversation, and the call knows it. */
  function Landed1(s: Sys, key: OpKey, landing: Landing): Sys {
    s.(ops := s.ops[key := SendOp(Clicked, None, {}, Some(landing))],
       turns := s.turns[landing.url := UserTurns(s, landing.url) + {landing.turn}],
       landings := s.landings + [landing])
  }

  /** The state s with process p at `pc`, the send lock of request p to match, and the rows of request p as `rec`. */
  function Shape(s: Sys, p: Pid, pc: Pc, rec: Rec): Sys {
    s.(procs := s.procs[p := pc], senders := if HoldsSend(pc) then s.senders[p := p] else s.senders - {p},
       db := s.db.(recs := s.db.recs[p := rec]))
  }

  lemma ShapeGoto(s: Sys, p: Pid, pc: Pc, rec: Rec, next: Local)
    requires pc.r == p && next.pc.r == p
    ensures Goto(Shape(s, p, pc, rec), p, next) == Shape(s, p, next.pc, next.rec)
  {
    assert s.procs[p := pc][p := next.pc] == s.procs[p := next.pc];
    assert s.db.recs[p := rec][p := next.rec] == s.db.recs[p := next.rec];
    assert s.senders[p := p][p := p] == s.senders[p := p] && s.senders[p := p] - {p} == s.senders - {p};
    assert (s.senders - {p})[p := p] == s.senders[p := p] && (s.senders - {p}) - {p} == s.senders - {p};
  }

  lemma Owns(w: Course, s: Sys, p: Pid, pc: Pc, rec: Rec, act: OwnerAct, next: Local)
    requires pc.r == p && Reached(w, Shape(s, p, pc, rec)) && !act.Claim?
    requires OwnerNext(pc, rec, act, s.clock) == Some(next) && next.pc.r == p && (HoldsSend(next.pc) ==> HoldsSend(pc))
    ensures Reached(w, Shape(s, p, next.pc, next.rec))
  {
    hide OwnerNext, Reached;
    ShapeGoto(s, p, pc, rec, next);
    Continues(w, Shape(s, p, pc, rec), ByOwner(p, act), Shape(s, p, next.pc, next.rec));
  }

  lemma Sends(w: Course, s: Sys, p: Pid, pc: Pc, rec: Rec, act: SendAct, next: Local)
    requires pc.r == p && Reached(w, Shape(s, p, pc, rec)) && !act.CallSend?
    requires SendNext(pc, rec, act, s.clock) == Some(next) && next.pc.r == p
    ensures Reached(w, Shape(s, p, next.pc, next.rec))
  {
    hide SendNext, Reached;
    ShapeGoto(s, p, pc, rec, next);
    Continues(w, Shape(s, p, pc, rec), BySender(p, act), Shape(s, p, next.pc, next.rec));
  }

  lemma Recovers(w: Course, s: Sys, p: Pid, pc: Pc, rec: Rec, act: RecoverAct, next: Local)
    requires pc.r == p && Reached(w, Shape(s, p, pc, rec)) && !act.Answer?
    requires RecoverNext(pc, rec, act, s.clock) == Some(next) && next.pc.r == p
    ensures Reached(w, Shape(s, p, next.pc, next.rec))
  {
    hide RecoverNext, Reached;
    ShapeGoto(s, p, pc, rec, next);
    Continues(w, Shape(s, p, pc, rec), ByRecovery(p, act), Shape(s, p, next.pc, next.rec));
  }

  /** The call is made, the daemon clicks, the turn appears in a conversation, and the answer comes back. */
  lemma Posts(w: Course, s: Sys, p: Pid, no: nat, rec: Rec, result: SendResult) returns (s': Sys)
    requires Reached(w, Shape(s, p, ArmedToCall(p, no), rec)) && IsConversation(result.url)
    ensures s' == s.(ops := s'.ops, turns := s'.turns, landings := s'.landings)
    ensures s'.landings == s.landings + [Landing(p, no, result.url, result.userTurn)]
    ensures Reached(w, Shape(s', p, Returned(p, no, SentReply(result)), rec))
  {
    hide Reached, Shape;
    var landing := Landing(p, no, result.url, result.userTurn);
    var s1 := WithOp(s, (p, no), SendOp(Queued, None, {}, None));
    var s2 := WithOp(s1, (p, no), SendOp(Clicked, None, {}, None));
    var s3 := Landed1(s2, (p, no), landing);
    s' := WithOp(s3, (p, no), SendOp(Ended, None, {}, Some(landing)));
    Calls(w, s, p, no, rec);
    Clicks(w, s1, p, no, rec);
    Lands(w, s2, p, no, rec, landing);
    Returns(w, s3, p, no, rec, result, landing);
  }

  lemma Calls(w: Course, s: Sys, p: Pid, no: nat, rec: Rec)
    requires Reached(w, Shape(s, p, ArmedToCall(p, no), rec))
    ensures Reached(w, Shape(WithOp(s, (p, no), SendOp(Queued, None, {}, None)), p, Calling(p, no), rec))
  {
    hide Reached;
    var s' := WithOp(s, (p, no), SendOp(Queued, None, {}, None));
    ShapeGoto(s', p, ArmedToCall(p, no), rec, Local(Calling(p, no), rec));
    Continues(w, Shape(s, p, ArmedToCall(p, no), rec), BySender(p, CallSend), Shape(s', p, Calling(p, no), rec));
  }

  lemma Clicks(w: Course, s: Sys, p: Pid, no: nat, rec: Rec)
    requires Reached(w, Shape(s, p, Calling(p, no), rec)) && OpIs(s, (p, no), SendOp(Queued, None, {}, None))
    ensures Reached(w, Shape(WithOp(s, (p, no), SendOp(Clicked, None, {}, None)), p, Calling(p, no), rec))
  {
    hide Reached, OwnerStep, SendStep, RecoverStep, LifecycleStep;
    var s' := WithOp(s, (p, no), SendOp(Clicked, None, {}, None));
    Continues(w, Shape(s, p, Calling(p, no), rec), World(OpClicks((p, no), None, {})), Shape(s', p, Calling(p, no), rec));
  }

  lemma Lands(w: Course, s: Sys, p: Pid, no: nat, rec: Rec, landing: Landing)
    requires Reached(w, Shape(s, p, Calling(p, no), rec)) && OpIs(s, (p, no), SendOp(Clicked, None, {}, None))
    requires landing.r == p && landing.no == no && IsConversation(landing.url)
    ensures Reached(w, Shape(Landed1(s, (p, no), landing), p, Calling(p, no), rec))
  {
    hide Reached, OwnerStep, SendStep, RecoverStep, LifecycleStep;
    var s' := Landed1(s, (p, no), landing);
    Continues(w, Shape(s, p, Calling(p, no), rec), World(OpLands((p, no), landing.url, landing.turn)),
              Shape(s', p, Calling(p, no), rec));
  }

  lemma Returns(w: Course, s: Sys, p: Pid, no: nat, rec: Rec, result: SendResult, landing: Landing)
    requires Reached(w, Shape(s, p, Calling(p, no), rec)) && OpIs(s, (p, no), SendOp(Clicked, None, {}, Some(landing)))
    ensures Reached(w, Shape(WithOp(s, (p, no), SendOp(Ended, None, {}, Some(landing))), p, Returned(p, no, SentReply(result)), rec))
  {
    hide Reached, OwnerStep, SendStep, RecoverStep, LifecycleStep;
    var s' := WithOp(s, (p, no), SendOp(Ended, None, {}, Some(landing)));
    var pc := Returned(p, no, SentReply(result));
    assert s.procs[p := Calling(p, no)][p := pc] == s.procs[p := pc];
    Continues(w, Shape(s, p, Calling(p, no), rec), World(OpReturns((p, no), p, result)), Shape(s', p, pc, rec));
  }

  predicate Held(rec: Rec, slot: SlotId) {
    && rec.row.status == Staged && rec.row.slot == Some(slot) && rec.attempts == [] && rec.usage.None?
    && rec.row.url.None?
  }

  /** The rows of a held request on its way to the finalised one. */
  function Armed1(slot: SlotId, rec: Rec, now: Time): Rec {
    Rec(rec.row.(status := Status.Sending, anchor := None, updatedAt := now), [Attempt(Armed, None, None)], None)
  }

  function Sent1(slot: SlotId, rec: Rec, result: SendResult, now: Time): Rec {
    Rec(rec.row.(status := Generating, url := Some(result.url), anchor := None, updatedAt := now),
        [Attempt(Confirmed, Some(result.userTurn), result.assistantTurn)], Some(Usage(slot, now)))
  }

  lemma Arms(w: Course, s: Sys, p: Pid, slot: SlotId, rec: Rec)
    requires Held(rec, slot) && Reached(w, Shape(s, p, StagedSeen(p), rec))
    ensures Reached(w, Shape(s, p, ArmedToCall(p, 1), Armed1(slot, rec, s.clock)))
  {
    hide Reached, Shape;
    Sends(w, s, p, StagedSeen(p), rec, TakeSend, Local(SendLocked(p, slot), rec));
    Sends(w, s, p, SendLocked(p, slot), rec, CheckSend, Local(Checked(p, slot), rec));
    assert rec.attempts + [Attempt(Armed, None, None)] == [Attempt(Armed, None, None)];
    Sends(w, s, p, Checked(p, slot), rec, ArmSend, Local(ArmedToCall(p, 1), Armed1(slot, rec, s.clock)));
  }

  lemma ConfirmsAndEnds(w: Course, s: Sys, p: Pid, slot: SlotId, rec: Rec, result: SendResult)
    requires Held(rec, slot)
    requires Reached(w, Shape(s, p, Returned(p, 1, SentReply(result)), Armed1(slot, rec, s.clock)))
    ensures Reached(w, Shape(s, p, Owned(p), WithStatus(Sent1(slot, rec, result, s.clock), Status.Complete, s.clock)))
  {
    hide Reached, Shape;
    var sent := Attempt(Confirmed, Some(result.userTurn), result.assistantTurn);
    assert [Attempt(Armed, None, None)][0 := sent] == [sent];
    Sends(w, s, p, Returned(p, 1, SentReply(result)), Armed1(slot, rec, s.clock), HandleReply(None),
          Local(SendEnding(p, false), Sent1(slot, rec, result, s.clock)));
    SendsDone(w, s, p, Sent1(slot, rec, result, s.clock));
  }

  lemma Leaves(w: Course, s: Sys, p: Pid, rec: Rec) returns (s': Sys)
    requires Reached(w, Shape(s, p, Owned(p), rec))
    ensures Reached(w, s') && s' == FreeOwner(Exit(Shape(s, p, Owned(p), rec), p), p)
  {
    hide Reached, OwnerStep, SendStep, RecoverStep, WorldStep;
    s' := FreeOwner(Exit(Shape(s, p, Owned(p), rec), p), p);
    Continues(w, Shape(s, p, Owned(p), rec), Lifecycle(Leave(p)), s');
  }

  /** From the confirmed send to the finalised request. */
  lemma SendsDone(w: Course, s: Sys, p: Pid, rec: Rec)
    requires Reached(w, Shape(s, p, SendEnding(p, false), rec)) && rec.row.status == Generating
    ensures Reached(w, Shape(s, p, Owned(p), WithStatus(rec, Status.Complete, s.clock)))
  {
    hide Reached, Shape;
    var done := WithStatus(rec, Status.Complete, s.clock);
    Sends(w, s, p, SendEnding(p, false), rec, EndSend, Local(Owned(p), rec));
    Owns(w, s, p, Owned(p), rec, SeeGenerating, Local(Polling(p), rec));
    Recovers(w, s, p, Polling(p), rec, TakeFinal, Local(Finalizing(p), rec));
    Recovers(w, s, p, Finalizing(p), rec, Finalize(Finished), Local(SendEnding(p, false), done));
    Sends(w, s, p, SendEnding(p, false), done, EndSend, Local(Owned(p), done));
  }

  lemma CreatesWaiting(w: Course, s: Sys, n: nat, rec: Rec)
    requires Reached(w, s) && n !in s.procs && n !in s.db.recs && n !in s.senders && rec == NewRec(s.clock)
    ensures Reached(w, Shape(s, n, Waiting(n), rec))
  {
    hide Reached, OwnerStep, SendStep, RecoverStep, WorldStep;
    Continues(w, s, Lifecycle(Create(n, n)), Shape(s, n, Staging(n), rec));
    assert s.procs[n := Staging(n)][n := Waiting(n)] == s.procs[n := Waiting(n)];
    Continues(w, Shape(s, n, Staging(n), rec), Lifecycle(StagingDone(n)), Shape(s, n, Waiting(n), rec));
  }

  lemma TakesOwner(w: Course, s: Sys, s': Sys, n: nat, rec: Rec)
    requires Reached(w, Shape(s, n, Waiting(n), rec)) && n !in s.owners && s' == s.(owners := s.owners[n := n])
    ensures Reached(w, Shape(s', n, Owned(n), rec))
  {
    hide Reached, OwnerStep, SendStep, RecoverStep, WorldStep;
    assert s.procs[n := Waiting(n)][n := Owned(n)] == s.procs[n := Owned(n)];
    Continues(w, Shape(s, n, Waiting(n), rec), Lifecycle(TakeOwner(n)), Shape(s', n, Owned(n), rec));
  }

  lemma CreatesAndOwns(w: Course, s: Sys, n: nat, rec: Rec) returns (s': Sys)
    requires Reached(w, s) && n !in s.procs && n !in s.db.recs && n !in s.owners && n !in s.senders && rec == NewRec(s.clock)
    ensures s' == s.(owners := s.owners[n := n]) && Reached(w, Shape(s', n, StagedSeen(n), rec))
  {
    hide Reached;
    CreatesWaiting(w, s, n, rec);
    s' := s.(owners := s.owners[n := n]);
    TakesOwner(w, s, s', n, rec);
    Owns(w, s', n, Owned(n), rec, SeeStaged, Local(StagedSeen(n), rec));
  }

  /** A staged request without a slot gets the only slot there is. */
  lemma Claims(w: Course, s: Sys, n: nat, rec: Rec, slot: SlotId) returns (s': Sys)
    requires Reached(w, Shape(s, n, StagedSeen(n), rec)) && n !in s.db.recs
    requires rec.row.status == Staged && rec.row.slot.None? && rec.usage.None?
    requires OneIdleSlot(s.db, slot)
    requires HasRoom(w.c, slot, |UsedSince(s.db, slot, s.clock - WEEK)|, |ActiveOn(s.db, slot)|)
    ensures s' == UsedNow(s, slot)
    ensures Reached(w, Shape(s', n, StagedSeen(n), ClaimRec(rec, slot, s.clock)))
  {
    hide Reached, IsChoice, LifecycleStep, SendStep, RecoverStep, WorldStep;
    OnlySlotIsTheChoice(w.c, s, n, rec, slot);
    s' := UsedNow(s, slot);
    ShapeGoto(s', n, StagedSeen(n), rec, Local(StagedSeen(n), ClaimRec(rec, slot, s.clock)));
    Continues(w, Shape(s, n, StagedSeen(n), rec), ByOwner(n, Claim(slot, s.clock, {})),
              Shape(s', n, StagedSeen(n), ClaimRec(rec, slot, s.clock)));
  }

  lemma OnlySlotIsTheChoice(c: Config, s: Sys, n: nat, rec: Rec, slot: SlotId)
    requires n !in s.db.recs && rec.row.slot.None? && rec.usage.None? && OneIdleSlot(s.db, slot)
    requires HasRoom(c, slot, |UsedSince(s.db, slot, s.clock - WEEK)|, |ActiveOn(s.db, slot)|)
    ensures IsChoice(Shape(s, n, StagedSeen(n), rec).db, c, slot, s.clock, {})
  {
    hide ActiveOn, UsedSince;
    UnclaimedRowsDoNotCount(s, slot, n, rec);
  }

  lemma UnclaimedRowsDoNotCount(s: Sys, slot: SlotId, n: nat, rec: Rec)
    requires n !in s.db.recs && rec.row.slot.None? && rec.usage.None?
    ensures ActiveOn(s.db.(recs := s.db.recs[n := rec]), slot) == ActiveOn(s.db, slot)
    ensures UsedSince(s.db.(recs := s.db.recs[n := rec]), slot, s.clock - WEEK) == UsedSince(s.db, slot, s.clock - WEEK)
  {
  }

  // ------------------------------------------------------------------ a request failed over its send in flight

  /** The rows of a request that was failed right after its first attempt was armed. */
  function FailedRec(slot: SlotId, now: Time): Rec {
    WithStatus(Armed1(slot, ClaimRec(NewRec(now), slot, now), now), Failed, now)
  }

  /** Process n + 1 still copies the attachments of request n while process n waits to own it. */
  lemma CreatesElsewhere(w: Course, s: Sys, n: nat) returns (s': Sys)
    requires Reached(w, s) && n !in s.procs && n + 1 !in s.procs && n !in s.db.recs && n !in s.senders
    ensures s' == s.(procs := s.procs[n + 1 := Staging(n)])
    ensures Reached(w, Shape(s', n, Waiting(n), NewRec(s.clock)))
  {
    hide Reached, OwnerStep, SendStep, RecoverStep, WorldStep;
    s' := s.(procs := s.procs[n + 1 := Staging(n)]);
    var created := WithRec(Move(s, n + 1, Staging(n)), n, NewRec(s.clock));
    Continues(w, s, Lifecycle(Create(n + 1, n)), created);
    Continues(w, created, Lifecycle(Start(n, n)), Shape(s', n, Waiting(n), NewRec(s.clock)));
  }

  lemma ArmsWhileStaging(w: Course, s: Sys, n: nat, slot: SlotId) returns (s': Sys)
    requires Reached(w, s) && n !in s.procs && n + 1 !in s.procs && n !in s.db.recs && n !in s.senders && n !in s.owners
    requires OneIdleSlot(s.db, slot)
    requires HasRoom(w.c, slot, |UsedSince(s.db, slot, s.clock - WEEK)|, |ActiveOn(s.db, slot)|)
    ensures s' == UsedNow(s.(procs := s.procs[n + 1 := Staging(n)], owners := s.owners[n := n]), slot)
    ensures Reached(w, Shape(s', n, ArmedToCall(n, 1), Armed1(slot, ClaimRec(NewRec(s.clock), slot, s.clock), s.clock)))
  {
    hide Reached, Shape;
    var rec := NewRec(s.clock);
    var s0 := CreatesElsewhere(w, s, n);
    var s1 := s0.(owners := s0.owners[n := n]);
    TakesOwner(w, s0, s1, n, rec);
    Owns(w, s1, n, Owned(n), rec, SeeStaged, Local(StagedSeen(n), rec));
    s' := Claims(w, s1, n, rec, slot);
    Arms(w, s', n, slot, ClaimRec(rec, slot, s.clock));
  }

  /** Then the copying fails: the request leaves the active count while its send goes on. */
  lemma FailsInFlight(w: Course, s: Sys, n: nat) returns (s': Sys)
    requires Reached(w, s) && n !in s.procs && n + 1 !in s.procs && n !in s.db.recs && n !in s.senders && n !in s.owners
    requires OneIdleSlot(s.db, w.slot)
    requires HasRoom(w.c, w.slot, |UsedSince(s.db, w.slot, s.clock - WEEK)|, |ActiveOn(s.db, w.slot)|)
    ensures s' == UsedNow(s.(owners := s.owners[n := n]), w.slot)
    ensures Reached(w.(hits := w.hits + {n}), Shape(s', n, ArmedToCall(n, 1), FailedRec(w.slot, s.clock)))
  {
    hide Reached, HasRoom;
    var armed := Armed1(w.slot, ClaimRec(NewRec(s.clock), w.slot, s.clock), s.clock);
    var s0 := ArmsWhileStaging(w, s, n, w.slot);
    s' := UsedNow(s.(owners := s.owners[n := n]), w.slot);
    var before, after := Shape(s0, n, ArmedToCall(n, 1), armed), Shape(s', n, ArmedToCall(n, 1), FailedRec(w.slot, s.clock));
    StagingFailsThere(s0, s', n, w.slot, armed);
    StagingFailsHits(s0, n, w.slot, armed);
    assert Next(w.c, before, Lifecycle(StagingFails(n + 1)), after);
    ContinuesWith(w, before, Lifecycle(StagingFails(n + 1)), after);
  }

  lemma StagingFailsThere(s0: Sys, s': Sys, n: nat, slot: SlotId, armed: Rec)
    requires s0 == s'.(procs := s'.procs[n + 1 := Staging(n)]) && n !in s'.procs && n + 1 !in s'.procs
    requires armed == Armed1(slot, ClaimRec(NewRec(s'.clock), slot, s'.clock), s'.clock)
    ensures LifecycleStep(Shape(s0, n, ArmedToCall(n, 1), armed), StagingFails(n + 1),
                          Shape(s', n, ArmedToCall(n, 1), FailedRec(slot, s'.clock)))
  {
    assert s0.procs[n := ArmedToCall(n, 1)] - {n + 1} == s'.procs[n := ArmedToCall(n, 1)];
    assert s'.db.recs[n := armed][n := FailedRec(slot, s'.clock)] == s'.db.recs[n := FailedRec(slot, s'.clock)];
  }

  /** The request is hit, and no other. */
  lemma StagingFailsHits(s0: Sys, n: nat, slot: SlotId, armed: Rec)
    requires n + 1 in s0.procs && s0.procs[n + 1] == Staging(n)
    requires armed == Armed1(slot, ClaimRec(NewRec(s0.clock), slot, s0.clock), s0.clock)
    ensures HitsAt(Shape(s0, n, ArmedToCall(n, 1), armed), Lifecycle(StagingFails(n + 1)), slot) == {n}
  {
    var before := Shape(s0, n, ArmedToCall(n, 1), armed);
    assert Hits(before, Lifecycle(StagingFails(n + 1)), slot, n);
  }

  /** The send in flight succeeds, and is entered in the ledger whatever the status says. */
  lemma ConfirmsFailed(w: Course, s: Sys, p: Pid, slot: SlotId) returns (s': Sys, rec: Rec)
    requires Reached(w, Shape(s, p, ArmedToCall(p, 1), FailedRec(slot, s.clock)))
    ensures s' == s.(ops := s'.ops, turns := s'.turns, landings := s'.landings) && |s'.landings| == |s.landings| + 1
    ensures Reached(w, Shape(s', p, SendEnding(p, false), rec)) && rec.usage == Some(Usage(slot, s.clock))
  {
    hide Reached, Shape;
    var result := SendResult(Conversation(p, false), 0, None);
    s' := Posts(w, s, p, 1, FailedRec(slot, s.clock), result);
    rec := Confirm(FailedRec(slot, s.clock), result, s.clock).rec;
    Sends(w, s', p, Returned(p, 1, SentReply(result)), FailedRec(slot, s.clock), HandleReply(None), Local(SendEnding(p, false), rec));
  }
}
