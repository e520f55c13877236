// The owner's loop ends: for every sequence of readiness answers, send outcomes, reconcile
// verdicts and interfering writes, after a number of rounds linear in what is left to try.
//
// Answers of daemons, locks and the browser are unconstrained. What other processes write to
// the request meanwhile is what `Interference` proves of every run of the protocol.
module ContinueLoop {
  import opened Rows
  import opened SendProtocol
  import opened ReconcileScan
  import opened Sets

  datatype Outcome = Nothing | UncertainOutcome | OtherOutcome | Thrown

  /** Why the loop ended; `tries` are the retries in place that were made. */
  datatype Ending =
    | Settled
    | Polls
    | StaysUncertain(tries: nat, inTime: bool)
    | Waits
    | Raised

  /** A retry in place: the status the request had, and whether there was time. */
  datatype Retry = Retry(status: Status, inTime: bool)

  datatype Readiness = Ready | NeedsLoginNow | LimitedNow | Unknown | ReadinessThrows

  function Rank(rec: Rec): nat {
    match rec.row.status
    case Sending => 4
    case Uncertain => 3
    case Staged => 2
    case _ => 0
  }

  function Held(rec: Rec): nat {
    if rec.row.slot.Some? then 1 else 0
  }

  /** What a run of the loop has left to use up. */
  function Budget(rec: Rec, retriesLeft: nat, untried: nat): nat {
    4 * (if |rec.attempts| <= 2 then 2 - |rec.attempts| else 0) + Rank(rec) + retriesLeft + 2 * untried + Held(rec)
  }

  /** What a read of the request finds after others had their turn: `Interference.InterferenceInRuns` says this is all they do. */
  method Read(rec: Rec) returns (current: Rec)
    requires Coupled(rec)
    ensures Interfered(rec, current)
    ensures Coupled(current) && TurnsKept(rec, current) && Rank(current) <= Rank(rec)
    ensures |current.attempts| == |rec.attempts| && current.row.slot == rec.row.slot
  {
    var other: Rec := *;
    current := if Interfered(rec, other) then other else rec;
    InterferenceKeepsCoupling(rec, current);
  }

  method Reconcile(rec: Rec) returns (after: Rec, outcome: Outcome)
    requires Coupled(rec) && rec.row.status == Uncertain
    ensures Coupled(after) && TurnsKept(rec, after) && |after.attempts| == |rec.attempts| && after.row.slot == rec.row.slot
    ensures Rank(after) <= Rank(rec) && (outcome.Nothing? ==> Rank(after) < Rank(rec))
    ensures !outcome.Thrown? && !outcome.OtherOutcome?
  {
    var unanswered: bool := *;
    if rec.row.slot.None? || unanswered {
      return rec, UncertainOutcome;
    }
    var verdict: ReconcileResult := *;
    var now: Time := *;
    var no, attempt := |rec.attempts|, Last(rec.attempts);
    after := Read(rec);
    ApplyKeepsCoupling(after, verdict, now);
    var tx := ApplyReconcile(after, no, attempt, verdict, now);
    after := tx.rec;
    outcome := if tx.answer.Found? || tx.answer.RetrySend? then Nothing else UncertainOutcome;
  }

  method RecoverSendState(rec: Rec) returns (after: Rec, outcome: Outcome)
    requires Coupled(rec) && rec.row.status in {Sending, Uncertain}
    ensures Coupled(after) && TurnsKept(rec, after) && |after.attempts| == |rec.attempts| && after.row.slot == rec.row.slot
    ensures Rank(after) <= Rank(rec) && (outcome.Nothing? ==> Rank(after) < Rank(rec))
    // an error only over a request that its creator has failed meanwhile
    ensures outcome.Thrown? ==> after.row.status == Failed
    // another process is at it
    ensures outcome.OtherOutcome? ==> after == rec
  {
    var locked: bool := *;
    var now: Time := *;
    if !locked {
      return rec, OtherOutcome;
    }
    after := Read(rec);
    if after.row.status == Sending {
      // the invariant rules out a confirmed or reconciled attempt here
      if Last(after.attempts).state != Armed {
        return WithStatus(after, Failed, now), Nothing;
      }
      // its creator may fail the request after the status was read, and then the update throws
      after := Read(after);
      MarkUncertainKeepsCoupling(after, None, now);
      var tx := MarkUncertain(after, None, now);
      if tx.Abort? {
        return after, Thrown;
      }
      after := Read(tx.rec);
    }
    if after.row.status != Uncertain {
      return after, Nothing;
    }
    after, outcome := Reconcile(after);
  }

  /** From the armed attempt to the row the sender leaves behind. */
  method Call(rec: Rec) returns (after: Rec, outcome: Outcome)
    requires Coupled(rec) && rec.row.slot.Some? && LastIsArmed(rec)
    ensures Coupled(after) && TurnsKept(rec, after) && |after.attempts| == |rec.attempts|
    ensures outcome.OtherOutcome? ==> after.row.status in {NeedsUserAction, Failed}
    ensures outcome.UncertainOutcome? ==> after.row.status == Uncertain
  {
    var reply: Reply := *;
    var now: Time := *;
    after := Read(rec);
    match reply
    case SentReply(result) =>
      ConfirmKeepsCoupling(after, result, now);
      return Confirm(after, result, now).rec, Nothing;
    case PreClickReply(kind) =>
      MarkPreClickKeepsCoupling(after);
      after := MarkPreClick(after).rec;
      after := Read(after);
      match kind {
        case ModelUnavailable => return WithStatus(after, NeedsUserAction, now), OtherOutcome;
        case NeedsLogin => return Restage(after, now), Nothing;
        case ProviderLimit => return Restage(after, now), Nothing;
        case OtherPreClick => return WithStatus(after, Failed, now), OtherOutcome;
      }
    case UncertainReply(pending) =>
      MarkUncertainKeepsCoupling(after, pending, now);
      var tx := MarkUncertain(after, pending, now);
      if tx.Abort? {
        return after, Thrown;
      }
      return tx.rec, UncertainOutcome;
  }

  predicate LastIsArmed(rec: Rec) {
    |rec.attempts| > 0 && Last(rec.attempts).state == Armed
  }

  method Send(rec: Rec) returns (after: Rec, outcome: Outcome)
    requires Coupled(rec) && AllDisproved(rec.attempts) && rec.row.slot.Some?
    requires rec.row.status == Staged || rec.row.status == Failed
    ensures Coupled(after) && TurnsKept(rec, after)
    ensures |after.attempts| == |rec.attempts| + 1
            || (|after.attempts| == |rec.attempts| && after.row.slot == rec.row.slot
                && (Rank(after) == 0 || (!outcome.Nothing? && !outcome.UncertainOutcome?))
                && Rank(after) <= Rank(rec))
    ensures outcome.OtherOutcome? ==> after.row.status in {Staged, NeedsUserAction, Failed}
    ensures outcome.UncertainOutcome? ==> after.row.status == Uncertain
  {
    var lockFails: bool := *;
    var locked: bool := *;
    var now: Time := *;
    if lockFails {
      return WithStatus(rec, Failed, now), OtherOutcome;
    }
    if !locked {
      return rec, OtherOutcome;
    }
    after := Read(rec);
    if after.row.status != Staged {
      return after, Nothing;
    }
    ArmKeepsCoupling(after, now);
    var tx := Arm(after, now);
    if tx.Abort? {
      return after, Thrown;
    }
    after, outcome := Call(tx.rec);
  }

  /**
   * The staged part of a round: claim a slot unless one is held, ask for readiness, and send. `sawLogin` is set once
   * a slot was found to need a login.
   */
  method TrySlot(rec: Rec, slots: set<SlotId>, tried: set<SlotId>, sawLogin: bool)
    returns (after: Rec, tried': set<SlotId>, sawLogin': bool, outcome: Outcome)
    requires Coupled(rec) && rec.row.status == Staged
    ensures Coupled(after) && TurnsKept(rec, after)
    // a round after which the loop goes on has used something up
    ensures outcome.Nothing? || after.row.status in {Sending, Uncertain} ==>
              Budget(after, 0, |slots - tried'|) < Budget(rec, 0, |slots - tried|)
    ensures outcome.OtherOutcome? ==> after.row.status in {Staged, NeedsUserAction, Failed}
    ensures outcome.UncertainOutcome? ==> after.row.status == Uncertain
  {
    tried', sawLogin', outcome := tried, sawLogin, Nothing;
    after := Read(rec);
    if after.row.slot.None? {
      if after.row.status != Staged {
        return;
      }
      var selected: Option<SlotId> := *;
      var now: Time := *;
      if !selected.Some? || selected.value !in slots - tried {
        var allNeedLogin: bool := *;
        if sawLogin && allNeedLogin {
          after := WithStatus(after, NeedsUserAction, now);
        } else {
          outcome := OtherOutcome;
        }
        return;
      }
      after := after.(row := after.row.(slot := selected, updatedAt := now));
    }
    after, tried', sawLogin', outcome := AskAndSend(rec, after, slots, tried, sawLogin);
  }

  /** An error of the staged part fails the request, unless the send had begun: then the next round recovers it. */
  method TryAndCatch(rec: Rec, slots: set<SlotId>, tried: set<SlotId>, sawLogin: bool)
    returns (after: Rec, tried': set<SlotId>, sawLogin': bool, outcome: Outcome)
    requires Coupled(rec) && rec.row.status == Staged
    ensures Coupled(after) && TurnsKept(rec, after)
    ensures outcome.Nothing? || outcome.UncertainOutcome? ==>
              Budget(after, 0, |slots - tried'|) < Budget(rec, 0, |slots - tried|)
    ensures outcome.OtherOutcome? ==> after.row.status in {Staged, NeedsUserAction, Failed}
    ensures outcome.Thrown? ==> after.row.status == Failed
  {
    hide Coupled, TurnsKept, Budget;
    after, tried', sawLogin', outcome := TrySlot(rec, slots, tried, sawLogin);
    if outcome.Thrown? {
      if after.row.status == Sending || after.row.status == Uncertain {
        outcome := Nothing;
      } else {
        after := Fail(after);
      }
    }
  }

  /** The part of the round that needs the slot: readiness, and the send. */
  method AskAndSend(rec: Rec, claimed: Rec, slots: set<SlotId>, tried: set<SlotId>, sawLogin: bool)
    returns (after: Rec, tried': set<SlotId>, sawLogin': bool, outcome: Outcome)
    requires Coupled(rec) && rec.row.status == Staged
    requires Coupled(claimed) && claimed.attempts == rec.attempts && claimed.row.slot.Some?
    requires claimed.row.status == Staged || claimed.row.status == Failed
    requires claimed.row.slot == rec.row.slot || (rec.row.slot.None? && claimed.row.slot.value in slots - tried)
    ensures Coupled(after) && TurnsKept(rec, after)
    ensures outcome.Nothing? || after.row.status in {Sending, Uncertain} ==>
              Budget(after, 0, |slots - tried'|) < Budget(rec, 0, |slots - tried|)
    ensures outcome.OtherOutcome? ==> after.row.status in {Staged, NeedsUserAction, Failed}
    ensures outcome.UncertainOutcome? ==> after.row.status == Uncertain
  {
    after, tried', sawLogin', outcome := claimed, tried, sawLogin, OtherOutcome;
    var slot := claimed.row.slot.value;
    if slot !in slots {
      // the slot is not configured any more
      return;
    }
    var readiness: Readiness := *;
    var now: Time := *;
    match readiness
    case NeedsLoginNow =>
      after, tried', sawLogin', outcome := ClearSlot(claimed, now), tried + {slot}, true, Nothing;
      OneLessToTry(slots, tried, slot);
      ClearUsesUp(rec, claimed, now);
    case LimitedNow =>
      after, tried', outcome := ClearSlot(claimed, now), tried + {slot}, Nothing;
      OneLessToTry(slots, tried, slot);
      ClearUsesUp(rec, claimed, now);
    case Unknown =>
      after, outcome := WithStatus(claimed, Failed, now), Nothing;
    case ReadinessThrows =>
      outcome := Thrown;
    case Ready =>
      after, outcome := Send(claimed);
      SendUsesUp(rec, after, |slots - tried|);
  }

  /** A staged or failed request without a sent attempt may lose its slot. */
  lemma ClearUsesUp(rec: Rec, claimed: Rec, now: Time)
    requires Coupled(rec) && rec.row.status == Staged && Coupled(claimed) && claimed.attempts == rec.attempts
    requires claimed.row.status == Staged || claimed.row.status == Failed
    ensures Coupled(ClearSlot(claimed, now)) && TurnsKept(rec, ClearSlot(claimed, now))
    ensures Rank(ClearSlot(claimed, now)) <= Rank(rec) && Held(ClearSlot(claimed, now)) == 0
  {
  }

  lemma SendUsesUp(rec: Rec, after: Rec, untried: nat)
    requires Coupled(rec) && rec.row.status == Staged && Coupled(after) && TurnsKept(rec, after)
    ensures |after.attempts| == |rec.attempts| + 1 || Rank(after) == 0 ==> Budget(after, 0, untried) < Budget(rec, 0, untried)
  {
  }

  lemma OneLessToTry(slots: set<SlotId>, tried: set<SlotId>, slot: SlotId)
    ensures |slots - (tried + {slot})| <= |slots - tried|
    ensures slot in slots - tried ==> |slots - (tried + {slot})| < |slots - tried|
  {
    assert slots - (tried + {slot}) == (slots - tried) - {slot};
  }

  /** A retry in place needs a retry left, time, and a request that is still uncertain. */
  predicate MayRetry(outcome: Outcome, tries: nat, maxRetries: nat, current: Rec, inTime: bool) {
    outcome.UncertainOutcome? && tries < maxRetries && inTime && current.row.status == Uncertain
  }

  lemma BudgetIs()
    ensures forall rec, retriesLeft: nat, untried: nat :: Budget(rec, retriesLeft, untried) == Budget(rec, 0, 0) + retriesLeft + 2 * untried
  {
  }

  lemma LessLeft(rec: Rec, after: Rec)
    requires |after.attempts| == |rec.attempts| && after.row.slot == rec.row.slot && Rank(after) <= Rank(rec)
    ensures Budget(after, 0, 0) <= Budget(rec, 0, 0)
    ensures Rank(after) < Rank(rec) ==> Budget(after, 0, 0) < Budget(rec, 0, 0)
  {
  }

  /** Each retry was of an uncertain request and in time. */
  predicate AllDue(retries: seq<Retry>) {
    forall i :: 0 <= i < |retries| ==> retries[i] == Retry(Uncertain, true)
  }

  lemma NoneDue()
    ensures AllDue([])
  {
  }

  lemma OneMoreDue(retries: seq<Retry>, retry: Retry)
    requires AllDue(retries) && retry == Retry(Uncertain, true)
    ensures AllDue(retries + [retry])
  {
  }

  method ContinueOwned(start: Rec, slots: set<SlotId>, pinned: Option<SlotId>, maxRetries: nat)
    returns (rec: Rec, rounds: nat, why: Ending, ghost retries: seq<Retry>)
    requires Coupled(start)
    ensures Coupled(rec) && TurnsKept(start, rec)
    ensures rounds <= Budget(start, maxRetries, |slots|) + 1
    // a finished request, an answer to wait for, retries in place used up or of no use, nothing to do now, or an error
    ensures match why
            case Settled => rec.row.status in {Complete, NeedsUserAction, Failed}
            case Polls => rec.row.status == Generating
            case StaysUncertain(tries, inTime) =>
              tries <= maxRetries && (tries == maxRetries || !inTime || rec.row.status != Uncertain)
            case Waits => rec.row.status in {Staged, Sending, Uncertain, NeedsUserAction, Failed}
            case Raised => rec.row.status == Failed
    ensures |retries| <= maxRetries && AllDue(retries)
    ensures why.StaysUncertain? ==> why.tries == |retries|
  {
    hide Coupled, TurnsKept, Interfered, AllDue, Budget, Rank;
    var triedSlots := if pinned.Some? then slots - {pinned.value} else {};
    var inlineReconcileTries, sawLogin := 0, false;
    rec := start;
    rounds, retries := 0, [];
    NoneDue();
    BudgetIs();
    ghost var total := Budget(start, maxRetries, |slots|);
    SubsetSize(slots - triedSlots, slots);
    TurnsKeptReflexive(start);
    while true
      invariant Coupled(rec) && TurnsKept(start, rec) && inlineReconcileTries == |retries| <= maxRetries
      invariant AllDue(retries)
      invariant rounds + Budget(rec, maxRetries - inlineReconcileTries, |slots - triedSlots|) <= total
      decreases Budget(rec, maxRetries - inlineReconcileTries, |slots - triedSlots|)
    {
      rounds := rounds + 1;
      ghost var before := rec;
      rec := Read(rec);
      LessLeft(before, rec);
      TurnsKeptTransitive(start, before, rec);
      before := rec;
      if TerminalStatus(rec.row.status) || rec.row.status == Generating {
        // an answer is returned or polled for
        why := if rec.row.status == Generating then Polls else Settled;
        return;
      }
      var outcome: Outcome;
      if rec.row.status == Sending || rec.row.status == Uncertain {
        rec, outcome := RecoverSendState(rec);
        LessLeft(before, rec);
      } else {
        rec, triedSlots, sawLogin, outcome := TryAndCatch(rec, slots, triedSlots, sawLogin);
      }
      TurnsKeptTransitive(start, before, rec);
      if outcome.Thrown? {
        why := Raised;
        return;
      }
      if !outcome.Nothing? {
        var inTime: bool := *;
        if !MayRetry(outcome, inlineReconcileTries, maxRetries, rec, inTime) {
          why := if outcome.UncertainOutcome? then StaysUncertain(inlineReconcileTries, inTime) else Waits;
          return;
        }
        inlineReconcileTries := inlineReconcileTries + 1;
        OneMoreDue(retries, Retry(rec.row.status, inTime));
        retries := retries + [Retry(rec.row.status, inTime)];
      }
    }
  }

  method Fail(rec: Rec) returns (failed: Rec)
    requires Coupled(rec)
    ensures Coupled(failed) && failed.row.status == Failed && failed.attempts == rec.attempts
    ensures forall before :: TurnsKept(before, rec) ==> TurnsKept(before, failed)
  {
    var now: Time := *;
    failed := WithStatus(rec, Failed, now);
  }

  lemma TurnsKeptReflexive(rec: Rec)
    requires Coupled(rec)
    ensures TurnsKept(rec, rec)
  {
  }

  lemma TurnsKeptTransitive(a: Rec, b: Rec, c: Rec)
    requires TurnsKept(a, b) && TurnsKept(b, c)
    ensures TurnsKept(a, c)
  {
  }

  // ------------------------------------------------------------------ what the invariant is needed for

  /** Owner p finds the request sending, takes the send lock, recovers, and goes back to the top of the loop. */
  predicate Round(s: Sys, p: Pid, matcher: Matcher, image: bool, s1: Sys, s2: Sys, s3: Sys) {
    RecoverStep(s, p, TakeRecover, s1) && RecoverStep(s1, p, Recover(matcher, image), s2) && SendStep(s2, p, EndSend, s3)
  }

  predicate FindsSending(s: Sys, p: Pid, r: RequestId) {
    p in s.procs && s.procs[p] == Owned(r) && r in s.db.recs && s.db.recs[r].row.status == Sending && r !in s.senders
  }

  function RoundStates(s: Sys, p: Pid, r: RequestId): (Sys, Sys) {
    (Goto(s, p, Local(Recovering(r), RecOf(s, r))), Goto(s, p, Local(SendEnding(r, false), RecOf(s, r))))
  }

  lemma GotoTwice(s: Sys, p: Pid, a: Local, b: Local)
    requires a.pc.r == b.pc.r
    ensures Goto(Goto(s, p, a), p, b) == Goto(s, p, b)
  {
    var r := a.pc.r;
    assert s.procs[p := a.pc][p := b.pc] == s.procs[p := b.pc] && s.db.recs[r := a.rec][r := b.rec] == s.db.recs[r := b.rec];
    assert s.senders[r := p][r := p] == s.senders[r := p] && s.senders[r := p] - {r} == s.senders - {r};
    assert (s.senders - {r})[r := p] == s.senders[r := p] && (s.senders - {r}) - {r} == s.senders - {r};
  }

  lemma GotoBack(s: Sys, p: Pid, r: RequestId)
    requires FindsSending(s, p, r)
    ensures Goto(s, p, Local(Owned(r), RecOf(s, r))) == s
  {
    assert s.procs[p := Owned(r)] == s.procs && s.db.recs[r := s.db.recs[r]] == s.db.recs && s.senders - {r} == s.senders;
  }

  /** Without the invariant the loop spins: with a settled attempt under `sending` a whole round leads back to the same state. */
  lemma SettledSpins(s: Sys, p: Pid, r: RequestId, matcher: Matcher, image: bool)
    requires FindsSending(s, p, r) && SettledAsSent(s.db.recs[r].attempts)
    ensures var (s1, s2) := RoundStates(s, p, r); Round(s, p, matcher, image, s1, s2, s)
  {
    var rec := RecOf(s, r);
    GotoTwice(s, p, Local(Recovering(r), rec), Local(SendEnding(r, false), rec));
    GotoTwice(s, p, Local(SendEnding(r, false), rec), Local(Owned(r), rec));
    GotoBack(s, p, r);
  }

  /** A round through recovery uses up something unless the latest attempt is settled, which the invariant excludes. */
  lemma SpinsIffSettled(s: Sys, p: Pid, r: RequestId, matcher: Matcher, image: bool)
    requires FindsSending(s, p, r)
    ensures (exists s1, s2 :: Round(s, p, matcher, image, s1, s2, s)) <==> SettledAsSent(s.db.recs[r].attempts)
    ensures Coupled(s.db.recs[r]) ==> !SettledAsSent(s.db.recs[r].attempts)
  {
    hide Round;
    if SettledAsSent(s.db.recs[r].attempts) {
      SettledSpins(s, p, r, matcher, image);
      var (s1, s2) := RoundStates(s, p, r);
      assert Round(s, p, matcher, image, s1, s2, s);
    } else {
      forall s1, s2 ensures !Round(s, p, matcher, image, s1, s2, s) {
        UnsettledMovesOn(s, p, r, matcher, image, s1, s2);
      }
    }
  }

  lemma UnsettledMovesOn(s: Sys, p: Pid, r: RequestId, matcher: Matcher, image: bool, s1: Sys, s2: Sys)
    requires FindsSending(s, p, r) && !SettledAsSent(s.db.recs[r].attempts)
    ensures !Round(s, p, matcher, image, s1, s2, s)
  {
    hide SettledAsSent;
    if RecoverStep(s, p, TakeRecover, s1) && RecoverStep(s1, p, Recover(matcher, image), s2) {
      assert s1.procs[p] == Recovering(r) && s1.db.recs[r] == s.db.recs[r];
      RecoveryWrites(s1, p, r, matcher, image, s2);
      EndingKeepsRows(s2, p, s, r);
    }
  }

  lemma RecoveryWrites(s1: Sys, p: Pid, r: RequestId, matcher: Matcher, image: bool, s2: Sys)
    requires p in s1.procs && s1.procs[p] == Recovering(r) && r in s1.db.recs
    requires s1.db.recs[r].row.status == Sending && !SettledAsSent(s1.db.recs[r].attempts)
    requires RecoverStep(s1, p, Recover(matcher, image), s2)
    ensures p in s2.procs && s2.procs[p].r == r && r in s2.db.recs
    ensures s2.db.recs[r].row.status != Sending || s2.procs[p].Marking?
  {
    hide RecoveringNext, SettledAsSent;
    RecoveryChanges(s1.procs[p], s1.db.recs[r], matcher, image, s1.clock);
  }

  lemma EndingKeepsRows(s2: Sys, p: Pid, s: Sys, r: RequestId)
    requires p in s2.procs && s2.procs[p].r == r && r in s2.db.recs
    requires s2.db.recs[r].row.status != Sending || s2.procs[p].Marking?
    requires r in s.db.recs && s.db.recs[r].row.status == Sending
    ensures !SendStep(s2, p, EndSend, s)
  {
  }

  lemma RecoveryChanges(pc: Pc, rec: Rec, matcher: Matcher, image: bool, now: Time)
    requires pc.Recovering? && rec.row.status == Sending && !SettledAsSent(rec.attempts)
    ensures var next := RecoveringNext(pc, rec, matcher, image, now); next.rec.row.status != Sending || next.pc.Marking?
    ensures RecoveringNext(pc, rec, matcher, image, now).pc.r == pc.r
  {
  }
}
