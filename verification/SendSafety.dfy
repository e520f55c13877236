// What every run of the send protocol keeps: locks exclude, status and attempts agree, observed
// turns stay, and no request ever lands twice.
module SendSafety {
  import opened Rows
  import opened ReconcileScan
  import opened SendProtocol
  import Scheduler

  // ------------------------------------------------------------------ the invariant, piece by piece

  function OpAt(s: Sys, key: OpKey): Option<SendOp> {
    if key in s.ops then Some(s.ops[key]) else None
  }

  /** The first attempt's send call, if it was made, is over and nothing came of it. */
  predicate NeverLanded(first: Option<SendOp>) {
    first.Some? ==> first.value.phase == Ended && first.value.landed.None?
  }

  /** The first call is over, and if it landed then on this address and after this baseline. */
  predicate LandsAt(first: Option<SendOp>, url: Url, baseline: set<TurnId>) {
    && first.Some? && first.value.phase == Ended
    && (first.value.landed.Some? ==>
          first.value.landed.value.url == url && first.value.landed.value.turn !in baseline)
  }

  predicate AnchorSound(first: Option<SendOp>, url: Option<Url>, baseline: set<TurnId>) {
    url.Some? && IsConversation(url.value) ==> LandsAt(first, url.value, baseline)
  }

  predicate StoredAnchorSound(first: Option<SendOp>, row: Request) {
    && AnchorSound(first, row.url, BaselineOf(row))
    && (row.anchor.Some? ==> AnchorSound(first, row.anchor.value.url, BaselineOf(row)))
  }

  predicate ParamsSound(first: Option<SendOp>, params: Params) {
    && AnchorSound(first, params.pendingUrl, params.query.baseline)
    && AnchorSound(first, params.conversationUrl, params.query.baseline)
  }

  function BaselineOfPending(pending: Pending): set<TurnId> {
    if pending.baseline.Some? then pending.baseline.value else {}
  }

  /** An uncertain reply for the first attempt names, without a turn, only the address the click was bound for. */
  predicate PendingSound(first: Option<SendOp>, pending: Option<Pending>) {
    pending.Some? && pending.value.userTurn.None? ==>
      AnchorSound(first, pending.value.url, BaselineOfPending(pending.value))
  }

  predicate VerdictSound(first: Option<SendOp>, verdict: ReconcileResult) {
    !verdict.found && verdict.proven ==> NeverLanded(first)
  }

  predicate LastIs(rec: Rec, no: nat, state: AttemptState) {
    |rec.attempts| == no > 0 && Last(rec.attempts).state == state
  }

  /** What the rows of a request say about the first attempt's call. */
  predicate RowsFit(rec: Rec, first: Option<SendOp>) {
    && Coupled(rec)
    && (|rec.attempts| > 0 && rec.attempts[0].state == NoSendProven ==> NeverLanded(first))
    && (|rec.attempts| == 0 || LastIs(rec, 1, Armed) ==> rec.row.url.None? && rec.row.anchor.None?)
    && (LastIs(rec, 1, SendUncertain) && Last(rec.attempts).userTurn.None? ==> StoredAnchorSound(first, rec.row))
  }

  /** The attempt a process is working on. */
  function AttemptNo(pc: Pc): nat {
    if pc.ArmedToCall? || pc.Calling? || pc.Returned? then pc.no else 1
  }

  /** What a process at `pc` may rely on; `call` is the send call of the attempt it works on. */
  predicate PcFits(pc: Pc, rec: Rec, first: Option<SendOp>, call: Option<SendOp>) {
    match pc
    case StagedSeen(_) => AllDisproved(rec.attempts)
    case SendLocked(_, _) => AllDisproved(rec.attempts)
    case Checked(_, slot) => AllDisproved(rec.attempts) && rec.row.slot == Some(slot)
    case ArmedToCall(_, no) => LastIs(rec, no, Armed) && call.None?
    case Calling(_, no) => LastIs(rec, no, Armed) && call.Some?
    case Returned(_, no, reply) =>
      LastIs(rec, no, Armed) &&
      (match reply
       case SentReply(_) => true
       case PreClickReply(_) => no == 1 ==> NeverLanded(first)
       case UncertainReply(pending) => no == 1 ==> PendingSound(first, pending))
    case PreClickMarked(_, no, _) => LastIs(rec, no, NoSendProven)
    case Marking(_) => LastIs(rec, |rec.attempts|, Armed)
    case Polling(_) => SettledAsSent(rec.attempts)
    case Finalizing(_) => SettledAsSent(rec.attempts)
    case Reconciling(_, no, params) =>
      && LastIs(rec, no, SendUncertain)
      && params.pendingUserTurn == Last(rec.attempts).userTurn
      && (no == 1 && params.pendingUserTurn.None? ==> ParamsSound(first, params))
    case HasVerdict(_, no, verdict) =>
      && LastIs(rec, no, SendUncertain)
      && (no == 1 && Last(rec.attempts).userTurn.None? ==> VerdictSound(first, verdict))
    case Applying(_, no, read, verdict) =>
      && LastIs(rec, no, SendUncertain) && read == Last(rec.attempts)
      && (no == 1 && read.userTurn.None? ==> VerdictSound(first, verdict))
    case _ => true
  }

  predicate RequestOk(s: Sys, r: RequestId) {
    r in s.db.recs && RowsFit(s.db.recs[r], OpAt(s, (r, 1)))
  }

  predicate PcOk(s: Sys, p: Pid) {
    p in s.procs &&
    var pc := s.procs[p];
    var r := pc.r;
    && r in s.db.recs
    && (HoldsOwner(pc) ==> r in s.owners && s.owners[r] == p)
    && (HoldsSend(pc) ==> r in s.senders && s.senders[r] == p)
    && PcFits(pc, s.db.recs[r], OpAt(s, (r, 1)), OpAt(s, (r, AttemptNo(pc))))
  }

  predicate OpOk(s: Sys, key: OpKey) {
    key in s.ops &&
    var op := s.ops[key];
    && key.0 in s.db.recs
    && 1 <= key.1 <= |s.db.recs[key.0].attempts|
    && (op.landed.Some? ==>
          && op.phase != Queued
          && (op.landed.value.r, op.landed.value.no) == key
          && op.landed.value.turn in UserTurns(s, op.landed.value.url)
          && op.landed.value.turn !in op.baseline)
  }

  ghost predicate OwnerOk(s: Sys, r: RequestId) {
    r in s.owners &&
    var p := s.owners[r];
    p in s.procs && s.procs[p].r == r && HoldsOwner(s.procs[p])
  }

  ghost predicate SenderOk(s: Sys, r: RequestId) {
    r in s.senders &&
    var p := s.senders[r];
    p in s.procs && s.procs[p].r == r && HoldsSend(s.procs[p])
  }

  /** The history of landings is what the calls remember, once per call. */
  ghost predicate LandingsOk(s: Sys) {
    && (forall i :: 0 <= i < |s.landings| ==>
          var key := (s.landings[i].r, s.landings[i].no);
          key in s.ops && s.ops[key].landed == Some(s.landings[i]))
    && (forall i, j :: 0 <= i < j < |s.landings| ==>
          (s.landings[i].r, s.landings[i].no) != (s.landings[j].r, s.landings[j].no))
  }

  ghost predicate Inv(s: Sys) {
    && (forall r {:trigger RequestOk(s, r)} :: r in s.db.recs ==> RequestOk(s, r))
    && (forall p {:trigger PcOk(s, p)} :: p in s.procs ==> PcOk(s, p))
    && (forall key {:trigger OpOk(s, key)} :: key in s.ops ==> OpOk(s, key))
    && (forall r {:trigger OwnerOk(s, r)} :: r in s.owners ==> OwnerOk(s, r))
    && (forall r {:trigger SenderOk(s, r)} :: r in s.senders ==> SenderOk(s, r))
    && LandingsOk(s)
  }

  lemma InitEstablishes(s: Sys)
    requires Init(s)
    ensures Inv(s)
  {
  }

  // ------------------------------------------------------------------ what a step on one request leaves alone

  ghost predicate OnlyTouches(s: Sys, s': Sys, p: Pid, r: RequestId) {
    && (forall q :: q != p ==> (q in s.procs <==> q in s'.procs))
    && (forall q :: q != p && q in s.procs ==> s'.procs[q] == s.procs[q])
    && s'.db.recs.Keys == s.db.recs.Keys
    && (forall x :: x != r && x in s.db.recs ==> s'.db.recs[x] == s.db.recs[x])
    && (forall x :: x != r ==> (x in s.owners <==> x in s'.owners))
    && (forall x :: x != r && x in s.owners ==> s'.owners[x] == s.owners[x])
    && (forall x :: x != r ==> (x in s.senders <==> x in s'.senders))
    && (forall x :: x != r && x in s.senders ==> s'.senders[x] == s.senders[x])
    && (forall key: OpKey :: key.0 != r ==> (key in s.ops <==> key in s'.ops))
    && (forall key: OpKey :: key.0 != r && key in s.ops ==> s'.ops[key] == s.ops[key])
    && s'.turns == s.turns && s'.landings == s.landings
  }

  /** Everything the invariant says about request r and process p. */
  ghost predicate LocalOk(s: Sys, p: Pid, r: RequestId) {
    && r in s.db.recs && RequestOk(s, r)
    && (p in s.procs ==> s.procs[p].r == r && PcOk(s, p))
    && (forall key: OpKey :: key in s.ops && key.0 == r ==> OpOk(s, key))
    && (r in s.owners ==> OwnerOk(s, r))
    && (r in s.senders ==> SenderOk(s, r))
  }

  /** Nobody else is in the middle of anything on request r. */
  ghost predicate Alone(s: Sys, p: Pid, r: RequestId) {
    forall q :: q in s.procs && q != p && s.procs[q].r == r ==> !HoldsOwner(s.procs[q])
  }

  lemma OwnerIsAlone(s: Sys, p: Pid)
    requires Inv(s) && p in s.procs && HoldsOwner(s.procs[p])
    ensures Alone(s, p, s.procs[p].r)
  {
    forall q | q in s.procs && q != p && s.procs[q].r == s.procs[p].r ensures !HoldsOwner(s.procs[q]) {
      assert PcOk(s, p) && PcOk(s, q);
    }
  }

  lemma WaitingFits(pc: Pc, rec: Rec, first: Option<SendOp>, call: Option<SendOp>)
    requires !HoldsOwner(pc)
    ensures PcFits(pc, rec, first, call)
  {
  }

  lemma OtherPcOk(s: Sys, s': Sys, p: Pid, r: RequestId, q: Pid)
    requires OnlyTouches(s, s', p, r) && q in s.procs && q != p && PcOk(s, q)
    requires s.procs[q].r == r ==> !HoldsOwner(s.procs[q])
    ensures PcOk(s', q)
  {
    hide PcFits, RowsFit;
    var pc := s.procs[q];
    var x := pc.r;
    assert s'.procs[q] == pc;
    if x != r {
      assert OpAt(s', (x, 1)) == OpAt(s, (x, 1));
      assert OpAt(s', (x, AttemptNo(pc))) == OpAt(s, (x, AttemptNo(pc)));
      assert s'.db.recs[x] == s.db.recs[x];
    } else {
      WaitingFits(pc, s'.db.recs[x], OpAt(s', (x, 1)), OpAt(s', (x, AttemptNo(pc))));
    }
  }

  lemma OtherRequestOk(s: Sys, s': Sys, p: Pid, r: RequestId, x: RequestId)
    requires OnlyTouches(s, s', p, r) && x in s.db.recs && x != r && RequestOk(s, x)
    ensures RequestOk(s', x)
  {
    assert OpAt(s', (x, 1)) == OpAt(s, (x, 1));
  }

  lemma OtherLocksOk(s: Sys, s': Sys, p: Pid, r: RequestId)
    requires OnlyTouches(s, s', p, r) && (p in s.procs ==> s.procs[p].r == r)
    requires forall x :: x in s.owners ==> OwnerOk(s, x)
    requires forall x :: x in s.senders ==> SenderOk(s, x)
    ensures forall x :: x in s'.owners && x != r ==> OwnerOk(s', x)
    ensures forall x :: x in s'.senders && x != r ==> SenderOk(s', x)
  {
    forall x | x in s'.owners && x != r ensures OwnerOk(s', x) {
      assert OwnerOk(s, x);
    }
    forall x | x in s'.senders && x != r ensures SenderOk(s', x) {
      assert SenderOk(s, x);
    }
  }

  lemma OtherOpOk(s: Sys, s': Sys, p: Pid, r: RequestId, key: OpKey)
    requires OnlyTouches(s, s', p, r) && key in s.ops && key.0 != r && OpOk(s, key)
    ensures OpOk(s', key)
  {
  }

  lemma StepOnOneRequest(s: Sys, s': Sys, p: Pid, r: RequestId)
    requires Inv(s) && OnlyTouches(s, s', p, r) && Alone(s, p, r) && LocalOk(s', p, r)
    requires p in s.procs ==> s.procs[p].r == r
    requires LandingsOk(s')
    ensures Inv(s')
  {
    forall x | x in s'.db.recs ensures RequestOk(s', x) {
      if x != r {
        OtherRequestOk(s, s', p, r, x);
      }
    }
    forall q | q in s'.procs ensures PcOk(s', q) {
      if q != p {
        OtherPcOk(s, s', p, r, q);
      }
    }
    forall key | key in s'.ops ensures OpOk(s', key) {
      if key.0 != r {
        OtherOpOk(s, s', p, r, key);
      }
    }
    OtherLocksOk(s, s', p, r);
  }

  // ------------------------------------------------------------------ one process, one request

  /** `call` is the record of the call of the attempt the process works on next. */
  ghost predicate CallFollows(pc: Pc, rec: Rec, next: Local, first: Option<SendOp>, call: Option<SendOp>, call': Option<SendOp>) {
    && (AttemptNo(next.pc) == AttemptNo(pc) && !next.pc.Calling? ==> call' == call)
    && (AttemptNo(next.pc) == 1 && !next.pc.Calling? ==> call' == first)
    && (AttemptNo(next.pc) > |rec.attempts| ==> call'.None?)
    && (next.pc.Calling? ==> call'.Some?)
  }

  /** What a local step owes: the rows and the new place fit, observed turns stay, the owner lock is kept. */
  ghost predicate StepFits(pc: Pc, rec: Rec, next: Local, first: Option<SendOp>, call: Option<SendOp>) {
    && RowsFit(next.rec, first) && PcFits(next.pc, next.rec, first, call)
    && TurnsKept(rec, next.rec) && next.pc.r == pc.r
    && HoldsOwner(pc) && HoldsOwner(next.pc)
  }

  lemma StatusWriteFits(rec: Rec, first: Option<SendOp>, status: Status, now: Time)
    requires RowsFit(rec, first)
    requires status == Failed || (status == NeedsUserAction && AllDisproved(rec.attempts))
             || (status == Status.Complete && SettledAsSent(rec.attempts))
    ensures RowsFit(WithStatus(rec, status, now), first) && TurnsKept(rec, WithStatus(rec, status, now))
  {
  }

  lemma PollingFits(pc: Pc, rec: Rec, act: OwnerAct, now: Time, first: Option<SendOp>)
    requires pc.Polling? && RowsFit(rec, first) && PcFits(pc, rec, first, first)
    requires OwnerNext(pc, rec, act, now).Some?
    ensures StepFits(pc, rec, OwnerNext(pc, rec, act, now).value, first, first)
  {
    StatusWriteFits(rec, first, Failed, now);
  }

  lemma StagedSeenFits(pc: Pc, rec: Rec, act: OwnerAct, now: Time, first: Option<SendOp>)
    requires pc.StagedSeen? && RowsFit(rec, first) && PcFits(pc, rec, first, first)
    requires OwnerNext(pc, rec, act, now).Some?
    ensures StepFits(pc, rec, OwnerNext(pc, rec, act, now).value, first, first)
  {
    hide NeverLanded, StoredAnchorSound;
    StatusWriteFits(rec, first, Failed, now);
    StatusWriteFits(rec, first, NeedsUserAction, now);
  }

  lemma OwnedFits(pc: Pc, rec: Rec, act: OwnerAct, now: Time, first: Option<SendOp>)
    requires !pc.StagedSeen? && !pc.Polling? && RowsFit(rec, first) && PcFits(pc, rec, first, first)
    requires OwnerNext(pc, rec, act, now).Some?
    ensures StepFits(pc, rec, OwnerNext(pc, rec, act, now).value, first, first)
  {
    hide NeverLanded, StoredAnchorSound;
    StatusWriteFits(rec, first, Failed, now);
    StaysObserved(rec, first);
  }

  lemma OwnerNextFits(pc: Pc, rec: Rec, act: OwnerAct, now: Time, first: Option<SendOp>)
    requires RowsFit(rec, first) && PcFits(pc, rec, first, first)
    requires OwnerNext(pc, rec, act, now).Some?
    ensures StepFits(pc, rec, OwnerNext(pc, rec, act, now).value, first, first)
  {
    hide RowsFit, PcFits, OwnerNext, StepFits;
    if pc.Polling? {
      PollingFits(pc, rec, act, now, first);
    } else if pc.StagedSeen? {
      StagedSeenFits(pc, rec, act, now, first);
    } else {
      OwnedFits(pc, rec, act, now, first);
    }
  }

  lemma ArmFits(rec: Rec, now: Time, first: Option<SendOp>)
    requires RowsFit(rec, first) && AllDisproved(rec.attempts) && rec.row.slot.Some?
    ensures var tx := Arm(rec, now);
            tx.Commit? ==> RowsFit(tx.rec, first) && TurnsKept(rec, tx.rec) && LastIs(tx.rec, tx.answer, Armed)
                           && tx.answer == |rec.attempts| + 1
  {
    ArmKeepsCoupling(rec, now);
  }

  lemma ConfirmFits(rec: Rec, result: SendResult, now: Time, first: Option<SendOp>)
    requires RowsFit(rec, first) && LastIs(rec, |rec.attempts|, Armed)
    ensures var tx := Confirm(rec, result, now);
            tx.Commit? && RowsFit(tx.rec, first) && TurnsKept(rec, tx.rec)
  {
    ConfirmKeepsCoupling(rec, result, now);
  }

  lemma PreClickFits(rec: Rec, first: Option<SendOp>)
    requires RowsFit(rec, first) && LastIs(rec, |rec.attempts|, Armed)
    requires |rec.attempts| == 1 ==> NeverLanded(first)
    ensures var tx := MarkPreClick(rec);
            && tx.Commit? && tx.answer == NoSendProven && RowsFit(tx.rec, first) && TurnsKept(rec, tx.rec)
            && LastIs(tx.rec, |rec.attempts|, NoSendProven)
  {
    MarkPreClickKeepsCoupling(rec);
  }

  lemma UncertainFits(rec: Rec, pending: Option<Pending>, now: Time, first: Option<SendOp>)
    requires RowsFit(rec, first) && LastIs(rec, |rec.attempts|, Armed)
    requires |rec.attempts| == 1 ==> PendingSound(first, pending)
    ensures var tx := MarkUncertain(rec, pending, now);
            tx.Commit? ==> RowsFit(tx.rec, first) && TurnsKept(rec, tx.rec)
  {
    MarkUncertainKeepsCoupling(rec, pending, now);
  }

  lemma ReplyFits(pc: Pc, rec: Rec, pending: Option<Pending>, now: Time, first: Option<SendOp>, call: Option<SendOp>)
    requires pc.Returned? && FromProgress(pending)
    requires RowsFit(rec, first) && PcFits(pc, rec, first, call)
    ensures StepFits(pc, rec, ReplyNext(pc, rec, pending, now), first, call)
  {
    match pc.reply
    case SentReply(result) => ConfirmFits(rec, result, now, first);
    case PreClickReply(_) => PreClickFits(rec, first);
    case UncertainReply(own) => UncertainFits(rec, own, now, first);
  }

  /** The sender's steps that write no rows. */
  lemma SendMoveFits(pc: Pc, rec: Rec, act: SendAct, now: Time, first: Option<SendOp>, call: Option<SendOp>, call': Option<SendOp>)
    requires !act.ArmSend? && !act.HandleReply? && !act.AfterPreClick?
    requires RowsFit(rec, first) && PcFits(pc, rec, first, call)
    requires SendNext(pc, rec, act, now).Some?
    requires CallFollows(pc, rec, SendNext(pc, rec, act, now).value, first, call, call')
    ensures StepFits(pc, rec, SendNext(pc, rec, act, now).value, first, call')
  {
    hide RowsFit;
    StaysObserved(rec, first);
  }

  lemma StaysObserved(rec: Rec, first: Option<SendOp>)
    requires RowsFit(rec, first)
    ensures TurnsKept(rec, rec)
  {
  }

  lemma AfterPreClickFits(pc: Pc, rec: Rec, now: Time, first: Option<SendOp>, call: Option<SendOp>)
    requires pc.PreClickMarked? && RowsFit(rec, first) && PcFits(pc, rec, first, call)
    ensures StepFits(pc, rec, SendNext(pc, rec, AfterPreClick, now).value, first, call)
  {
    StatusWriteFits(rec, first, Failed, now);
    StatusWriteFits(rec, first, NeedsUserAction, now);
  }

  lemma ArmSendFits(pc: Pc, rec: Rec, now: Time, first: Option<SendOp>, call: Option<SendOp>, call': Option<SendOp>)
    requires pc.Checked? && RowsFit(rec, first) && PcFits(pc, rec, first, call)
    requires CallFollows(pc, rec, SendNext(pc, rec, ArmSend, now).value, first, call, call')
    ensures StepFits(pc, rec, SendNext(pc, rec, ArmSend, now).value, first, call')
  {
    ArmFits(rec, now, first);
  }

  lemma SendNextFits(pc: Pc, rec: Rec, act: SendAct, now: Time, first: Option<SendOp>, call: Option<SendOp>, call': Option<SendOp>)
    requires RowsFit(rec, first) && PcFits(pc, rec, first, call)
    requires SendNext(pc, rec, act, now).Some?
    requires CallFollows(pc, rec, SendNext(pc, rec, act, now).value, first, call, call')
    ensures StepFits(pc, rec, SendNext(pc, rec, act, now).value, first, call')
  {
    if act.HandleReply? {
      ReplyFits(pc, rec, act.pending, now, first, call);
      ReplyKeepsAttemptNo(pc, rec, act.pending, now);
    } else if act.ArmSend? {
      ArmSendFits(pc, rec, now, first, call, call');
    } else if act.AfterPreClick? {
      AfterPreClickFits(pc, rec, now, first, call);
    } else {
      SendMoveFits(pc, rec, act, now, first, call, call');
    }
  }

  lemma ReplyKeepsAttemptNo(pc: Pc, rec: Rec, pending: Option<Pending>, now: Time)
    requires pc.Returned?
    ensures var next := ReplyNext(pc, rec, pending, now).pc;
            AttemptNo(next) == AttemptNo(pc) || (AttemptNo(next) == 1 && !next.Calling?)
  {
  }

  /** The parameters of a reconcile call are as sound as the stored anchors. */
  lemma AsksSoundly(rec: Rec, matcher: Matcher, image: bool, first: Option<SendOp>)
    requires LastIs(rec, 1, SendUncertain) && StoredAnchorSound(first, rec.row)
    ensures ParamsSound(first, ParamsOf(rec, matcher, image))
  {
    hide LandsAt;
  }

  lemma UncertainRecoveryFits(pc: Pc, rec: Rec, matcher: Matcher, image: bool, now: Time, first: Option<SendOp>)
    requires pc.Recovering? && RowsFit(rec, first) && rec.row.status == Uncertain
    ensures StepFits(pc, rec, RecoveringNext(pc, rec, matcher, image, now), first, first)
  {
    hide ParamsSound, StoredAnchorSound, NeverLanded;
    StatusWriteFits(rec, first, Failed, now);
    if LastIs(rec, 1, SendUncertain) && Last(rec.attempts).userTurn.None? {
      AsksSoundly(rec, matcher, image, first);
    }
  }

  lemma SendingRecoveryFits(pc: Pc, rec: Rec, matcher: Matcher, image: bool, now: Time, first: Option<SendOp>)
    requires pc.Recovering? && RowsFit(rec, first) && rec.row.status != Uncertain
    ensures StepFits(pc, rec, RecoveringNext(pc, rec, matcher, image, now), first, first)
  {
    hide StoredAnchorSound, NeverLanded;
    StatusWriteFits(rec, first, Failed, now);
    StaysObserved(rec, first);
  }

  lemma MarkingFits(pc: Pc, rec: Rec, now: Time, first: Option<SendOp>)
    requires pc.Marking? && RowsFit(rec, first) && PcFits(pc, rec, first, first)
    ensures StepFits(pc, rec, RecoverNext(pc, rec, MarkRecovered, now).value, first, first)
  {
    hide RowsFit, MarkUncertain;
    StaysObserved(rec, first);
    UncertainFits(rec, None, now, first);
  }

  lemma RecoveringFits(pc: Pc, rec: Rec, matcher: Matcher, image: bool, now: Time, first: Option<SendOp>)
    requires pc.Recovering? && RowsFit(rec, first)
    ensures StepFits(pc, rec, RecoveringNext(pc, rec, matcher, image, now), first, first)
  {
    hide RowsFit, StepFits, RecoveringNext;
    if rec.row.status == Uncertain {
      UncertainRecoveryFits(pc, rec, matcher, image, now, first);
    } else {
      SendingRecoveryFits(pc, rec, matcher, image, now, first);
    }
  }

  lemma ApplyFits(pc: Pc, rec: Rec, now: Time, first: Option<SendOp>)
    requires pc.Applying? && RowsFit(rec, first) && PcFits(pc, rec, first, first)
    ensures 1 <= pc.no <= |rec.attempts|
    ensures StepFits(pc, rec, RecoverNext(pc, rec, Apply, now).value, first, first)
  {
    ApplyKeepsCoupling(rec, pc.verdict, now);
  }

  /** The recoverer's steps that write no rows. */
  lemma RecoverMoveFits(pc: Pc, rec: Rec, act: RecoverAct, now: Time, first: Option<SendOp>)
    requires !act.Recover? && !act.MarkRecovered? && !act.Apply? && !act.Finalize? && !act.ReleaseWrite?
    requires RowsFit(rec, first) && PcFits(pc, rec, first, first)
    requires RecoverNext(pc, rec, act, now).Some?
    requires act.Answer? && pc.Reconciling? && ParamsSound(first, pc.params) && pc.params.pendingUserTurn.None? ==>
               VerdictSound(first, ReconcileSend(pc.params, act.browser))
    ensures StepFits(pc, rec, RecoverNext(pc, rec, act, now).value, first, first)
  {
    hide ReconcileSend;
  }

  lemma EndedFits(rec: Rec, ending: Ending, now: Time, first: Option<SendOp>)
    requires RowsFit(rec, first) && SettledAsSent(rec.attempts)
    ensures RowsFit(EndedAs(rec, ending, now), first) && TurnsKept(rec, EndedAs(rec, ending, now))
  {
    hide NeverLanded, StoredAnchorSound;
    StatusWriteFits(rec, first, Failed, now);
    StatusWriteFits(rec, first, Status.Complete, now);
  }

  lemma RecoverEndFits(pc: Pc, rec: Rec, act: RecoverAct, now: Time, first: Option<SendOp>)
    requires act.Finalize? || act.ReleaseWrite?
    requires RowsFit(rec, first) && PcFits(pc, rec, first, first)
    requires RecoverNext(pc, rec, act, now).Some?
    ensures StepFits(pc, rec, RecoverNext(pc, rec, act, now).value, first, first)
  {
    hide RowsFit, EndedAs, RecoveringNext, ReconcileSend;
    if act.Finalize? {
      EndedFits(rec, act.ending, now, first);
    } else {
      StatusWriteFits(rec, first, Failed, now);
    }
  }

  lemma RecoverNextFits(pc: Pc, rec: Rec, act: RecoverAct, now: Time, first: Option<SendOp>)
    requires RowsFit(rec, first) && PcFits(pc, rec, first, first)
    requires RecoverNext(pc, rec, act, now).Some?
    requires act.Answer? && pc.Reconciling? && ParamsSound(first, pc.params) && pc.params.pendingUserTurn.None? ==>
               VerdictSound(first, ReconcileSend(pc.params, act.browser))
    ensures StepFits(pc, rec, RecoverNext(pc, rec, act, now).value, first, first)
  {
    hide RowsFit, PcFits, StepFits;
    if act.Recover? {
      RecoveringFits(pc, rec, act.matcher, act.image, now, first);
    } else if act.MarkRecovered? {
      MarkingFits(pc, rec, now, first);
    } else if act.Apply? {
      ApplyFits(pc, rec, now, first);
    } else if act.Finalize? || act.ReleaseWrite? {
      RecoverEndFits(pc, rec, act, now, first);
    } else {
      RecoverMoveFits(pc, rec, act, now, first);
    }
  }

  // ------------------------------------------------------------------ steps of a process, in the whole system

  lemma GotoTouches(s: Sys, s0: Sys, p: Pid, next: Local)
    requires p in s.procs && s.procs[p].r == next.pc.r && next.pc.r in s.db.recs
    requires s0 == s.(ops := s0.ops)
    requires forall key: OpKey :: key.0 != next.pc.r ==> (key in s.ops <==> key in s0.ops)
    requires forall key: OpKey :: key.0 != next.pc.r && key in s.ops ==> s0.ops[key] == s.ops[key]
    ensures OnlyTouches(s, Goto(s0, p, next), p, next.pc.r)
  {
  }

  lemma GotoKeeps(s: Sys, s0: Sys, p: Pid, next: Local)
    requires Inv(s) && p in s.procs && HoldsOwner(s.procs[p]) && s.procs[p].r == next.pc.r
    requires s0 == s.(ops := s0.ops)
    requires forall key: OpKey :: key.0 != next.pc.r ==> (key in s.ops <==> key in s0.ops)
    requires forall key: OpKey :: key.0 != next.pc.r && key in s.ops ==> s0.ops[key] == s.ops[key]
    requires forall key: OpKey :: key in s0.ops && key.0 == next.pc.r ==> OpOk(s0, key)
    requires LandingsOk(s0)
    requires StepFits(s.procs[p], RecOf(s, next.pc.r), next,
                      OpAt(s0, (next.pc.r, 1)), OpAt(s0, (next.pc.r, AttemptNo(next.pc))))
    ensures Inv(Goto(s0, p, next))
  {
    var r, s' := next.pc.r, Goto(s0, p, next);
    assert PcOk(s, p) && OwnerOk(s, r);
    OwnerIsAlone(s, p);
    GotoTouches(s, s0, p, next);
    GotoLocal(s, s0, p, next);
    StepOnOneRequest(s, s', p, r);
  }

  lemma GotoLocal(s: Sys, s0: Sys, p: Pid, next: Local)
    requires p in s.procs && HoldsOwner(s.procs[p]) && s.procs[p].r == next.pc.r && PcOk(s, p)
    requires s0 == s.(ops := s0.ops)
    requires forall key: OpKey :: key in s0.ops && key.0 == next.pc.r ==> OpOk(s0, key)
    requires StepFits(s.procs[p], RecOf(s, next.pc.r), next,
                      OpAt(s0, (next.pc.r, 1)), OpAt(s0, (next.pc.r, AttemptNo(next.pc))))
    ensures LocalOk(Goto(s0, p, next), p, next.pc.r)
  {
    var r, s' := next.pc.r, Goto(s0, p, next);
    assert OpAt(s', (r, 1)) == OpAt(s0, (r, 1));
    assert OpAt(s', (r, AttemptNo(next.pc))) == OpAt(s0, (r, AttemptNo(next.pc)));
    forall key: OpKey | key in s'.ops && key.0 == r ensures OpOk(s', key) {
      assert OpOk(s0, key);
    }
  }

  /** The send lock of a request is never held by anyone but its owner, so an owner that has not taken it finds it free. */
  lemma SendLockIsTheOwners(s: Sys, p: Pid)
    requires Inv(s) && p in s.procs && HoldsOwner(s.procs[p])
    ensures s.procs[p].r in s.senders <==> HoldsSend(s.procs[p])
  {
    var r := s.procs[p].r;
    assert PcOk(s, p);
    if r in s.senders {
      assert SenderOk(s, r);
      assert PcOk(s, s.senders[r]);
    }
  }

  lemma OpsOfRequestOk(s: Sys, r: RequestId)
    requires Inv(s)
    ensures forall key: OpKey :: key in s.ops && key.0 == r ==> OpOk(s, key)
  {
  }

  lemma SlotsDoNotMatter(s: Sys, slots: map<SlotId, SlotRow>)
    requires Inv(s)
    ensures Inv(s.(db := s.db.(slots := slots)))
  {
    hide RowsFit, PcFits;
    var s' := s.(db := s.db.(slots := slots));
    forall r | r in s'.db.recs ensures RequestOk(s', r) {
      assert RequestOk(s, r);
    }
    forall p | p in s'.procs ensures PcOk(s', p) {
      assert PcOk(s, p);
    }
    forall key | key in s'.ops ensures OpOk(s', key) {
      assert OpOk(s, key);
    }
    forall r | r in s'.owners ensures OwnerOk(s', r) {
      assert OwnerOk(s, r);
    }
    forall r | r in s'.senders ensures SenderOk(s', r) {
      assert SenderOk(s, r);
    }
  }

  lemma OwnerKeeps(c: Scheduler.Config, s: Sys, p: Pid, act: OwnerAct, s': Sys)
    requires Inv(s) && OwnerStep(c, s, p, act, s')
    ensures Inv(s') && TurnsKept(RecOf(s, s.procs[p].r), RecOf(s', s.procs[p].r))
  {
    if act.Claim? {
      var slots := s.db.slots[act.slot := s.db.slots[act.slot].(lastUsedAt := Some(act.now))];
      SlotsDoNotMatter(s, slots);
      OwnerMoves(s.(db := s.db.(slots := slots)), p, act, s');
    } else {
      OwnerMoves(s, p, act, s');
    }
  }

  lemma OwnerMoves(s: Sys, p: Pid, act: OwnerAct, s': Sys)
    requires Inv(s) && p in s.procs && LocalStep(s, p, OwnerNext(s.procs[p], RecOf(s, s.procs[p].r), act, s.clock), s')
    ensures Inv(s') && TurnsKept(RecOf(s, s.procs[p].r), RecOf(s', s.procs[p].r))
  {
    var pc := s.procs[p];
    var first := OpAt(s, (pc.r, 1));
    assert PcOk(s, p) && RequestOk(s, pc.r);
    var next := OwnerNext(pc, RecOf(s, pc.r), act, s.clock).value;
    OwnerNextFits(pc, RecOf(s, pc.r), act, s.clock, first);
    OwnerStaysLow(pc, RecOf(s, pc.r), act, s.clock);
    OpsOfRequestOk(s, pc.r);
    GotoKeeps(s, s, p, next);
  }

  /** Outside the send lock no process is tied to an attempt. */
  lemma OwnerStaysLow(pc: Pc, rec: Rec, act: OwnerAct, now: Time)
    requires OwnerNext(pc, rec, act, now).Some?
    ensures AttemptNo(pc) == 1 && AttemptNo(OwnerNext(pc, rec, act, now).value.pc) == 1
  {
  }

  lemma CallsHaveAttempts(s: Sys, key: OpKey)
    requires Inv(s) && key in s.ops
    ensures key.0 in s.db.recs && 1 <= key.1 <= |s.db.recs[key.0].attempts|
  {
    assert OpOk(s, key);
  }

  /** Nothing was ever called for an attempt the rows do not have. */
  lemma NoCallYet(s: Sys, r: RequestId, no: nat)
    requires Inv(s) && (r in s.db.recs ==> no > |s.db.recs[r].attempts|)
    ensures OpAt(s, (r, no)).None?
  {
    if (r, no) in s.ops {
      CallsHaveAttempts(s, (r, no));
    }
  }

  lemma SendMovesKeep(s: Sys, p: Pid, act: SendAct, s': Sys)
    requires Inv(s) && SendStep(s, p, act, s') && !act.CallSend?
    ensures Inv(s') && TurnsKept(RecOf(s, s.procs[p].r), RecOf(s', s.procs[p].r))
  {
    var pc := s.procs[p];
    var r := pc.r;
    var rec := RecOf(s, r);
    var first := OpAt(s, (r, 1));
    assert PcOk(s, p) && RequestOk(s, r);
    var next := SendNext(pc, rec, act, s.clock).value;
    SendNextStays(pc, rec, act, s.clock);
    if AttemptNo(next.pc) > |rec.attempts| {
      NoCallYet(s, r, AttemptNo(next.pc));
    }
    SendNextFits(pc, rec, act, s.clock, first, OpAt(s, (r, AttemptNo(pc))), OpAt(s, (r, AttemptNo(next.pc))));
    OpsOfRequestOk(s, r);
    GotoKeeps(s, s, p, next);
  }

  lemma SendNextStays(pc: Pc, rec: Rec, act: SendAct, now: Time)
    requires SendNext(pc, rec, act, now).Some?
    ensures SendNext(pc, rec, act, now).value.pc.r == pc.r
    ensures SendNext(pc, rec, act, now).value.pc.Calling? ==> act.CallSend?
  {
  }

  /** Recording the call of the armed attempt changes nothing the rows rely on. */
  lemma NewCallFits(rec: Rec, no: nat, first: Option<SendOp>, first': Option<SendOp>)
    requires RowsFit(rec, first) && LastIs(rec, no, Armed) && (no != 1 ==> first' == first)
    ensures RowsFit(rec, first')
  {
  }

  lemma CallSendKeeps(s: Sys, p: Pid, s': Sys)
    requires Inv(s) && SendStep(s, p, CallSend, s')
    ensures Inv(s') && TurnsKept(RecOf(s, s.procs[p].r), RecOf(s', s.procs[p].r))
  {
    var r, no := s.procs[p].r, s.procs[p].no;
    assert PcOk(s, p) && RequestOk(s, r);
    ArmedFacts(s, p, r, no);
    CallSendIs(s, p, r, no, s');
    NewCallKeeps(s, p, r, no, NewCall(s, r, no));
  }

  function NewCall(s: Sys, r: RequestId, no: nat): Sys {
    s.(ops := s.ops[(r, no) := SendOp(Queued, None, {}, None)])
  }

  lemma CallSendIs(s: Sys, p: Pid, r: RequestId, no: nat, s': Sys)
    requires SendStep(s, p, CallSend, s') && At(s, p, ArmedToCall(r, no)) && r in s.db.recs
    ensures s' == Goto(NewCall(s, r, no), p, Local(Calling(r, no), s.db.recs[r]))
    ensures s'.db.recs[r] == s.db.recs[r]
  {
  }

  lemma ArmedFacts(s: Sys, p: Pid, r: RequestId, no: nat)
    requires At(s, p, ArmedToCall(r, no)) && PcOk(s, p) && RequestOk(s, r)
    ensures LastIs(s.db.recs[r], no, Armed) && OpAt(s, (r, no)).None?
    ensures StepFits(s.procs[p], s.db.recs[r], Local(Calling(r, no), s.db.recs[r]),
                     OpAt(NewCall(s, r, no), (r, 1)), OpAt(NewCall(s, r, no), (r, no)))
  {
    NewCallFits(s.db.recs[r], no, OpAt(s, (r, 1)), OpAt(NewCall(s, r, no), (r, 1)));
  }

  lemma NewCallKeeps(s: Sys, p: Pid, r: RequestId, no: nat, s0: Sys)
    requires Inv(s) && At(s, p, ArmedToCall(r, no)) && r in s.db.recs && s0 == NewCall(s, r, no)
    requires LastIs(s.db.recs[r], no, Armed) && OpAt(s, (r, no)).None?
    requires StepFits(s.procs[p], s.db.recs[r], Local(Calling(r, no), s.db.recs[r]), OpAt(s0, (r, 1)), OpAt(s0, (r, no)))
    ensures Inv(Goto(s0, p, Local(Calling(r, no), s.db.recs[r])))
  {
    NewCallOps(s, s0, r, no);
    GotoKeeps(s, s0, p, Local(Calling(r, no), s.db.recs[r]));
  }

  lemma NewCallOps(s: Sys, s0: Sys, r: RequestId, no: nat)
    requires Inv(s) && r in s.db.recs && 1 <= no <= |s.db.recs[r].attempts| && OpAt(s, (r, no)).None?
    requires s0 == NewCall(s, r, no)
    ensures forall key: OpKey :: key in s0.ops && key.0 == r ==> OpOk(s0, key)
    ensures LandingsOk(s0)
  {
    forall key: OpKey | key in s0.ops && key.0 == r ensures OpOk(s0, key) {
      if key != (r, no) {
        assert OpOk(s, key);
      }
    }
  }

  lemma SendKeeps(s: Sys, p: Pid, act: SendAct, s': Sys)
    requires Inv(s) && SendStep(s, p, act, s')
    ensures Inv(s') && TurnsKept(RecOf(s, s.procs[p].r), RecOf(s', s.procs[p].r))
  {
    if act.CallSend? {
      CallSendKeeps(s, p, s');
    } else {
      SendMovesKeep(s, p, act, s');
    }
  }

  /** A proof of absence is right: the tab it rests on would have shown the turn of the first call. */
  lemma AnswerSound(s: Sys, r: RequestId, params: Params, browser: Browser)
    requires (r, 1) in s.ops ==> OpOk(s, (r, 1))
    requires Faithful(s, browser) && ParamsSound(OpAt(s, (r, 1)), params)
    ensures VerdictSound(OpAt(s, (r, 1)), ReconcileSend(params, browser))
  {
    var verdict := ReconcileSend(params, browser);
    if !verdict.found && verdict.proven {
      AbsenceNeedsAnchor(params, browser);
      var url, page :| AnchoredWitness(params, browser, url, page);
      WitnessIsOfAnchor(s, r, params, browser, url, page);
    }
  }

  lemma WitnessIsOfAnchor(s: Sys, r: RequestId, params: Params, browser: Browser, url: Url, page: Page)
    requires (r, 1) in s.ops ==> OpOk(s, (r, 1))
    requires Faithful(s, browser) && ParamsSound(OpAt(s, (r, 1)), params)
    requires AnchoredWitness(params, browser, url, page)
    ensures NeverLanded(OpAt(s, (r, 1)))
  {
    var first := OpAt(s, (r, 1));
    assert LandsAt(first, url, params.query.baseline);
    assert SendProtocol.Complete(s, page) && page.url == url;
    if first.value.landed.Some? {
      var turn := first.value.landed.value.turn;
      assert turn in UserTurns(s, url);
      var k :| 0 <= k < |page.turns.value| && page.turns.value[k].user && page.turns.value[k].id == turn;
      assert NewUser(page.turns.value, params.query.baseline, k);
      assert false;
    }
  }

  lemma RecoverKeeps(s: Sys, p: Pid, act: RecoverAct, s': Sys)
    requires Inv(s) && RecoverStep(s, p, act, s')
    ensures Inv(s') && TurnsKept(RecOf(s, s.procs[p].r), RecOf(s', s.procs[p].r))
  {
    var pc := s.procs[p];
    var r := pc.r;
    var first := OpAt(s, (r, 1));
    assert PcOk(s, p) && RequestOk(s, r);
    var next := RecoverNext(pc, RecOf(s, r), act, s.clock).value;
    RecoverStaysLow(pc, RecOf(s, r), act, s.clock);
    OpsOfRequestOk(s, r);
    if act.Answer? && ParamsSound(first, pc.params) {
      AnswerSound(s, r, pc.params, act.browser);
    }
    RecoverNextFits(pc, RecOf(s, r), act, s.clock, first);
    GotoKeeps(s, s, p, next);
  }

  lemma RecoverStaysLow(pc: Pc, rec: Rec, act: RecoverAct, now: Time)
    requires RecoverNext(pc, rec, act, now).Some?
    ensures AttemptNo(pc) == 1 && AttemptNo(RecoverNext(pc, rec, act, now).value.pc) == 1
    ensures RecoverNext(pc, rec, act, now).value.pc.r == pc.r
  {
  }

  // ------------------------------------------------------------------ starting, failing, leaving, crashing

  predicate AttemptsAndSlotStay(rec: Rec, rec': Rec) {
    rec'.attempts == rec.attempts && rec'.row.slot == rec.row.slot
  }

  /** A write outside any lock that leaves the attempts and the slot alone cannot upset anyone. */
  lemma RowWriteKeeps(s: Sys, r: RequestId, rec': Rec)
    requires Inv(s) && r in s.db.recs && AttemptsAndSlotStay(s.db.recs[r], rec')
    requires RowsFit(rec', OpAt(s, (r, 1)))
    ensures Inv(WithRec(s, r, rec'))
  {
    var s' := WithRec(s, r, rec');
    forall x | x in s'.db.recs ensures RequestOk(s', x) {
      assert x != r ==> RequestOk(s, x);
    }
    forall p | p in s'.procs ensures PcOk(s', p) {
      RowWritePc(s, r, rec', p);
    }
    RowWriteOps(s, r, rec');
    LocksStay(s, s');
  }

  lemma RowWritePc(s: Sys, r: RequestId, rec': Rec, p: Pid)
    requires r in s.db.recs && AttemptsAndSlotStay(s.db.recs[r], rec') && p in s.procs && PcOk(s, p)
    ensures PcOk(WithRec(s, r, rec'), p)
  {
  }

  lemma RowWriteOps(s: Sys, r: RequestId, rec': Rec)
    requires Inv(s) && r in s.db.recs && AttemptsAndSlotStay(s.db.recs[r], rec')
    ensures forall key :: key in s.ops ==> OpOk(WithRec(s, r, rec'), key)
  {
    forall key | key in s.ops ensures OpOk(WithRec(s, r, rec'), key) {
      assert OpOk(s, key);
    }
  }

  lemma LocksStay(s: Sys, s': Sys)
    requires Inv(s) && s'.procs == s.procs && s'.owners == s.owners && s'.senders == s.senders
    ensures forall r :: r in s'.owners ==> OwnerOk(s', r)
    ensures forall r :: r in s'.senders ==> SenderOk(s', r)
  {
    forall r | r in s'.owners ensures OwnerOk(s', r) {
      assert OwnerOk(s, r);
    }
    forall r | r in s'.senders ensures SenderOk(s', r) {
      assert SenderOk(s, r);
    }
  }

  lemma CreateKeeps(s: Sys, r: RequestId)
    requires Inv(s) && r !in s.db.recs
    ensures Inv(WithRec(s, r, NewRec(s.clock)))
  {
    hide PcFits;
    var s' := WithRec(s, r, NewRec(s.clock));
    forall x | x in s'.db.recs ensures RequestOk(s', x) {
      assert x != r ==> RequestOk(s, x);
      NoCallYet(s, r, 1);
    }
    forall p | p in s'.procs ensures PcOk(s', p) {
      assert PcOk(s, p);
      CreatePc(s, r, p);
    }
    forall key | key in s'.ops ensures OpOk(s', key) {
      assert OpOk(s, key);
    }
    LocksStay(s, s');
  }

  lemma CreatePc(s: Sys, r: RequestId, p: Pid)
    requires r !in s.db.recs && p in s.procs && PcOk(s, p)
    ensures PcOk(WithRec(s, r, NewRec(s.clock)), p)
  {
  }

  /** A process that holds no lock comes or moves on. */
  lemma UnlockedMoveKeeps(s: Sys, p: Pid, pc: Pc)
    requires Inv(s) && (p in s.procs ==> !HoldsOwner(s.procs[p]))
    requires !HoldsOwner(pc) && pc.r in s.db.recs
    ensures Inv(Move(s, p, pc))
  {
    hide Inv;
    var s' := Move(s, p, pc);
    ProcsChangeKeeps(s, s', p);
  }

  lemma UnlockedExitKeeps(s: Sys, p: Pid)
    requires Inv(s) && p in s.procs && !HoldsOwner(s.procs[p])
    ensures Inv(Exit(s, p))
  {
    hide Inv;
    ProcsChangeKeeps(s, Exit(s, p), p);
  }

  lemma ProcsChangeKeeps(s: Sys, s': Sys, p: Pid)
    requires Inv(s) && s' == s.(procs := s'.procs) && s'.procs - {p} == s.procs - {p}
    requires p in s.procs ==> !HoldsOwner(s.procs[p])
    requires p in s'.procs ==> !HoldsOwner(s'.procs[p]) && s'.procs[p].r in s.db.recs
    ensures Inv(s')
  {
    hide RowsFit, PcFits;
    forall r | r in s'.db.recs ensures RequestOk(s', r) {
      assert RequestOk(s, r);
    }
    forall q | q in s'.procs ensures PcOk(s', q) {
      OthersStay(s, s', p, q);
      if q != p {
        PcFrame(s, s', q);
      } else {
        UnlockedPcOk(s', p);
      }
    }
    forall key | key in s'.ops ensures OpOk(s', key) {
      assert OpOk(s, key);
    }
    forall r | r in s'.owners ensures OwnerOk(s', r) {
      assert OwnerOk(s, r);
      OthersStay(s, s', p, s.owners[r]);
    }
    forall r | r in s'.senders ensures SenderOk(s', r) {
      assert SenderOk(s, r);
      OthersStay(s, s', p, s.senders[r]);
    }
  }

  lemma OthersStay(s: Sys, s': Sys, p: Pid, q: Pid)
    requires s'.procs - {p} == s.procs - {p}
    ensures q != p ==> (q in s'.procs <==> q in s.procs)
    ensures q != p && q in s.procs ==> s'.procs[q] == s.procs[q]
  {
    assert q != p ==> (q in s'.procs <==> q in s'.procs - {p}) && (q in s.procs <==> q in s.procs - {p});
    assert q != p && q in s.procs ==> s'.procs[q] == (s'.procs - {p})[q] == (s.procs - {p})[q];
  }

  lemma UnlockedPcOk(s: Sys, p: Pid)
    requires p in s.procs && !HoldsOwner(s.procs[p]) && s.procs[p].r in s.db.recs
    ensures PcOk(s, p)
  {
  }

  lemma PcFrame(s: Sys, s': Sys, q: Pid)
    requires q in s.procs && PcOk(s, q) && q in s'.procs && s'.procs[q] == s.procs[q]
    requires s'.db == s.db && s'.owners == s.owners && s'.senders == s.senders && s'.ops == s.ops
    ensures PcOk(s', q)
  {
  }

  lemma OpFrame(s: Sys, s': Sys, r: RequestId)
    requires Inv(s) && s'.db == s.db && s'.ops == s.ops && s'.turns == s.turns
    ensures forall key: OpKey :: key in s'.ops && key.0 == r ==> OpOk(s', key)
  {
    forall key: OpKey | key in s'.ops && key.0 == r ensures OpOk(s', key) {
      assert OpOk(s, key);
    }
  }

  lemma NobodyOwns(s: Sys, p: Pid, r: RequestId)
    requires Inv(s) && r !in s.owners
    ensures Alone(s, p, r) && r !in s.senders
  {
    forall q | q in s.procs && q != p && s.procs[q].r == r ensures !HoldsOwner(s.procs[q]) {
      assert PcOk(s, q);
    }
    SendersOwn(s, r);
  }

  lemma SendersOwn(s: Sys, r: RequestId)
    requires Inv(s)
    ensures r in s.senders ==> r in s.owners && s.owners[r] == s.senders[r]
  {
    if r in s.senders {
      assert SenderOk(s, r) && PcOk(s, s.senders[r]);
    }
  }

  lemma TakeOwnerTouches(s: Sys, p: Pid, s': Sys)
    requires LifecycleStep(s, TakeOwner(p), s')
    ensures OnlyTouches(s, s', p, s.procs[p].r)
  {
  }

  lemma TakeOwnerKeeps(s: Sys, p: Pid, s': Sys)
    requires Inv(s) && LifecycleStep(s, TakeOwner(p), s')
    ensures Inv(s')
  {
    var r := s.procs[p].r;
    assert PcOk(s, p) && RequestOk(s, r);
    NobodyOwns(s, p, r);
    TakeOwnerTouches(s, p, s');
    OpFrame(s, s', r);
    TakenOwnerFits(s, p, s');
    StepOnOneRequest(s, s', p, r);
  }

  lemma TakenOwnerFits(s: Sys, p: Pid, s': Sys)
    requires LifecycleStep(s, TakeOwner(p), s') && PcOk(s, p) && RequestOk(s, s.procs[p].r)
    ensures RequestOk(s', s.procs[p].r) && PcOk(s', p) && OwnerOk(s', s.procs[p].r)
  {
  }

  /** The owner of a request ends, with or without its send lock, and frees what it holds. */
  lemma OwnerEndsKeeps(s: Sys, p: Pid, s': Sys)
    requires Inv(s) && p in s.procs && HoldsOwner(s.procs[p])
    requires EndedBy(s, p, s')
    ensures Inv(s')
  {
    var r := s.procs[p].r;
    assert PcOk(s, p) && RequestOk(s, r);
    OwnerIsAlone(s, p);
    SendLockIsTheOwners(s, p);
    EndTouches(s, p, s');
    OpFrame(s, s', r);
    assert RequestOk(s', r);
    StepOnOneRequest(s, s', p, r);
  }

  predicate EndedBy(s: Sys, p: Pid, s': Sys)
    requires p in s.procs
  {
    var r := s.procs[p].r;
    && s' == s.(procs := s.procs - {p}, owners := s.owners - {r},
                senders := if HoldsSend(s.procs[p]) then s.senders - {r} else s.senders)
  }

  lemma EndTouches(s: Sys, p: Pid, s': Sys)
    requires p in s.procs && EndedBy(s, p, s')
    ensures OnlyTouches(s, s', p, s.procs[p].r)
  {
  }

  lemma StagingFailsKeeps(s: Sys, p: Pid, s': Sys)
    requires Inv(s) && LifecycleStep(s, StagingFails(p), s')
    ensures Inv(s')
  {
    var r := s.procs[p].r;
    assert PcOk(s, p) && RequestOk(s, r);
    var rec := WithStatus(s.db.recs[r], Failed, s.clock);
    StatusWriteFits(s.db.recs[r], OpAt(s, (r, 1)), Failed, s.clock);
    UnlockedExitKeeps(s, p);
    RowWriteKeeps(Exit(s, p), r, rec);
    assert s' == WithRec(Exit(s, p), r, rec);
  }

  lemma LifecycleKeeps(s: Sys, act: LifecycleAct, s': Sys)
    requires Inv(s) && LifecycleStep(s, act, s')
    ensures Inv(s')
  {
    hide RowsFit, PcFits;
    match act
    case Create(p, r) =>
      CreateKeeps(s, r);
      var s0 := WithRec(s, r, NewRec(s.clock));
      UnlockedMoveKeeps(s0, p, Staging(r));
      assert s' == Move(s0, p, Staging(r));
    case CreateStaged(r) => CreateKeeps(s, r);
    case StagingFails(p) => StagingFailsKeeps(s, p, s');
    case StagingDone(p) =>
      assert PcOk(s, p);
      UnlockedMoveKeeps(s, p, Waiting(s.procs[p].r));
    case Start(p, r) => UnlockedMoveKeeps(s, p, Waiting(r));
    case StartRelease(p, r) => UnlockedMoveKeeps(s, p, WaitingToRelease(r));
    case GiveUp(p) => UnlockedExitKeeps(s, p);
    case TakeOwner(p) => TakeOwnerKeeps(s, p, s');
    case Leave(p) => OwnerEndsKeeps(s, p, s');
    case Crash(p) =>
      if HoldsOwner(s.procs[p]) {
        OwnerEndsKeeps(s, p, s');
      } else {
        UnlockedExitKeeps(s, p);
      }
  }

  // ------------------------------------------------------------------ daemons and the browser

  /** A call that is not over yet supports no claim, so whatever becomes of it every claim still holds. */
  predicate Moves(op: Option<SendOp>, op': Option<SendOp>) {
    op' == op || (op.Some? && op.value.phase != Ended && op'.Some?)
  }

  lemma MovesFit(pc: Pc, rec: Rec, first: Option<SendOp>, call: Option<SendOp>, first': Option<SendOp>, call': Option<SendOp>)
    requires PcFits(pc, rec, first, call) && Moves(first, first') && Moves(call, call')
    ensures PcFits(pc, rec, first', call')
  {
    if first' != first {
      assert !NeverLanded(first);
      assert forall url, baseline :: !LandsAt(first, url, baseline);
    }
  }

  lemma MovesRowsFit(rec: Rec, first: Option<SendOp>, first': Option<SendOp>)
    requires RowsFit(rec, first) && Moves(first, first')
    ensures RowsFit(rec, first')
  {
  }

  ghost predicate TurnsGrow(s: Sys, s': Sys) {
    forall url :: UserTurns(s, url) <= UserTurns(s', url)
  }

  /** Only the call `key`, the conversations and the history change. */
  lemma OpMoveKeeps(s: Sys, s': Sys, key: OpKey)
    requires Inv(s) && key in s.ops && s' == s.(ops := s'.ops, turns := s'.turns, landings := s'.landings)
    requires key in s'.ops && s'.ops == s.ops[key := s'.ops[key]]
    requires Moves(Some(s.ops[key]), Some(s'.ops[key])) && TurnsGrow(s, s')
    requires OpOk(s', key) && LandingsOk(s')
    ensures Inv(s')
  {
    assert forall k: OpKey :: Moves(OpAt(s, k), OpAt(s', k));
    forall r | r in s'.db.recs ensures RequestOk(s', r) {
      assert RequestOk(s, r);
      MovesRowsFit(s.db.recs[r], OpAt(s, (r, 1)), OpAt(s', (r, 1)));
    }
    forall p | p in s'.procs ensures PcOk(s', p) {
      assert PcOk(s, p);
      var pc := s.procs[p];
      MovesFit(pc, s.db.recs[pc.r], OpAt(s, (pc.r, 1)), OpAt(s, (pc.r, AttemptNo(pc))),
               OpAt(s', (pc.r, 1)), OpAt(s', (pc.r, AttemptNo(pc))));
    }
    forall k | k in s'.ops ensures OpOk(s', k) {
      assert k != key ==> OpOk(s, k);
    }
    LocksStay(s, s');
  }

  predicate ReplySound(call: SendOp, reply: Reply) {
    match reply
    case SentReply(_) => true
    case PreClickReply(_) => NeverLanded(Some(call))
    case UncertainReply(pending) => PendingSound(Some(call), pending)
  }

  /** An ended call answers its caller, if it still waits, with something that fits. */
  lemma DeliverKeeps(s: Sys, p: Pid, key: OpKey, reply: Reply)
    requires Inv(s) && key in s.ops && ReplySound(s.ops[key], reply)
    ensures Inv(Deliver(s, p, key, reply))
  {
    if At(s, p, Calling(key.0, key.1)) {
      var s' := Deliver(s, p, key, reply);
      assert PcOk(s, p) && RequestOk(s, key.0) && OwnerOk(s, key.0) && SenderOk(s, key.0);
      OwnerIsAlone(s, p);
      DeliverTouches(s, p, key, reply);
      DeliverFits(s, p, key, reply);
      OpFrame(s, s', key.0);
      StepOnOneRequest(s, s', p, key.0);
    }
  }

  lemma DeliverTouches(s: Sys, p: Pid, key: OpKey, reply: Reply)
    requires At(s, p, Calling(key.0, key.1))
    ensures OnlyTouches(s, Deliver(s, p, key, reply), p, key.0)
  {
  }

  lemma DeliverFits(s: Sys, p: Pid, key: OpKey, reply: Reply)
    requires At(s, p, Calling(key.0, key.1)) && key in s.ops && ReplySound(s.ops[key], reply)
    requires PcOk(s, p) && RequestOk(s, key.0)
    requires key.0 in s.owners && OwnerOk(s, key.0) && key.0 in s.senders && SenderOk(s, key.0)
    ensures var s' := Deliver(s, p, key, reply);
            RequestOk(s', key.0) && PcOk(s', p) && OwnerOk(s', key.0) && SenderOk(s', key.0)
  {
  }

  lemma EndKeeps(s: Sys, key: OpKey)
    requires Inv(s) && key in s.ops
    ensures Inv(s.(ops := s.ops[key := s.ops[key].(phase := Ended)]))
  {
    var s' := s.(ops := s.ops[key := s.ops[key].(phase := Ended)]);
    assert OpOk(s, key);
    OpMoveKeeps(s, s', key);
  }

  lemma AnswerKeeps(s: Sys, p: Pid, key: OpKey, reply: Reply)
    requires Inv(s) && key in s.ops && ReplySound(s.ops[key].(phase := Ended), reply)
    ensures Inv(Deliver(s, p, key, reply).(ops := s.ops[key := s.ops[key].(phase := Ended)]))
  {
    var s0 := s.(ops := s.ops[key := s.ops[key].(phase := Ended)]);
    EndKeeps(s, key);
    DeliverKeeps(s0, p, key, reply);
    assert Deliver(s0, p, key, reply) == Deliver(s, p, key, reply).(ops := s0.ops);
  }

  lemma LandKeeps(s: Sys, key: OpKey, url: Url, turn: TurnId, s': Sys)
    requires Inv(s) && WorldStep(s, OpLands(key, url, turn), s')
    ensures Inv(s')
  {
    assert OpOk(s, key);
    OpMoveKeeps(s, s', key);
  }

  lemma TouchKeeps(s: Sys, r: RequestId)
    requires Inv(s) && r in s.db.recs
    ensures Inv(WithRec(s, r, Touch(s.db.recs[r], s.clock)))
  {
    assert RequestOk(s, r);
    RowWriteKeeps(s, r, Touch(s.db.recs[r], s.clock));
  }

  lemma ClickKeeps(s: Sys, key: OpKey, page: Option<Url>, baseline: set<TurnId>, s': Sys)
    requires Inv(s) && WorldStep(s, OpClicks(key, page, baseline), s')
    ensures Inv(s')
  {
    assert OpOk(s, key);
    OpMoveKeeps(s, s', key);
  }

  lemma OpEndsKeep(s: Sys, act: WorldAct, s': Sys)
    requires act.OpFailsBeforeClick? || act.OpReturns? || act.OpFailsAfterClick? || act.OpDies?
    requires Inv(s) && WorldStep(s, act, s')
    ensures Inv(s')
  {
    assert OpOk(s, act.key);
    match act
    case OpFailsBeforeClick(key, p, kind) => AnswerKeeps(s, p, key, PreClickReply(kind));
    case OpReturns(key, p, result) => AnswerKeeps(s, p, key, SentReply(result));
    case OpFailsAfterClick(key, p, report) => AnswerKeeps(s, p, key, UncertainReply(Some(report)));
    case OpDies(key) => EndKeeps(s, key);
  }

  lemma WorldKeeps(s: Sys, act: WorldAct, s': Sys)
    requires Inv(s) && WorldStep(s, act, s')
    ensures Inv(s')
  {
    match act
    case TouchRow(r) => TouchKeeps(s, r);
    case MarkSlot(slot, row) => SlotsDoNotMatter(s, s.db.slots[slot := row]);
    case OpClicks(key, page, baseline) => ClickKeeps(s, key, page, baseline, s');
    case OpLands(key, url, turn) => LandKeeps(s, key, url, turn, s');
    case OtherTurn(url, turn) => QuietChangeKeeps(s, s');
    case Tick => QuietChangeKeeps(s, s');
    case _ => OpEndsKeep(s, act, s');
  }

  lemma QuietChangeKeeps(s: Sys, s': Sys)
    requires Inv(s) && s' == s.(clock := s'.clock, turns := s'.turns) && TurnsGrow(s, s')
    ensures Inv(s')
  {
    hide RowsFit, PcFits;
    forall r | r in s'.db.recs ensures RequestOk(s', r) {
      assert RequestOk(s, r);
    }
    forall p | p in s'.procs ensures PcOk(s', p) {
      assert PcOk(s, p);
    }
    forall key | key in s'.ops ensures OpOk(s', key) {
      assert OpOk(s, key);
    }
    LocksStay(s, s');
  }

  // ------------------------------------------------------------------ whole runs

  ghost predicate TurnsStay(s: Sys, s': Sys) {
    forall r :: r in s.db.recs ==> r in s'.db.recs && TurnsKept(s.db.recs[r], s'.db.recs[r])
  }

  ghost predicate AttemptsStay(s: Sys, s': Sys) {
    forall r :: r in s.db.recs ==> r in s'.db.recs && s'.db.recs[r].attempts == s.db.recs[r].attempts
  }

  lemma AttemptsStayTurnsStay(s: Sys, s': Sys)
    requires Inv(s) && AttemptsStay(s, s')
    ensures TurnsStay(s, s')
  {
    forall r | r in s.db.recs ensures TurnsKept(s.db.recs[r], s'.db.recs[r]) {
      assert RequestOk(s, r);
    }
  }

  lemma LifecycleAttemptsStay(s: Sys, act: LifecycleAct, s': Sys)
    requires LifecycleStep(s, act, s')
    ensures AttemptsStay(s, s')
  {
  }

  lemma WorldAttemptsStay(s: Sys, act: WorldAct, s': Sys)
    requires WorldStep(s, act, s')
    ensures AttemptsStay(s, s')
  {
  }

  /** Only the rows of request r change, and they keep their observed turns. */
  ghost predicate OneChanges(s: Sys, r: RequestId, s': Sys) {
    && r in s'.db.recs
    && (forall x :: x in s.db.recs && x != r ==> x in s'.db.recs && s'.db.recs[x] == s.db.recs[x])
  }

  lemma OneChangesTurnsStay(s: Sys, r: RequestId, s': Sys)
    requires Inv(s) && r in s.db.recs && OneChanges(s, r, s') && TurnsKept(RecOf(s, r), RecOf(s', r))
    ensures TurnsStay(s, s')
  {
    forall x | x in s.db.recs ensures TurnsKept(s.db.recs[x], s'.db.recs[x]) {
      assert RequestOk(s, x);
    }
  }

  lemma OwnerChangesOne(c: Scheduler.Config, s: Sys, p: Pid, act: OwnerAct, s': Sys)
    requires OwnerStep(c, s, p, act, s')
    ensures OneChanges(s, s.procs[p].r, s')
  {
    hide Scheduler.IsChoice, Coupled;
  }

  lemma SendChangesOne(s: Sys, p: Pid, act: SendAct, s': Sys)
    requires SendStep(s, p, act, s')
    ensures OneChanges(s, s.procs[p].r, s')
  {
    SendNextStays(s.procs[p], RecOf(s, s.procs[p].r), act, s.clock);
  }

  lemma RecoverChangesOne(s: Sys, p: Pid, act: RecoverAct, s': Sys)
    requires RecoverStep(s, p, act, s')
    ensures OneChanges(s, s.procs[p].r, s')
  {
    RecoverStaysLow(s.procs[p], RecOf(s, s.procs[p].r), act, s.clock);
  }

  lemma StepKeeps(c: Scheduler.Config, s: Sys, step: Step, s': Sys)
    requires Inv(s) && Next(c, s, step, s')
    ensures Inv(s') && TurnsStay(s, s')
  {
    match step
    case Lifecycle(act) =>
      LifecycleKeeps(s, act, s');
      LifecycleAttemptsStay(s, act, s');
      AttemptsStayTurnsStay(s, s');
    case ByOwner(p, act) =>
      OwnerKeeps(c, s, p, act, s');
      OwnerChangesOne(c, s, p, act, s');
      assert PcOk(s, p);
      OneChangesTurnsStay(s, s.procs[p].r, s');
    case BySender(p, act) =>
      SendKeeps(s, p, act, s');
      SendChangesOne(s, p, act, s');
      assert PcOk(s, p);
      OneChangesTurnsStay(s, s.procs[p].r, s');
    case ByRecovery(p, act) =>
      RecoverKeeps(s, p, act, s');
      RecoverChangesOne(s, p, act, s');
      assert PcOk(s, p);
      OneChangesTurnsStay(s, s.procs[p].r, s');
    case World(act) =>
      WorldKeeps(s, act, s');
      WorldAttemptsStay(s, act, s');
      AttemptsStayTurnsStay(s, s');
  }

  lemma {:induction false} RunKeeps(c: Scheduler.Config, states: seq<Sys>, steps: seq<Step>, n: nat)
    requires IsRun(c, states, steps) && n <= |steps|
    ensures Inv(states[n])
  {
    hide Next, Inv, Init;
    if n == 0 {
      InitEstablishes(states[0]);
    } else {
      RunKeeps(c, states, steps, n - 1);
      StepKeeps(c, states[n - 1], steps[n - 1], states[n]);
    }
  }

  /** No request is ever posted twice: any two landings in the history of a run are of different requests. */
  lemma AtMostOneLanding(c: Scheduler.Config, states: seq<Sys>, steps: seq<Step>, n: nat, i: nat, j: nat)
    requires IsRun(c, states, steps) && n <= |steps|
    requires i < j < |states[n].landings|
    ensures states[n].landings[i].r != states[n].landings[j].r
  {
    RunKeeps(c, states, steps, n);
    OneLandingPerRequest(states[n], i, j);
  }

  lemma LandedMeans(s: Sys, i: nat)
    requires Inv(s) && i < |s.landings|
    ensures var landing := s.landings[i];
            && landing.r in s.db.recs && 1 <= landing.no <= |s.db.recs[landing.r].attempts| <= 2
            && (landing.no == 1 ==> s.db.recs[landing.r].attempts[0].state != NoSendProven)
            && (|s.db.recs[landing.r].attempts| == 2 ==> s.db.recs[landing.r].attempts[0].state == NoSendProven)
  {
    var landing := s.landings[i];
    assert OpOk(s, (landing.r, landing.no)) && RequestOk(s, landing.r);
  }

  /** A second call means two attempts, so the first is proven not sent, so its call never landed. */
  lemma OneLandingPerRequest(s: Sys, i: nat, j: nat)
    requires Inv(s) && i < j < |s.landings|
    ensures s.landings[i].r != s.landings[j].r
  {
    LandedMeans(s, i);
    LandedMeans(s, j);
  }

  /** Status and attempts agree in every state of every run. */
  lemma CoupledAlways(c: Scheduler.Config, states: seq<Sys>, steps: seq<Step>, n: nat, r: RequestId)
    requires IsRun(c, states, steps) && n <= |steps| && r in states[n].db.recs
    ensures Coupled(states[n].db.recs[r])
  {
    RunKeeps(c, states, steps, n);
    assert RequestOk(states[n], r);
  }

  /** An observed turn belongs to the latest attempt, which is not disproved. */
  lemma ObservedIsLatest(s: Sys, r: RequestId, k: nat)
    requires Inv(s) && r in s.db.recs && k < |s.db.recs[r].attempts| && s.db.recs[r].attempts[k].userTurn.Some?
    ensures s.db.recs[r].attempts[k].state != NoSendProven && k == |s.db.recs[r].attempts| - 1
  {
    assert RequestOk(s, r);
  }

  /** A turn observed for an attempt stays with it for the rest of the run, and the attempt is never disproved. */
  lemma {:induction false} TurnsAreWriteOnce(
    c: Scheduler.Config, states: seq<Sys>, steps: seq<Step>, m: nat, n: nat, r: RequestId, k: nat)
    requires IsRun(c, states, steps) && m <= n <= |steps|
    requires r in states[m].db.recs && k < |states[m].db.recs[r].attempts|
    requires states[m].db.recs[r].attempts[k].userTurn.Some?
    ensures r in states[n].db.recs && k < |states[n].db.recs[r].attempts|
    ensures states[n].db.recs[r].attempts[k].userTurn == states[m].db.recs[r].attempts[k].userTurn
    ensures states[n].db.recs[r].attempts[k].state != NoSendProven
    ensures k == |states[n].db.recs[r].attempts| - 1
    decreases n - m
  {
    hide Next, Inv, Init;
    RunKeeps(c, states, steps, n);
    if m < n {
      TurnsAreWriteOnce(c, states, steps, m, n - 1, r, k);
      RunKeeps(c, states, steps, n - 1);
      StepKeeps(c, states[n - 1], steps[n - 1], states[n]);
    }
    ObservedIsLatest(states[n], r, k);
  }
}
