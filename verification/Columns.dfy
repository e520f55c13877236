// What each transaction writes, column by column. The functions of `Rows` are what the protocol
// steps by and what `Database` is proved against; here the columns they leave are written out.
module Columns {
  import opened Rows
  import opened ReconcileScan
  import opened SendProtocol

  /** Arming: one more attempt, and the request is sending without an error note. */
  lemma ArmWrites(rec: Rec, now: Time)
    ensures Arm(rec, now).Commit? <==>
              && rec.row.status == Staged && |rec.attempts| <= 1
              && (|rec.attempts| == 1 ==> rec.attempts[0].state == NoSendProven)
    ensures Arm(rec, now).Commit? ==>
      var tx := Arm(rec, now);
      && tx.answer == |rec.attempts| + 1
      && tx.rec.row == Request(Sending, rec.row.slot, rec.row.url, None, rec.row.createdAt, now)
      && tx.rec.attempts == rec.attempts + [Attempt(Armed, None, None)]
      && tx.rec.usage == rec.usage
  {
  }

  /** The usage row of a send: the first one of a request is kept, and there is none without a slot. */
  function UsageAfter(rec: Rec, now: Time): Option<Usage> {
    match rec.usage
    case Some(usage) => Some(usage)
    case None => match rec.row.slot
                 case Some(slot) => Some(Usage(slot, now))
                 case None => None
  }

  /** Confirming an armed attempt: its turns, the address of a request that is still sending, and the usage row. */
  lemma ConfirmWrites(rec: Rec, before: seq<Attempt>, armed: Attempt, result: SendResult, now: Time)
    requires rec.attempts == before + [armed] && armed.state == Armed
    ensures Confirm(rec, result, now).Commit?
    ensures var tx := Confirm(rec, result, now);
            && tx.answer == Confirmed
            && tx.rec.attempts == before + [Attempt(Confirmed, Some(result.userTurn), match result.assistantTurn
                                                                                      case Some(turn) => Some(turn)
                                                                                      case None => armed.assistantTurn)]
            && tx.rec.row == (if rec.row.status == Sending
                              then Request(Generating, rec.row.slot, Some(result.url), None, rec.row.createdAt, now)
                              else rec.row)
            && tx.rec.usage == UsageAfter(rec, now)
  {
  }

  /** Any other latest attempt stays as it is: a settled one is what was asked for, the rest is refused. */
  lemma ConfirmLeaves(rec: Rec, result: SendResult, now: Time)
    requires |rec.attempts| > 0 ==> rec.attempts[|rec.attempts| - 1].state != Armed
    ensures Confirm(rec, result, now) ==
              if |rec.attempts| > 0 && rec.attempts[|rec.attempts| - 1].state in {Confirmed, Reconciled}
              then Commit(rec, rec.attempts[|rec.attempts| - 1].state) else Abort
  {
  }

  /** A failure before the click writes the state of the attempt and nothing else. */
  lemma PreClickWrites(rec: Rec, before: seq<Attempt>, last: Attempt)
    requires rec.attempts == before + [last]
    ensures MarkPreClick(rec) ==
              match last.state
              case Armed => Commit(Rec(rec.row, before + [Attempt(NoSendProven, last.userTurn, last.assistantTurn)], rec.usage), NoSendProven)
              case SendUncertain => Abort
              case state => Commit(rec, state)
  {
  }

  /**
   * An uncertain send: the observed turn is kept in the attempt, the address only when the request had none, and
   * address and baseline go into the note from which a later reconcile starts.
   */
  lemma UncertainWrites(rec: Rec, before: seq<Attempt>, armed: Attempt, pending: Option<Pending>, now: Time)
    requires rec.attempts == before + [armed] && armed.state == Armed
    ensures MarkUncertain(rec, pending, now).Commit? <==> rec.row.status == Sending
    ensures MarkUncertain(rec, pending, now).Commit? ==>
      var tx := MarkUncertain(rec, pending, now);
      var seen := if pending.Some? then pending.value else Pending(None, None, None);
      && tx.answer == SendUncertain
      && tx.rec.attempts == before + [Attempt(SendUncertain, if seen.userTurn.Some? then seen.userTurn else armed.userTurn,
                                              armed.assistantTurn)]
      && tx.rec.row.status == Uncertain && tx.rec.row.slot == rec.row.slot
      && tx.rec.row.url == (if rec.row.url.Some? then rec.row.url else seen.url)
      && tx.rec.row.anchor == (if seen.url.None? && seen.baseline.None? then None else Some(SendAnchor(seen.url, seen.baseline)))
      && tx.rec.row.createdAt == rec.row.createdAt && tx.rec.row.updatedAt == now
      && tx.rec.usage == rec.usage
  {
  }

  lemma UncertainLeaves(rec: Rec, pending: Option<Pending>, now: Time)
    requires |rec.attempts| > 0 ==> rec.attempts[|rec.attempts| - 1].state != Armed
    ensures MarkUncertain(rec, pending, now) ==
              if |rec.attempts| > 0 && rec.attempts[|rec.attempts| - 1].state in {Confirmed, Reconciled, SendUncertain}
              then Commit(rec, rec.attempts[|rec.attempts| - 1].state) else Abort
  {
  }

  // ------------------------------------------------------------------ the verdict of a reconcile

  /** A verdict that names a turn of a conversation, and no other turn than the one observed before, if any. */
  predicate NamesTheTurn(read: Attempt, result: ReconcileResult) {
    && result.found && result.userTurn.Some? && result.url.Some? && result.url.value.Conversation?
    && (read.userTurn == None || read.userTurn == result.userTurn)
  }

  /** Found: the attempt is settled with the turns of the verdict, and an uncertain request generates at its address. */
  lemma FoundWrites(rec: Rec, no: nat, read: Attempt, result: ReconcileResult, now: Time)
    requires 1 <= no <= |rec.attempts| && rec.attempts[no - 1].state == SendUncertain && NamesTheTurn(read, result)
    ensures ApplyReconcile(rec, no, read, result, now).Commit?
    ensures var tx := ApplyReconcile(rec, no, read, result, now);
            && tx.answer == Found
            && tx.rec.attempts == rec.attempts[no - 1 := Attempt(Reconciled, result.userTurn, result.assistantTurn)]
            && tx.rec.row == (if rec.row.status == Uncertain
                              then Request(Generating, rec.row.slot, result.url, None, rec.row.createdAt, now)
                              else rec.row)
            && tx.rec.usage == UsageAfter(rec, now)
  {
  }

  /** Proven absent: the attempt is disproved; after the first one the request is staged again, after the second it needs the user. */
  lemma AbsenceWrites(rec: Rec, no: nat, read: Attempt, result: ReconcileResult, now: Time)
    requires 1 <= no <= |rec.attempts| && rec.attempts[no - 1].state in {SendUncertain, NoSendProven}
    requires !result.found && result.proven && read.userTurn == None
    ensures ApplyReconcile(rec, no, read, result, now).Commit?
    ensures var tx := ApplyReconcile(rec, no, read, result, now);
            var current := rec.attempts[no - 1];
            && tx.answer == (if no == 1 then RetrySend else Exhausted)
            && tx.rec.attempts == rec.attempts[no - 1 := Attempt(NoSendProven, current.userTurn, current.assistantTurn)]
            && tx.rec.row == (if rec.row.status == Uncertain
                              then Request(if no == 1 then Staged else NeedsUserAction, rec.row.slot, rec.row.url, None,
                                           rec.row.createdAt, now)
                              else rec.row)
            && tx.rec.usage == rec.usage
  {
  }

  /** Every other verdict leaves the rows alone. */
  lemma OtherVerdictsLeave(rec: Rec, no: nat, read: Attempt, result: ReconcileResult, now: Time)
    requires 1 <= no <= |rec.attempts|
    requires rec.attempts[no - 1].state == SendUncertain ==> !NamesTheTurn(read, result)
    requires rec.attempts[no - 1].state in {SendUncertain, NoSendProven} ==> result.found || !result.proven || read.userTurn.Some?
    ensures var state := rec.attempts[no - 1].state;
            ApplyReconcile(rec, no, read, result, now) ==
              // a verdict that contradicts the observed turn or cannot be bound decides nothing
              if result.found && !NamesTheTurn(read, result) then Commit(rec, Unproven)
              else if !result.found && read.userTurn.Some? then Commit(rec, Unproven)
              // nor does one that proves nothing, unless the attempt was settled when it was read
              else if !result.found && !result.proven then
                match read.state
                case Confirmed => Commit(rec, Found)
                case Reconciled => Commit(rec, Found)
                case SendUncertain => Commit(rec, Unproven)
                case _ => Abort
              // a verdict for an attempt that is settled meanwhile agrees, for any other it is refused
              else if state in {Confirmed, Reconciled} then Commit(rec, Found) else Abort
  {
  }

  // ------------------------------------------------------------------ the writes of a generating request

  /** The answer is re-bound exactly when all five guards hold, and nothing else is written. */
  lemma RebindWrites(rec: Rec, no: nat, userTurn: TurnId, expected: Option<TurnId>, observed: TurnId)
    requires 1 <= no <= |rec.attempts|
    ensures var current := rec.attempts[no - 1];
            RebindAssistant(rec, no, userTurn, expected, observed) ==
              if rec.row.status == Generating && current.state in {Confirmed, Reconciled} && current.userTurn == Some(userTurn)
                 && current.assistantTurn == expected && expected != Some(observed)
              then Rec(rec.row, rec.attempts[no - 1 := Attempt(current.state, Some(userTurn), Some(observed))], rec.usage)
              else rec
  {
  }

  /** The address moves to another conversation while the request generates, but never from a permanent to a temporary one. */
  lemma PointerMoves(rec: Rec, url: Url, now: Time)
    ensures MovePointer(rec, url, now) ==
              match url
              case OtherPage(_) => rec
              case Conversation(id, temporary) =>
                if rec.row.status != Generating || rec.row.url == Some(url) then rec
                else if temporary && rec.row.url.Some? && (rec.row.url.value.OtherPage? || !rec.row.url.value.temporary) then rec
                else Rec(Request(Generating, rec.row.slot, Some(url), rec.row.anchor, rec.row.createdAt, now), rec.attempts, rec.usage)
  {
  }

  /** The end of a generating request, and the writes that only note something. */
  lemma EndWrites(rec: Rec, status: Status, now: Time)
    ensures EndGenerating(rec, status, now) ==
              if rec.row.status == Generating
              then Rec(Request(status, rec.row.slot, rec.row.url, None, rec.row.createdAt, now), rec.attempts, rec.usage) else rec
    ensures NoteOnly(rec, now) ==
              Rec(Request(rec.row.status, rec.row.slot, rec.row.url, None, rec.row.createdAt, now), rec.attempts, rec.usage)
    ensures Touch(rec, now) ==
              if rec.row.status in {Sending, Generating, Uncertain}
              then Rec(Request(rec.row.status, rec.row.slot, rec.row.url, rec.row.anchor, rec.row.createdAt, now), rec.attempts, rec.usage)
              else rec
  {
  }

  /** A status write without a guard, and the two that give the slot back. */
  lemma StatusWrites(rec: Rec, status: Status, now: Time)
    ensures WithStatus(rec, status, now) ==
              Rec(Request(status, rec.row.slot, rec.row.url, None, rec.row.createdAt, now), rec.attempts, rec.usage)
    ensures ClearSlot(rec, now) ==
              Rec(Request(rec.row.status, None, rec.row.url, rec.row.anchor, rec.row.createdAt, now), rec.attempts, rec.usage)
    ensures Restage(rec, now) ==
              Rec(Request(Staged, None, rec.row.url, rec.row.anchor, rec.row.createdAt, now), rec.attempts, rec.usage)
    ensures NewRec(now) == Rec(Request(Staged, None, None, None, now, now), [], None)
  {
  }

  // ------------------------------------------------------------------ where the sender goes

  function StatusRow(rec: Rec, status: Status, now: Time): Rec {
    Rec(Request(status, rec.row.slot, rec.row.url, None, rec.row.createdAt, now), rec.attempts, rec.usage)
  }

  function RestagedRow(rec: Rec, now: Time): Rec {
    Rec(Request(Staged, None, rec.row.url, rec.row.anchor, rec.row.createdAt, now), rec.attempts, rec.usage)
  }

  /** Every section but three runs under the owner lock, and of those every one but five under the send lock as well. */
  lemma LocksByPlace(pc: Pc)
    ensures HoldsOwner(pc) <==> match pc
                                case Staging(_) => false
                                case Waiting(_) => false
                                case WaitingToRelease(_) => false
                                case _ => true
    ensures HoldsSend(pc) <==> HoldsOwner(pc) && match pc
                                                 case Owned(_) => false
                                                 case StagedSeen(_) => false
                                                 case Polling(_) => false
                                                 case Caught(_) => false
                                                 case OwnedToRelease(_) => false
                                                 case _ => true
  {
  }

  /** From each place outside the send lock: which of the owner's acts are possible, and what they lead to and write. */
  lemma OwnerLeads(pc: Pc, rec: Rec, act: OwnerAct, now: Time)
    requires pc.Owned? || pc.StagedSeen? || pc.Polling?
    ensures OwnerNext(pc, rec, act, now) ==
              match (pc, act)
              case (Owned(r), SeeStaged) => if rec.row.status == Staged then Some(Local(StagedSeen(r), rec)) else None
              case (Owned(r), SeeGenerating) => if rec.row.status == Generating then Some(Local(Polling(r), rec)) else None
              case (StagedSeen(r), Claim(slot, claimedAt, _)) =>
                if rec.row.status == Staged && rec.row.slot == None && claimedAt <= now
                then Some(Local(pc, Rec(Request(Staged, Some(slot), rec.row.url, rec.row.anchor, rec.row.createdAt, claimedAt), rec.attempts, rec.usage)))
                else None
              case (StagedSeen(r), AllLogin) => Some(Local(Owned(r), StatusRow(rec, NeedsUserAction, now)))
              case (StagedSeen(r), DropSlot) =>
                Some(Local(Owned(r), Rec(Request(rec.row.status, None, rec.row.url, rec.row.anchor, rec.row.createdAt, now), rec.attempts, rec.usage)))
              case (StagedSeen(r), FailStaged) => Some(Local(Owned(r), StatusRow(rec, Failed, now)))
              case (StagedSeen(r), Throw) => Some(Local(Caught(r), rec))
              case (Polling(r), MoveUrl(url)) => Some(Local(pc, MovePointer(rec, url, now)))
              case (Polling(r), Rebind(user, expected, observed)) =>
                if |rec.attempts| == 0 then None
                else Some(Local(pc, RebindAssistant(rec, |rec.attempts|, user, expected, observed)))
              case (Polling(r), FailPolling) => Some(Local(Owned(r), StatusRow(rec, Failed, now)))
              case _ => None
  {
  }

  /** The send up to its call: the slot held, staged under the lock, armed, called; and the call may be lost. */
  lemma SendLeads(pc: Pc, rec: Rec, act: SendAct, now: Time)
    requires act.TakeSend? || act.CheckSend? || act.ArmSend? || act.CallSend? || act.CallLost? || act.EndSend?
    ensures SendNext(pc, rec, act, now) ==
              match (pc, act)
              case (StagedSeen(r), TakeSend) =>
                (match rec.row.slot
                 case Some(slot) => Some(Local(SendLocked(r, slot), rec))
                 case None => None)
              case (SendLocked(r, slot), CheckSend) =>
                Some(Local(if rec.row.status == Staged && rec.row.slot == Some(slot) then Checked(r, slot) else SendEnding(r, false), rec))
              case (Checked(r, _), ArmSend) =>
                if rec.row.status == Staged && |rec.attempts| <= 1 && (|rec.attempts| == 1 ==> rec.attempts[0].state == NoSendProven)
                then Some(Local(ArmedToCall(r, |rec.attempts| + 1),
                                Rec(Request(Sending, rec.row.slot, rec.row.url, None, rec.row.createdAt, now),
                                    rec.attempts + [Attempt(Armed, None, None)], rec.usage)))
                else Some(Local(SendEnding(r, true), rec))
              case (ArmedToCall(r, no), CallSend) => Some(Local(Calling(r, no), rec))
              case (ArmedToCall(r, no), CallLost(report)) => LostCall(r, no, rec, report)
              case (Calling(r, no), CallLost(report)) => LostCall(r, no, rec, report)
              case (SendEnding(r, thrown), EndSend) => Some(Local(if thrown then Caught(r) else Owned(r), rec))
              case _ => None
  {
    ArmWrites(rec, now);
  }

  /** A lost call is answered by the caller itself, with the last report; no report has an address without a turn. */
  function LostCall(r: RequestId, no: nat, rec: Rec, report: Option<Pending>): Option<Local> {
    match report
    case Some(Pending(None, Some(_), _)) => None
    case _ => Some(Local(Returned(r, no, UncertainReply(report)), rec))
  }

  /** After a failure before the click the kind of the failure decides what becomes of the request. */
  lemma PreClickLeads(r: RequestId, no: nat, kind: PreClickKind, rec: Rec, now: Time)
    ensures SendNext(PreClickMarked(r, no, kind), rec, AfterPreClick, now) ==
              Some(Local(SendEnding(r, false), match kind
                                               case ModelUnavailable => StatusRow(rec, NeedsUserAction, now)
                                               case NeedsLogin => RestagedRow(rec, now)
                                               case ProviderLimit => RestagedRow(rec, now)
                                               case OtherPreClick => StatusRow(rec, Failed, now)))
  {
  }

  /** What a reply to the call of an armed attempt leaves: settled, disproved or uncertain. */
  lemma ReplyLeads(r: RequestId, no: nat, reply: Reply, rec: Rec, before: seq<Attempt>, armed: Attempt, last: Option<Pending>, now: Time)
    requires rec.attempts == before + [armed] && armed.state == Armed && FromProgress(last)
    ensures var next := SendNext(Returned(r, no, reply), rec, HandleReply(last), now);
            next.Some? &&
            match reply
            case SentReply(_) =>
              next.value.pc == SendEnding(r, false) && next.value.rec.attempts[|before|].state == Confirmed
            case PreClickReply(kind) =>
              next.value == Local(PreClickMarked(r, no, kind),
                                  Rec(rec.row, before + [Attempt(NoSendProven, armed.userTurn, armed.assistantTurn)], rec.usage))
            case UncertainReply(_) =>
              if rec.row.status == Sending
              then next.value.pc == SendEnding(r, false) && next.value.rec.attempts[|before|].state == SendUncertain
                   && next.value.rec.row.status == Uncertain
              else next.value == Local(SendEnding(r, true), rec)
  {
  }

  /** An error of the owner fails the request unless a send may be on its way. */
  lemma CatchLeads(r: RequestId, rec: Rec, now: Time)
    ensures OwnerNext(Caught(r), rec, Catch, now) ==
              Some(Local(Owned(r), if rec.row.status == Sending || rec.row.status == Uncertain then rec else StatusRow(rec, Failed, now)))
  {
  }

  /** The section of recovery up to the call, for each status and latest attempt. */
  lemma RecoveryLeads(r: RequestId, rec: Rec, matcher: Matcher, image: bool, now: Time)
    ensures var next := RecoverNext(Recovering(r), rec, Recover(matcher, image), now);
            var state: Option<AttemptState> := if |rec.attempts| == 0 then None else Some(rec.attempts[|rec.attempts| - 1].state);
            next.Some? &&
            match rec.row.status
            case Sending =>
              next.value == (if state == Some(Armed) then Local(Marking(r), rec)
                             else if state == Some(Confirmed) || state == Some(Reconciled) then Local(SendEnding(r, false), rec)
                             else Local(SendEnding(r, false), StatusRow(rec, Failed, now)))
            case Uncertain =>
              if state != Some(SendUncertain) then next.value == Local(SendEnding(r, false), StatusRow(rec, Failed, now))
              else if rec.row.slot == None then next.value == Local(SendEnding(r, false), rec)
              else next.value.pc.Reconciling? && next.value.pc.no == |rec.attempts| && next.value.rec == rec
                   && AsksFor(rec, matcher, image, next.value.pc.params)
            case _ => next.value == Local(SendEnding(r, false), rec)
  {
  }

  /** From recovery to the applied verdict, and the two other sections: what is possible where, and where it leads. */
  lemma VerdictLeads(pc: Pc, rec: Rec, act: RecoverAct, now: Time)
    requires !act.Recover? && !act.Finalize? && !act.ReleaseWrite?
    ensures RecoverNext(pc, rec, act, now) ==
              match (pc, act)
              case (Owned(r), TakeRecover) =>
                if rec.row.status == Sending || rec.row.status == Uncertain then Some(Local(Recovering(r), rec)) else None
              case (Marking(r), MarkRecovered) =>
                Some(match MarkUncertain(rec, None, now)
                     case Commit(after, _) => Local(Recovering(r), after)
                     case Abort => Local(SendEnding(r, false), rec))
              case (Recovering(r), RecoverThrows) => Some(Local(SendEnding(r, false), rec))
              case (Reconciling(r, _, _), RecoverThrows) => Some(Local(SendEnding(r, false), rec))
              case (Reconciling(r, no, params), Answer(browser)) => Some(Local(HasVerdict(r, no, ReconcileSend(params, browser)), rec))
              case (Reconciling(r, no, _), AnswerFromCache(verdict)) =>
                if verdict.found then Some(Local(HasVerdict(r, no, verdict), rec)) else None
              case (HasVerdict(r, _, verdict), ReadForApply) =>
                if |rec.attempts| == 0 then None
                else Some(Local(Applying(r, |rec.attempts|, rec.attempts[|rec.attempts| - 1], verdict), rec))
              case (Applying(r, no, read, verdict), Apply) =>
                if no == 0 || no > |rec.attempts| then None
                else Some(Local(SendEnding(r, false), match ApplyReconcile(rec, no, read, verdict, now)
                                                      case Commit(after, _) => after
                                                      case Abort => rec))
              case (Polling(r), TakeFinal) => Some(Local(Finalizing(r), rec))
              case (OwnedToRelease(r), TakeReleaseLock) => Some(Local(Releasing(r), rec))
              case _ => None
  {
    hide MarkUncertain, ApplyReconcile, ReconcileSend;
  }

  /** A reconcile asks with the stored turn, the stored address before that of the request, and the stored baseline. */
  predicate AsksFor(rec: Rec, matcher: Matcher, image: bool, params: Params)
    requires |rec.attempts| > 0
  {
    && params.pendingUserTurn == rec.attempts[|rec.attempts| - 1].userTurn
    && params.pendingUrl == (match rec.row.anchor
                             case Some(anchor) => if anchor.url.Some? then anchor.url else rec.row.url
                             case None => rec.row.url)
    && params.conversationUrl == (match rec.row.url
                                  case Some(Conversation(_, _)) => rec.row.url
                                  case _ => None)
    && params.query.baseline == (match rec.row.anchor
                                 case Some(SendAnchor(_, Some(baseline))) => baseline
                                 case _ => {})
    && params.query.matcher == matcher && params.query.image == image
  }

  /** The ends of a request: finalised, lacking images, given up, or released whatever its status. */
  lemma EndsLead(r: RequestId, rec: Rec, now: Time)
    ensures RecoverNext(Finalizing(r), rec, Finalize(Finished), now) ==
              Some(Local(SendEnding(r, false), if rec.row.status == Generating then StatusRow(rec, Status.Complete, now) else rec))
    ensures RecoverNext(Finalizing(r), rec, Finalize(GivenUp), now) ==
              Some(Local(SendEnding(r, false), if rec.row.status == Generating then StatusRow(rec, Failed, now) else rec))
    ensures RecoverNext(Finalizing(r), rec, Finalize(ImagesMissing), now) ==
              Some(Local(SendEnding(r, false), StatusRow(rec, rec.row.status, now)))
    ensures RecoverNext(Releasing(r), rec, ReleaseWrite, now) == Some(Local(SendEnding(r, false), StatusRow(rec, Failed, now)))
  {
  }
}
