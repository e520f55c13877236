// The send protocol as an interleaving of any number of processes over one database, with file
// locks that die with their holder, browser daemons, and conversations that record what landed.
//
// One step is one transaction, one lock operation, one message or one event in a browser. A
// process may crash and a daemon may die between any two steps.
module SendProtocol {
  import opened Rows
  import opened ReconcileScan
  import Scheduler

  type Pid = nat

  datatype PreClickKind = ModelUnavailable | NeedsLogin | ProviderLimit | OtherPreClick

  /** How the send call of one attempt came back. */
  datatype Reply =
    | SentReply(result: SendResult)
    | PreClickReply(kind: PreClickKind)
    | UncertainReply(pending: Option<Pending>)

  /** Where a process is. All but the first three hold the request's owner lock. */
  datatype Pc =
    | Staging(r: RequestId)
    | Waiting(r: RequestId)
    | WaitingToRelease(r: RequestId)
    | Owned(r: RequestId)
    | StagedSeen(r: RequestId)
    | Polling(r: RequestId)
    | Caught(r: RequestId)
    | OwnedToRelease(r: RequestId)
    // holding the send lock as well
    | SendLocked(r: RequestId, slot: SlotId)
    | Checked(r: RequestId, slot: SlotId)
    | ArmedToCall(r: RequestId, no: nat)
    | Calling(r: RequestId, no: nat)
    | Returned(r: RequestId, no: nat, reply: Reply)
    | PreClickMarked(r: RequestId, no: nat, kind: PreClickKind)
    | SendEnding(r: RequestId, thrown: bool)
    | Recovering(r: RequestId)
    | Marking(r: RequestId)
    | Reconciling(r: RequestId, no: nat, params: Params)
    | HasVerdict(r: RequestId, no: nat, verdict: ReconcileResult)
    | Applying(r: RequestId, no: nat, read: Attempt, verdict: ReconcileResult)
    | Finalizing(r: RequestId)
    | Releasing(r: RequestId)

  datatype Landing = Landing(r: RequestId, no: nat, url: Url, turn: TurnId)

  datatype Phase = Queued | Clicked | Ended

  /** The daemon's work on one send call; `page` is the conversation the tab was opened on, if any. */
  datatype SendOp = SendOp(phase: Phase, page: Option<Url>, baseline: set<TurnId>, landed: Option<Landing>)

  type OpKey = (RequestId, nat)

  datatype Sys = Sys(
    clock: Time,
    db: Db,
    procs: map<Pid, Pc>,
    owners: map<RequestId, Pid>,
    senders: map<RequestId, Pid>,
    ops: map<OpKey, SendOp>,
    turns: map<Url, set<TurnId>>,
    landings: seq<Landing>)

  predicate HoldsOwner(pc: Pc) {
    !pc.Staging? && !pc.Waiting? && !pc.WaitingToRelease?
  }

  predicate HoldsSend(pc: Pc) {
    || pc.SendLocked? || pc.Checked? || pc.ArmedToCall? || pc.Calling? || pc.Returned? || pc.PreClickMarked?
    || pc.SendEnding? || pc.Recovering? || pc.Marking? || pc.Reconciling? || pc.HasVerdict? || pc.Applying? || pc.Finalizing?
    || pc.Releasing?
  }

  function UserTurns(s: Sys, url: Url): set<TurnId> {
    if url in s.turns then s.turns[url] else {}
  }

  predicate At(s: Sys, p: Pid, pc: Pc) {
    p in s.procs && s.procs[p] == pc
  }

  function Move(s: Sys, p: Pid, pc: Pc): Sys {
    s.(procs := s.procs[p := pc])
  }

  function Exit(s: Sys, p: Pid): Sys {
    s.(procs := s.procs - {p})
  }

  function WithRec(s: Sys, r: RequestId, rec: Rec): Sys {
    s.(db := s.db.(recs := s.db.recs[r := rec]))
  }

  function FreeOwner(s: Sys, r: RequestId): Sys {
    s.(owners := s.owners - {r})
  }

  function FreeSend(s: Sys, r: RequestId): Sys {
    s.(senders := s.senders - {r})
  }

  // ------------------------------------------------------------------ what the environment may do

  /**
   * A conversation tab that shows any turn shows all its user turns, and opening a conversation
   * address leads to that conversation or to no conversation.
   */
  predicate Faithful(s: Sys, browser: Browser) {
    && (forall page :: page in browser.tabs ==> Complete(s, page))
    && (forall url :: url in browser.reached ==>
          && Complete(s, browser.reached[url])
          && (IsConversation(browser.reached[url].url) ==> browser.reached[url].url == url))
  }

  predicate Complete(s: Sys, page: Page) {
    IsConversation(page.url) && page.turns.Some? && page.turns.value != [] ==>
      forall turn :: turn in UserTurns(s, page.url) ==>
        exists k :: 0 <= k < |page.turns.value| && page.turns.value[k].user && page.turns.value[k].id == turn
  }

  /** Progress reports carry a conversation address only together with the turn seen there. */
  predicate FromProgress(pending: Option<Pending>) {
    pending.Some? && pending.value.url.Some? ==> pending.value.userTurn.Some?
  }

  function BaselineOf(row: Request): set<TurnId> {
    if row.anchor.Some? && row.anchor.value.baseline.Some? then row.anchor.value.baseline.value else {}
  }

  /** The parameters of a reconcile call, from the rows. */
  function ParamsOf(rec: Rec, matcher: Matcher, image: bool): Params
    requires |rec.attempts| > 0
  {
    Params(
      Query(matcher, image, BaselineOf(rec.row)),
      Last(rec.attempts).userTurn,
      if rec.row.anchor.Some? && rec.row.anchor.value.url.Some? then rec.row.anchor.value.url else rec.row.url,
      if rec.row.url.Some? && IsConversation(rec.row.url.value) then rec.row.url else None)
  }

  // ------------------------------------------------------------------ steps

  datatype LifecycleAct =
    | Create(p: Pid, r: RequestId) | CreateStaged(r: RequestId)
    | StagingFails(p: Pid) | StagingDone(p: Pid)
    | Start(p: Pid, r: RequestId) | StartRelease(p: Pid, r: RequestId) | GiveUp(p: Pid)
    | TakeOwner(p: Pid) | Leave(p: Pid) | Crash(p: Pid)

  /** What the owner does between taking and leaving the send lock. */
  datatype OwnerAct =
    | SeeStaged | SeeGenerating
    | Claim(slot: SlotId, now: Time, excluded: set<SlotId>)
    | AllLogin | DropSlot | FailStaged | Throw | Catch
    | MoveUrl(url: Url) | Rebind(user: TurnId, expected: Option<TurnId>, observed: TurnId) | FailPolling

  datatype SendAct =
    | TakeSend | CheckSend | ArmSend | CallSend
    | CallLost(pending: Option<Pending>) | HandleReply(pending: Option<Pending>)
    | AfterPreClick | EndSend

  /** How a finalisation ends; an image request that lacks images stays as it is and is noted as incomplete. */
  datatype Ending = Finished | ImagesMissing | GivenUp

  datatype RecoverAct =
    | TakeRecover | Recover(matcher: Matcher, image: bool) | MarkRecovered | RecoverThrows
    | Answer(browser: Browser) | AnswerFromCache(verdict: ReconcileResult)
    | ReadForApply | Apply | TakeFinal | Finalize(ending: Ending) | TakeReleaseLock | ReleaseWrite

  /** Daemons, the browser, the reaper's touch, slot probes and the clock. */
  datatype WorldAct =
    | TouchRow(r: RequestId) | MarkSlot(slot: SlotId, row: SlotRow)
    | OpFailsBeforeClick(key: OpKey, p: Pid, kind: PreClickKind)
    | OpClicks(key: OpKey, page: Option<Url>, baseline: set<TurnId>)
    | OpLands(key: OpKey, url: Url, turn: TurnId)
    | OpReturns(key: OpKey, p: Pid, result: SendResult)
    | OpFailsAfterClick(key: OpKey, p: Pid, report: Pending)
    | OpDies(key: OpKey)
    | OtherTurn(url: Url, turn: TurnId) | Tick

  datatype Step =
    | Lifecycle(lifecycle: LifecycleAct)
    | ByOwner(p: Pid, own: OwnerAct)
    | BySender(p: Pid, send: SendAct)
    | ByRecovery(p: Pid, recover: RecoverAct)
    | World(world: WorldAct)

  function RecOf(s: Sys, r: RequestId): Rec {
    if r in s.db.recs then s.db.recs[r] else NewRec(0)
  }

  /** The answer of a daemon reaches the caller unless the caller is gone. */
  function Deliver(s: Sys, p: Pid, key: OpKey, reply: Reply): Sys {
    if At(s, p, Calling(key.0, key.1)) then Move(s, p, Returned(key.0, key.1, reply)) else s
  }

  predicate LifecycleStep(s: Sys, act: LifecycleAct, s': Sys) {
    match act
    case Create(p, r) =>
      p !in s.procs && r !in s.db.recs && s' == WithRec(Move(s, p, Staging(r)), r, NewRec(s.clock))
    case CreateStaged(r) => r !in s.db.recs && s' == WithRec(s, r, NewRec(s.clock))
    case StagingFails(p) =>
      p in s.procs && s.procs[p].Staging? &&
      var r := s.procs[p].r;
      s' == WithRec(Exit(s, p), r, WithStatus(RecOf(s, r), Failed, s.clock))
    case StagingDone(p) => p in s.procs && s.procs[p].Staging? && s' == Move(s, p, Waiting(s.procs[p].r))
    case Start(p, r) => p !in s.procs && r in s.db.recs && s' == Move(s, p, Waiting(r))
    case StartRelease(p, r) => p !in s.procs && r in s.db.recs && s' == Move(s, p, WaitingToRelease(r))
    case GiveUp(p) => p in s.procs && !HoldsOwner(s.procs[p]) && s' == Exit(s, p)
    case TakeOwner(p) =>
      p in s.procs && (s.procs[p].Waiting? || s.procs[p].WaitingToRelease?) &&
      var r := s.procs[p].r;
      && r !in s.owners
      && s' == Move(s, p, if s.procs[p].Waiting? then Owned(r) else OwnedToRelease(r)).(owners := s.owners[r := p])
    case Leave(p) =>
      p in s.procs && HoldsOwner(s.procs[p]) && !HoldsSend(s.procs[p]) && s' == FreeOwner(Exit(s, p), s.procs[p].r)
    case Crash(p) =>
      p in s.procs &&
      var pc := s.procs[p];
      var gone := Exit(s, p);
      var unowned := if HoldsOwner(pc) then FreeOwner(gone, pc.r) else gone;
      s' == if HoldsSend(pc) then FreeSend(unowned, pc.r) else unowned
  }

  /** Where a process goes next and what it leaves in the rows of its request. */
  datatype Local = Local(pc: Pc, rec: Rec)

  function OwnerNext(pc: Pc, rec: Rec, act: OwnerAct, now: Time): Option<Local> {
    var r := pc.r;
    match act
    case SeeStaged => if pc.Owned? && rec.row.status == Staged then Some(Local(StagedSeen(r), rec)) else None
    case SeeGenerating => if pc.Owned? && rec.row.status == Generating then Some(Local(Polling(r), rec)) else None
    case Claim(slot, claimedAt, _) =>
      if pc.StagedSeen? && rec.row.status == Staged && rec.row.slot.None? && claimedAt <= now
      then Some(Local(pc, Scheduler.ClaimRec(rec, slot, claimedAt))) else None
    case AllLogin =>
      if pc.StagedSeen? then Some(Local(Owned(r), WithStatus(rec, NeedsUserAction, now))) else None
    case DropSlot => if pc.StagedSeen? then Some(Local(Owned(r), ClearSlot(rec, now))) else None
    case FailStaged => if pc.StagedSeen? then Some(Local(Owned(r), WithStatus(rec, Failed, now))) else None
    case Throw => if pc.StagedSeen? then Some(Local(Caught(r), rec)) else None
    case Catch =>
      if !pc.Caught? then None
      else if rec.row.status in {Sending, Uncertain} then Some(Local(Owned(r), rec))
      else Some(Local(Owned(r), WithStatus(rec, Failed, now)))
    case MoveUrl(url) => if pc.Polling? then Some(Local(pc, MovePointer(rec, url, now))) else None
    case Rebind(user, expected, observed) =>
      if pc.Polling? && |rec.attempts| > 0
      then Some(Local(pc, RebindAssistant(rec, |rec.attempts|, user, expected, observed))) else None
    case FailPolling => if pc.Polling? then Some(Local(Owned(r), WithStatus(rec, Failed, now))) else None
  }

  function SendNext(pc: Pc, rec: Rec, act: SendAct, now: Time): Option<Local> {
    var r := pc.r;
    match act
    case TakeSend =>
      if pc.StagedSeen? && rec.row.slot.Some? then Some(Local(SendLocked(r, rec.row.slot.value), rec)) else None
    case CheckSend =>
      if !pc.SendLocked? then None
      else if rec.row.status == Staged && rec.row.slot == Some(pc.slot) then Some(Local(Checked(r, pc.slot), rec))
      else Some(Local(SendEnding(r, false), rec))
    case ArmSend =>
      if !pc.Checked? then None
      else
        var tx := Arm(rec, now);
        if tx.Commit? then Some(Local(ArmedToCall(r, tx.answer), tx.rec)) else Some(Local(SendEnding(r, true), rec))
    case CallSend => if pc.ArmedToCall? then Some(Local(Calling(r, pc.no), rec)) else None
    case CallLost(pending) =>
      if (pc.ArmedToCall? || pc.Calling?) && FromProgress(pending)
      then Some(Local(Returned(r, pc.no, UncertainReply(pending)), rec)) else None
    case HandleReply(pending) =>
      if pc.Returned? && FromProgress(pending) then Some(ReplyNext(pc, rec, pending, now)) else None
    case AfterPreClick =>
      if !pc.PreClickMarked? then None
      else
        var next := match pc.kind
                    case ModelUnavailable => WithStatus(rec, NeedsUserAction, now)
                    case NeedsLogin => Restage(rec, now)
                    case ProviderLimit => Restage(rec, now)
                    case OtherPreClick => WithStatus(rec, Failed, now);
        Some(Local(SendEnding(r, false), next))
    case EndSend => if pc.SendEnding? then Some(Local(if pc.thrown then Caught(r) else Owned(r), rec)) else None
  }

  /** What the sender does with the outcome of its call. */
  function ReplyNext(pc: Pc, rec: Rec, pending: Option<Pending>, now: Time): Local
    requires pc.Returned?
  {
    var r := pc.r;
    match pc.reply
    case SentReply(result) =>
      var tx := Confirm(rec, result, now);
      if tx.Commit? then Local(SendEnding(r, false), tx.rec)
      else Local(Returned(r, pc.no, UncertainReply(pending)), rec)
    case PreClickReply(kind) =>
      var tx := MarkPreClick(rec);
      if tx.Abort? then Local(SendEnding(r, true), rec)
      else if tx.answer == NoSendProven then Local(PreClickMarked(r, pc.no, kind), tx.rec)
      else Local(SendEnding(r, false), tx.rec)
    case UncertainReply(own) =>
      var tx := MarkUncertain(rec, own, now);
      if tx.Commit? then Local(SendEnding(r, false), tx.rec) else Local(SendEnding(r, true), rec)
  }

  function RecoverNext(pc: Pc, rec: Rec, act: RecoverAct, now: Time): Option<Local> {
    var r := pc.r;
    match act
    case TakeRecover =>
      if pc.Owned? && rec.row.status in {Sending, Uncertain} then Some(Local(Recovering(r), rec)) else None
    case Recover(matcher, image) =>
      if pc.Recovering? then Some(RecoveringNext(pc, rec, matcher, image, now)) else None
    // the update throws when the creator failed the request after its status was read
    case MarkRecovered =>
      if !pc.Marking? then None
      else
        var tx := MarkUncertain(rec, None, now);
        if tx.Commit? then Some(Local(Recovering(r), tx.rec)) else Some(Local(SendEnding(r, false), rec))
    case RecoverThrows => if pc.Recovering? || pc.Reconciling? then Some(Local(SendEnding(r, false), rec)) else None
    case Answer(browser) =>
      if pc.Reconciling? then Some(Local(HasVerdict(r, pc.no, ReconcileSend(pc.params, browser)), rec)) else None
    case AnswerFromCache(verdict) =>
      if pc.Reconciling? && verdict.found then Some(Local(HasVerdict(r, pc.no, verdict), rec)) else None
    case ReadForApply =>
      if pc.HasVerdict? && |rec.attempts| > 0
      then Some(Local(Applying(r, |rec.attempts|, Last(rec.attempts), pc.verdict), rec)) else None
    case Apply =>
      if !pc.Applying? || !(1 <= pc.no <= |rec.attempts|) then None
      else
        var tx := ApplyReconcile(rec, pc.no, pc.read, pc.verdict, now);
        Some(Local(SendEnding(r, false), if tx.Commit? then tx.rec else rec))
    case TakeFinal => if pc.Polling? then Some(Local(Finalizing(r), rec)) else None
    case Finalize(ending) =>
      if pc.Finalizing? then Some(Local(SendEnding(r, false), EndedAs(rec, ending, now))) else None
    case TakeReleaseLock => if pc.OwnedToRelease? then Some(Local(Releasing(r), rec)) else None
    case ReleaseWrite =>
      if pc.Releasing? then Some(Local(SendEnding(r, false), WithStatus(rec, Failed, now))) else None
  }

  function EndedAs(rec: Rec, ending: Ending, now: Time): Rec {
    match ending
    case Finished => EndGenerating(rec, Status.Complete, now)
    case ImagesMissing => NoteOnly(rec, now)
    case GivenUp => EndGenerating(rec, Failed, now)
  }

  /** The body of recoverSendState up to the reconcile call. */
  function RecoveringNext(pc: Pc, rec: Rec, matcher: Matcher, image: bool, now: Time): Local
    requires pc.Recovering?
  {
    var r := pc.r;
    var leave := Local(SendEnding(r, false), rec);
    var fail := Local(SendEnding(r, false), WithStatus(rec, Failed, now));
    if rec.row.status == Sending then
      if |rec.attempts| > 0 && Last(rec.attempts).state == Armed then Local(Marking(r), rec)
      else if SettledAsSent(rec.attempts) then leave
      else fail
    else if rec.row.status == Uncertain then
      if |rec.attempts| == 0 || Last(rec.attempts).state != SendUncertain then fail
      else if rec.row.slot.None? then leave
      else Local(Reconciling(r, |rec.attempts|, ParamsOf(rec, matcher, image)), rec)
    else leave
  }

  /** The send lock follows the process: taken on entering a section that needs it, freed on leaving. */
  function Goto(s: Sys, p: Pid, next: Local): Sys {
    var r := next.pc.r;
    Move(WithRec(s, r, next.rec), p, next.pc)
      .(senders := if HoldsSend(next.pc) then s.senders[r := p] else s.senders - {r})
  }

  predicate LocalStep(s: Sys, p: Pid, next: Option<Local>, s': Sys) {
    && p in s.procs && next.Some?
    && (!HoldsSend(s.procs[p]) && HoldsSend(next.value.pc) ==> s.procs[p].r !in s.senders)
    && s' == Goto(s, p, next.value)
  }

  predicate OwnerStep(c: Scheduler.Config, s: Sys, p: Pid, act: OwnerAct, s': Sys) {
    && p in s.procs
    && var r := s.procs[p].r;
    var next := OwnerNext(s.procs[p], RecOf(s, r), act, s.clock);
    if act.Claim? then
      && Scheduler.IsChoice(s.db, c, act.slot, act.now, act.excluded)
      && var used := s.db.slots[act.slot].(lastUsedAt := Some(act.now));
      LocalStep(s.(db := s.db.(slots := s.db.slots[act.slot := used])), p, next, s')
    else LocalStep(s, p, next, s')
  }

  predicate SendStep(s: Sys, p: Pid, act: SendAct, s': Sys) {
    && p in s.procs
    && var r := s.procs[p].r;
    var next := SendNext(s.procs[p], RecOf(s, r), act, s.clock);
    if act.CallSend? then
      && s.procs[p].ArmedToCall?
      && LocalStep(s.(ops := s.ops[(r, s.procs[p].no) := SendOp(Queued, None, {}, None)]), p, next, s')
    else LocalStep(s, p, next, s')
  }

  predicate RecoverStep(s: Sys, p: Pid, act: RecoverAct, s': Sys) {
    && p in s.procs
    && (act.Answer? ==> Faithful(s, act.browser))
    && LocalStep(s, p, RecoverNext(s.procs[p], RecOf(s, s.procs[p].r), act, s.clock), s')
  }

  predicate WorldStep(s: Sys, act: WorldAct, s': Sys) {
    match act
    case TouchRow(r) => r in s.db.recs && s' == WithRec(s, r, Touch(s.db.recs[r], s.clock))
    case MarkSlot(slot, row) => slot in s.db.slots && s' == s.(db := s.db.(slots := s.db.slots[slot := row]))
    case OpFailsBeforeClick(key, p, kind) =>
      && key in s.ops && s.ops[key].phase == Queued
      && s' == Deliver(s, p, key, PreClickReply(kind)).(ops := s.ops[key := s.ops[key].(phase := Ended)])
    case OpClicks(key, page, baseline) =>
      && key in s.ops && s.ops[key].phase == Queued
      && s' == s.(ops := s.ops[key := SendOp(Clicked, page, baseline, None)])
    case OpLands(key, url, turn) =>
      key in s.ops &&
      var op := s.ops[key];
      && op.phase == Clicked && op.landed.None? && IsConversation(url)
      && (op.page.Some? ==> url == op.page.value) && turn !in op.baseline
      && var landing := Landing(key.0, key.1, url, turn);
      s' == s.(ops := s.ops[key := op.(landed := Some(landing))],
               turns := s.turns[url := UserTurns(s, url) + {turn}],
               landings := s.landings + [landing])
    case OpReturns(key, p, result) =>
      && key in s.ops && s.ops[key].phase == Clicked
      && s' == Deliver(s, p, key, SentReply(result)).(ops := s.ops[key := s.ops[key].(phase := Ended)])
    case OpFailsAfterClick(key, p, report) =>
      key in s.ops &&
      var op := s.ops[key];
      && op.phase == Clicked && report.baseline == Some(op.baseline)
      // the tab is in its own conversation
      && (op.landed.Some? && report.url.Some? && IsConversation(report.url.value) ==>
            report.url.value == op.landed.value.url)
      && s' == Deliver(s, p, key, UncertainReply(Some(report))).(ops := s.ops[key := op.(phase := Ended)])
    case OpDies(key) => key in s.ops && s' == s.(ops := s.ops[key := s.ops[key].(phase := Ended)])
    case OtherTurn(url, turn) => s' == s.(turns := s.turns[url := UserTurns(s, url) + {turn}])
    case Tick => s' == s.(clock := s.clock + 1)
  }

  predicate Next(c: Scheduler.Config, s: Sys, step: Step, s': Sys) {
    match step
    case Lifecycle(act) => LifecycleStep(s, act, s')
    case ByOwner(p, act) => OwnerStep(c, s, p, act, s')
    case BySender(p, act) => SendStep(s, p, act, s')
    case ByRecovery(p, act) => RecoverStep(s, p, act, s')
    case World(act) => WorldStep(s, act, s')
  }

  predicate Init(s: Sys) {
    && s.db.recs == map[] && s.procs == map[] && s.owners == map[] && s.senders == map[]
    && s.ops == map[] && s.turns == map[] && s.landings == []
  }

  /** A run: states joined by steps. */
  predicate IsRun(c: Scheduler.Config, states: seq<Sys>, steps: seq<Step>) {
    && |states| == |steps| + 1
    && Init(states[0])
    && forall i :: 0 <= i < |steps| ==> Next(c, states[i], steps[i], states[i + 1])
  }
}
