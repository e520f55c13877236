// The rows of the supervisor database and the guarded updates that one transaction applies
// to the rows of one request. Identifiers and instants are natural numbers: the source only
// compares them.
module Rows {

  datatype Option<+T> = None | Some(value: T)

  type RequestId = nat
  type SlotId = nat
  type TurnId = nat
  type Time = nat

  /** A page address: a conversation (`/c/<id>`, possibly the temporary `/c/WEB:` form) or any other page. */
  datatype Url = Conversation(id: nat, temporary: bool) | OtherPage(id: nat)

  datatype Status = Staged | Sending | Generating | Complete | Uncertain | NeedsUserAction | Failed

  datatype AttemptState = Armed | Confirmed | Reconciled | NoSendProven | SendUncertain

  datatype Attempt = Attempt(state: AttemptState, userTurn: Option<TurnId>, assistantTurn: Option<TurnId>)

  /** What `error_detail` carries besides text once a send became uncertain. */
  datatype SendAnchor = SendAnchor(url: Option<Url>, baseline: Option<set<TurnId>>)

  datatype Request = Request(
    status: Status, slot: Option<SlotId>, url: Option<Url>, anchor: Option<SendAnchor>,
    createdAt: Time, updatedAt: Time)

  datatype Usage = Usage(slot: SlotId, sentAt: Time)

  /** A request row with its attempts in attempt_no order (attempt n is index n - 1) and its usage row. */
  datatype Rec = Rec(row: Request, attempts: seq<Attempt>, usage: Option<Usage>)

  datatype SlotState = Idle | NeedsLoginSlot | ProviderLimited

  datatype SlotRow = SlotRow(state: SlotState, cooldownUntil: Option<Time>, lastUsedAt: Option<Time>)

  datatype Db = Db(recs: map<RequestId, Rec>, slots: map<SlotId, SlotRow>)

  /** A transaction either commits new rows with an answer or throws and rolls back. */
  datatype Tx<+T> = Commit(rec: Rec, answer: T) | Abort

  datatype SendResult = SendResult(url: Url, userTurn: TurnId, assistantTurn: Option<TurnId>)

  /** The anchors a failed send may hand over. */
  datatype Pending = Pending(userTurn: Option<TurnId>, url: Option<Url>, baseline: Option<set<TurnId>>)

  datatype ReconcileResult = ReconcileResult(
    found: bool, proven: bool, url: Option<Url>, userTurn: Option<TurnId>, assistantTurn: Option<TurnId>)

  datatype Decision = Found | RetrySend | Exhausted | Unproven

  predicate IsConversation(url: Url) {
    url.Conversation?
  }

  predicate ActiveStatus(status: Status) {
    status in {Staged, Sending, Generating, Uncertain}
  }

  predicate TerminalStatus(status: Status) {
    status in {Complete, NeedsUserAction, Failed}
  }

  predicate Landed(state: AttemptState) {
    state in {Confirmed, Reconciled}
  }

  function Last(attempts: seq<Attempt>): Attempt
    requires |attempts| > 0
  {
    attempts[|attempts| - 1]
  }

  predicate SettledAsSent(attempts: seq<Attempt>) {
    |attempts| > 0 && Landed(Last(attempts).state)
  }

  function NewRec(now: Time): Rec {
    Rec(Request(Staged, None, None, None, now, now), [], None)
  }

  function WithStatus(rec: Rec, status: Status, now: Time): Rec {
    rec.(row := rec.row.(status := status, anchor := None, updatedAt := now))
  }

  function ClearSlot(rec: Rec, now: Time): Rec {
    rec.(row := rec.row.(slot := None, updatedAt := now))
  }

  /** The write after a pre-click login or limit failure: back to staged without a slot. */
  function Restage(rec: Rec, now: Time): Rec {
    rec.(row := rec.row.(status := Staged, slot := None, updatedAt := now))
  }

  /** `INSERT OR IGNORE` keyed by the request: only the first confirmed send is counted. */
  function RecordUsage(rec: Rec, now: Time): Rec {
    if rec.usage.None? && rec.row.slot.Some? then rec.(usage := Some(Usage(rec.row.slot.value, now))) else rec
  }

  function Arm(rec: Rec, now: Time): Tx<nat> {
    if |rec.attempts| >= 2 then Abort
    else if rec.row.status != Staged then Abort
    else if |rec.attempts| == 1 && rec.attempts[0].state != NoSendProven then Abort
    else
      Commit(
        WithStatus(rec, Sending, now).(attempts := rec.attempts + [Attempt(Armed, None, None)]),
        |rec.attempts| + 1)
  }

  function Confirm(rec: Rec, result: SendResult, now: Time): Tx<AttemptState> {
    if |rec.attempts| == 0 then Abort
    else
      var last := Last(rec.attempts);
      if last.state != Armed then
        if Landed(last.state) then Commit(rec, last.state) else Abort
      else
        var sent := last.(
          state := Confirmed,
          userTurn := Some(result.userTurn),
          assistantTurn := if result.assistantTurn.Some? then result.assistantTurn else last.assistantTurn);
        var row := if rec.row.status == Sending
                   then rec.row.(status := Generating, url := Some(result.url), anchor := None, updatedAt := now)
                   else rec.row;
        Commit(
          RecordUsage(Rec(row, rec.attempts[|rec.attempts| - 1 := sent], rec.usage), now),
          Confirmed)
  }

  function MarkPreClick(rec: Rec): Tx<AttemptState> {
    if |rec.attempts| == 0 then Abort
    else
      var last := Last(rec.attempts);
      if last.state == Armed then
        Commit(rec.(attempts := rec.attempts[|rec.attempts| - 1 := last.(state := NoSendProven)]), NoSendProven)
      else if last.state == NoSendProven || Landed(last.state) then Commit(rec, last.state)
      else Abort
  }

  function StoredAnchor(pending: Option<Pending>): Option<SendAnchor> {
    if pending.None? || (pending.value.url.None? && pending.value.baseline.None?) then None
    else Some(SendAnchor(pending.value.url, pending.value.baseline))
  }

  function MarkUncertain(rec: Rec, pending: Option<Pending>, now: Time): Tx<AttemptState> {
    if |rec.attempts| == 0 then Abort
    else
      var last := Last(rec.attempts);
      if last.state != Armed then
        if Landed(last.state) || last.state == SendUncertain then Commit(rec, last.state) else Abort
      else if rec.row.status != Sending then Abort
      else
        var turn := if pending.Some? && pending.value.userTurn.Some? then pending.value.userTurn else last.userTurn;
        var url := if rec.row.url.None? && pending.Some? then pending.value.url else rec.row.url;
        Commit(
          rec.(
            row := rec.row.(status := Uncertain, url := url, anchor := StoredAnchor(pending), updatedAt := now),
            attempts := rec.attempts[|rec.attempts| - 1 := last.(state := SendUncertain, userTurn := turn)]),
          SendUncertain)
  }

  /**
   * `no` and `read` are the attempt as it was read before the transaction started; `rec` is
   * what the transaction itself finds.
   */
  function ApplyReconcile(rec: Rec, no: nat, read: Attempt, result: ReconcileResult, now: Time): Tx<Decision>
    requires 1 <= no <= |rec.attempts|
  {
    var current := rec.attempts[no - 1];
    if read.userTurn.Some? && (!result.found || result.userTurn != read.userTurn) then Commit(rec, Unproven)
    else if result.found && (result.url.None? || result.userTurn.None? || !IsConversation(result.url.value)) then
      Commit(rec, Unproven)
    else if result.found then
      if current.state != SendUncertain then
        if Landed(current.state) then Commit(rec, Found) else Abort
      else
        var row := if rec.row.status == Uncertain
                   then rec.row.(status := Generating, url := result.url, anchor := None, updatedAt := now)
                   else rec.row;
        Commit(
          RecordUsage(
            Rec(row, rec.attempts[no - 1 := Attempt(Reconciled, result.userTurn, result.assistantTurn)], rec.usage),
            now),
          Found)
    else if !result.proven then
      if Landed(read.state) then Commit(rec, Found)
      else if read.state != SendUncertain then Abort
      else Commit(rec, Unproven)
    else if Landed(current.state) then Commit(rec, Found)
    else if current.state != SendUncertain && current.state != NoSendProven then Abort
    else
      var disproved := rec.(attempts := rec.attempts[no - 1 := current.(state := NoSendProven)]);
      var next := if no < 2 then Staged else NeedsUserAction;
      var answer := if no < 2 then RetrySend else Exhausted;
      Commit(if rec.row.status == Uncertain then WithStatus(disproved, next, now) else disproved, answer)
  }

  /** The assistant turn is re-bound only for the turn and answer the poller last saw. */
  function RebindAssistant(
    rec: Rec, no: nat, userTurn: TurnId, expected: Option<TurnId>, observed: TurnId): Rec
    requires 1 <= no <= |rec.attempts|
  {
    var current := rec.attempts[no - 1];
    if rec.row.status != Generating || !Landed(current.state) || current.userTurn != Some(userTurn)
       || current.assistantTurn != expected || current.assistantTurn == Some(observed)
    then rec
    else rec.(attempts := rec.attempts[no - 1 := current.(assistantTurn := Some(observed))])
  }

  function MovePointer(rec: Rec, url: Url, now: Time): Rec {
    if Some(url) == rec.row.url || !IsConversation(url) then rec
    else if url.temporary && rec.row.url.Some? && !(rec.row.url.value.Conversation? && rec.row.url.value.temporary)
    then rec
    else if rec.row.status != Generating then rec
    else rec.(row := rec.row.(url := Some(url), updatedAt := now))
  }

  /** The two guarded writes that end a generating request. */
  function EndGenerating(rec: Rec, status: Status, now: Time): Rec {
    if rec.row.status == Generating then WithStatus(rec, status, now) else rec
  }

  /** A write of the error columns alone. */
  function NoteOnly(rec: Rec, now: Time): Rec {
    rec.(row := rec.row.(anchor := None, updatedAt := now))
  }

  function Touch(rec: Rec, now: Time): Rec {
    if rec.row.status in {Sending, Generating, Uncertain} then rec.(row := rec.row.(updatedAt := now)) else rec
  }

  // ------------------------------------------------------------------ status and attempts agree

  /** How the status column and the attempt rows fit together in every reachable state. */
  predicate Coupled(rec: Rec) {
    var attempts := rec.attempts;
    && |attempts| <= 2
    && (|attempts| == 2 ==> attempts[0].state == NoSendProven)
    && (forall i :: 0 <= i < |attempts| && attempts[i].state == Armed ==> attempts[i].userTurn.None?)
    && (forall i :: 0 <= i < |attempts| && attempts[i].state == NoSendProven ==> attempts[i].userTurn.None?)
    && (|attempts| > 0 && Last(attempts).state != NoSendProven ==> rec.row.slot.Some?)
    && (rec.usage.Some? <==> SettledAsSent(attempts))
    && match rec.row.status {
         case Staged => AllDisproved(attempts)
         case Sending => |attempts| > 0 && Last(attempts).state in {Armed, NoSendProven}
         case Uncertain => |attempts| > 0 && Last(attempts).state == SendUncertain
         case Generating => SettledAsSent(attempts)
         case Complete => SettledAsSent(attempts)
         case NeedsUserAction => AllDisproved(attempts)
         case Failed => true
       }
  }

  predicate AllDisproved(attempts: seq<Attempt>) {
    forall i :: 0 <= i < |attempts| ==> attempts[i].state == NoSendProven
  }

  /** An observed user turn stays, and its attempt never counts as not sent. */
  predicate TurnsKept(before: Rec, after: Rec) {
    && |before.attempts| <= |after.attempts|
    && forall i :: 0 <= i < |before.attempts| && before.attempts[i].userTurn.Some? ==>
         && after.attempts[i].userTurn == before.attempts[i].userTurn
         && after.attempts[i].state != NoSendProven
  }

  /** What others leave of the rows of a request that is owned: at most its status is failed and its times move. */
  predicate Interfered(before: Rec, after: Rec) {
    && after.attempts == before.attempts && after.usage == before.usage
    && after.row.slot == before.row.slot && after.row.url == before.row.url
    && (after.row.status == before.row.status || after.row.status == Failed)
  }

  lemma InterferenceKeepsCoupling(before: Rec, after: Rec)
    requires Interfered(before, after) && Coupled(before)
    ensures Coupled(after) && TurnsKept(before, after)
  {
  }

  /** Arming does not look at the slot; the agreement needs one, which the sender has checked. */
  lemma ArmKeepsCoupling(rec: Rec, now: Time)
    requires Coupled(rec)
    ensures Arm(rec, now).Commit? <==> rec.row.status == Staged && |rec.attempts| < 2
    ensures Arm(rec, now).Commit? ==>
      var after := Arm(rec, now).rec;
      && (Coupled(after) <==> rec.row.slot.Some?) && TurnsKept(rec, after)
      && |after.attempts| == Arm(rec, now).answer == |rec.attempts| + 1
      && Last(after.attempts).state == Armed
      && after.attempts[..|rec.attempts|] == rec.attempts
  {
    if Arm(rec, now).Commit? {
      assert Last(Arm(rec, now).rec.attempts).state != NoSendProven;
    }
  }

  lemma ConfirmKeepsCoupling(rec: Rec, result: SendResult, now: Time)
    requires Coupled(rec)
    ensures Confirm(rec, result, now).Commit? <==>
              |rec.attempts| > 0 && (Last(rec.attempts).state == Armed || Landed(Last(rec.attempts).state))
    ensures Confirm(rec, result, now).Commit? ==>
      var after := Confirm(rec, result, now).rec;
      Coupled(after) && TurnsKept(rec, after) && after.usage.Some? && SettledAsSent(after.attempts)
  {
  }

  /** Only an armed attempt is disproved; one that is disproved or settled stays as it is. */
  lemma MarkPreClickKeepsCoupling(rec: Rec)
    requires Coupled(rec)
    ensures MarkPreClick(rec).Commit? <==> |rec.attempts| > 0 && Last(rec.attempts).state != SendUncertain
    ensures MarkPreClick(rec).Commit? ==>
      var after := MarkPreClick(rec).rec;
      && Coupled(after) && TurnsKept(rec, after) && MarkPreClick(rec).answer == Last(after.attempts).state
      && if Last(rec.attempts).state == Armed then AllDisproved(after.attempts) && after.row == rec.row else after == rec
  {
  }

  /** An armed attempt of a sending request becomes uncertain with it; an uncertain or settled one stays as it is. */
  lemma MarkUncertainKeepsCoupling(rec: Rec, pending: Option<Pending>, now: Time)
    requires Coupled(rec)
    ensures MarkUncertain(rec, pending, now).Commit? <==>
              |rec.attempts| > 0 && if Last(rec.attempts).state == Armed then rec.row.status == Sending
                                    else Last(rec.attempts).state != NoSendProven
    ensures MarkUncertain(rec, pending, now).Commit? ==>
      var after := MarkUncertain(rec, pending, now).rec;
      && Coupled(after) && TurnsKept(rec, after) && MarkUncertain(rec, pending, now).answer == Last(after.attempts).state
      && if Last(rec.attempts).state == Armed then after.row.status == Uncertain else after == rec
  {
  }

  lemma ApplyKeepsCoupling(rec: Rec, result: ReconcileResult, now: Time)
    requires Coupled(rec) && |rec.attempts| > 0 && Last(rec.attempts).state == SendUncertain
    ensures
      var tx := ApplyReconcile(rec, |rec.attempts|, Last(rec.attempts), result, now);
      && tx.Commit?
      && Coupled(tx.rec) && TurnsKept(rec, tx.rec)
      && (Last(tx.rec.attempts).state == NoSendProven ==>
            !result.found && result.proven && Last(rec.attempts).userTurn.None?)
  {
  }

  /**
   * The attempt is read before the transaction. Should another writer get in between, a proof of absence keeps
   * status and attempts in agreement exactly when the read attempt is still the latest one or the request is no
   * longer uncertain, and no turn was observed meanwhile. The owner lock is what rules the other cases out.
   */
  lemma StaleReadBreaksCoupling(rec: Rec, no: nat, read: Attempt, result: ReconcileResult, now: Time)
    requires Coupled(rec) && 1 <= no <= |rec.attempts|
    requires !result.found && result.proven && read.userTurn.None?
    requires ApplyReconcile(rec, no, read, result, now).Commit? && !Landed(rec.attempts[no - 1].state)
    ensures Coupled(ApplyReconcile(rec, no, read, result, now).rec) <==>
              && (no == |rec.attempts| || rec.row.status != Uncertain)
              && rec.attempts[no - 1].userTurn.None?
  {
    var after := ApplyReconcile(rec, no, read, result, now).rec;
    assert after.attempts[no - 1].state == NoSendProven && after.attempts[no - 1].userTurn == rec.attempts[no - 1].userTurn;
    if no < |rec.attempts| && rec.row.status == Uncertain {
      assert Last(after.attempts) == Last(rec.attempts) && after.row.status == Staged;
      assert after.attempts[|after.attempts| - 1].state == SendUncertain;
    }
  }

  /** Such a stale write is possible: the second attempt is uncertain when the first verdict is applied. */
  lemma StaleReadExample()
    ensures
      var row := Request(Uncertain, Some(0), None, None, 0, 0);
      var rec := Rec(row, [Attempt(NoSendProven, None, None), Attempt(SendUncertain, None, None)], None);
      var read := Attempt(SendUncertain, None, None);
      var tx := ApplyReconcile(rec, 1, read, ReconcileResult(false, true, None, None, None), 0);
      Coupled(rec) && tx.Commit? && !Coupled(tx.rec) && tx.rec.row.status == Staged && Arm(tx.rec, 0).Abort?
  {
    var row := Request(Uncertain, Some(0), None, None, 0, 0);
    var rec := Rec(row, [Attempt(NoSendProven, None, None), Attempt(SendUncertain, None, None)], None);
    var after := ApplyReconcile(rec, 1, Attempt(SendUncertain, None, None), ReconcileResult(false, true, None, None, None), 0).rec;
    assert after.attempts[1].state == SendUncertain;
  }
}
