// The supervisor database as tables, and the transactions on them statement by statement. Each
// is proved against the function on one request's rows that the protocol model steps by.
module Database {
  import opened Rows
  import opened Scheduler

  type AttemptKey = (RequestId, nat)

  const PROVIDER_COOLDOWN_MS: nat := 3 * 60 * 1000

  /** The attempts of a request in order. */
  function AttemptRows(attempts: map<AttemptKey, Attempt>, id: RequestId): seq<Attempt> {
    if (id, 1) !in attempts then []
    else if (id, 2) !in attempts then [attempts[(id, 1)]]
    else [attempts[(id, 1)], attempts[(id, 2)]]
  }

  ghost predicate Numbered(attempts: map<AttemptKey, Attempt>, ids: set<RequestId>) {
    forall key :: key in attempts ==> key.0 in ids && (key.1 == 1 || (key.1 == 2 && (key.0, 1) in attempts))
  }

  /** Writing or adding one attempt row, seen as the list of attempts. */
  lemma AttemptWritten(attempts: map<AttemptKey, Attempt>, ids: set<RequestId>, id: RequestId, no: nat, row: Attempt)
    requires Numbered(attempts, ids) && id in ids && 1 <= no <= 2 && no <= |AttemptRows(attempts, id)| + 1
    ensures var rows, rows' := AttemptRows(attempts, id), AttemptRows(attempts[(id, no) := row], id);
            && rows' == (if no <= |rows| then rows[no - 1 := row] else rows + [row])
            && Numbered(attempts[(id, no) := row], ids)
    ensures forall x :: x != id ==> AttemptRows(attempts[(id, no) := row], x) == AttemptRows(attempts, x)
    ensures (id, no) in attempts <==> no <= |AttemptRows(attempts, id)|
    ensures (id, no) in attempts ==> attempts[(id, no)] == AttemptRows(attempts, id)[no - 1]
  {
  }

  lemma AttemptAt(attempts: map<AttemptKey, Attempt>, ids: set<RequestId>, id: RequestId, no: nat)
    requires Numbered(attempts, ids) && (id, no) in attempts
    ensures 1 <= no <= |AttemptRows(attempts, id)| && attempts[(id, no)] == AttemptRows(attempts, id)[no - 1]
    ensures no <= 2 && id in ids
  {
  }

  class GwpDatabase {
    var requests: map<RequestId, Request>
    var attempts: map<AttemptKey, Attempt>
    var usage: map<RequestId, Usage>
    var slots: map<SlotId, SlotRow>

    constructor (configured: map<SlotId, SlotRow>)
      ensures Valid() && requests == map[] && slots == configured
    {
      requests, attempts, usage, slots := map[], map[], map[], configured;
    }

    /** Attempts are numbered from one without gaps, and rows refer to requests. */
    ghost predicate Valid()
      reads this
    {
      && Numbered(attempts, requests.Keys)
      && (forall r :: r in usage ==> r in requests)
    }

    function RecAt(id: RequestId): Rec
      requires id in requests
      reads this
    {
      Rec(requests[id], AttemptRows(attempts, id), if id in usage then Some(usage[id]) else None)
    }

    /** Only the rows of request `id` differ. */
    twostate predicate OnlyChanges(id: RequestId)
      reads this
    {
      && slots == old(slots) && requests.Keys == old(requests.Keys)
      && forall x :: x in requests && x != id ==> RecAt(x) == old(RecAt(x))
    }

    twostate predicate NothingChanges()
      reads this
    {
      requests == old(requests) && attempts == old(attempts) && usage == old(usage) && slots == old(slots)
    }

    // ---------------------------------------------------------------- statements

    method CreateRequest(id: RequestId, now: Time) returns (inserted: bool)
      requires Valid()
      modifies this`requests
      ensures Valid() && inserted == (id !in old(requests))
      ensures if inserted then requests == old(requests)[id := NewRec(now).row] && RecAt(id) == NewRec(now) else NothingChanges()
    {
      inserted := id !in requests;
      if inserted {
        requests := requests[id := Request(Staged, None, None, None, now, now)];
      }
    }

    method LatestAttempt(id: RequestId) returns (no: nat)
      requires Valid()
      ensures no == |AttemptRows(attempts, id)|
      ensures no > 0 ==> (id, no) in attempts && attempts[(id, no)] == Last(AttemptRows(attempts, id))
    {
      no := if (id, 2) in attempts then 2 else if (id, 1) in attempts then 1 else 0;
    }

    /** The guarded update of one attempt row; None leaves a column alone. */
    method TransitionAttempt(
      id: RequestId, no: nat, from: AttemptState, state: AttemptState,
      userTurn: Option<Option<TurnId>>, assistantTurn: Option<Option<TurnId>>) returns (changed: bool)
      requires Valid() && (id, no) in attempts
      modifies this`attempts
      ensures Valid() && changed == (old(attempts[(id, no)].state) == from)
      ensures if !changed then NothingChanges()
              else
                var was := old(attempts[(id, no)]);
                var row := Attempt(
                  state,
                  if userTurn.Some? then userTurn.value else was.userTurn,
                  if assistantTurn.Some? then assistantTurn.value else was.assistantTurn);
                && attempts == old(attempts)[(id, no) := row]
                && AttemptRows(attempts, id) == old(AttemptRows(attempts, id))[no - 1 := row]
      ensures 1 <= no <= |AttemptRows(attempts, id)| == |old(AttemptRows(attempts, id))| && id in requests
      ensures (id, no) in attempts && attempts[(id, no)] == AttemptRows(attempts, id)[no - 1]
      ensures old(attempts)[(id, no)] == old(AttemptRows(attempts, id))[no - 1]
      ensures forall x :: x != id ==> AttemptRows(attempts, x) == old(AttemptRows(attempts, x))
    {
      hide AttemptRows, Numbered;
      var was := attempts[(id, no)];
      AttemptAt(attempts, requests.Keys, id, no);
      AttemptWritten(attempts, requests.Keys, id, no, Attempt(
        state,
        if userTurn.Some? then userTurn.value else was.userTurn,
        if assistantTurn.Some? then assistantTurn.value else was.assistantTurn));
      changed := was.state == from;
      if changed {
        attempts := attempts[(id, no) := Attempt(
          state,
          if userTurn.Some? then userTurn.value else was.userTurn,
          if assistantTurn.Some? then assistantTurn.value else was.assistantTurn)];
      }
    }

    /** `UPDATE requests SET ... WHERE id = ? AND status = ?` */
    method UpdateRequestIf(id: RequestId, status: Status, row: Request) returns (changes: nat)
      requires Valid() && id in requests
      modifies this`requests
      ensures Valid() && changes == (if old(requests[id].status) == status then 1 else 0)
      ensures requests == if changes == 1 then old(requests)[id := row] else old(requests)
    {
      changes := if requests[id].status == status then 1 else 0;
      if changes == 1 {
        requests := requests[id := row];
      }
    }

    /** The usage row of a confirmed send: only the first one of a request with a slot is kept. */
    method RecordUsageFor(id: RequestId, now: Time)
      requires Valid() && id in requests
      modifies this`usage
      ensures Valid()
      ensures usage == if id in old(usage) || requests[id].slot.None? then old(usage)
                       else old(usage)[id := Usage(requests[id].slot.value, now)]
    {
      if requests[id].slot.Some? && id !in usage {
        usage := usage[id := Usage(requests[id].slot.value, now)];
      }
    }

    method Rollback(savedRequests: map<RequestId, Request>, savedAttempts: map<AttemptKey, Attempt>)
      modifies this`requests, this`attempts
      ensures requests == savedRequests && attempts == savedAttempts
    {
      requests, attempts := savedRequests, savedAttempts;
    }

    // ---------------------------------------------------------------- transactions

    method ArmSendAttempt(id: RequestId, now: Time) returns (no: Option<nat>)
      requires Valid()
      modifies this`requests, this`attempts
      ensures Valid() && OnlyChanges(id)
      ensures id !in requests ==> no == None
      ensures id in requests ==>
                var tx := Arm(old(RecAt(id)), now);
                if tx.Commit? then no == Some(tx.answer) && RecAt(id) == tx.rec else no == None && NothingChanges()
    {
      hide AttemptRows, Numbered;
      var previous := LatestAttempt(id);
      if previous >= 2 || id !in requests || requests[id].status != Staged {
        return None;
      }
      if previous == 1 && attempts[(id, 1)].state != NoSendProven {
        return None;
      }
      var attemptNo := previous + 1;
      AttemptWritten(attempts, requests.Keys, id, attemptNo, Attempt(Armed, None, None));
      attempts := attempts[(id, attemptNo) := Attempt(Armed, None, None)];
      var changes := UpdateRequestIf(id, Staged, requests[id].(status := Sending, anchor := None, updatedAt := now));
      assert changes == 1;
      return Some(attemptNo);
    }

    method ConfirmSendAttempt(id: RequestId, result: SendResult, now: Time) returns (state: Option<AttemptState>)
      requires Valid()
      modifies this`requests, this`attempts, this`usage
      ensures Valid() && OnlyChanges(id)
      ensures id !in requests ==> state == None
      ensures id in requests ==>
                var tx := Confirm(old(RecAt(id)), result, now);
                if tx.Commit? then state == Some(tx.answer) && RecAt(id) == tx.rec else state == None && NothingChanges()
    {
      hide AttemptRows, Numbered;
      var no := LatestAttempt(id);
      if no == 0 {
        return None;
      }
      var changed := TransitionAttempt(
        id, no, Armed, Confirmed, Some(Some(result.userTurn)),
        if result.assistantTurn.Some? then Some(result.assistantTurn) else None);
      if !changed {
        var row := attempts[(id, no)];
        return if Landed(row.state) then Some(row.state) else None;
      }
      var _ := UpdateRequestIf(
        id, Sending, requests[id].(status := Generating, url := Some(result.url), anchor := None, updatedAt := now));
      RecordUsageFor(id, now);
      return Some(Confirmed);
    }

    method MarkPreClickNoSend(id: RequestId) returns (state: Option<AttemptState>)
      requires Valid()
      modifies this`attempts
      ensures Valid() && OnlyChanges(id)
      ensures id !in requests ==> state == None
      ensures id in requests ==>
                var tx := MarkPreClick(old(RecAt(id)));
                if tx.Commit? then state == Some(tx.answer) && RecAt(id) == tx.rec else state == None && NothingChanges()
    {
      hide AttemptRows, Numbered;
      var no := LatestAttempt(id);
      if no == 0 {
        return None;
      }
      var changed := TransitionAttempt(id, no, Armed, NoSendProven, None, None);
      var row := attempts[(id, no)];
      return if changed || row.state == NoSendProven then Some(NoSendProven)
             else if Landed(row.state) then Some(row.state) else None;
    }

    method MarkSendUncertain(id: RequestId, pending: Option<Pending>, now: Time) returns (state: Option<AttemptState>)
      requires Valid()
      modifies this`requests, this`attempts
      ensures Valid() && OnlyChanges(id)
      ensures id !in requests ==> state == None
      ensures id in requests ==>
                var tx := MarkUncertain(old(RecAt(id)), pending, now);
                if tx.Commit? then state == Some(tx.answer) && RecAt(id) == tx.rec else state == None && NothingChanges()
    {
      hide AttemptRows, Numbered;
      var savedRequests, savedAttempts := requests, attempts;
      var no := LatestAttempt(id);
      if no == 0 {
        return None;
      }
      var changed := TransitionAttempt(
        id, no, Armed, SendUncertain,
        if pending.Some? && pending.value.userTurn.Some? then Some(pending.value.userTurn) else None, None);
      if !changed {
        var row := attempts[(id, no)];
        return if Landed(row.state) || row.state == SendUncertain then Some(row.state) else None;
      }
      var url := if requests[id].url.None? && pending.Some? then pending.value.url else requests[id].url;
      var changes := UpdateRequestIf(
        id, Sending, requests[id].(status := Uncertain, url := url, anchor := StoredAnchor(pending), updatedAt := now));
      if changes != 1 {
        Rollback(savedRequests, savedAttempts);
        return None;
      }
      return Some(SendUncertain);
    }

    /** `no` and `read` are what the caller read before; a throw leaves everything as it was. */
    method ApplyReconcileResult(id: RequestId, no: nat, read: Attempt, result: ReconcileResult, now: Time)
      returns (decision: Option<Decision>)
      requires Valid() && (id, no) in attempts
      modifies this`requests, this`attempts, this`usage
      ensures Valid() && OnlyChanges(id)
      ensures var tx := ApplyReconcile(old(RecAt(id)), no, read, result, now);
              if tx.Commit? then decision == Some(tx.answer) && RecAt(id) == tx.rec else decision == None && NothingChanges()
    {
      hide AttemptRows, Numbered;
      if read.userTurn.Some? && (!result.found || result.userTurn != read.userTurn) {
        return Some(Unproven);
      }
      if result.found && (result.url.None? || result.userTurn.None? || !IsConversation(result.url.value)) {
        return Some(Unproven);
      }
      if result.found {
        decision := ApplyFound(id, no, result, now);
        return;
      }
      if !result.proven {
        return if Landed(read.state) then Some(Found) else if read.state != SendUncertain then None else Some(Unproven);
      }
      decision := ApplyAbsent(id, no, now);
    }

    method ApplyFound(id: RequestId, no: nat, result: ReconcileResult, now: Time) returns (decision: Option<Decision>)
      requires Valid() && (id, no) in attempts
      requires result.found && result.url.Some? && result.userTurn.Some? && IsConversation(result.url.value)
      modifies this`requests, this`attempts, this`usage
      ensures Valid() && OnlyChanges(id)
      ensures var tx := ApplyReconcile(old(RecAt(id)), no, old(attempts[(id, no)]).(userTurn := None), result, now);
              if tx.Commit? then decision == Some(tx.answer) && RecAt(id) == tx.rec else decision == None && NothingChanges()
    {
      hide AttemptRows, Numbered;
      var changed := TransitionAttempt(id, no, SendUncertain, Reconciled, Some(result.userTurn), Some(result.assistantTurn));
      if !changed {
        return if Landed(attempts[(id, no)].state) then Some(Found) else None;
      }
      var _ := UpdateRequestIf(
        id, Uncertain, requests[id].(status := Generating, url := result.url, anchor := None, updatedAt := now));
      RecordUsageFor(id, now);
      return Some(Found);
    }

    method ApplyAbsent(id: RequestId, no: nat, now: Time) returns (decision: Option<Decision>)
      requires Valid() && (id, no) in attempts
      modifies this`requests, this`attempts
      ensures Valid() && OnlyChanges(id)
      ensures var absent := ReconcileResult(false, true, None, None, None);
              var tx := ApplyReconcile(old(RecAt(id)), no, old(attempts[(id, no)]).(userTurn := None), absent, now);
              if tx.Commit? then decision == Some(tx.answer) && RecAt(id) == tx.rec else decision == None && NothingChanges()
    {
      hide AttemptRows, Numbered;
      var changed := TransitionAttempt(id, no, SendUncertain, NoSendProven, None, None);
      var state := attempts[(id, no)].state;
      if !changed && Landed(state) {
        return Some(Found);
      }
      if !changed && state != NoSendProven {
        return None;
      }
      var next := if no < 2 then Staged else NeedsUserAction;
      var _ := UpdateRequestIf(id, Uncertain, requests[id].(status := next, anchor := None, updatedAt := now));
      return Some(if no < 2 then RetrySend else Exhausted);
    }

    method RebindAssistantTurnId(id: RequestId, no: nat, userTurn: TurnId, expected: Option<TurnId>, observed: TurnId)
      requires Valid() && (id, no) in attempts
      modifies this`attempts
      ensures Valid() && OnlyChanges(id)
      ensures RecAt(id) == RebindAssistant(old(RecAt(id)), no, userTurn, expected, observed)
    {
      hide AttemptRows, Numbered;
      AttemptAt(attempts, requests.Keys, id, no);
      var current := attempts[(id, no)];
      if requests[id].status != Generating || !Landed(current.state) || current.userTurn != Some(userTurn)
         || current.assistantTurn != expected || current.assistantTurn == Some(observed) {
        return;
      }
      AttemptWritten(attempts, requests.Keys, id, no, current.(assistantTurn := Some(observed)));
      attempts := attempts[(id, no) := current.(assistantTurn := Some(observed))];
    }

    method TouchNonterminalRequest(id: RequestId, now: Time) returns (changed: bool)
      requires Valid()
      modifies this`requests
      ensures Valid() && OnlyChanges(id)
      ensures id in requests ==> RecAt(id) == Touch(old(RecAt(id)), now)
      ensures changed <==> id in requests && old(requests)[id].status in {Sending, Generating, Uncertain}
    {
      changed := id in requests && requests[id].status in {Sending, Generating, Uncertain};
      if changed {
        requests := requests[id := requests[id].(updatedAt := now)];
      }
    }

    // ---------------------------------------------------------------- slots

    function View(): Db
      reads this
    {
      Db(map r | r in requests :: RecAt(r), slots)
    }

    /** A staged request without a slot gets the eligible slot that comes first; nothing else changes anything. */
    method ClaimSlotForRequest(config: Config, id: RequestId, now: Time, excluded: set<SlotId>, rows: seq<SlotId>)
      returns (claimed: Option<SlotId>)
      requires Valid() && id in requests && forall slot :: slot in rows <==> slot in slots
      modifies this`requests, this`slots
      ensures Valid()
      ensures old(requests[id].slot).Some? || old(requests[id].status) != Staged ==>
                claimed == old(requests[id].slot) && NothingChanges()
      ensures old(requests[id].slot).None? && old(requests[id].status) == Staged ==>
                if claimed.Some?
                then IsChoice(old(View()), config, claimed.value, now, excluded)
                     && View() == ClaimSlot(old(View()), id, claimed.value, now)
                else NothingChanges()
      // the slot taken, and when there is none to take
      ensures old(requests[id].slot).None? && old(requests[id].status) == Staged && claimed.Some? ==>
                var slot, before := claimed.value, old(View());
                && slot in old(slots) && slot in config.slots && slot !in excluded
                && |ActiveOn(before, slot)| < config.maxConcurrent
                && (old(slots)[slot].state == Idle
                    || (old(slots)[slot].state == ProviderLimited && old(slots)[slot].cooldownUntil.Some?
                        && old(slots)[slot].cooldownUntil.value <= now))
                && (slot in config.weeklyLimit ==> |UsedSince(before, slot, now - 604_800_000)| < config.weeklyLimit[slot])
      ensures old(requests[id].slot).None? && old(requests[id].status) == Staged && claimed.None? ==>
                forall slot :: slot in old(slots) ==>
                  || slot !in config.slots || slot in excluded
                  || |ActiveOn(old(View()), slot)| >= config.maxConcurrent
                  || (old(slots)[slot].state != Idle
                      && !(old(slots)[slot].state == ProviderLimited && old(slots)[slot].cooldownUntil.Some?
                           && old(slots)[slot].cooldownUntil.value <= now))
                  || (slot in config.weeklyLimit && |UsedSince(old(View()), slot, now - 604_800_000)| >= config.weeklyLimit[slot])
      // what the claim writes
      ensures old(requests[id].slot).None? && old(requests[id].status) == Staged && claimed.Some? ==>
                && requests == old(requests)[id := old(requests)[id].(slot := claimed, updatedAt := now)]
                && slots == old(slots)[claimed.value := old(slots)[claimed.value].(lastUsedAt := Some(now))]
                && attempts == old(attempts) && usage == old(usage)
    {
      if requests[id].slot.Some? || requests[id].status != Staged {
        return requests[id].slot;
      }
      hide AttemptRows, Numbered, Eligible, IsChoice, ActiveOn, UsedSince, ClaimSlot;
      ghost var before := View();
      claimed := SelectSlot(View(), config, rows, now, excluded);
      if claimed.Some? {
        ChoiceHasRow(before, config, claimed.value, now, excluded);
        WriteClaim(id, claimed.value, now);
      }
    }

    /** The two updates of a claim. */
    method WriteClaim(id: RequestId, slot: SlotId, now: Time)
      requires Valid() && id in requests && slot in slots
      modifies this`requests, this`slots
      ensures Valid() && View() == ClaimSlot(old(View()), id, slot, now)
      ensures requests == old(requests)[id := old(requests)[id].(slot := Some(slot), updatedAt := now)]
      ensures slots == old(slots)[slot := old(slots)[slot].(lastUsedAt := Some(now))]
    {
      hide AttemptRows, Numbered;
      slots := slots[slot := slots[slot].(lastUsedAt := Some(now))];
      requests := requests[id := requests[id].(slot := Some(slot), updatedAt := now)];
      assert requests.Keys == old(requests.Keys);
    }

    method MarkSlotNeedsLogin(slot: SlotId)
      requires slot in slots
      modifies this`slots
      ensures slots.Keys == old(slots.Keys) && forall other :: other in slots && other != slot ==> slots[other] == old(slots)[other]
      ensures slots[slot].lastUsedAt == old(slots)[slot].lastUsedAt && forall now :: !Usable(slots[slot], now)
    {
      slots := slots[slot := slots[slot].(state := NeedsLoginSlot, cooldownUntil := None)];
    }

    method MarkSlotProviderLimit(slot: SlotId, now: Time) returns (cooldownUntil: Time)
      requires slot in slots
      modifies this`slots
      ensures slots.Keys == old(slots.Keys) && forall other :: other in slots && other != slot ==> slots[other] == old(slots)[other]
      ensures slots[slot].lastUsedAt == old(slots)[slot].lastUsedAt && cooldownUntil == now + 180_000
      ensures forall later :: Usable(slots[slot], later) <==> cooldownUntil <= later
    {
      cooldownUntil := now + PROVIDER_COOLDOWN_MS;
      slots := slots[slot := slots[slot].(state := ProviderLimited, cooldownUntil := Some(cooldownUntil))];
    }

    method MarkSlotIdle(slot: SlotId)
      requires slot in slots
      modifies this`slots
      ensures slots.Keys == old(slots.Keys) && forall other :: other in slots && other != slot ==> slots[other] == old(slots)[other]
      ensures slots[slot].lastUsedAt == old(slots)[slot].lastUsedAt && forall now :: Usable(slots[slot], now)
    {
      slots := slots[slot := slots[slot].(state := Idle, cooldownUntil := None)];
    }
  }

  lemma ChoiceHasRow(db: Db, config: Config, slot: SlotId, now: Time, excluded: set<SlotId>)
    requires IsChoice(db, config, slot, now, excluded)
    ensures slot in db.slots
  {
  }
}
