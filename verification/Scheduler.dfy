// Which slot a staged request may claim, and why the choice is unique.
module Scheduler {
  import opened Rows

  const WEEK: nat := 7 * 24 * 60 * 60 * 1000

  datatype Config = Config(maxConcurrent: nat, weeklyLimit: map<SlotId, nat>, slots: set<SlotId>)

  // ------------------------------------------------------------------ what the queries count

  function ActiveOn(db: Db, slot: SlotId): set<RequestId> {
    set r | r in db.recs && ActiveStatus(db.recs[r].row.status) && db.recs[r].row.slot == Some(slot)
  }

  /** Confirmed sends of a slot from `since` on; `since` may lie before the epoch. */
  function UsedSince(db: Db, slot: SlotId, since: int): set<RequestId> {
    set r | r in db.recs && db.recs[r].usage.Some? && db.recs[r].usage.value.slot == slot
            && db.recs[r].usage.value.sentAt >= since
  }

  predicate Exhausted(db: Db, config: Config, slot: SlotId, now: Time) {
    slot in config.weeklyLimit && |UsedSince(db, slot, now - WEEK)| >= config.weeklyLimit[slot]
  }

  predicate Usable(row: SlotRow, now: Time) {
    || row.state == Idle
    || (row.state == ProviderLimited && row.cooldownUntil.Some? && row.cooldownUntil.value <= now)
  }

  predicate Eligible(db: Db, config: Config, slot: SlotId, now: Time, excluded: set<SlotId>) {
    && slot in db.slots && slot in config.slots && slot !in excluded
    && |ActiveOn(db, slot)| < config.maxConcurrent
    && Usable(db.slots[slot], now)
    && !Exhausted(db, config, slot, now)
  }

  // ------------------------------------------------------------------ the comparator

  /** What the sort looks at. */
  datatype Entry = Entry(id: SlotId, active: nat, lastUsed: Option<Time>)

  /** The numbers a JavaScript subtraction of two ages can produce. */
  datatype Number = NegativeInfinity | Finite(value: int) | PositiveInfinity | NotANumber

  function Age(lastUsed: Option<Time>): Number {
    if lastUsed.None? then NegativeInfinity else Finite(lastUsed.value)
  }

  function Minus(left: Number, right: Number): Number {
    if left.NotANumber? || right.NotANumber? then NotANumber
    else if left.Finite? && right.Finite? then Finite(left.value - right.value)
    else if left == right then NotANumber
    else if left.NegativeInfinity? || right.PositiveInfinity? then NegativeInfinity
    else PositiveInfinity
  }

  predicate Truthy(n: Number) {
    n != Finite(0) && !n.NotANumber?
  }

  predicate Negative(n: Number) {
    n.NegativeInfinity? || (n.Finite? && n.value < 0)
  }

  /** `left.active - right.active || age(left) - age(right) || left.id.localeCompare(right.id)` */
  function Compare(left: Entry, right: Entry): Number {
    var byActive := Finite(left.active - right.active);
    var byAge := Minus(Age(left.lastUsed), Age(right.lastUsed));
    if Truthy(byActive) then byActive
    else if Truthy(byAge) then byAge
    else Finite(if left.id < right.id then -1 else if left.id == right.id then 0 else 1)
  }

  /** Fewer active requests first, then the longest unused with never-used first, then the smaller id. */
  predicate Before(left: Entry, right: Entry) {
    || left.active < right.active
    || (left.active == right.active
        && (|| (left.lastUsed.None? && right.lastUsed.Some?)
            || (left.lastUsed.Some? && right.lastUsed.Some? && left.lastUsed.value < right.lastUsed.value)
            || (left.lastUsed == right.lastUsed && left.id < right.id)))
  }

  /** Two never-used slots subtract to NaN, which is falsy, so the ids decide: the order stays strict and total. */
  lemma CompareIsAStrictTotalOrder(a: Entry, b: Entry, c: Entry)
    ensures Negative(Compare(a, b)) <==> Before(a, b)
    ensures a.lastUsed.None? && b.lastUsed.None? ==> Minus(Age(a.lastUsed), Age(b.lastUsed)) == NotANumber
    ensures !Before(a, a)
    ensures Before(a, b) && Before(b, c) ==> Before(a, c)
    ensures a.id != b.id ==> (Before(a, b) <==> !Before(b, a))
  {
  }

  // ------------------------------------------------------------------ the claim

  function EntryOf(db: Db, slot: SlotId): Entry
    requires slot in db.slots
  {
    Entry(slot, |ActiveOn(db, slot)|, db.slots[slot].lastUsedAt)
  }

  /** The eligible slot that comes before every other eligible slot. */
  predicate IsChoice(db: Db, config: Config, slot: SlotId, now: Time, excluded: set<SlotId>) {
    && Eligible(db, config, slot, now, excluded)
    && forall other :: other in db.slots && other != slot && Eligible(db, config, other, now, excluded) ==>
         Before(EntryOf(db, slot), EntryOf(db, other))
  }

  lemma ChoiceIsUnique(db: Db, config: Config, a: SlotId, b: SlotId, now: Time, excluded: set<SlotId>)
    requires IsChoice(db, config, a, now, excluded) && IsChoice(db, config, b, now, excluded)
    ensures a == b
  {
  }

  /** What the two queries count, and what makes a slot one that may be claimed: the filter, written out. */
  lemma EligibleIff(db: Db, config: Config, slot: SlotId, now: Time, excluded: set<SlotId>)
    ensures forall r :: r in ActiveOn(db, slot) <==>
              r in db.recs && db.recs[r].row.slot == Some(slot) && db.recs[r].row.status in {Staged, Sending, Generating, Uncertain}
    ensures forall r, since: int :: r in UsedSince(db, slot, since) <==>
              r in db.recs && db.recs[r].usage.Some? && db.recs[r].usage.value.slot == slot && since <= db.recs[r].usage.value.sentAt
    ensures Eligible(db, config, slot, now, excluded) <==>
              && slot in db.slots && slot in config.slots && slot !in excluded
              && |ActiveOn(db, slot)| < config.maxConcurrent
              && (db.slots[slot].state == Idle
                  || (db.slots[slot].state == ProviderLimited && db.slots[slot].cooldownUntil.Some?
                      && db.slots[slot].cooldownUntil.value <= now))
              && (slot in config.weeklyLimit ==> |UsedSince(db, slot, now - 604_800_000)| < config.weeklyLimit[slot])
  {
  }

  /** The order of two slots, written out. */
  lemma BeforeIff(db: Db, a: SlotId, b: SlotId)
    requires a in db.slots && b in db.slots
    ensures Before(EntryOf(db, a), EntryOf(db, b)) <==>
              var activeA, activeB := |ActiveOn(db, a)|, |ActiveOn(db, b)|;
              || activeA < activeB
              || (activeA == activeB && match (db.slots[a].lastUsedAt, db.slots[b].lastUsedAt)
                                        case (None, None) => a < b
                                        case (None, Some(_)) => true
                                        case (Some(_), None) => false
                                        case (Some(s), Some(t)) => s < t || (s == t && a < b))
  {
  }

  function EligibleAmong(db: Db, config: Config, ids: seq<SlotId>, now: Time, excluded: set<SlotId>): seq<SlotId> {
    if ids == [] then []
    else (if Eligible(db, config, ids[0], now, excluded) then [ids[0]] else [])
         + EligibleAmong(db, config, ids[1..], now, excluded)
  }

  lemma {:induction false} EligibleAmongMeaning(db: Db, config: Config, ids: seq<SlotId>, now: Time, excluded: set<SlotId>)
    ensures forall id :: id in EligibleAmong(db, config, ids, now, excluded) <==>
              id in ids && Eligible(db, config, id, now, excluded)
  {
    if ids != [] {
      EligibleAmongMeaning(db, config, ids[1..], now, excluded);
    }
  }

  /** The filter and `sort(...)[0]` over the slot rows. */
  method SelectSlot(db: Db, config: Config, ids: seq<SlotId>, now: Time, excluded: set<SlotId>)
    returns (selected: Option<SlotId>)
    requires forall id :: id in ids <==> id in db.slots
    ensures selected.Some? ==> IsChoice(db, config, selected.value, now, excluded)
    ensures selected.Some? ==>
              var slot := selected.value;
              && slot in db.slots && slot in config.slots && slot !in excluded
              && |ActiveOn(db, slot)| < config.maxConcurrent
              && (db.slots[slot].state == Idle
                  || (db.slots[slot].state == ProviderLimited && db.slots[slot].cooldownUntil.Some?
                      && db.slots[slot].cooldownUntil.value <= now))
              && (slot in config.weeklyLimit ==> |UsedSince(db, slot, now - 604_800_000)| < config.weeklyLimit[slot])
    ensures selected.None? <==> forall slot :: slot in db.slots ==>
              || slot !in config.slots || slot in excluded
              || |ActiveOn(db, slot)| >= config.maxConcurrent
              || (db.slots[slot].state != Idle
                  && !(db.slots[slot].state == ProviderLimited && db.slots[slot].cooldownUntil.Some?
                       && db.slots[slot].cooldownUntil.value <= now))
              || (slot in config.weeklyLimit && |UsedSince(db, slot, now - 604_800_000)| >= config.weeklyLimit[slot])
  {
    hide ActiveOn, UsedSince;
    assert forall slot :: slot in db.slots && Eligible(db, config, slot, now, excluded) ==> slot in config.slots && slot !in excluded;
    var eligible := EligibleAmong(db, config, ids, now, excluded);
    EligibleAmongMeaning(db, config, ids, now, excluded);
    if eligible == [] {
      forall id | Eligible(db, config, id, now, excluded) ensures id in eligible {
      }
      return None;
    }
    var best := eligible[0];
    for i := 1 to |eligible|
      invariant best in eligible
      invariant forall j :: 0 <= j < i ==> eligible[j] == best || Before(EntryOf(db, best), EntryOf(db, eligible[j]))
    {
      assert eligible[i] in eligible;
      CompareIsAStrictTotalOrder(EntryOf(db, eligible[i]), EntryOf(db, best), EntryOf(db, best));
      if Negative(Compare(EntryOf(db, eligible[i]), EntryOf(db, best))) {
        best := eligible[i];
      }
    }
    forall id | id != best && Eligible(db, config, id, now, excluded)
      ensures Before(EntryOf(db, best), EntryOf(db, id))
    {
      assert id in eligible;
    }
    return Some(best);
  }

  function ClaimRec(rec: Rec, slot: SlotId, now: Time): Rec {
    rec.(row := rec.row.(slot := Some(slot), updatedAt := now))
  }

  function ClaimSlot(db: Db, r: RequestId, slot: SlotId, now: Time): Db
    requires r in db.recs && slot in db.slots
  {
    Db(db.recs[r := ClaimRec(db.recs[r], slot, now)],
       db.slots[slot := db.slots[slot].(lastUsedAt := Some(now))])
  }
}
