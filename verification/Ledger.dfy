// Capacity and the rolling weekly quota of a slot, over every run of the send protocol.
//
// A claim checks the quota against confirmed sends only, while requests that were claimed
// earlier may still be confirmed. So the configured limit is not the bound; the bound is
// the limit plus the concurrency minus one, plus one for every request that the unlocked
// `failed` write of a creating process took out of the active count in mid-send.
module Ledger {
  import opened Rows
  import opened ReconcileScan
  import opened SendProtocol
  import opened SendSafety
  import opened Scheduler
  import opened Sets

  // ------------------------------------------------------------------ what counts against a slot

  predicate ActiveHere(rec: Rec, slot: SlotId) {
    ActiveStatus(rec.row.status) && rec.row.slot == Some(slot)
  }

  /** A process that may still find the attempt sent. */
  predicate Working(pc: Pc) {
    pc.ArmedToCall? || pc.Calling? || pc.Returned? || pc.Reconciling? || pc.HasVerdict? || pc.Applying?
  }

  predicate InFlight(s: Sys, r: RequestId) {
    r in s.senders && s.senders[r] in s.procs && Working(s.procs[s.senders[r]])
  }

  /** Sent in the window, or neither sent nor given up. */
  predicate Counts(rec: Rec, inFlight: bool, slot: SlotId, since: int) {
    if rec.usage.Some? then rec.usage.value.slot == slot && rec.usage.value.sentAt >= since
    else rec.row.slot == Some(slot) && (ActiveStatus(rec.row.status) || inFlight)
  }

  function Counted(s: Sys, slot: SlotId, since: int): set<RequestId> {
    set r | r in s.db.recs && Counts(s.db.recs[r], InFlight(s, r), slot, since)
  }

  /** Taken out of the active count while a send was in flight. */
  function Orphans(s: Sys, slot: SlotId): set<RequestId> {
    set r | r in s.db.recs && s.db.recs[r].usage.None? && s.db.recs[r].row.slot == Some(slot)
            && !ActiveStatus(s.db.recs[r].row.status) && InFlight(s, r)
  }

  /** The requests whose creating process wrote `failed` over a send in flight. */
  predicate Hits(s: Sys, step: Step, slot: SlotId, r: RequestId) {
    && step.Lifecycle? && step.lifecycle.StagingFails?
    && step.lifecycle.p in s.procs && s.procs[step.lifecycle.p].r == r
    && r in s.db.recs && ActiveHere(s.db.recs[r], slot) && s.db.recs[r].usage.None? && InFlight(s, r)
  }

  function HitsAt(s: Sys, step: Step, slot: SlotId): set<RequestId> {
    set r | r in s.db.recs.Keys && Hits(s, step, slot, r)
  }

  function HitsOf(states: seq<Sys>, steps: seq<Step>, slot: SlotId, n: nat): set<RequestId>
    requires |states| == |steps| + 1 && n <= |steps|
  {
    if n == 0 then {}
    else HitsOf(states, steps, slot, n - 1) + HitsAt(states[n - 1], steps[n - 1], slot)
  }

  /** Counted is a request whose creator writes `failed` while it is active on the slot and some process may still find it sent. */
  lemma HitsIff(s: Sys, step: Step, slot: SlotId, r: RequestId)
    ensures Hits(s, step, slot, r) <==>
              match step
              case Lifecycle(StagingFails(p)) =>
                && p in s.procs && s.procs[p].r == r && r in s.db.recs && s.db.recs[r].usage == None
                && s.db.recs[r].row.slot == Some(slot) && s.db.recs[r].row.status in {Staged, Sending, Generating, Uncertain}
                && r in s.senders && s.senders[r] in s.procs
                && (match s.procs[s.senders[r]]
                    case ArmedToCall(_, _) => true
                    case Calling(_, _) => true
                    case Returned(_, _, _) => true
                    case Reconciling(_, _, _) => true
                    case HasVerdict(_, _, _) => true
                    case Applying(_, _, _, _) => true
                    case _ => false)
              case _ => false
  {
  }

  lemma {:induction false} HitsOfIs(states: seq<Sys>, steps: seq<Step>, slot: SlotId, n: nat)
    requires |states| == |steps| + 1 && n <= |steps|
    ensures forall r :: r in HitsOf(states, steps, slot, n) <==> exists i :: 0 <= i < n && Hits(states[i], steps[i], slot, r)
  {
    hide Hits;
    if n > 0 {
      HitsOfIs(states, steps, slot, n - 1);
      HitsAtAre(states[n - 1], steps[n - 1], slot);
    }
  }

  lemma HitsAtAre(s: Sys, step: Step, slot: SlotId)
    ensures forall r :: r in HitsAt(s, step, slot) <==> Hits(s, step, slot, r)
  {
  }

  /** The limit plus the concurrency minus one; a slot without a limit has no bound and is not asked for one. */
  function Bound(c: Config, slot: SlotId): nat {
    var limit := if slot in c.weeklyLimit then c.weeklyLimit[slot] else 0;
    if limit + c.maxConcurrent == 0 then 0 else limit + c.maxConcurrent - 1
  }

  // ------------------------------------------------------------------ one request, one step

  /** What a step may do to the rows of one request without claiming a slot for it. */
  predicate Shrinks(rec: Rec, inFlight: bool, rec': Rec, inFlight': bool, now: Time) {
    && (rec'.usage == rec.usage
        || (rec.usage.None? && inFlight && rec.row.slot.Some? && rec'.usage == Some(Usage(rec.row.slot.value, now))))
    && (rec'.row.slot == rec.row.slot || rec'.row.slot.None?)
    && (rec'.row.slot.Some? && ActiveStatus(rec'.row.status) ==> ActiveStatus(rec.row.status))
    && (rec'.row.slot.Some? && inFlight' && rec'.usage.None? ==> inFlight || ActiveStatus(rec.row.status))
  }

  /** An orphan was one before. */
  predicate NoNewOrphan(rec: Rec, inFlight: bool, rec': Rec, inFlight': bool) {
    rec'.row.slot.Some? && !ActiveStatus(rec'.row.status) && inFlight' ==> !ActiveStatus(rec.row.status) && inFlight
  }

  lemma OwnerShrinks(pc: Pc, rec: Rec, act: OwnerAct, now: Time)
    requires OwnerNext(pc, rec, act, now).Some? && !act.Claim?
    ensures var next := OwnerNext(pc, rec, act, now).value;
            Shrinks(rec, Working(pc), next.rec, Working(next.pc), now) && NoNewOrphan(rec, Working(pc), next.rec, Working(next.pc))
  {
  }

  lemma SendShrinks(pc: Pc, rec: Rec, act: SendAct, now: Time)
    requires SendNext(pc, rec, act, now).Some?
    ensures var next := SendNext(pc, rec, act, now).value;
            Shrinks(rec, Working(pc), next.rec, Working(next.pc), now) && NoNewOrphan(rec, Working(pc), next.rec, Working(next.pc))
  {
  }

  lemma RecoverShrinks(pc: Pc, rec: Rec, act: RecoverAct, now: Time)
    requires RecoverNext(pc, rec, act, now).Some?
    ensures var next := RecoverNext(pc, rec, act, now).value;
            Shrinks(rec, Working(pc), next.rec, Working(next.pc), now) && NoNewOrphan(rec, Working(pc), next.rec, Working(next.pc))
  {
  }

  // ------------------------------------------------------------------ every request, one step

  ghost predicate AllShrink(s: Sys, s': Sys) {
    && s'.clock >= s.clock
    && (forall r :: r in s.db.recs ==>
          r in s'.db.recs && Shrinks(s.db.recs[r], InFlight(s, r), s'.db.recs[r], InFlight(s', r), s.clock))
    && (forall r :: r in s'.db.recs && r !in s.db.recs ==>
          s'.db.recs[r].usage.None? && s'.db.recs[r].row.slot.None?)
  }

  ghost predicate NoNewOrphans(s: Sys, step: Step, s': Sys) {
    forall r, slot :: r in Orphans(s', slot) ==> r in Orphans(s, slot) || Hits(s, step, slot, r)
  }

  lemma CountedShrinks(s: Sys, s': Sys, slot: SlotId)
    requires AllShrink(s, s')
    ensures Counted(s', slot, s'.clock - WEEK) <= Counted(s, slot, s.clock - WEEK)
    ensures ActiveOn(s'.db, slot) <= ActiveOn(s.db, slot)
  {
  }

  /** Only its holder is in flight on a request. */
  lemma InFlightIs(s: Sys, p: Pid)
    requires Inv(s) && p in s.procs && HoldsOwner(s.procs[p])
    ensures InFlight(s, s.procs[p].r) <==> Working(s.procs[p])
  {
    SendLockIsTheOwners(s, p);
    assert PcOk(s, p);
  }

  ghost predicate HoldsNoOtherSend(s: Sys, p: Pid, own: RequestId) {
    forall r :: r != own && r in s.senders ==> s.senders[r] != p
  }

  lemma OtherSendersDiffer(s: Sys, p: Pid)
    requires Inv(s) && p in s.procs
    ensures HoldsNoOtherSend(s, p, s.procs[p].r)
  {
    forall r | r != s.procs[p].r && r in s.senders ensures s.senders[r] != p {
      assert SenderOk(s, r);
    }
  }

  lemma LocalInFlight(s: Sys, s0: Sys, p: Pid, next: Option<Local>, s': Sys)
    requires p in s.procs && s0.procs == s.procs && s0.senders == s.senders && LocalStep(s0, p, next, s')
    requires HoldsNoOtherSend(s, p, s.procs[p].r) && next.value.pc.r == s.procs[p].r
    ensures InFlight(s', s.procs[p].r) <==> Working(next.value.pc)
    ensures forall r :: r != s.procs[p].r ==> (InFlight(s', r) <==> InFlight(s, r))
  {
  }

  lemma LocalAllShrink(s: Sys, s0: Sys, p: Pid, next: Option<Local>, s': Sys)
    requires Inv(s) && p in s.procs && HoldsOwner(s.procs[p])
    requires s0.procs == s.procs && s0.senders == s.senders && s0.db.recs == s.db.recs && s0.clock == s.clock
    requires LocalStep(s0, p, next, s') && next.value.pc.r == s.procs[p].r && s.procs[p].r in s.db.recs
    requires var rec := s.db.recs[s.procs[p].r];
             && Shrinks(rec, Working(s.procs[p]), next.value.rec, Working(next.value.pc), s.clock)
             && NoNewOrphan(rec, Working(s.procs[p]), next.value.rec, Working(next.value.pc))
    ensures AllShrink(s, s')
    ensures forall r, slot :: r in Orphans(s', slot) ==> r in Orphans(s, slot)
  {
    InFlightIs(s, p);
    OtherSendersDiffer(s, p);
    LocalRowsShrink(s, s0, p, next, s');
  }

  lemma LocalRowsShrink(s: Sys, s0: Sys, p: Pid, next: Option<Local>, s': Sys)
    requires p in s.procs && HoldsNoOtherSend(s, p, s.procs[p].r)
    requires InFlight(s, s.procs[p].r) <==> Working(s.procs[p])
    requires s0.procs == s.procs && s0.senders == s.senders && s0.db.recs == s.db.recs && s0.clock == s.clock
    requires LocalStep(s0, p, next, s') && next.value.pc.r == s.procs[p].r && s.procs[p].r in s.db.recs
    requires var rec := s.db.recs[s.procs[p].r];
             && Shrinks(rec, Working(s.procs[p]), next.value.rec, Working(next.value.pc), s.clock)
             && NoNewOrphan(rec, Working(s.procs[p]), next.value.rec, Working(next.value.pc))
    ensures AllShrink(s, s')
    ensures forall r, slot :: r in Orphans(s', slot) ==> r in Orphans(s, slot)
  {
    LocalInFlight(s, s0, p, next, s');
    LocalOrphans(s, s0, p, next, s');
  }

  lemma LocalOrphans(s: Sys, s0: Sys, p: Pid, next: Option<Local>, s': Sys)
    requires p in s.procs && s.procs[p].r in s.db.recs
    requires s0.db.recs == s.db.recs && LocalStep(s0, p, next, s') && next.value.pc.r == s.procs[p].r
    requires InFlight(s, s.procs[p].r) <==> Working(s.procs[p])
    requires InFlight(s', s.procs[p].r) <==> Working(next.value.pc)
    requires forall r :: r != s.procs[p].r ==> (InFlight(s', r) <==> InFlight(s, r))
    requires NoNewOrphan(s.db.recs[s.procs[p].r], Working(s.procs[p]), next.value.rec, Working(next.value.pc))
    requires Shrinks(s.db.recs[s.procs[p].r], Working(s.procs[p]), next.value.rec, Working(next.value.pc), s.clock)
    ensures forall r, slot :: r in Orphans(s', slot) ==> r in Orphans(s, slot)
  {
  }

  /** A change that touches no rows and puts nothing new in flight. */
  lemma FewerInFlight(s: Sys, s': Sys)
    requires s'.db.recs == s.db.recs && s'.clock >= s.clock
    requires forall r :: InFlight(s', r) ==> InFlight(s, r)
    ensures AllShrink(s, s')
    ensures forall r, slot :: r in Orphans(s', slot) ==> r in Orphans(s, slot)
  {
  }

  /** One request gets a status that is not active, or keeps it; nothing new is in flight. */
  lemma StatusWriteShrinks(s: Sys, s': Sys, r: RequestId, rec': Rec)
    requires r in s.db.recs && s'.db.recs == s.db.recs[r := rec'] && s'.clock >= s.clock
    requires rec'.usage == s.db.recs[r].usage && rec'.row.slot == s.db.recs[r].row.slot
    requires ActiveStatus(rec'.row.status) ==> ActiveStatus(s.db.recs[r].row.status)
    requires forall x :: InFlight(s', x) ==> InFlight(s, x)
    ensures AllShrink(s, s')
    ensures forall x, slot :: x in Orphans(s', slot) ==>
              || x in Orphans(s, slot)
              || (x == r && ActiveHere(s.db.recs[r], slot) && !ActiveStatus(rec'.row.status) && s.db.recs[r].usage.None? && InFlight(s, r))
  {
  }

  lemma CreateShrinks(s: Sys, s': Sys, r: RequestId)
    requires r !in s.db.recs && s'.db.recs == s.db.recs[r := NewRec(s.clock)] && s'.clock == s.clock
    requires forall x :: InFlight(s', x) ==> InFlight(s, x)
    ensures AllShrink(s, s')
    ensures forall x, slot :: x in Orphans(s', slot) ==> x in Orphans(s, slot)
  {
  }

  lemma LifecycleInFlight(s: Sys, act: LifecycleAct, s': Sys)
    requires Inv(s) && LifecycleStep(s, act, s')
    ensures forall r :: InFlight(s', r) ==> InFlight(s, r)
  {
    hide Inv;
    if act.TakeOwner? || act.StagingDone? {
      OtherSendersDiffer(s, act.p);
    }
  }

  lemma LifecycleShrinks(s: Sys, act: LifecycleAct, s': Sys)
    requires Inv(s) && LifecycleStep(s, act, s')
    ensures AllShrink(s, s') && NoNewOrphans(s, Lifecycle(act), s')
  {
    hide PcFits, RowsFit;
    LifecycleInFlight(s, act, s');
    if act.Create? || act.CreateStaged? {
      CreateShrinks(s, s', act.r);
    } else if act.StagingFails? {
      var r := s.procs[act.p].r;
      assert PcOk(s, act.p);
      StatusWriteShrinks(s, s', r, WithStatus(s.db.recs[r], Failed, s.clock));
    } else {
      FewerInFlight(s, s');
    }
  }

  lemma WorldInFlight(s: Sys, act: WorldAct, s': Sys)
    requires WorldStep(s, act, s')
    ensures forall r :: InFlight(s', r) ==> InFlight(s, r)
  {
  }

  lemma WorldShrinks(s: Sys, act: WorldAct, s': Sys)
    requires WorldStep(s, act, s')
    ensures AllShrink(s, s') && NoNewOrphans(s, World(act), s')
  {
    WorldInFlight(s, act, s');
    if act.TouchRow? {
      StatusWriteShrinks(s, s', act.r, Touch(s.db.recs[act.r], s.clock));
    } else {
      FewerInFlight(s, s');
    }
  }

  ghost predicate IsClaim(step: Step) {
    step.ByOwner? && step.own.Claim?
  }

  lemma StepShrinks(c: Config, s: Sys, step: Step, s': Sys)
    requires Inv(s) && Next(c, s, step, s') && !IsClaim(step)
    ensures AllShrink(s, s') && NoNewOrphans(s, step, s')
  {
    match step
    case Lifecycle(act) => LifecycleShrinks(s, act, s');
    case World(act) => WorldShrinks(s, act, s');
    case ByOwner(p, act) => OwnerStepShrinks(c, s, p, act, s');
    case BySender(p, act) => SendStepShrinks(s, p, act, s');
    case ByRecovery(p, act) => RecoverStepShrinks(s, p, act, s');
  }

  lemma OwnerStepShrinks(c: Config, s: Sys, p: Pid, act: OwnerAct, s': Sys)
    requires Inv(s) && OwnerStep(c, s, p, act, s') && !act.Claim?
    ensures AllShrink(s, s')
    ensures forall r, slot :: r in Orphans(s', slot) ==> r in Orphans(s, slot)
  {
    var pc := s.procs[p];
    var rec := RecOf(s, pc.r);
    assert PcOk(s, p);
    OwnerShrinks(pc, rec, act, s.clock);
    OwnerStays(pc, rec, act, s.clock);
    LocalAllShrink(s, s, p, OwnerNext(pc, rec, act, s.clock), s');
  }

  lemma OwnerStays(pc: Pc, rec: Rec, act: OwnerAct, now: Time)
    requires OwnerNext(pc, rec, act, now).Some?
    ensures OwnerNext(pc, rec, act, now).value.pc.r == pc.r && HoldsOwner(pc)
  {
  }

  lemma SendStays(pc: Pc, rec: Rec, act: SendAct, now: Time)
    requires SendNext(pc, rec, act, now).Some?
    ensures SendNext(pc, rec, act, now).value.pc.r == pc.r && HoldsOwner(pc)
  {
  }

  lemma RecoverStays(pc: Pc, rec: Rec, act: RecoverAct, now: Time)
    requires RecoverNext(pc, rec, act, now).Some?
    ensures RecoverNext(pc, rec, act, now).value.pc.r == pc.r && HoldsOwner(pc)
  {
  }

  lemma SendStepShrinks(s: Sys, p: Pid, act: SendAct, s': Sys)
    requires Inv(s) && SendStep(s, p, act, s')
    ensures AllShrink(s, s')
    ensures forall r, slot :: r in Orphans(s', slot) ==> r in Orphans(s, slot)
  {
    var pc := s.procs[p];
    var rec := RecOf(s, pc.r);
    assert PcOk(s, p);
    SendShrinks(pc, rec, act, s.clock);
    SendStays(pc, rec, act, s.clock);
    var s0 := if act.CallSend? then NewCall(s, pc.r, pc.no) else s;
    LocalAllShrink(s, s0, p, SendNext(pc, rec, act, s.clock), s');
  }

  lemma RecoverStepShrinks(s: Sys, p: Pid, act: RecoverAct, s': Sys)
    requires Inv(s) && RecoverStep(s, p, act, s')
    ensures AllShrink(s, s')
    ensures forall r, slot :: r in Orphans(s', slot) ==> r in Orphans(s, slot)
  {
    var pc := s.procs[p];
    var rec := RecOf(s, pc.r);
    assert PcOk(s, p);
    RecoverShrinks(pc, rec, act, s.clock);
    RecoverStays(pc, rec, act, s.clock);
    LocalAllShrink(s, s, p, RecoverNext(pc, rec, act, s.clock), s');
  }

  // ------------------------------------------------------------------ a claim

  lemma ClaimEffect(c: Config, s: Sys, p: Pid, act: OwnerAct, s': Sys)
    requires Inv(s) && OwnerStep(c, s, p, act, s') && act.Claim?
    ensures s.procs[p].r in s.db.recs && s'.clock == s.clock && act.now <= s.clock
    ensures s'.db.recs == s.db.recs[s.procs[p].r := ClaimRec(s.db.recs[s.procs[p].r], act.slot, act.now)]
    ensures s.db.recs[s.procs[p].r].row.slot.None? && !Working(s.procs[p])
    ensures Eligible(s.db, c, act.slot, act.now, act.excluded)
    ensures !InFlight(s, s.procs[p].r) && forall r :: InFlight(s', r) <==> InFlight(s, r)
  {
    hide PcFits, RowsFit, OpOk;
    assert PcOk(s, p);
    var next := OwnerNext(s.procs[p], RecOf(s, s.procs[p].r), act, s.clock);
    OtherSendersDiffer(s, p);
    InFlightIs(s, p);
    var used := s.db.slots[act.slot].(lastUsedAt := Some(act.now));
    LocalInFlight(s, s.(db := s.db.(slots := s.db.slots[act.slot := used])), p, next, s');
  }

  lemma ClaimCounts(c: Config, s: Sys, p: Pid, act: OwnerAct, s': Sys, slot: SlotId)
    requires p in s.procs && s.procs[p].r in s.db.recs && act.Claim? && act.now <= s.clock && s'.clock == s.clock
    requires s'.db.recs == s.db.recs[s.procs[p].r := ClaimRec(s.db.recs[s.procs[p].r], act.slot, act.now)]
    requires s.db.recs[s.procs[p].r].row.slot.None? && !InFlight(s, s.procs[p].r)
    requires forall r :: InFlight(s', r) <==> InFlight(s, r)
    ensures ActiveOn(s'.db, slot) <= ActiveOn(s.db, slot) + (if slot == act.slot then {s.procs[p].r} else {})
    ensures Orphans(s', slot) <= Orphans(s, slot)
    ensures slot != act.slot ==> Counted(s', slot, s'.clock - WEEK) <= Counted(s, slot, s.clock - WEEK)
    ensures Counted(s', slot, s'.clock - WEEK) <=
              UsedSince(s.db, slot, s.clock - WEEK) + ActiveOn(s'.db, slot) + Orphans(s', slot)
  {
  }

  lemma OlderCountsMore(db: Db, slot: SlotId, earlier: int, later: int)
    requires earlier <= later
    ensures |UsedSince(db, slot, later)| <= |UsedSince(db, slot, earlier)|
  {
    SubsetSize(UsedSince(db, slot, later), UsedSince(db, slot, earlier));
  }

  // ------------------------------------------------------------------ runs

  /** What holds for a slot while `hits` are the requests failed over a send in flight so far. */
  ghost predicate WithinQuota(c: Config, s: Sys, slot: SlotId, hits: set<RequestId>) {
    && |ActiveOn(s.db, slot)| <= c.maxConcurrent
    && Orphans(s, slot) <= hits
    && |Counted(s, slot, s.clock - WEEK)| <= Bound(c, slot) + |hits|
  }

  lemma ClaimStaysWithin(c: Config, s: Sys, p: Pid, act: OwnerAct, s': Sys, slot: SlotId, hits: set<RequestId>)
    requires Inv(s) && OwnerStep(c, s, p, act, s') && act.Claim?
    requires slot in c.weeklyLimit && WithinQuota(c, s, slot, hits)
    ensures WithinQuota(c, s', slot, hits)
  {
    hide Inv, OwnerNext, IsChoice, Counted, ActiveOn, Orphans, Bound, UsedSince;
    ClaimEffect(c, s, p, act, s');
    ClaimCounts(c, s, p, act, s', slot);
    ClaimArithmetic(c, s, s', p, act, slot, hits);
  }

  lemma ClaimCapacity(c: Config, s: Sys, s': Sys, p: Pid, act: OwnerAct, slot: SlotId)
    requires act.Claim? && p in s.procs && Eligible(s.db, c, act.slot, act.now, act.excluded)
    requires |ActiveOn(s.db, slot)| <= c.maxConcurrent
    requires ActiveOn(s'.db, slot) <= ActiveOn(s.db, slot) + (if slot == act.slot then {s.procs[p].r} else {})
    ensures |ActiveOn(s'.db, slot)| <= c.maxConcurrent
  {
    var claimed := if slot == act.slot then {s.procs[p].r} else {};
    SubsetSize(ActiveOn(s'.db, slot), ActiveOn(s.db, slot) + claimed);
    UnionSize(ActiveOn(s.db, slot), claimed);
  }

  lemma ClaimArithmetic(c: Config, s: Sys, s': Sys, p: Pid, act: OwnerAct, slot: SlotId, hits: set<RequestId>)
    requires slot in c.weeklyLimit && act.Claim? && p in s.procs && act.now <= s.clock && s'.clock == s.clock
    requires Eligible(s.db, c, act.slot, act.now, act.excluded)
    requires |ActiveOn(s.db, slot)| <= c.maxConcurrent && Orphans(s, slot) <= hits && Orphans(s', slot) <= Orphans(s, slot)
    requires |Counted(s, slot, s.clock - WEEK)| <= Bound(c, slot) + |hits|
    requires ActiveOn(s'.db, slot) <= ActiveOn(s.db, slot) + (if slot == act.slot then {s.procs[p].r} else {})
    requires slot != act.slot ==> Counted(s', slot, s'.clock - WEEK) <= Counted(s, slot, s.clock - WEEK)
    requires Counted(s', slot, s'.clock - WEEK) <=
               UsedSince(s.db, slot, s.clock - WEEK) + ActiveOn(s'.db, slot) + Orphans(s', slot)
    ensures |ActiveOn(s'.db, slot)| <= c.maxConcurrent && Orphans(s', slot) <= hits
    ensures |Counted(s', slot, s'.clock - WEEK)| <= Bound(c, slot) + |hits|
  {
    var used, active, orphans := UsedSince(s.db, slot, s.clock - WEEK), ActiveOn(s'.db, slot), Orphans(s', slot);
    ClaimCapacity(c, s, s', p, act, slot);
    if slot != act.slot {
      SubsetSize(Counted(s', slot, s'.clock - WEEK), Counted(s, slot, s.clock - WEEK));
    } else {
      OlderCountsMore(s.db, slot, act.now - WEEK, s.clock - WEEK);
      SubsetSize(Counted(s', slot, s'.clock - WEEK), used + active + orphans);
      UnionSize(used + active, orphans);
      UnionSize(used, active);
      SubsetSize(orphans, hits);
    }
  }

  lemma ShrinkingStaysWithin(c: Config, s: Sys, step: Step, s': Sys, slot: SlotId, hits: set<RequestId>)
    requires AllShrink(s, s') && NoNewOrphans(s, step, s')
    requires slot in c.weeklyLimit && WithinQuota(c, s, slot, hits)
    ensures WithinQuota(c, s', slot, hits + HitsAt(s, step, slot))
  {
    CountedShrinks(s, s', slot);
    SubsetSize(ActiveOn(s'.db, slot), ActiveOn(s.db, slot));
    SubsetSize(Counted(s', slot, s'.clock - WEEK), Counted(s, slot, s.clock - WEEK));
    SubsetSize(hits, hits + HitsAt(s, step, slot));
    forall r | r in Orphans(s', slot) ensures r in hits + HitsAt(s, step, slot) {
      assert r in Orphans(s, slot) || r in HitsAt(s, step, slot);
    }
  }

  lemma StepStaysWithin(c: Config, s: Sys, step: Step, s': Sys, slot: SlotId, hits: set<RequestId>)
    requires Inv(s) && Next(c, s, step, s')
    requires slot in c.weeklyLimit && WithinQuota(c, s, slot, hits)
    ensures WithinQuota(c, s', slot, hits + HitsAt(s, step, slot))
  {
    hide Inv;
    if IsClaim(step) {
      ClaimStaysWithin(c, s, step.p, step.own, s', slot, hits);
      assert HitsAt(s, step, slot) == {};
      assert hits + {} == hits;
    } else {
      StepShrinks(c, s, step, s');
      ShrinkingStaysWithin(c, s, step, s', slot, hits);
    }
  }

  lemma StartsWithin(c: Config, s: Sys, slot: SlotId)
    requires Init(s) && slot in c.weeklyLimit
    ensures WithinQuota(c, s, slot, {})
  {
    assert Counted(s, slot, s.clock - WEEK) == {};
    assert ActiveOn(s.db, slot) == {};
  }

  lemma {:induction false} RunStaysWithin(c: Config, states: seq<Sys>, steps: seq<Step>, slot: SlotId, n: nat)
    requires IsRun(c, states, steps) && slot in c.weeklyLimit && n <= |steps|
    ensures WithinQuota(c, states[n], slot, HitsOf(states, steps, slot, n))
  {
    hide Next, Inv, WithinQuota, HitsAt;
    if n == 0 {
      StartsWithin(c, states[0], slot);
    } else {
      RunStaysWithin(c, states, steps, slot, n - 1);
      RunKeeps(c, states, steps, n - 1);
      StepStaysWithin(c, states[n - 1], steps[n - 1], states[n], slot, HitsOf(states, steps, slot, n - 1));
    }
  }

  lemma StepKeepsCapacity(c: Config, s: Sys, step: Step, s': Sys, slot: SlotId)
    requires Inv(s) && Next(c, s, step, s') && |ActiveOn(s.db, slot)| <= c.maxConcurrent
    ensures |ActiveOn(s'.db, slot)| <= c.maxConcurrent
  {
    hide Inv;
    if IsClaim(step) {
      ClaimEffect(c, s, step.p, step.own, s');
      ClaimCounts(c, s, step.p, step.own, s', slot);
      ClaimCapacity(c, s, s', step.p, step.own, slot);
    } else {
      StepShrinks(c, s, step, s');
      CountedShrinks(s, s', slot);
      SubsetSize(ActiveOn(s'.db, slot), ActiveOn(s.db, slot));
    }
  }

  /** No slot ever has more active requests than configured. */
  lemma {:induction false} CapacityHolds(c: Config, states: seq<Sys>, steps: seq<Step>, slot: SlotId, n: nat)
    requires IsRun(c, states, steps) && n <= |steps|
    ensures |ActiveOn(states[n].db, slot)| <= c.maxConcurrent
  {
    hide Next, Inv;
    if n == 0 {
      assert ActiveOn(states[0].db, slot) == {};
    } else {
      CapacityHolds(c, states, steps, slot, n - 1);
      RunKeeps(c, states, steps, n - 1);
      StepKeepsCapacity(c, states[n - 1], steps[n - 1], states[n], slot);
    }
  }

  // ------------------------------------------------------------------ every window of seven days

  function SentIn(db: Db, slot: SlotId, end: Time): set<RequestId> {
    set r | r in db.recs && db.recs[r].usage.Some? && db.recs[r].usage.value.slot == slot
            && end - WEEK <= db.recs[r].usage.value.sentAt <= end
  }

  lemma {:induction false} WindowBound(c: Config, states: seq<Sys>, steps: seq<Step>, slot: SlotId, n: nat, end: Time)
    requires IsRun(c, states, steps) && slot in c.weeklyLimit && n <= |steps|
    ensures |SentIn(states[n].db, slot, end)| <= Bound(c, slot) + |HitsOf(states, steps, slot, n)|
  {
    hide Next, Inv, HitsAt, SentIn;
    if states[n].clock <= end {
      RunStaysWithin(c, states, steps, slot, n);
      SentInCounts(states[n], slot, end);
    } else if n == 0 {
      NothingSentYet(states[0], slot, end);
    } else {
      WindowBound(c, states, steps, slot, n - 1, end);
      RunKeeps(c, states, steps, n - 1);
      LateStepsAddNothing(c, states[n - 1], steps[n - 1], states[n], slot, end);
      SubsetSize(SentIn(states[n].db, slot, end), SentIn(states[n - 1].db, slot, end));
      SubsetSize(HitsOf(states, steps, slot, n - 1), HitsOf(states, steps, slot, n));
    }
  }

  lemma SentInIs(db: Db, slot: SlotId, end: Time)
    ensures forall r :: r in SentIn(db, slot, end) <==>
              && r in db.recs
              && match db.recs[r].usage
                 case Some(usage) => usage.slot == slot && end - 604_800_000 <= usage.sentAt <= end
                 case None => false
  {
  }

  lemma NothingSentYet(s: Sys, slot: SlotId, end: Time)
    requires Init(s)
    ensures SentIn(s.db, slot, end) == {}
  {
  }

  lemma SentInCounts(s: Sys, slot: SlotId, end: Time)
    requires s.clock <= end
    ensures |SentIn(s.db, slot, end)| <= |Counted(s, slot, s.clock - WEEK)|
  {
    SubsetSize(SentIn(s.db, slot, end), Counted(s, slot, s.clock - WEEK));
  }

  lemma LateStepsAddNothing(c: Config, s: Sys, step: Step, s': Sys, slot: SlotId, end: Time)
    requires Inv(s) && Next(c, s, step, s') && s'.clock > end
    ensures SentIn(s'.db, slot, end) <= SentIn(s.db, slot, end)
  {
    hide Inv;
    if IsClaim(step) {
      ClaimEffect(c, s, step.p, step.own, s');
    } else if step != World(Tick) {
      StepShrinks(c, s, step, s');
      OnlyTicksTakeTime(c, s, step, s');
      NothingSentBefore(s, s', slot, end);
    }
  }

  lemma NothingSentBefore(s: Sys, s': Sys, slot: SlotId, end: Time)
    requires AllShrink(s, s') && s.clock > end
    ensures SentIn(s'.db, slot, end) <= SentIn(s.db, slot, end)
  {
  }

  lemma OnlyTicksTakeTime(c: Config, s: Sys, step: Step, s': Sys)
    requires Next(c, s, step, s') && step != World(Tick)
    ensures s'.clock == s.clock
  {
    hide LifecycleStep, WorldStep, OwnerStep, SendStep, RecoverStep;
    match step
    case Lifecycle(act) => LifecycleTakesNoTime(s, act, s');
    case World(act) => WorldTakesNoTime(s, act, s');
    case _ => ProcessesTakeNoTime(c, s, step, s');
  }

  lemma LifecycleTakesNoTime(s: Sys, act: LifecycleAct, s': Sys)
    requires LifecycleStep(s, act, s')
    ensures s'.clock == s.clock
  {
  }

  lemma WorldTakesNoTime(s: Sys, act: WorldAct, s': Sys)
    requires WorldStep(s, act, s') && act != Tick
    ensures s'.clock == s.clock
  {
  }

  lemma ProcessesTakeNoTime(c: Config, s: Sys, step: Step, s': Sys)
    requires Next(c, s, step, s') && !step.Lifecycle? && !step.World?
    ensures s'.clock == s.clock
  {
    hide OwnerNext, SendNext, RecoverNext, IsChoice;
  }

  /** Unless a creating process failed over a send in flight, no window of seven days exceeds the limit by more than the concurrency minus one. */
  lemma WeeklyBound(c: Config, states: seq<Sys>, steps: seq<Step>, slot: SlotId, n: nat, end: Time)
    requires IsRun(c, states, steps) && slot in c.weeklyLimit && n <= |steps|
    requires forall i, r :: 0 <= i < n ==> !Hits(states[i], steps[i], slot, r)
    ensures |SentIn(states[n].db, slot, end)| <= Bound(c, slot)
    ensures var limit := c.weeklyLimit[slot];
            |SentIn(states[n].db, slot, end)| <= if c.maxConcurrent > 0 then limit + c.maxConcurrent - 1 else if limit > 0 then limit - 1 else 0
  {
    WindowBound(c, states, steps, slot, n, end);
    NoHits(states, steps, slot, n);
  }

  lemma {:induction false} NoHits(states: seq<Sys>, steps: seq<Step>, slot: SlotId, n: nat)
    requires |states| == |steps| + 1 && n <= |steps|
    requires forall i, r :: 0 <= i < n ==> !Hits(states[i], steps[i], slot, r)
    ensures HitsOf(states, steps, slot, n) == {}
  {
    if n > 0 {
      NoHits(states, steps, slot, n - 1);
      assert HitsAt(states[n - 1], steps[n - 1], slot) == {};
    }
  }
}
