// What other processes do to the rows of a request while one owns it: the owner lock leaves them
// nothing but the unlocked `failed` of the creating process.
module Interference {
  import opened Rows
  import opened SendProtocol
  import opened SendSafety
  import Ledger
  import Scheduler

  function Actor(step: Step): Option<Pid> {
    match step
    case Lifecycle(act) => LifecycleActor(act)
    case ByOwner(p, _) => Some(p)
    case BySender(p, _) => Some(p)
    case ByRecovery(p, _) => Some(p)
    case World(_) => None
  }

  function LifecycleActor(act: LifecycleAct): Option<Pid> {
    if act.CreateStaged? then None else Some(act.p)
  }

  predicate OwnedBy(s: Sys, r: RequestId, p: Pid) {
    r in s.owners && s.owners[r] == p && r in s.db.recs
  }

  /** Still owned, and at most failed. */
  predicate LeftAlone(s: Sys, s': Sys, r: RequestId, p: Pid) {
    OwnedBy(s', r, p) && r in s.db.recs && Interfered(s.db.recs[r], s'.db.recs[r])
  }

  /** A process that works on the rows of a request holds its owner lock, so another one works on another request. */
  lemma OthersWorkElsewhere(s: Sys, r: RequestId, p: Pid, q: Pid)
    requires Inv(s) && OwnedBy(s, r, p) && q in s.procs && q != p && HoldsOwner(s.procs[q])
    ensures s.procs[q].r != r
  {
    assert PcOk(s, q);
  }

  lemma ElsewhereLeavesAlone(s: Sys, s0: Sys, r: RequestId, p: Pid, q: Pid, next: Option<Local>, s': Sys)
    requires OwnedBy(s, r, p) && s0.owners == s.owners && s0.db.recs == s.db.recs
    requires LocalStep(s0, q, next, s') && next.value.pc.r != r
    ensures LeftAlone(s, s', r, p)
  {
  }

  lemma OwnerStepLeavesAlone(c: Scheduler.Config, s: Sys, r: RequestId, p: Pid, q: Pid, act: OwnerAct, s': Sys)
    requires Inv(s) && OwnedBy(s, r, p) && q != p && OwnerStep(c, s, q, act, s')
    ensures LeftAlone(s, s', r, p)
  {
    hide Inv, OwnerNext, LeftAlone, OwnedBy;
    var pc := s.procs[q];
    var next := OwnerNext(pc, RecOf(s, pc.r), act, s.clock);
    Ledger.OwnerStays(pc, RecOf(s, pc.r), act, s.clock);
    OthersWorkElsewhere(s, r, p, q);
    var s0 :=
      if act.Claim?
      then s.(db := s.db.(slots := s.db.slots[act.slot := s.db.slots[act.slot].(lastUsedAt := Some(act.now))]))
      else s;
    ElsewhereLeavesAlone(s, s0, r, p, q, next, s');
  }

  lemma SendStepLeavesAlone(s: Sys, r: RequestId, p: Pid, q: Pid, act: SendAct, s': Sys)
    requires Inv(s) && OwnedBy(s, r, p) && q != p && SendStep(s, q, act, s')
    ensures LeftAlone(s, s', r, p)
  {
    hide Inv, SendNext, LeftAlone, OwnedBy;
    var pc := s.procs[q];
    var next := SendNext(pc, RecOf(s, pc.r), act, s.clock);
    Ledger.SendStays(pc, RecOf(s, pc.r), act, s.clock);
    OthersWorkElsewhere(s, r, p, q);
    var s0 := if act.CallSend? then s.(ops := s.ops[(pc.r, pc.no) := SendOp(Queued, None, {}, None)]) else s;
    ElsewhereLeavesAlone(s, s0, r, p, q, next, s');
  }

  lemma RecoverStepLeavesAlone(s: Sys, r: RequestId, p: Pid, q: Pid, act: RecoverAct, s': Sys)
    requires Inv(s) && OwnedBy(s, r, p) && q != p && RecoverStep(s, q, act, s')
    ensures LeftAlone(s, s', r, p)
  {
    hide Inv, RecoverNext, Faithful, LeftAlone, OwnedBy;
    var pc := s.procs[q];
    var next := RecoverNext(pc, RecOf(s, pc.r), act, s.clock);
    Ledger.RecoverStays(pc, RecOf(s, pc.r), act, s.clock);
    OthersWorkElsewhere(s, r, p, q);
    ElsewhereLeavesAlone(s, s, r, p, q, next, s');
  }

  lemma LifecycleLeavesAlone(s: Sys, r: RequestId, p: Pid, act: LifecycleAct, s': Sys)
    requires Inv(s) && OwnedBy(s, r, p) && LifecycleStep(s, act, s') && LifecycleActor(act) != Some(p)
    ensures LeftAlone(s, s', r, p)
  {
    hide Inv;
    if LifecycleActor(act).Some? && act.p in s.procs && HoldsOwner(s.procs[act.p]) {
      OthersWorkElsewhere(s, r, p, act.p);
    }
  }

  lemma WorldLeavesAlone(s: Sys, r: RequestId, p: Pid, act: WorldAct, s': Sys)
    requires OwnedBy(s, r, p) && WorldStep(s, act, s')
    ensures LeftAlone(s, s', r, p)
  {
  }

  /** A step of anybody else leaves the attempts and the slot of an owned request, and its status unless it is failed. */
  lemma OthersOnlyFail(c: Scheduler.Config, s: Sys, step: Step, s': Sys, r: RequestId, p: Pid)
    requires Inv(s) && Next(c, s, step, s') && OwnedBy(s, r, p) && Actor(step) != Some(p)
    ensures LeftAlone(s, s', r, p)
  {
    hide Inv, LifecycleStep, WorldStep, OwnerStep, SendStep, RecoverStep, LeftAlone, OwnedBy;
    match step
    case Lifecycle(act) => LifecycleLeavesAlone(s, r, p, act, s');
    case World(act) => WorldLeavesAlone(s, r, p, act, s');
    case ByOwner(q, act) => OwnerStepLeavesAlone(c, s, r, p, q, act, s');
    case BySender(q, act) => SendStepLeavesAlone(s, r, p, q, act, s');
    case ByRecovery(q, act) => RecoverStepLeavesAlone(s, r, p, q, act, s');
  }

  /** Between two moments of a run in which the owner takes no step, the others leave it what `Interfered` says. */
  lemma {:induction false} InterferenceInRuns(
    c: Scheduler.Config, states: seq<Sys>, steps: seq<Step>, m: nat, n: nat, r: RequestId, p: Pid)
    requires IsRun(c, states, steps) && m <= n <= |steps| && OwnedBy(states[m], r, p)
    requires forall i :: m <= i < n ==> Actor(steps[i]) != Some(p)
    ensures LeftAlone(states[m], states[n], r, p)
    decreases n
  {
    hide Next, Inv, Actor;
    if m < n {
      InterferenceInRuns(c, states, steps, m, n - 1, r, p);
      RunKeeps(c, states, steps, n - 1);
      OthersOnlyFail(c, states[n - 1], steps[n - 1], states[n], r, p);
    }
  }
}
