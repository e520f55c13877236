// Stopping a slot's container: never under a live owner that is using it, nor under a
// maintenance client.
//
// The list of active requests is read once, so a claim made after it is not on it. What
// makes the stop safe is that such a claimer still has to pass the control lock to connect.
module StopSafety {
  import opened Rows

  type Pid = nat

  datatype Row = Row(active: bool, slot: Option<SlotId>)

  /**
   * What a process is doing to a slot's runtime. From Probing to Leaving it holds the activity lock, from Listing to
   * Testing the control lock, and the owner locks it has probed until it frees them one by one.
   */
  datatype Task =
    | Free
    | Ensuring(slot: SlotId)
    | Probing(slot: SlotId)
    | Listing(slot: SlotId)
    | Testing(slot: SlotId, rest: seq<RequestId>, probes: set<RequestId>)
    | Leaving(slot: SlotId, probes: set<RequestId>)

  /** `owned` is the request whose owner lock the process holds for its own work, `client` the slot it is connected to. */
  datatype Proc = Proc(owned: Option<RequestId>, maintains: Option<SlotId>, client: Option<SlotId>, task: Task)

  datatype Sys = Sys(
    rows: map<RequestId, Row>,
    procs: map<Pid, Proc>,
    owners: map<RequestId, Pid>,
    control: map<SlotId, Pid>,
    activity: map<SlotId, Pid>,
    running: set<SlotId>)

  datatype Step =
    | Create(r: RequestId)
    | Begin(p: Pid)
    | TakeOwner(p: Pid, r: RequestId)
    | LeaveOwner(p: Pid)
    | TakeActivity(p: Pid, slot: SlotId)
    | LeaveActivity(p: Pid)
    | Claim(p: Pid, slot: SlotId)
    | Settle(r: RequestId)
    | DropSlot(p: Pid)
    | StartEnsure(p: Pid, slot: SlotId)
    | EndEnsure(p: Pid)
    | Close(p: Pid)
    | Probe(p: Pid, slot: SlotId)
    | TakeControl(p: Pid)
    | List(p: Pid, ids: seq<RequestId>)
    | Test(p: Pid)
    | Stop(p: Pid)
    | LeaveControl(p: Pid)
    | FreeProbe(p: Pid, r: RequestId)
    | FreeActivity(p: Pid)
    | End(p: Pid)

  predicate OnSlot(row: Row, slot: SlotId) {
    row.active && row.slot == Some(slot)
  }

  predicate Holds(m: map<nat, Pid>, key: nat, p: Pid) {
    key in m && m[key] == p
  }

  /** The locks of p are freed. */
  function Without(m: map<nat, Pid>, p: Pid): map<nat, Pid> {
    map key | key in m && m[key] != p :: m[key]
  }

  function SetProc(s: Sys, p: Pid, proc: Proc): Sys {
    s.(procs := s.procs[p := proc])
  }

  /** The process works for an active request of its own on the slot. */
  predicate WorksOn(s: Sys, p: Pid, slot: SlotId) {
    && p in s.procs && s.procs[p].owned.Some? && s.procs[p].owned.value in s.rows
    && OnSlot(s.rows[s.procs[p].owned.value], slot)
  }

  /** p uses the container of `slot` for an active request of its own or under the activity lock. */
  predicate Needs(s: Sys, p: Pid, slot: SlotId) {
    p in s.procs && s.procs[p].client == Some(slot) && (s.procs[p].maintains == Some(slot) || WorksOn(s, p, slot))
  }

  /** Not connected, ensuring or stopping. */
  predicate AtRest(s: Sys, p: Pid) {
    p in s.procs && s.procs[p].task.Free? && s.procs[p].client.None?
  }

  /** Taking and leaving locks and slots. */
  predicate NextOwn(s: Sys, step: Step, s': Sys) {
    match step
    case Create(r) => r !in s.rows && s' == s.(rows := s.rows[r := Row(true, None)])
    case Begin(p) => p !in s.procs && s' == SetProc(s, p, Proc(None, None, None, Free))
    case TakeOwner(p, r) =>
      && AtRest(s, p) && s.procs[p].owned.None? && s.procs[p].maintains.None?
      && r in s.rows && r !in s.owners
      && s' == SetProc(s, p, s.procs[p].(owned := Some(r))).(owners := s.owners[r := p])
    // a client whose request has failed may still be open
    case LeaveOwner(p) =>
      && p in s.procs && s.procs[p].task.Free? && s.procs[p].owned.Some?
      && s' == SetProc(s, p, s.procs[p].(owned := None)).(owners := s.owners - {s.procs[p].owned.value})
    case TakeActivity(p, slot) =>
      && AtRest(s, p) && s.procs[p].owned.None? && s.procs[p].maintains.None? && slot !in s.activity
      && s' == SetProc(s, p, s.procs[p].(maintains := Some(slot))).(activity := s.activity[slot := p])
    case LeaveActivity(p) =>
      && AtRest(s, p) && s.procs[p].maintains.Some?
      && s' == SetProc(s, p, s.procs[p].(maintains := None)).(activity := s.activity - {s.procs[p].maintains.value})
    // an owner claims before it connects to anything
    case Claim(p, slot) =>
      && AtRest(s, p) && s.procs[p].owned.Some? && s.procs[p].owned.value in s.rows
      && var r := s.procs[p].owned.value;
      && s.rows[r].active && s.rows[r].slot.None?
      && s' == s.(rows := s.rows[r := s.rows[r].(slot := Some(slot))])
    // completed, failed or waiting for the user; also the unlocked write of a creating process
    case Settle(r) => r in s.rows && s' == s.(rows := s.rows[r := s.rows[r].(active := false)])
    case DropSlot(p) =>
      && p in s.procs && s.procs[p].task.Free? && s.procs[p].owned.Some? && s.procs[p].owned.value in s.rows
      && s' == s.(rows := s.rows[s.procs[p].owned.value := Row(true, None)])
    // a process ends or crashes, and all its locks are freed
    case End(p) =>
      && p in s.procs
      && s' == s.(procs := s.procs - {p}, owners := Without(s.owners, p), control := Without(s.control, p),
                  activity := Without(s.activity, p))
    case _ => false
  }

  /** Connecting to a slot, for a request on it or for maintenance. */
  predicate NextConnect(unmanaged: set<SlotId>, s: Sys, step: Step, s': Sys) {
    match step
    case StartEnsure(p, slot) =>
      && AtRest(s, p)
      && (|| (s.procs[p].owned.Some? && s.procs[p].owned.value in s.rows && s.rows[s.procs[p].owned.value].slot == Some(slot))
          || s.procs[p].maintains == Some(slot))
      && (if slot in unmanaged then s' == SetProc(s, p, s.procs[p].(client := Some(slot)))
          else slot !in s.control
               && s' == SetProc(s, p, s.procs[p].(task := Ensuring(slot))).(control := s.control[slot := p]))
    case EndEnsure(p) =>
      && p in s.procs && s.procs[p].task.Ensuring?
      && var slot := s.procs[p].task.slot;
      s' == SetProc(s, p, s.procs[p].(client := Some(slot), task := Free))
            .(control := s.control - {slot}, running := s.running + {slot})
    case Close(p) => p in s.procs && s.procs[p].task.Free? && s' == SetProc(s, p, s.procs[p].(client := None))
    case _ => false
  }

  /** Stopping a slot's runtime unless a live owner is found. */
  predicate NextStop(unmanaged: set<SlotId>, s: Sys, step: Step, s': Sys) {
    match step
    // whoever still has a client open has failed its request before
    case Probe(p, slot) =>
      && p in s.procs && s.procs[p].task.Free? && slot !in unmanaged && slot !in s.activity
      && (s.procs[p].client.Some? ==> !Needs(s, p, s.procs[p].client.value))
      && s' == SetProc(s, p, s.procs[p].(task := Probing(slot))).(activity := s.activity[slot := p])
    case TakeControl(p) =>
      && p in s.procs && s.procs[p].task.Probing?
      && var slot := s.procs[p].task.slot;
      && slot !in s.control
      && s' == SetProc(s, p, s.procs[p].(task := Listing(slot))).(control := s.control[slot := p])
    case List(p, ids) =>
      && p in s.procs && s.procs[p].task.Listing?
      && var slot := s.procs[p].task.slot;
      && (forall r :: r in s.rows && OnSlot(s.rows[r], slot) ==> r in ids)
      && s' == SetProc(s, p, s.procs[p].(task := Testing(slot, ids, {})))
    // the excluded request is the one the process owns; a lock held elsewhere makes it abandon
    case Test(p) =>
      && p in s.procs && s.procs[p].task.Testing? && s.procs[p].task.rest != []
      && var task := s.procs[p].task;
      var r := task.rest[0];
      if s.procs[p].owned == Some(r) then s' == SetProc(s, p, s.procs[p].(task := task.(rest := task.rest[1..])))
      else
        && r !in s.owners
        && s' == SetProc(s, p, s.procs[p].(task := task.(rest := task.rest[1..], probes := task.probes + {r})))
                 .(owners := s.owners[r := p])
    case Stop(p) =>
      && p in s.procs && s.procs[p].task.Testing? && s.procs[p].task.rest == []
      && s' == s.(running := s.running - {s.procs[p].task.slot})
    // after the stop, or abandoning it at any point
    case LeaveControl(p) =>
      && p in s.procs && (s.procs[p].task.Probing? || s.procs[p].task.Listing? || s.procs[p].task.Testing?)
      && var task := s.procs[p].task;
      s' == SetProc(s, p, s.procs[p].(task := Leaving(task.slot, if task.Testing? then task.probes else {})))
            .(control := if task.Probing? then s.control else s.control - {task.slot})
    case FreeProbe(p, r) =>
      && p in s.procs && s.procs[p].task.Leaving? && r in s.procs[p].task.probes
      && var task := s.procs[p].task;
      s' == SetProc(s, p, s.procs[p].(task := task.(probes := task.probes - {r}))).(owners := s.owners - {r})
    case FreeActivity(p) =>
      && p in s.procs && s.procs[p].task.Leaving? && s.procs[p].task.probes == {}
      && s' == SetProc(s, p, s.procs[p].(task := Free)).(activity := s.activity - {s.procs[p].task.slot})
    case _ => false
  }

  predicate Next(unmanaged: set<SlotId>, s: Sys, step: Step, s': Sys) {
    NextOwn(s, step, s') || NextConnect(unmanaged, s, step, s') || NextStop(unmanaged, s, step, s')
  }

  predicate Init(s: Sys) {
    s.rows == map[] && s.procs == map[] && s.owners == map[] && s.control == map[] && s.activity == map[]
  }

  ghost predicate IsRun(unmanaged: set<SlotId>, states: seq<Sys>, steps: seq<Step>) {
    && |states| == |steps| + 1 && Init(states[0])
    && forall i :: 0 <= i < |steps| ==> Next(unmanaged, states[i], steps[i], states[i + 1])
  }

  // ------------------------------------------------------------------ the invariant

  predicate InControl(task: Task) {
    task.Ensuring? || task.Listing? || task.Testing?
  }

  predicate InActivity(task: Task) {
    task.Probing? || task.Listing? || task.Testing? || task.Leaving?
  }

  function ProbesOf(task: Task): set<RequestId> {
    if task.Testing? || task.Leaving? then task.probes else {}
  }

  predicate ProbesHeld(owners: map<RequestId, Pid>, p: Pid, owned: Option<RequestId>, probes: set<RequestId>) {
    forall r :: r in probes ==> Holds(owners, r, p) && owned != Some(r)
  }

  predicate LocksHeld(s: Sys, p: Pid) {
    p in s.procs &&
    var proc := s.procs[p];
    && (proc.owned.Some? ==> Holds(s.owners, proc.owned.value, p))
    && (proc.maintains.Some? ==> Holds(s.activity, proc.maintains.value, p))
    && (InControl(proc.task) ==> Holds(s.control, proc.task.slot, p))
    && (InActivity(proc.task) ==> Holds(s.activity, proc.task.slot, p) && proc.maintains != Some(proc.task.slot))
    && ProbesHeld(s.owners, p, proc.owned, ProbesOf(proc.task))
  }

  /** Who is about to stop a container has no need of the one it is connected to, and is not about to connect. */
  predicate Idle(unmanaged: set<SlotId>, s: Sys, p: Pid) {
    p in s.procs && (InActivity(s.procs[p].task) ==>
      && s.procs[p].task.slot !in unmanaged
      && (s.procs[p].client.Some? ==> !Needs(s, p, s.procs[p].client.value)))
    && (s.procs[p].task.Ensuring? ==> s.procs[p].client.None?)
  }

  /** Whoever is using a listed slot for an active request is still to be tested. */
  predicate ListCovers(s: Sys, q: Pid, p: Pid) {
    q in s.procs && s.procs[q].task.Testing? && WorksOn(s, p, s.procs[q].task.slot)
    && s.procs[p].client == Some(s.procs[q].task.slot) ==>
      s.procs[p].owned.value in s.procs[q].task.rest
  }

  predicate Served(unmanaged: set<SlotId>, s: Sys, p: Pid, slot: SlotId) {
    Needs(s, p, slot) && slot !in unmanaged ==> slot in s.running
  }

  ghost predicate Inv(unmanaged: set<SlotId>, s: Sys) {
    && (forall p {:trigger LocksHeld(s, p)} :: p in s.procs ==> LocksHeld(s, p))
    && (forall p {:trigger Idle(unmanaged, s, p)} :: p in s.procs ==> Idle(unmanaged, s, p))
    && (forall q, p {:trigger ListCovers(s, q, p)} :: ListCovers(s, q, p))
    && (forall p, slot {:trigger Served(unmanaged, s, p, slot)} :: Served(unmanaged, s, p, slot))
  }

  /** Nobody needs the container a tester is about to stop. */
  lemma NobodyNeedsIt(unmanaged: set<SlotId>, s: Sys, q: Pid, p: Pid)
    requires q in s.procs && LocksHeld(s, q) && (p in s.procs ==> LocksHeld(s, p)) && ListCovers(s, q, p)
    requires s.procs[q].task.Testing? && s.procs[q].task.rest == []
    ensures !Needs(s, p, s.procs[q].task.slot)
  {
  }

  function Actor(step: Step): Option<Pid> {
    match step
    case Create(_) => None
    case Settle(_) => None
    case _ => Some(step.p)
  }

  /** What the invariant says of the process that takes the step. */
  ghost predicate ActorOk(unmanaged: set<SlotId>, s: Sys, step: Step) {
    Actor(step).Some? && Actor(step).value in s.procs ==>
      LocksHeld(s, Actor(step).value) && Idle(unmanaged, s, Actor(step).value)
  }

  // ------------------------------------------------------------------ locks

  predicate IsTaking(step: Step) {
    step.Begin? || step.TakeOwner? || step.TakeActivity?
  }

  predicate IsLeaving(step: Step) {
    step.LeaveOwner? || step.LeaveActivity?
  }

  lemma TakingKeepsLocks(unmanaged: set<SlotId>, s: Sys, step: Step, s': Sys, p: Pid)
    requires NextOwn(s, step, s') && IsTaking(step) && p in s'.procs && ActorOk(unmanaged, s, step)
    requires p in s.procs ==> LocksHeld(s, p)
    ensures LocksHeld(s', p)
  {
  }

  lemma ReturningKeepsLocks(unmanaged: set<SlotId>, s: Sys, step: Step, s': Sys, p: Pid)
    requires NextOwn(s, step, s') && IsLeaving(step) && p in s'.procs && ActorOk(unmanaged, s, step)
    requires p in s.procs ==> LocksHeld(s, p)
    ensures LocksHeld(s', p)
  {
  }

  lemma EndKeepsLocks(unmanaged: set<SlotId>, s: Sys, step: Step, s': Sys, p: Pid)
    requires NextOwn(s, step, s') && step.End? && p in s'.procs && ActorOk(unmanaged, s, step)
    requires p in s.procs ==> LocksHeld(s, p)
    ensures LocksHeld(s', p)
  {
  }

  lemma RowStepKeepsLocks(unmanaged: set<SlotId>, s: Sys, step: Step, s': Sys, p: Pid)
    requires NextOwn(s, step, s') && !IsTaking(step) && !IsLeaving(step) && !step.End? && p in s'.procs && ActorOk(unmanaged, s, step)
    requires p in s.procs ==> LocksHeld(s, p)
    ensures LocksHeld(s', p)
  {
    hide ProbesHeld;
  }

  lemma OwnStepKeepsLocks(unmanaged: set<SlotId>, s: Sys, step: Step, s': Sys, p: Pid)
    requires NextOwn(s, step, s') && p in s'.procs && ActorOk(unmanaged, s, step)
    requires p in s.procs ==> LocksHeld(s, p)
    ensures LocksHeld(s', p)
  {
    hide LocksHeld, ActorOk, NextOwn;
    if IsTaking(step) {
      TakingKeepsLocks(unmanaged, s, step, s', p);
    } else if IsLeaving(step) {
      ReturningKeepsLocks(unmanaged, s, step, s', p);
    } else if step.End? {
      EndKeepsLocks(unmanaged, s, step, s', p);
    } else {
      RowStepKeepsLocks(unmanaged, s, step, s', p);
    }
  }

  lemma EnsureKeepsLocks(unmanaged: set<SlotId>, s: Sys, step: Step, s': Sys, p: Pid)
    requires NextConnect(unmanaged, s, step, s') && step.EndEnsure? && p in s'.procs && ActorOk(unmanaged, s, step)
    requires p in s.procs ==> LocksHeld(s, p)
    ensures LocksHeld(s', p)
  {
    hide ProbesHeld;
  }

  lemma StartKeepsLocks(unmanaged: set<SlotId>, s: Sys, step: Step, s': Sys, p: Pid)
    requires NextConnect(unmanaged, s, step, s') && step.StartEnsure? && p in s'.procs && ActorOk(unmanaged, s, step)
    requires p in s.procs ==> LocksHeld(s, p)
    ensures LocksHeld(s', p)
  {
    hide ProbesHeld;
  }

  lemma CloseKeepsLocks(unmanaged: set<SlotId>, s: Sys, step: Step, s': Sys, p: Pid)
    requires NextConnect(unmanaged, s, step, s') && step.Close? && p in s'.procs && ActorOk(unmanaged, s, step)
    requires p in s.procs ==> LocksHeld(s, p)
    ensures LocksHeld(s', p)
  {
    hide ProbesHeld;
  }

  lemma ConnectKeepsLocks(unmanaged: set<SlotId>, s: Sys, step: Step, s': Sys, p: Pid)
    requires NextConnect(unmanaged, s, step, s') && p in s'.procs && ActorOk(unmanaged, s, step)
    requires p in s.procs ==> LocksHeld(s, p)
    ensures LocksHeld(s', p)
  {
    hide LocksHeld, ActorOk;
    if step.EndEnsure? {
      EnsureKeepsLocks(unmanaged, s, step, s', p);
    } else if step.StartEnsure? {
      StartKeepsLocks(unmanaged, s, step, s', p);
    } else {
      CloseKeepsLocks(unmanaged, s, step, s', p);
    }
  }

  lemma ProbeKeepsLocks(unmanaged: set<SlotId>, s: Sys, step: Step, s': Sys, p: Pid)
    requires NextStop(unmanaged, s, step, s') && (step.Probe? || step.TakeControl? || step.List?) && p in s'.procs && ActorOk(unmanaged, s, step)
    requires p in s.procs ==> LocksHeld(s, p)
    ensures LocksHeld(s', p)
  {
  }

  lemma TestKeepsLocks(unmanaged: set<SlotId>, s: Sys, step: Step, s': Sys, p: Pid)
    requires NextStop(unmanaged, s, step, s') && (step.Test? || step.Stop?) && p in s'.procs && ActorOk(unmanaged, s, step)
    requires p in s.procs ==> LocksHeld(s, p)
    ensures LocksHeld(s', p)
  {
  }

  lemma LeavingKeepsLocks(unmanaged: set<SlotId>, s: Sys, step: Step, s': Sys, p: Pid)
    requires NextStop(unmanaged, s, step, s') && step.LeaveControl? && p in s'.procs && ActorOk(unmanaged, s, step)
    requires p in s.procs ==> LocksHeld(s, p)
    ensures LocksHeld(s', p)
  {
  }

  lemma FreeingKeepsLocks(unmanaged: set<SlotId>, s: Sys, step: Step, s': Sys, p: Pid)
    requires NextStop(unmanaged, s, step, s') && (step.FreeProbe? || step.FreeActivity?) && p in s'.procs && ActorOk(unmanaged, s, step)
    requires p in s.procs ==> LocksHeld(s, p)
    ensures LocksHeld(s', p)
  {
  }

  lemma StopKeepsLocks(unmanaged: set<SlotId>, s: Sys, step: Step, s': Sys, p: Pid)
    requires NextStop(unmanaged, s, step, s') && p in s'.procs && ActorOk(unmanaged, s, step)
    requires p in s.procs ==> LocksHeld(s, p)
    ensures LocksHeld(s', p)
  {
    hide LocksHeld, ActorOk;
    if step.Probe? || step.TakeControl? || step.List? {
      ProbeKeepsLocks(unmanaged, s, step, s', p);
    } else if step.Test? || step.Stop? {
      TestKeepsLocks(unmanaged, s, step, s', p);
    } else if step.LeaveControl? {
      LeavingKeepsLocks(unmanaged, s, step, s', p);
    } else {
      FreeingKeepsLocks(unmanaged, s, step, s', p);
    }
  }

  // ------------------------------------------------------------------ who stops needs nothing

  lemma OwnStepStaysIdle(unmanaged: set<SlotId>, s: Sys, step: Step, s': Sys, p: Pid)
    requires NextOwn(s, step, s') && p in s'.procs && ActorOk(unmanaged, s, step)
    requires p in s.procs ==> LocksHeld(s, p) && Idle(unmanaged, s, p)
    ensures Idle(unmanaged, s', p)
  {
    hide ProbesHeld;
  }

  lemma ConnectStaysIdle(unmanaged: set<SlotId>, s: Sys, step: Step, s': Sys, p: Pid)
    requires NextConnect(unmanaged, s, step, s') && p in s'.procs && ActorOk(unmanaged, s, step)
    requires p in s.procs ==> LocksHeld(s, p) && Idle(unmanaged, s, p)
    ensures Idle(unmanaged, s', p)
  {
    hide ProbesHeld;
  }

  lemma TestStaysIdle(unmanaged: set<SlotId>, s: Sys, step: Step, s': Sys, p: Pid)
    requires NextStop(unmanaged, s, step, s') && (step.List? || step.Test? || step.Stop?) && p in s'.procs && ActorOk(unmanaged, s, step)
    requires p in s.procs ==> LocksHeld(s, p) && Idle(unmanaged, s, p)
    ensures Idle(unmanaged, s', p)
  {
    hide ProbesHeld;
  }

  lemma OtherStopStaysIdle(unmanaged: set<SlotId>, s: Sys, step: Step, s': Sys, p: Pid)
    requires NextStop(unmanaged, s, step, s') && !step.List? && !step.Test? && !step.Stop? && p in s'.procs && ActorOk(unmanaged, s, step)
    requires p in s.procs ==> LocksHeld(s, p) && Idle(unmanaged, s, p)
    ensures Idle(unmanaged, s', p)
  {
    hide ProbesHeld;
  }

  lemma StopStaysIdle(unmanaged: set<SlotId>, s: Sys, step: Step, s': Sys, p: Pid)
    requires NextStop(unmanaged, s, step, s') && p in s'.procs && ActorOk(unmanaged, s, step)
    requires p in s.procs ==> LocksHeld(s, p) && Idle(unmanaged, s, p)
    ensures Idle(unmanaged, s', p)
  {
    hide LocksHeld, ActorOk, Idle, NextStop;
    if step.List? || step.Test? || step.Stop? {
      TestStaysIdle(unmanaged, s, step, s', p);
    } else {
      OtherStopStaysIdle(unmanaged, s, step, s', p);
    }
  }

  lemma StaysIdle(unmanaged: set<SlotId>, s: Sys, step: Step, s': Sys, p: Pid)
    requires Next(unmanaged, s, step, s') && p in s'.procs && ActorOk(unmanaged, s, step)
    requires p in s.procs ==> LocksHeld(s, p) && Idle(unmanaged, s, p)
    ensures Idle(unmanaged, s', p)
  {
    hide NextOwn, NextConnect, NextStop, LocksHeld, ActorOk, Idle;
    if NextOwn(s, step, s') {
      OwnStepStaysIdle(unmanaged, s, step, s', p);
    } else if NextConnect(unmanaged, s, step, s') {
      ConnectStaysIdle(unmanaged, s, step, s', p);
    } else {
      StopStaysIdle(unmanaged, s, step, s', p);
    }
  }

  // ------------------------------------------------------------------ the list covers the users

  lemma OwnStepKeepsCover(unmanaged: set<SlotId>, s: Sys, step: Step, s': Sys, q: Pid, p: Pid)
    requires NextOwn(s, step, s') && ListCovers(s, q, p) && ActorOk(unmanaged, s, step)
    requires (p in s.procs ==> LocksHeld(s, p)) && (q in s.procs ==> Idle(unmanaged, s, q))
    ensures ListCovers(s', q, p)
  {
    hide ProbesHeld;
  }

  lemma ConnectKeepsCover(unmanaged: set<SlotId>, s: Sys, step: Step, s': Sys, q: Pid, p: Pid)
    requires NextConnect(unmanaged, s, step, s') && ListCovers(s, q, p) && ActorOk(unmanaged, s, step)
    requires q in s.procs ==> LocksHeld(s, q) && Idle(unmanaged, s, q)
    ensures ListCovers(s', q, p)
  {
    hide ProbesHeld;
  }

  lemma StopKeepsCover(unmanaged: set<SlotId>, s: Sys, step: Step, s': Sys, q: Pid, p: Pid)
    requires NextStop(unmanaged, s, step, s') && ListCovers(s, q, p) && ActorOk(unmanaged, s, step)
    requires p in s.procs ==> LocksHeld(s, p) && Idle(unmanaged, s, p)
    ensures ListCovers(s', q, p)
  {
  }

  // ------------------------------------------------------------------ users are served

  lemma OwnStepNeeds(unmanaged: set<SlotId>, s: Sys, step: Step, s': Sys, p: Pid, slot: SlotId)
    requires NextOwn(s, step, s') && Needs(s', p, slot)
    requires ActorOk(unmanaged, s, step) && (p in s.procs ==> LocksHeld(s, p))
    ensures Needs(s, p, slot)
  {
    hide ProbesHeld;
  }

  lemma ConnectNeeds(unmanaged: set<SlotId>, s: Sys, step: Step, s': Sys, p: Pid, slot: SlotId)
    requires NextConnect(unmanaged, s, step, s') && Needs(s', p, slot) && slot !in unmanaged
    ensures (step.EndEnsure? && slot in s'.running) || Needs(s, p, slot)
  {
  }

  lemma StopNeeds(unmanaged: set<SlotId>, s: Sys, step: Step, s': Sys, p: Pid, slot: SlotId)
    requires NextStop(unmanaged, s, step, s') && Needs(s', p, slot)
    ensures Needs(s, p, slot)
  {
  }

  /** Only ensuring makes a process need a container. */
  lemma NeedsWereNeeds(unmanaged: set<SlotId>, s: Sys, step: Step, s': Sys, p: Pid, slot: SlotId)
    requires Next(unmanaged, s, step, s') && Needs(s', p, slot) && slot !in unmanaged
    requires ActorOk(unmanaged, s, step) && (p in s.procs ==> LocksHeld(s, p))
    ensures (step.EndEnsure? && slot in s'.running) || Needs(s, p, slot)
  {
    hide NextOwn, NextConnect, NextStop, LocksHeld, ActorOk, Needs;
    if NextOwn(s, step, s') {
      OwnStepNeeds(unmanaged, s, step, s', p, slot);
    } else if NextConnect(unmanaged, s, step, s') {
      ConnectNeeds(unmanaged, s, step, s', p, slot);
    } else {
      StopNeeds(unmanaged, s, step, s', p, slot);
    }
  }

  lemma OwnStepLeavesRunning(s: Sys, step: Step, s': Sys)
    requires NextOwn(s, step, s')
    ensures s'.running == s.running
  {
  }

  lemma ConnectingStopsNothing(unmanaged: set<SlotId>, s: Sys, step: Step, s': Sys)
    requires NextConnect(unmanaged, s, step, s')
    ensures s.running <= s'.running
  {
  }

  /** Only stopping takes a container down. */
  lemma OnlyStopStops(unmanaged: set<SlotId>, s: Sys, step: Step, s': Sys, slot: SlotId)
    requires Next(unmanaged, s, step, s') && slot in s.running && slot !in s'.running
    ensures step.Stop? && step.p in s.procs
    ensures s.procs[step.p].task == Testing(slot, [], s.procs[step.p].task.probes)
  {
    hide NextOwn, NextConnect;
    if NextOwn(s, step, s') {
      OwnStepLeavesRunning(s, step, s');
    } else if NextConnect(unmanaged, s, step, s') {
      ConnectingStopsNothing(unmanaged, s, step, s');
    }
  }

  lemma StaysServed(unmanaged: set<SlotId>, s: Sys, step: Step, s': Sys, p: Pid, slot: SlotId)
    requires Inv(unmanaged, s) && Next(unmanaged, s, step, s')
    ensures Served(unmanaged, s', p, slot)
  {
    hide Next, ListCovers, LocksHeld, Idle, Needs;
    if Needs(s', p, slot) && slot !in unmanaged && slot !in s'.running {
      assert ActorOk(unmanaged, s, step) && (p in s.procs ==> LocksHeld(s, p));
      NeedsWereNeeds(unmanaged, s, step, s', p, slot);
      assert Served(unmanaged, s, p, slot);
      OnlyStopStops(unmanaged, s, step, s', slot);
      assert LocksHeld(s, step.p) && (p in s.procs ==> LocksHeld(s, p)) && ListCovers(s, step.p, p);
      NobodyNeedsIt(unmanaged, s, step.p, p);
    }
  }

  // ------------------------------------------------------------------ every step, every run

  lemma LocksKept(unmanaged: set<SlotId>, s: Sys, step: Step, s': Sys, p: Pid)
    requires Next(unmanaged, s, step, s') && p in s'.procs && ActorOk(unmanaged, s, step) && (p in s.procs ==> LocksHeld(s, p))
    ensures LocksHeld(s', p)
  {
    hide NextOwn, NextConnect, NextStop, LocksHeld, ActorOk;
    if NextOwn(s, step, s') {
      OwnStepKeepsLocks(unmanaged, s, step, s', p);
    } else if NextConnect(unmanaged, s, step, s') {
      ConnectKeepsLocks(unmanaged, s, step, s', p);
    } else {
      StopKeepsLocks(unmanaged, s, step, s', p);
    }
  }

  lemma CoverKept(unmanaged: set<SlotId>, s: Sys, step: Step, s': Sys, q: Pid, p: Pid)
    requires Next(unmanaged, s, step, s') && ListCovers(s, q, p) && ActorOk(unmanaged, s, step)
    requires p in s.procs ==> LocksHeld(s, p) && Idle(unmanaged, s, p)
    requires q in s.procs ==> LocksHeld(s, q) && Idle(unmanaged, s, q)
    ensures ListCovers(s', q, p)
  {
    hide NextOwn, NextConnect, NextStop, LocksHeld, ActorOk, ListCovers, Idle;
    if NextOwn(s, step, s') {
      OwnStepKeepsCover(unmanaged, s, step, s', q, p);
    } else if NextConnect(unmanaged, s, step, s') {
      ConnectKeepsCover(unmanaged, s, step, s', q, p);
    } else {
      StopKeepsCover(unmanaged, s, step, s', q, p);
    }
  }

  lemma NextKeeps(unmanaged: set<SlotId>, s: Sys, step: Step, s': Sys)
    requires Inv(unmanaged, s) && Next(unmanaged, s, step, s')
    ensures Inv(unmanaged, s')
  {
    hide ListCovers, LocksHeld, Next, Idle, Served;
    assert ActorOk(unmanaged, s, step);
    forall p | p in s'.procs ensures LocksHeld(s', p) && Idle(unmanaged, s', p) {
      assert p in s.procs ==> LocksHeld(s, p) && Idle(unmanaged, s, p);
      LocksKept(unmanaged, s, step, s', p);
      StaysIdle(unmanaged, s, step, s', p);
    }
    forall q, p ensures ListCovers(s', q, p) {
      assert p in s.procs ==> LocksHeld(s, p) && Idle(unmanaged, s, p);
      assert q in s.procs ==> LocksHeld(s, q) && Idle(unmanaged, s, q);
      assert ListCovers(s, q, p);
      CoverKept(unmanaged, s, step, s', q, p);
    }
    forall p, slot ensures Served(unmanaged, s', p, slot) {
      StaysServed(unmanaged, s, step, s', p, slot);
    }
  }

  lemma InitEstablishes(unmanaged: set<SlotId>, s: Sys)
    requires Init(s)
    ensures Inv(unmanaged, s)
  {
  }

  lemma {:induction false} RunKeeps(unmanaged: set<SlotId>, states: seq<Sys>, steps: seq<Step>, n: nat)
    requires IsRun(unmanaged, states, steps) && n <= |steps|
    ensures Inv(unmanaged, states[n])
  {
    hide Next, Inv;
    if n == 0 {
      InitEstablishes(unmanaged, states[0]);
    } else {
      RunKeeps(unmanaged, states, steps, n - 1);
      NextKeeps(unmanaged, states[n - 1], steps[n - 1], states[n]);
    }
  }

  /** No step of any run stops a container that a live owner of an active request, or a maintenance client, is using. */
  lemma StopSparesUsers(unmanaged: set<SlotId>, states: seq<Sys>, steps: seq<Step>, n: nat, q: Pid, p: Pid)
    requires IsRun(unmanaged, states, steps) && n < |steps| && steps[n] == Stop(q)
    ensures q in states[n].procs && states[n].procs[q].task.Testing?
    ensures !Needs(states[n], p, states[n].procs[q].task.slot)
  {
    hide ListCovers, LocksHeld, Idle, Served, Needs;
    var s := states[n];
    assert Next(unmanaged, s, steps[n], states[n + 1]);
    RunKeeps(unmanaged, states, steps, n);
    assert LocksHeld(s, q) && (p in s.procs ==> LocksHeld(s, p)) && ListCovers(s, q, p);
    NobodyNeedsIt(unmanaged, s, q, p);
  }

  /** Whoever needs a managed container finds it running. */
  lemma UsersFindItRunning(unmanaged: set<SlotId>, states: seq<Sys>, steps: seq<Step>, n: nat, p: Pid, slot: SlotId)
    requires IsRun(unmanaged, states, steps) && n <= |steps|
    requires Needs(states[n], p, slot) && slot !in unmanaged
    ensures slot in states[n].running
  {
    hide Next, ListCovers, LocksHeld, Idle;
    RunKeeps(unmanaged, states, steps, n);
    assert Served(unmanaged, states[n], p, slot);
  }

  /** A claim made after the list was read is not on it, but its owner cannot connect before the tester is done. */
  lemma LateClaimersWait(unmanaged: set<SlotId>, s: Sys, q: Pid, p: Pid, s': Sys)
    requires Inv(unmanaged, s) && q in s.procs && s.procs[q].task.Testing?
    ensures !Next(unmanaged, s, StartEnsure(p, s.procs[q].task.slot), s')
    ensures p in s.procs && s.procs[p].task == Ensuring(s.procs[q].task.slot) ==> !Next(unmanaged, s, EndEnsure(p), s')
  {
    assert LocksHeld(s, q) && Idle(unmanaged, s, q) && (p in s.procs ==> LocksHeld(s, p));
  }

  // ------------------------------------------------------------------ what nobody uses is stopped

  ghost predicate IsPath(unmanaged: set<SlotId>, states: seq<Sys>, steps: seq<Step>) {
    |states| == |steps| + 1 && forall i :: 0 <= i < |steps| ==> Next(unmanaged, states[i], steps[i], states[i + 1])
  }

  lemma PathInFront(unmanaged: set<SlotId>, s: Sys, step: Step, states: seq<Sys>, steps: seq<Step>)
    requires IsPath(unmanaged, states, steps) && Next(unmanaged, s, step, states[0])
    ensures IsPath(unmanaged, [s] + states, [step] + steps) && ([s] + states)[|steps| + 1] == states[|steps|]
  {
    hide Next;
  }

  predicate Distinct(ids: seq<RequestId>) {
    forall i, j :: 0 <= i < j < |ids| ==> ids[i] != ids[j]
  }

  /** No other process holds the owner lock of any of the requests. */
  predicate NoLiveOwner(s: Sys, p: Pid, ids: seq<RequestId>) {
    p in s.procs && forall i :: 0 <= i < |ids| ==> ids[i] !in s.owners || s.procs[p].owned == Some(ids[i])
  }

  /** A tester passes a request exactly when no other process holds its owner lock. */
  lemma PassesIff(unmanaged: set<SlotId>, s: Sys, p: Pid)
    requires p in s.procs && s.procs[p].task.Testing? && s.procs[p].task.rest != []
    ensures (exists s' :: Next(unmanaged, s, Test(p), s')) <==>
              s.procs[p].task.rest[0] !in s.owners || s.procs[p].owned == Some(s.procs[p].task.rest[0])
  {
    var task := s.procs[p].task;
    var r := task.rest[0];
    var passed := SetProc(s, p, s.procs[p].(task := task.(rest := task.rest[1..])));
    var probed := SetProc(s, p, s.procs[p].(task := task.(rest := task.rest[1..], probes := task.probes + {r})))
                    .(owners := s.owners[r := p]);
    if s.procs[p].owned == Some(r) {
      assert Next(unmanaged, s, Test(p), passed);
    } else if r !in s.owners {
      assert Next(unmanaged, s, Test(p), probed);
    }
  }

  lemma {:induction false} TestsAll(unmanaged: set<SlotId>, s: Sys, p: Pid) returns (states: seq<Sys>, steps: seq<Step>)
    requires p in s.procs && s.procs[p].task.Testing?
    requires Distinct(s.procs[p].task.rest) && NoLiveOwner(s, p, s.procs[p].task.rest)
    ensures IsPath(unmanaged, states, steps) && states[0] == s
    ensures var t := states[|steps|];
            && p in t.procs && t.procs[p].task.Testing? && t.procs[p].task.rest == []
            && t.procs[p].task.slot == s.procs[p].task.slot && t.running == s.running
    decreases |s.procs[p].task.rest|
  {
    states, steps := [s], [];
    var task := s.procs[p].task;
    if task.rest != [] {
      var r := task.rest[0];
      var next := if s.procs[p].owned == Some(r) then SetProc(s, p, s.procs[p].(task := task.(rest := task.rest[1..])))
                  else SetProc(s, p, s.procs[p].(task := task.(rest := task.rest[1..], probes := task.probes + {r})))
                         .(owners := s.owners[r := p]);
      assert Next(unmanaged, s, Test(p), next);
      states, steps := TestsAll(unmanaged, next, p);
      PathInFront(unmanaged, s, Test(p), states, steps);
      states, steps := [s] + states, [Test(p)] + steps;
    }
  }

  lemma PathBehind(unmanaged: set<SlotId>, states: seq<Sys>, steps: seq<Step>, step: Step, s: Sys)
    requires IsPath(unmanaged, states, steps) && Next(unmanaged, states[|steps|], step, s)
    ensures IsPath(unmanaged, states + [s], steps + [step])
  {
    hide Next;
  }

  /** From probing to the list. */
  lemma ReachesTheList(unmanaged: set<SlotId>, s: Sys, p: Pid, slot: SlotId, ids: seq<RequestId>)
    returns (probing: Sys, listing: Sys, testing: Sys)
    requires AtRest(s, p) && slot !in unmanaged && slot !in s.activity && slot !in s.control
    requires forall r :: r in s.rows && s.rows[r].active && s.rows[r].slot == Some(slot) ==> r in ids
    ensures Next(unmanaged, s, Probe(p, slot), probing) && Next(unmanaged, probing, TakeControl(p), listing)
    ensures Next(unmanaged, listing, List(p, ids), testing)
    ensures p in testing.procs && testing.procs[p] == s.procs[p].(task := Testing(slot, ids, {}))
    ensures testing.owners == s.owners && testing.running == s.running
  {
    probing := SetProc(s, p, s.procs[p].(task := Probing(slot))).(activity := s.activity[slot := p]);
    listing := SetProc(probing, p, probing.procs[p].(task := Listing(slot))).(control := s.control[slot := p]);
    testing := SetProc(listing, p, listing.procs[p].(task := Testing(slot, ids, {})));
  }

  lemma StopsWhenTested(unmanaged: set<SlotId>, s: Sys, p: Pid) returns (stopped: Sys)
    requires p in s.procs && s.procs[p].task.Testing? && s.procs[p].task.rest == []
    ensures Next(unmanaged, s, Stop(p), stopped) && stopped.running == s.running - {s.procs[p].task.slot}
  {
    stopped := s.(running := s.running - {s.procs[p].task.slot});
  }

  /** A managed container on which no listed request has a live owner, and whose locks are free, can be stopped. */
  lemma UnusedIsStopped(unmanaged: set<SlotId>, s: Sys, p: Pid, slot: SlotId, ids: seq<RequestId>)
    returns (states: seq<Sys>, steps: seq<Step>)
    requires AtRest(s, p) && slot !in unmanaged && slot !in s.activity && slot !in s.control
    requires Distinct(ids) && NoLiveOwner(s, p, ids)
    requires forall r :: r in s.rows && s.rows[r].active && s.rows[r].slot == Some(slot) ==> r in ids
    ensures IsPath(unmanaged, states, steps) && states[0] == s
    ensures |steps| > 0 && steps[|steps| - 1] == Stop(p) && states[|steps|].running == s.running - {slot}
  {
    hide Next, Distinct, NoLiveOwner;
    var probing, listing, testing := ReachesTheList(unmanaged, s, p, slot, ids);
    OwnersSame(s, testing, p, ids);
    states, steps := TestsAll(unmanaged, testing, p);
    var stopped := StopsWhenTested(unmanaged, states[|steps|], p);
    PathBehind(unmanaged, states, steps, Stop(p), stopped);
    states, steps := states + [stopped], steps + [Stop(p)];
    PathInFront(unmanaged, listing, List(p, ids), states, steps);
    states, steps := [listing] + states, [List(p, ids)] + steps;
    PathInFront(unmanaged, probing, TakeControl(p), states, steps);
    states, steps := [probing] + states, [TakeControl(p)] + steps;
    PathInFront(unmanaged, s, Probe(p, slot), states, steps);
    states, steps := [s] + states, [Probe(p, slot)] + steps;
  }

  /** From nothing to an owner of an active request. */
  lemma BecomesOwner(unmanaged: set<SlotId>, s: Sys, p: Pid, r: RequestId) returns (created: Sys, begun: Sys, owning: Sys)
    requires p !in s.procs && r !in s.rows && r !in s.owners
    ensures Next(unmanaged, s, Create(r), created) && Next(unmanaged, created, Begin(p), begun)
    ensures Next(unmanaged, begun, TakeOwner(p, r), owning)
    ensures owning == Sys(s.rows[r := Row(true, None)], s.procs[p := Proc(Some(r), None, None, Free)], s.owners[r := p],
                          s.control, s.activity, s.running)
  {
    created := s.(rows := s.rows[r := Row(true, None)]);
    begun := SetProc(created, p, Proc(None, None, None, Free));
    owning := SetProc(begun, p, Proc(Some(r), None, None, Free)).(owners := s.owners[r := p]);
  }

  /** From there to its container. */
  lemma ClaimsAndConnects(unmanaged: set<SlotId>, s: Sys, p: Pid, r: RequestId, slot: SlotId)
    returns (claimed: Sys, ensuring: Sys, connected: Sys)
    requires p in s.procs && s.procs[p] == Proc(Some(r), None, None, Free) && r in s.rows && s.rows[r] == Row(true, None)
    requires slot !in unmanaged && slot !in s.control
    ensures Next(unmanaged, s, Claim(p, slot), claimed) && Next(unmanaged, claimed, StartEnsure(p, slot), ensuring)
    ensures Next(unmanaged, ensuring, EndEnsure(p), connected)
    ensures connected == Sys(s.rows[r := Row(true, Some(slot))], s.procs[p := Proc(Some(r), None, Some(slot), Free)], s.owners,
                             s.control, s.activity, s.running + {slot})
  {
    claimed := s.(rows := s.rows[r := Row(true, Some(slot))]);
    ensuring := SetProc(claimed, p, Proc(Some(r), None, None, Ensuring(slot))).(control := s.control[slot := p]);
    connected := SetProc(ensuring, p, Proc(Some(r), None, Some(slot), Free)).(control := s.control, running := s.running + {slot});
    assert ensuring.control - {slot} == s.control;
  }

  /** A new process with a new request gets to use the container of any managed slot whose control lock is free. */
  lemma UsersCanConnect(unmanaged: set<SlotId>, s: Sys, p: Pid, r: RequestId, slot: SlotId)
    returns (states: seq<Sys>, steps: seq<Step>)
    requires p !in s.procs && r !in s.rows && r !in s.owners && slot !in unmanaged && slot !in s.control
    ensures IsPath(unmanaged, states, steps) && states[0] == s
    ensures Needs(states[|steps|], p, slot) && slot in states[|steps|].running && states[|steps|].control == s.control
  {
    hide Next;
    var created, begun, owning := BecomesOwner(unmanaged, s, p, r);
    var claimed, ensuring, connected := ClaimsAndConnects(unmanaged, owning, p, r, slot);
    states := [s, created, begun, owning, claimed, ensuring, connected];
    steps := [Create(r), Begin(p), TakeOwner(p, r), Claim(p, slot), StartEnsure(p, slot), EndEnsure(p)];
  }

  lemma OwnersSame(s: Sys, s': Sys, p: Pid, ids: seq<RequestId>)
    requires NoLiveOwner(s, p, ids) && s'.owners == s.owners && p in s'.procs && s'.procs[p].owned == s.procs[p].owned
    ensures NoLiveOwner(s', p, ids)
  {
  }
}
