// Runs that reach the weekly bound, and exceed it by exactly as many sends as requests were failed
// in mid-send: the unlocked `failed` write of a creating process is what the bound misses.
module QuotaReached {
  import opened Rows
  import opened ReconcileScan
  import opened SendProtocol
  import opened Scheduler
  import opened SendSafety
  import opened Ledger
  import opened Runs

  // ------------------------------------------------------------------ how far such a run is

  predicate Done(rec: Rec, slot: SlotId, now: Time) {
    rec.row.status == Status.Complete && rec.usage == Some(Usage(slot, now))
  }

  ghost predicate RowsStage(recs: map<RequestId, Rec>, now: Time, slot: SlotId, late: nat, done: nat, held: nat) {
    && (forall r :: r in recs <==> 0 <= r < late + done + held)
    && (forall r {:trigger recs[r]} :: 0 <= r < late ==> recs[r] == FailedRec(slot, now))
    && (forall r {:trigger recs[r]} :: late <= r < late + done ==> Done(recs[r], slot, now))
    && (forall r {:trigger recs[r]} :: late + done <= r < late + done + held ==> Held(recs[r], slot))
  }

  ghost predicate ProcsStage(procs: map<Pid, Pc>, owners: map<RequestId, Pid>, late: nat, done: nat, held: nat) {
    && (forall p :: p in procs <==> 0 <= p < late || late + done <= p < late + done + held)
    && (forall p {:trigger procs[p]} :: p in procs ==> procs[p] == if p < late then ArmedToCall(p, 1) else StagedSeen(p))
    && (forall r :: r in owners ==> 0 <= r < late + done + held)
  }

  ghost predicate SendersStage(senders: map<RequestId, Pid>, late: nat) {
    forall r :: (r in senders <==> 0 <= r < late) && (r in senders ==> senders[r] == r)
  }

  /**
   * The requests below `late` are failed and about to be called; the next `done` are sent and complete; the next
   * `held` have claimed the slot. Each is worked on by the process of its number.
   */
  ghost predicate Stage(s: Sys, slot: SlotId, late: nat, done: nat, held: nat) {
    && RowsStage(s.db.recs, s.clock, slot, late, done, held)
    && ProcsStage(s.procs, s.owners, late, done, held)
    && SendersStage(s.senders, late)
    && OneIdleSlot(s.db, slot)
    && |s.landings| == done
  }

  function Upto(n: nat): set<nat> {
    if n == 0 then {} else Upto(n - 1) + {n - 1}
  }

  lemma {:induction false} UptoMeaning(n: nat)
    ensures |Upto(n)| == n && forall i :: i in Upto(n) <==> 0 <= i < n
  {
    if n > 0 {
      UptoMeaning(n - 1);
    }
  }

  lemma {:induction false} UptoSplits(a: nat, b: nat)
    requires a <= b
    ensures |Upto(b) - Upto(a)| == b - a && forall i :: i in Upto(b) - Upto(a) <==> a <= i < b
  {
    UptoMeaning(a);
    UptoMeaning(b);
    assert Upto(a) <= Upto(b);
  }

  lemma FailedDoesNotCount(slot: SlotId, now: Time)
    ensures FailedRec(slot, now).row.status == Failed && FailedRec(slot, now).usage.None?
  {
  }

  lemma ActiveIs(s: Sys, slot: SlotId, late: nat, done: nat, held: nat)
    requires Stage(s, slot, late, done, held)
    ensures ActiveOn(s.db, slot) == Upto(late + done + held) - Upto(late + done)
  {
    hide FailedRec, ProcsStage, SendersStage, OneIdleSlot, Upto;
    FailedDoesNotCount(slot, s.clock);
    UptoSplits(late + done, late + done + held);
  }

  lemma UsedIs(s: Sys, slot: SlotId, late: nat, done: nat, held: nat)
    requires Stage(s, slot, late, done, held)
    ensures UsedSince(s.db, slot, s.clock - WEEK) == Upto(late + done) - Upto(late)
  {
    hide FailedRec, ProcsStage, SendersStage, OneIdleSlot, Upto;
    FailedDoesNotCount(slot, s.clock);
    UptoSplits(late, late + done);
  }

  lemma StageCounts(s: Sys, slot: SlotId, late: nat, done: nat, held: nat)
    requires Stage(s, slot, late, done, held)
    ensures |ActiveOn(s.db, slot)| == held && |UsedSince(s.db, slot, s.clock - WEEK)| == done
  {
    hide Stage, Upto, ActiveOn, UsedSince;
    ActiveIs(s, slot, late, done, held);
    UsedIs(s, slot, late, done, held);
    UptoSplits(late + done, late + done + held);
    UptoSplits(late, late + done);
  }

  // ------------------------------------------------------------------ one request sent

  lemma RowSent(recs: map<RequestId, Rec>, now: Time, slot: SlotId, late: nat, done: nat, held: nat, rec: Rec)
    requires RowsStage(recs, now, slot, late, done, held) && held > 0 && Done(rec, slot, now)
    ensures RowsStage(recs[late + done := rec], now, slot, late, done + 1, held - 1)
  {
    hide Done, Held, FailedRec;
  }

  lemma ProcLeft(procs: map<Pid, Pc>, owners: map<RequestId, Pid>, late: nat, done: nat, held: nat, pc: Pc)
    requires ProcsStage(procs, owners, late, done, held) && held > 0
    ensures ProcsStage(procs[late + done := pc] - {late + done}, owners - {late + done}, late, done + 1, held - 1)
  {
  }

  lemma FirstHeld(s: Sys, slot: SlotId, late: nat, done: nat, held: nat) returns (rec: Rec)
    requires Stage(s, slot, late, done, held) && held > 0
    ensures Held(rec, slot) && s == Shape(s, late + done, StagedSeen(late + done), rec)
  {
    hide Held, FailedRec, Done, OneIdleSlot;
    var p := late + done;
    rec := s.db.recs[p];
    assert p in s.procs && s.procs[p] == StagedSeen(p) && p !in s.senders;
    hide ProcsStage, RowsStage, SendersStage;
    assert s.procs == s.procs[p := StagedSeen(p)] && s.db.recs == s.db.recs[p := rec] && s.senders - {p} == s.senders;
  }

  lemma SendOne(w: Course, s: Sys, slot: SlotId, late: nat, done: nat, held: nat) returns (s': Sys)
    requires Reached(w, s) && Stage(s, slot, late, done, held) && held > 0
    ensures Reached(w, s') && Stage(s', slot, late, done + 1, held - 1)
  {
    hide Reached, Stage, Held;
    var p := late + done;
    var rec := FirstHeld(s, slot, late, done, held);
    var result := SendResult(Conversation(p, false), 0, None);
    Arms(w, s, p, slot, rec);
    var s1 := Posts(w, s, p, 1, Armed1(slot, rec, s.clock), result);
    ConfirmsAndEnds(w, s1, p, slot, rec, result);
    var sent := WithStatus(Sent1(slot, rec, result, s.clock), Status.Complete, s.clock);
    s' := Leaves(w, s1, p, sent);
    SentStage(s, s1, s', slot, late, done, held, sent);
  }

  lemma SentStage(s: Sys, s1: Sys, s': Sys, slot: SlotId, late: nat, done: nat, held: nat, rec: Rec)
    requires Stage(s, slot, late, done, held) && held > 0 && Done(rec, slot, s.clock)
    requires s1.procs == s.procs && s1.owners == s.owners && s1.senders == s.senders && s1.db == s.db && s1.clock == s.clock
    requires |s1.landings| == |s.landings| + 1
    requires s' == FreeOwner(Exit(Shape(s1, late + done, Owned(late + done), rec), late + done), late + done)
    ensures Stage(s', slot, late, done + 1, held - 1)
  {
    hide RowsStage, ProcsStage;
    RowSent(s.db.recs, s.clock, slot, late, done, held, rec);
    ProcLeft(s.procs, s.owners, late, done, held, Owned(late + done));
  }

  // ------------------------------------------------------------------ one request claimed

  lemma RowClaimed(recs: map<RequestId, Rec>, now: Time, slot: SlotId, late: nat, done: nat, held: nat, rec: Rec)
    requires RowsStage(recs, now, slot, late, done, held) && Held(rec, slot)
    ensures RowsStage(recs[late + done + held := rec], now, slot, late, done, held + 1)
  {
    hide Done, Held, FailedRec;
  }

  lemma NextIsFree(s: Sys, slot: SlotId, late: nat, done: nat, held: nat)
    requires Stage(s, slot, late, done, held)
    ensures var n := late + done + held; n !in s.procs && n + 1 !in s.procs && n !in s.db.recs && n !in s.owners && n !in s.senders
    ensures OneIdleSlot(s.db, slot)
  {
  }

  lemma ClaimOne(w: Course, s: Sys, slot: SlotId, late: nat, done: nat, held: nat) returns (s': Sys)
    requires HasRoom(w.c, slot, done, held)
    requires Reached(w, s) && Stage(s, slot, late, done, held)
    ensures Reached(w, s') && Stage(s', slot, late, done, held + 1)
  {
    hide Reached, Shape, Stage;
    var n, rec := late + done + held, NewRec(s.clock);
    NextIsFree(s, slot, late, done, held);
    var s1 := CreatesAndOwns(w, s, n, rec);
    StageCounts(s, slot, late, done, held);
    var s2 := Claims(w, s1, n, rec, slot);
    s' := Shape(s2, n, StagedSeen(n), ClaimRec(rec, slot, s.clock));
    ClaimedStage(s, s2, slot, late, done, held);
  }

  lemma ClaimedStage(s: Sys, s2: Sys, slot: SlotId, late: nat, done: nat, held: nat)
    requires Stage(s, slot, late, done, held) && s2.procs == s.procs && s2.senders == s.senders && s2.clock == s.clock
    requires s2.db.recs == s.db.recs && OneIdleSlot(s2.db, slot)
    requires s2.owners == s.owners[late + done + held := late + done + held] && s2.landings == s.landings
    ensures var n := late + done + held;
            Stage(Shape(s2, n, StagedSeen(n), ClaimRec(NewRec(s.clock), slot, s.clock)), slot, late, done, held + 1)
  {
    hide RowsStage, ProcsStage;
    var n := late + done + held;
    RowClaimed(s.db.recs, s.clock, slot, late, done, held, ClaimRec(NewRec(s.clock), slot, s.clock));
    ProcClaimed(s.procs, s.owners, late, done, held);
    assert s.senders - {n} == s.senders;
  }

  lemma ProcClaimed(procs: map<Pid, Pc>, owners: map<RequestId, Pid>, late: nat, done: nat, held: nat)
    requires ProcsStage(procs, owners, late, done, held)
    ensures var n := late + done + held; ProcsStage(procs[n := StagedSeen(n)], owners[n := n], late, done, held + 1)
  {
  }

  // ------------------------------------------------------------------ one request failed in mid-send

  /** Before anything is sent, one more request is failed over its send in flight. */
  lemma FailOne(w: Course, s: Sys, late: nat) returns (s': Sys)
    requires HasRoom(w.c, w.slot, 0, 0) && w.hits == Upto(late)
    requires Reached(w, s) && Stage(s, w.slot, late, 0, 0)
    ensures Reached(w.(hits := Upto(late + 1)), s') && Stage(s', w.slot, late + 1, 0, 0)
  {
    hide Reached, Shape, Stage;
    NextIsFree(s, w.slot, late, 0, 0);
    StageCounts(s, w.slot, late, 0, 0);
    var s1 := FailsInFlight(w, s, late);
    s' := Shape(s1, late, ArmedToCall(late, 1), FailedRec(w.slot, s.clock));
    FailedStage(s, s1, w.slot, late);
  }

  lemma FailedStage(s: Sys, s1: Sys, slot: SlotId, late: nat)
    requires Stage(s, slot, late, 0, 0) && s1 == UsedNow(s.(owners := s.owners[late := late]), slot)
    ensures Stage(Shape(s1, late, ArmedToCall(late, 1), FailedRec(slot, s.clock)), slot, late + 1, 0, 0)
  {
    hide RowsStage, FailedRec;
    var n := late;
    FailedRows(s.db.recs, s.clock, slot, late);
    assert ProcsStage(s.procs[n := ArmedToCall(n, 1)], s.owners[n := n], late + 1, 0, 0);
  }

  lemma FailedRows(recs: map<RequestId, Rec>, now: Time, slot: SlotId, late: nat)
    requires RowsStage(recs, now, slot, late, 0, 0)
    ensures RowsStage(recs[late := FailedRec(slot, now)], now, slot, late + 1, 0, 0)
  {
    hide Done, Held, FailedRec;
  }

  lemma {:induction false} FailMany(c: Config, slot: SlotId, k: nat) returns (s: Sys)
    requires HasRoom(c, slot, 0, 0)
    ensures Reached(Course(c, slot, Upto(k)), s) && Stage(s, slot, k, 0, 0)
    decreases k
  {
    hide Reached, Stage;
    if k == 0 {
      s := Sys(0, Db(map[], map[slot := SlotRow(Idle, None, None)]), map[], map[], map[], map[], map[], []);
      Starts(c, slot, s);
      EmptyStage(s, slot);
    } else {
      var s0 := FailMany(c, slot, k - 1);
      s := FailOne(Course(c, slot, Upto(k - 1)), s0, k - 1);
    }
  }

  lemma EmptyStage(s: Sys, slot: SlotId)
    requires Init(s) && s.db.slots == map[slot := SlotRow(Idle, None, None)]
    ensures Stage(s, slot, 0, 0, 0)
  {
  }

  // ------------------------------------------------------------------ many of them

  lemma {:induction false} ClaimMany(w: Course, s: Sys, slot: SlotId, late: nat, done: nat, held: nat, n: nat) returns (s': Sys)
    requires held + n <= w.c.maxConcurrent && (n > 0 ==> HasRoom(w.c, slot, done, held))
    requires Reached(w, s) && Stage(s, slot, late, done, held)
    ensures Reached(w, s') && Stage(s', slot, late, done, held + n)
    decreases n
  {
    hide Reached, Stage;
    s' := s;
    if n > 0 {
      var s1 := ClaimOne(w, s, slot, late, done, held);
      s' := ClaimMany(w, s1, slot, late, done, held + 1, n - 1);
    }
  }

  lemma {:induction false} SendMany(w: Course, s: Sys, slot: SlotId, late: nat, done: nat, held: nat) returns (s': Sys)
    requires Reached(w, s) && Stage(s, slot, late, done, held)
    ensures Reached(w, s') && Stage(s', slot, late, done + held, 0)
    decreases held
  {
    hide Reached, Stage;
    s' := s;
    if held > 0 {
      var s1 := SendOne(w, s, slot, late, done, held);
      s' := SendMany(w, s1, slot, late, done + 1, held - 1);
    }
  }

  /** Requests claimed and sent one after the other, as many as the quota lets in one at a time. */
  lemma {:induction false} OneByOne(w: Course, s0: Sys, slot: SlotId, late: nat, n: nat) returns (s: Sys)
    requires n > 0 ==> HasRoom(w.c, slot, n - 1, 0)
    requires Reached(w, s0) && Stage(s0, slot, late, 0, 0)
    ensures Reached(w, s) && Stage(s, slot, late, n, 0)
    decreases n
  {
    hide Reached, Stage;
    s := s0;
    if n > 0 {
      var s1 := OneByOne(w, s0, slot, late, n - 1);
      var s2 := ClaimOne(w, s1, slot, late, n - 1, 0);
      s := SendMany(w, s2, slot, late, n - 1, 1);
    }
  }

  // ------------------------------------------------------------------ the sends in flight come through

  /** Of the failed requests those below `i` have been confirmed; all later ones are in the ledger as well. */
  ghost predicate Confirming(s: Sys, slot: SlotId, i: nat, late: nat, total: nat) {
    && i <= late <= total
    && (forall r :: r in s.db.recs <==> 0 <= r < total)
    && (forall r {:trigger s.db.recs[r]} :: 0 <= r < i || late <= r < total ==> s.db.recs[r].usage == Some(Usage(slot, s.clock)))
    && (forall r {:trigger s.db.recs[r]} :: i <= r < late ==> s.db.recs[r] == FailedRec(slot, s.clock))
    && (forall p: nat :: i <= p < late ==> AboutToCall(s, p))
  }

  predicate AboutToCall(s: Sys, p: Pid) {
    p in s.procs && s.procs[p] == ArmedToCall(p, 1) && p in s.senders && s.senders[p] == p
  }

  lemma StageIsConfirming(s: Sys, slot: SlotId, late: nat, done: nat)
    requires Stage(s, slot, late, done, 0)
    ensures Confirming(s, slot, 0, late, late + done)
  {
    hide FailedRec, OneIdleSlot;
  }

  lemma NextConfirmed(s: Sys, slot: SlotId, i: nat, late: nat, total: nat)
    requires Confirming(s, slot, i, late, total) && i < late
    ensures s == Shape(s, i, ArmedToCall(i, 1), FailedRec(slot, s.clock))
  {
    hide FailedRec;
    assert AboutToCall(s, i) && s.db.recs[i] == FailedRec(slot, s.clock);
    assert s.procs == s.procs[i := ArmedToCall(i, 1)] && s.senders == s.senders[i := i];
    assert s.db.recs == s.db.recs[i := FailedRec(slot, s.clock)];
  }

  lemma ConfirmedStage(s: Sys, s1: Sys, slot: SlotId, i: nat, late: nat, total: nat, rec: Rec)
    requires Confirming(s, slot, i, late, total) && i < late && rec.usage == Some(Usage(slot, s.clock))
    requires s1.procs == s.procs && s1.senders == s.senders && s1.db == s.db && s1.clock == s.clock
    ensures Confirming(Shape(s1, i, SendEnding(i, false), rec), slot, i + 1, late, total)
  {
    hide FailedRec;
    var s' := Shape(s1, i, SendEnding(i, false), rec);
    forall p: nat | i + 1 <= p < late ensures AboutToCall(s', p) {
      assert AboutToCall(s, p);
    }
  }

  lemma {:induction false} ConfirmMany(w: Course, s: Sys, slot: SlotId, i: nat, late: nat, total: nat) returns (s': Sys)
    requires Reached(w, s) && Confirming(s, slot, i, late, total)
    ensures Reached(w, s') && Confirming(s', slot, late, late, total) && |s'.landings| == |s.landings| + (late - i)
    decreases late - i
  {
    hide Reached, Confirming, Shape, FailedRec;
    assert i <= late by {
      ConfirmingRange(s, slot, i, late, total);
    }
    s' := s;
    if i < late {
      NextConfirmed(s, slot, i, late, total);
      var s1, rec := ConfirmsFailed(w, s, i, slot);
      ConfirmedStage(s, s1, slot, i, late, total, rec);
      ShapeLandings(s1, i, SendEnding(i, false), rec);
      s' := ConfirmMany(w, Shape(s1, i, SendEnding(i, false), rec), slot, i + 1, late, total);
    }
  }

  lemma ConfirmingRange(s: Sys, slot: SlotId, i: nat, late: nat, total: nat)
    requires Confirming(s, slot, i, late, total)
    ensures i <= late <= total
  {
  }

  lemma ShapeLandings(s: Sys, p: Pid, pc: Pc, rec: Rec)
    ensures Shape(s, p, pc, rec).landings == s.landings
  {
  }

  lemma AllSent(s: Sys, slot: SlotId, late: nat, total: nat)
    requires Confirming(s, slot, late, late, total)
    ensures |SentIn(s.db, slot, s.clock)| == total
  {
    UptoMeaning(total);
    assert SentIn(s.db, slot, s.clock) == Upto(total);
  }

  // ------------------------------------------------------------------ the bound is exact

  /**
   * For every limit, every concurrency and every number k some run fails exactly k requests in mid-send and reaches
   * the weekly bound plus k, every send landing once.
   */
  lemma ExcessIsReached(c: Config, slot: SlotId, k: nat) returns (states: seq<Sys>, steps: seq<Step>)
    requires HasRoom(c, slot, 0, 0)
    ensures IsRun(c, states, steps) && |HitsOf(states, steps, slot, |steps|)| == k
    ensures var s := states[|steps|];
            |SentIn(s.db, slot, s.clock)| == Bound(c, slot) + k == |s.landings|
  {
    hide Reached, Stage, Confirming;
    var limit := c.weeklyLimit[slot];
    var total := k + limit - 1 + c.maxConcurrent;
    var w := Course(c, slot, Upto(k));
    var s0 := FailMany(c, slot, k);
    var s1 := OneByOne(w, s0, slot, k, limit - 1);
    var s2 := ClaimMany(w, s1, slot, k, limit - 1, 0, c.maxConcurrent);
    var s3 := SendMany(w, s2, slot, k, limit - 1, c.maxConcurrent);
    StageLandings(s3, slot, k, limit - 1 + c.maxConcurrent);
    StageIsConfirming(s3, slot, k, limit - 1 + c.maxConcurrent);
    var s := ConfirmMany(w, s3, slot, 0, k, total);
    AllSent(s, slot, k, total);
    UptoMeaning(k);
    states, steps := RunOf(w, s);
  }

  /** In particular some run without such a failure reaches the bound. */
  lemma BoundIsReached(c: Config, slot: SlotId) returns (states: seq<Sys>, steps: seq<Step>)
    requires HasRoom(c, slot, 0, 0)
    ensures IsRun(c, states, steps) && HitsOf(states, steps, slot, |steps|) == {}
    ensures var s := states[|steps|]; |SentIn(s.db, slot, s.clock)| == Bound(c, slot)
  {
    hide IsRun, HitsOf, SentIn;
    states, steps := ExcessIsReached(c, slot, 0);
  }

  lemma StageLandings(s: Sys, slot: SlotId, late: nat, done: nat)
    requires Stage(s, slot, late, done, 0)
    ensures |s.landings| == done
  {
  }

  lemma RunOf(w: Course, s: Sys) returns (states: seq<Sys>, steps: seq<Step>)
    requires Reached(w, s)
    ensures IsRun(w.c, states, steps) && states[|steps|] == s && HitsOf(states, steps, w.slot, |steps|) == w.hits
  {
    states, steps :| EndsIn(w, states, steps, s);
  }
}
