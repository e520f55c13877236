// The reaper advances one request per tick, the one updated longest ago, and touches it
// afterwards: nobody starves, whatever else arrives or moves meanwhile.
module ReapOrder {
  import opened Rows
  import opened Sets

  datatype Candidate = Candidate(updatedAt: Time, createdAt: Time)

  /** The requests that are sending, generating or uncertain, and the one a tick is working on. */
  datatype State = State(rows: map<RequestId, Candidate>, running: Option<RequestId>)

  /** `ORDER BY updated_at, created_at, id` */
  predicate Before(rows: map<RequestId, Candidate>, a: RequestId, b: RequestId)
    requires a in rows && b in rows
  {
    || rows[a].updatedAt < rows[b].updatedAt
    || (rows[a].updatedAt == rows[b].updatedAt
        && (rows[a].createdAt < rows[b].createdAt || (rows[a].createdAt == rows[b].createdAt && a < b)))
  }

  predicate IsFirst(rows: map<RequestId, Candidate>, r: RequestId) {
    r in rows && forall other :: other in rows && other != r ==> Before(rows, r, other)
  }

  /** The query with `LIMIT 1`. */
  method ListReapCandidates(rows: map<RequestId, Candidate>) returns (first: Option<RequestId>)
    ensures if rows == map[] then first == None else first.Some? && IsFirst(rows, first.value)
    ensures first.Some? ==>
              var r := first.value;
              && r in rows
              && forall other :: other in rows ==>
                   || rows[r].updatedAt < rows[other].updatedAt
                   || (rows[r].updatedAt == rows[other].updatedAt && rows[r].createdAt < rows[other].createdAt)
                   || (rows[r] == rows[other] && r <= other)
  {
    if rows == map[] {
      return None;
    }
    var best: RequestId :| best in rows;
    var rest := rows.Keys - {best};
    while rest != {}
      invariant best in rows && best !in rest && rest <= rows.Keys
      invariant forall other :: other in rows && other !in rest && other != best ==> Before(rows, best, other)
      decreases |rest|
    {
      var next: RequestId :| next in rest;
      rest := rest - {next};
      if Before(rows, next, best) {
        best := next;
      }
    }
    return Some(best);
  }

  /** The candidates that come before r. */
  function Ahead(rows: map<RequestId, Candidate>, r: RequestId): set<RequestId>
    requires r in rows
  {
    set other | other in rows && other != r && Before(rows, other, r)
  }

  /** A reaper may be killed between its pick and its touch. */
  datatype Step = Pick(r: RequestId) | Touch | Die | Elsewhere

  /** Rows stay, go, or come in with the present instant as their update time. */
  predicate OnlyFreshUpdates(rows: map<RequestId, Candidate>, now: Time, rows': map<RequestId, Candidate>) {
    forall r :: r in rows' ==> (r in rows && rows'[r] == rows[r]) || rows'[r].updatedAt == now
  }

  predicate Next(s: State, step: Step, now: Time, s': State) {
    match step
    case Pick(r) => s.running.None? && IsFirst(s.rows, r) && s' == s.(running := Some(r))
    case Touch =>
      && s.running.Some? && s'.running.None?
      && s'.rows == if s.running.value in s.rows
                    then s.rows[s.running.value := s.rows[s.running.value].(updatedAt := now)] else s.rows
    case Die => s.running.Some? && s' == s.(running := None)
    case Elsewhere => s'.running == s.running && OnlyFreshUpdates(s.rows, now, s'.rows)
  }

  /** What may happen at any moment: requests arrive, move and go, and a reaper that is at work may die or touch. */
  lemma StepsAreOpen(s: State, now: Time, r: RequestId, created: Time)
    ensures Next(s, Elsewhere, now, s.(rows := s.rows[r := Candidate(now, created)]))
    ensures Next(s, Elsewhere, now, s.(rows := s.rows - {r}))
    ensures s.running == Some(r) ==> Next(s, Die, now, State(s.rows, None))
    ensures s.running == Some(r) && r !in s.rows ==> Next(s, Touch, now, State(s.rows, None))
    ensures s.running == Some(r) && r in s.rows ==>
              Next(s, Touch, now, State(s.rows[r := Candidate(now, s.rows[r].createdAt)], None))
  {
  }

  ghost predicate Older(rows: map<RequestId, Candidate>, now: Time) {
    forall r :: r in rows ==> rows[r].updatedAt < now
  }

  /** A run under a strictly increasing clock. */
  ghost predicate IsRun(states: seq<State>, steps: seq<Step>, times: seq<Time>) {
    && |states| == |steps| + 1 && |times| == |steps|
    && (forall i :: 0 <= i < |steps| ==> Next(states[i], steps[i], times[i], states[i + 1]))
    && (forall i, j :: 0 <= i < j < |times| ==> times[i] < times[j])
    && (|times| > 0 ==> Older(states[0].rows, times[0]))
  }

  lemma {:induction false} RowsAreOlder(states: seq<State>, steps: seq<Step>, times: seq<Time>, n: nat)
    requires IsRun(states, steps, times) && n < |steps|
    ensures Older(states[n].rows, times[n])
  {
    if n > 0 {
      RowsAreOlder(states, steps, times, n - 1);
      assert Next(states[n - 1], steps[n - 1], times[n - 1], states[n]);
    }
  }

  /** The candidates that a tick may still take before r. */
  function Left(s: State, r: RequestId): set<RequestId>
    requires r in s.rows
  {
    Ahead(s.rows, r) - (if s.running.Some? then {s.running.value} else {})
  }

  lemma PickUsesUp(s: State, picked: RequestId, r: RequestId)
    requires s.running.None? && IsFirst(s.rows, picked) && r in s.rows && picked != r
    ensures |Left(s.(running := Some(picked)), r)| == |Left(s, r)| - 1
  {
    assert Before(s.rows, picked, r);
    assert Left(s.(running := Some(picked)), r) == Left(s, r) - {picked};
  }

  lemma DeathGivesBack(s: State, r: RequestId)
    requires s.running.Some? && r in s.rows
    ensures |Left(s.(running := None), r)| <= |Left(s, r)| + 1
  {
    SubsetSize(Left(s.(running := None), r), Left(s, r) + {s.running.value});
  }

  lemma NothingOvertakes(s: State, step: Step, now: Time, s': State, r: RequestId)
    requires Next(s, step, now, s') && Older(s.rows, now) && !step.Pick? && !step.Die?
    requires r in s.rows && r in s'.rows && s'.rows[r] == s.rows[r]
    ensures Left(s', r) <= Left(s, r)
  {
  }

  /** A tick that takes another candidate uses one up, and only a killed one gives it back; nothing else overtakes r. */
  lemma StepUsesUp(s: State, step: Step, now: Time, s': State, r: RequestId)
    requires Next(s, step, now, s') && Older(s.rows, now)
    requires r in s.rows && r in s'.rows && s'.rows[r] == s.rows[r] && step != Pick(r)
    ensures |Left(s', r)| + (if step.Pick? then 1 else 0) <= |Left(s, r)| + (if step.Die? then 1 else 0)
  {
    hide Left, IsFirst, Older, OnlyFreshUpdates;
    if step.Pick? {
      PickUsesUp(s, step.r, r);
    } else if step.Die? {
      DeathGivesBack(s, r);
    } else {
      NothingOvertakes(s, step, now, s', r);
      SubsetSize(Left(s', r), Left(s, r));
    }
  }

  function Picks(steps: seq<Step>, m: nat, n: nat): nat
    requires m <= n <= |steps|
    decreases n
  {
    if m == n then 0 else Picks(steps, m, n - 1) + (if steps[n - 1].Pick? then 1 else 0)
  }

  function Deaths(steps: seq<Step>, m: nat, n: nat): nat
    requires m <= n <= |steps|
    decreases n
  {
    if m == n then 0 else Deaths(steps, m, n - 1) + (if steps[n - 1].Die? then 1 else 0)
  }

  /** r stays a candidate, is not updated, and is not picked. */
  ghost predicate Waits(states: seq<State>, steps: seq<Step>, m: nat, n: nat, r: RequestId)
    requires |states| == |steps| + 1 && m <= n <= |steps|
  {
    && r in states[m].rows
    && (forall i :: m <= i <= n ==> r in states[i].rows && states[i].rows[r] == states[m].rows[r])
    && (forall i :: m <= i < n ==> steps[i] != Pick(r))
  }

  /**
   * However long it waits, no more ticks pass it by than there were candidates before it, not counting those that
   * were killed: without kills it is picked within its rank plus one ticks.
   */
  lemma {:induction false} PickedWithinRank(
    states: seq<State>, steps: seq<Step>, times: seq<Time>, m: nat, n: nat, r: RequestId)
    requires IsRun(states, steps, times) && m <= n <= |steps| && Waits(states, steps, m, n, r)
    ensures Picks(steps, m, n) + |Left(states[n], r)| <= |Ahead(states[m].rows, r)| + Deaths(steps, m, n)
    decreases n
  {
    if m == n {
      SubsetSize(Left(states[m], r), Ahead(states[m].rows, r));
    } else {
      PickedWithinRank(states, steps, times, m, n - 1, r);
      RowsAreOlder(states, steps, times, n - 1);
      StepUsesUp(states[n - 1], steps[n - 1], times[n - 1], states[n], r);
    }
  }

  // ------------------------------------------------------------------ killed reapers starve the others

  const PAIR: map<RequestId, Candidate> := map[0 := Candidate(0, 0), 1 := Candidate(1, 0)]

  function KilledState(i: nat): State {
    State(PAIR, if i % 2 == 0 then None else Some(0))
  }

  function KilledStep(i: nat): Step {
    if i % 2 == 0 then Pick(0) else Die
  }

  /** n reapers killed after their pick. */
  function KilledStates(n: nat): seq<State> {
    seq(2 * n + 1, i requires 0 <= i => KilledState(i))
  }

  function KilledSteps(n: nat): seq<Step> {
    seq(2 * n, i requires 0 <= i => KilledStep(i))
  }

  function Clock(n: nat): seq<Time> {
    seq(2 * n, i requires 0 <= i => i + 2)
  }

  lemma {:induction false} KilledCounts(n: nat, k: nat)
    requires k <= n
    ensures Picks(KilledSteps(n), 0, 2 * k) == k && Deaths(KilledSteps(n), 0, 2 * k) == k
  {
    if k > 0 {
      KilledCounts(n, k - 1);
      assert KilledSteps(n)[2 * k - 2] == Pick(0) && KilledSteps(n)[2 * k - 1] == Die;
    }
  }

  /** Reapers that are killed between pick and touch take the same candidate over and over: the bound is reached for any number of kills. */
  lemma KillsStarve(n: nat)
    ensures var states, steps := KilledStates(n), KilledSteps(n);
            && IsRun(states, steps, Clock(n)) && Waits(states, steps, 0, 2 * n, 1)
            && |Ahead(PAIR, 1)| == 1 && Picks(steps, 0, 2 * n) == n == Deaths(steps, 0, 2 * n)
  {
    var states, steps := KilledStates(n), KilledSteps(n);
    assert Before(PAIR, 0, 1) && IsFirst(PAIR, 0);
    forall i | 0 <= i < 2 * n ensures Next(states[i], steps[i], Clock(n)[i], states[i + 1]) {
      assert states[i] == KilledState(i) && states[i + 1] == KilledState(i + 1) && steps[i] == KilledStep(i);
    }
    assert Ahead(PAIR, 1) == {0};
    KilledCounts(n, n);
  }
}
