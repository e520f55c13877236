// How the RPC client settles its calls: responses, progress reports, timers, send errors,
// unreadable messages and the end of the connection, in any order.
module RpcCalls {
  import opened Rows

  type CallId = nat

  type TimerId = nat

  datatype Timer = Timer(deadline: Time, id: CallId, inactivity: bool)

  /** `inactivityMs` is 0 when the caller set no limit. */
  datatype PendingCall = PendingCall(timer: TimerId, inactivityMs: nat, inactivityTimer: Option<TimerId>)

  datatype Outcome = Resolved | Rejected | TimedOut | Inactive | SendFailed | ConnectionLost

  datatype State = State(
    nextId: CallId, nextTimer: TimerId,
    pending: map<CallId, PendingCall>, timers: map<TimerId, Timer>,
    outcomes: map<CallId, seq<Outcome>>)

  datatype Event =
    | Call(timeoutMs: nat, inactivityMs: nat)
    | Response(id: CallId, error: bool)
    | Progress(callId: Option<CallId>)
    | OtherNotification
    | BadJson
    | SocketDown
    | SendError(id: CallId)
    | Fire(timer: TimerId)

  const START := State(1, 0, map[], map[], map[])

  function WithoutTimer(timers: map<TimerId, Timer>, timer: Option<TimerId>): map<TimerId, Timer> {
    if timer.Some? then timers - {timer.value} else timers
  }

  /** Both timers are cleared, the entry goes, and the caller's promise gets its outcome. */
  function Settle(s: State, id: CallId, outcome: Outcome): State
    requires id in s.pending
  {
    var call := s.pending[id];
    s.(pending := s.pending - {id},
       timers := WithoutTimer(s.timers - {call.timer}, call.inactivityTimer),
       outcomes := Told(s.outcomes, id, outcome))
  }

  function Told(outcomes: map<CallId, seq<Outcome>>, id: CallId, outcome: Outcome): map<CallId, seq<Outcome>> {
    outcomes[id := (if id in outcomes then outcomes[id] else []) + [outcome]]
  }

  function SettleIfPending(s: State, id: CallId, outcome: Outcome): State {
    if id in s.pending then Settle(s, id, outcome) else s
  }

  function StartCall(s: State, timeoutMs: nat, inactivityMs: nat, now: Time): State {
    var id, timer := s.nextId, s.nextTimer;
    var absolute := s.timers[timer := Timer(now + timeoutMs, id, false)];
    var limited := inactivityMs > 0;
    State(
      id + 1, if limited then timer + 2 else timer + 1,
      s.pending[id := PendingCall(timer, inactivityMs, if limited then Some(timer + 1) else None)],
      if limited then absolute[timer + 1 := Timer(now + inactivityMs, id, true)] else absolute,
      s.outcomes[id := []])
  }

  function Report(s: State, id: CallId, now: Time): State {
    if id !in s.pending || s.pending[id].inactivityTimer.None? then s
    else
      var call := s.pending[id];
      s.(nextTimer := s.nextTimer + 1,
         pending := s.pending[id := call.(inactivityTimer := Some(s.nextTimer))],
         timers := WithoutTimer(s.timers, call.inactivityTimer)[s.nextTimer := Timer(now + call.inactivityMs, id, true)])
  }

  function RejectAll(s: State): State {
    s.(pending := map[],
       timers := map t | t in s.timers && s.timers[t].id !in s.pending :: s.timers[t],
       outcomes := map id | id in s.outcomes :: if id in s.pending then s.outcomes[id] + [ConnectionLost] else s.outcomes[id])
  }

  function FireTimer(s: State, timer: TimerId): State {
    if timer !in s.timers then s
    else SettleIfPending(s, s.timers[timer].id, if s.timers[timer].inactivity then Inactive else TimedOut)
  }

  function Step(s: State, event: Event, now: Time): State {
    match event
    case Call(timeoutMs, inactivityMs) => StartCall(s, timeoutMs, inactivityMs, now)
    case Response(id, error) => SettleIfPending(s, id, if error then Rejected else Resolved)
    case Progress(callId) => if callId.Some? then Report(s, callId.value, now) else s
    case OtherNotification => s
    case BadJson => RejectAll(s)
    case SocketDown => RejectAll(s)
    case SendError(id) => SettleIfPending(s, id, SendFailed)
    case Fire(timer) => FireTimer(s, timer)
  }

  // ------------------------------------------------------------------ every call settles once

  predicate CallOk(s: State, id: CallId)
    requires id in s.pending
  {
    var call := s.pending[id];
    && id in s.outcomes && s.outcomes[id] == []
    && call.timer in s.timers && s.timers[call.timer].id == id && !s.timers[call.timer].inactivity
    && (call.inactivityTimer.Some? <==> call.inactivityMs > 0)
    && (call.inactivityTimer.Some? ==>
          var timer := call.inactivityTimer.value;
          timer in s.timers && s.timers[timer].id == id && s.timers[timer].inactivity)
  }

  predicate TimerOk(s: State, timer: TimerId)
    requires timer in s.timers
  {
    var id := s.timers[timer].id;
    && timer < s.nextTimer && id in s.pending
    && (if s.timers[timer].inactivity then s.pending[id].inactivityTimer == Some(timer) else s.pending[id].timer == timer)
  }

  /** A call is pending with its timers armed and nothing told, or it was told exactly one outcome and left no timer. */
  ghost predicate Valid(s: State) {
    && (forall id :: id in s.outcomes <==> 1 <= id < s.nextId)
    && (forall id {:trigger CallOk(s, id)} :: id in s.pending ==> CallOk(s, id))
    && (forall timer {:trigger TimerOk(s, timer)} :: timer in s.timers ==> TimerOk(s, timer))
    && (forall id :: id in s.outcomes && id !in s.pending ==> |s.outcomes[id]| == 1)
    && s.nextId >= 1
  }

  /** The timers of the calls in `rest`. */
  function TimersLeft(s: State, rest: set<CallId>): map<TimerId, Timer> {
    map t | t in s.timers && s.timers[t].id in rest :: s.timers[t]
  }

  /** The calls that are not in `rest` any more have been told that the connection is lost. */
  function OutcomesSoFar(s: State, rest: set<CallId>): map<CallId, seq<Outcome>> {
    map id | id in s.outcomes :: if id in s.pending && id !in rest then s.outcomes[id] + [ConnectionLost] else s.outcomes[id]
  }

  lemma NothingRejected(s: State)
    requires Valid(s)
    ensures TimersLeft(s, s.pending.Keys) == s.timers && OutcomesSoFar(s, s.pending.Keys) == s.outcomes
  {
    TimersArePending(s);
  }

  lemma EveryoneRejected(s: State)
    requires Valid(s)
    ensures RejectAll(s) == s.(pending := map[], timers := TimersLeft(s, {}), outcomes := OutcomesSoFar(s, {}))
  {
    TimersArePending(s);
  }

  lemma EveryoneIsTold(s: State)
    requires Valid(s)
    ensures RejectAll(s).timers == map[] && RejectAll(s).outcomes.Keys == s.outcomes.Keys
    ensures forall id :: id in s.outcomes ==>
              RejectAll(s).outcomes[id] == if id in s.pending then [ConnectionLost] else s.outcomes[id]
  {
    RejectAllKeepsValid(s);
    assert forall id :: id in s.pending ==> CallOk(s, id);
  }

  lemma OneMoreRejected(s: State, rest: set<CallId>, id: CallId)
    requires Valid(s) && id in rest && rest <= s.pending.Keys
    ensures id in s.pending
    ensures TimersLeft(s, rest - {id})
            == WithoutTimer(TimersLeft(s, rest) - {s.pending[id].timer}, s.pending[id].inactivityTimer)
    ensures OutcomesSoFar(s, rest - {id}) == Told(OutcomesSoFar(s, rest), id, ConnectionLost)
  {
    hide Valid;
    TimersOfCall(s, id);
  }

  lemma TimersArePending(s: State)
    requires Valid(s)
    ensures forall t :: t in s.timers ==> s.timers[t].id in s.pending
  {
    forall t | t in s.timers ensures s.timers[t].id in s.pending {
      assert TimerOk(s, t);
    }
  }

  /** A pending call has told nothing, and its timers are the ones in its entry. */
  lemma TimersOfCall(s: State, id: CallId)
    requires Valid(s) && id in s.pending
    ensures id in s.outcomes && s.outcomes[id] == []
    ensures forall t :: t in s.timers ==> (s.timers[t].id == id <==> t == s.pending[id].timer || Some(t) == s.pending[id].inactivityTimer)
  {
    assert CallOk(s, id);
    forall t | t in s.timers ensures s.timers[t].id == id <==> t == s.pending[id].timer || Some(t) == s.pending[id].inactivityTimer {
      assert TimerOk(s, t);
    }
  }

  lemma SettleKeepsValid(s: State, id: CallId, outcome: Outcome)
    requires Valid(s) && id in s.pending
    ensures Valid(Settle(s, id, outcome))
  {
    var s' := Settle(s, id, outcome);
    assert CallOk(s, id);
    forall x | x in s'.pending ensures CallOk(s', x) {
      assert CallOk(s, x);
    }
    forall timer | timer in s'.timers ensures TimerOk(s', timer) {
      assert TimerOk(s, timer);
    }
  }

  lemma StepKeepsValid(s: State, event: Event, now: Time)
    requires Valid(s)
    ensures Valid(Step(s, event, now))
  {
    match event
    case Call(timeoutMs, inactivityMs) => StartKeepsValid(s, timeoutMs, inactivityMs, now);
    case Response(id, error) =>
      if id in s.pending {
        SettleKeepsValid(s, id, if error then Rejected else Resolved);
      }
    case Progress(callId) =>
      if callId.Some? {
        ReportKeepsValid(s, callId.value, now);
      }
    case OtherNotification =>
    case SendError(id) =>
      if id in s.pending {
        SettleKeepsValid(s, id, SendFailed);
      }
    case Fire(timer) =>
      if timer in s.timers {
        assert TimerOk(s, timer);
        SettleKeepsValid(s, s.timers[timer].id, if s.timers[timer].inactivity then Inactive else TimedOut);
      }
    case _ => RejectAllKeepsValid(s);
  }

  lemma StartKeepsValid(s: State, timeoutMs: nat, inactivityMs: nat, now: Time)
    requires Valid(s)
    ensures Valid(StartCall(s, timeoutMs, inactivityMs, now))
  {
    var s' := StartCall(s, timeoutMs, inactivityMs, now);
    assert s.nextTimer in s.timers ==> TimerOk(s, s.nextTimer);
    assert s.nextId in s.pending ==> CallOk(s, s.nextId);
    forall x | x in s'.pending ensures CallOk(s', x) {
      if x != s.nextId {
        assert CallOk(s, x);
        TimersBelow(s, x);
      }
    }
    forall timer | timer in s'.timers ensures TimerOk(s', timer) {
      assert timer in s.timers ==> TimerOk(s, timer);
    }
  }

  lemma PendingIsOk(s: State, id: CallId)
    requires Valid(s) && id in s.pending
    ensures CallOk(s, id)
  {
  }

  lemma TimersBelow(s: State, id: CallId)
    requires Valid(s) && id in s.pending
    ensures s.pending[id].timer < s.nextTimer
    ensures s.pending[id].inactivityTimer.Some? ==> s.pending[id].inactivityTimer.value < s.nextTimer
  {
    var call := s.pending[id];
    assert CallOk(s, id) && TimerOk(s, call.timer);
    assert call.inactivityTimer.Some? ==> TimerOk(s, call.inactivityTimer.value);
  }

  lemma ReportKeepsValid(s: State, id: CallId, now: Time)
    requires Valid(s)
    ensures Valid(Report(s, id, now))
  {
    var s' := Report(s, id, now);
    if s' != s {
      assert CallOk(s, id);
      TimersBelow(s, id);
      forall x | x in s'.pending ensures CallOk(s', x) {
        assert CallOk(s, x);
        TimersBelow(s, x);
      }
      forall timer | timer in s'.timers ensures TimerOk(s', timer) {
        assert timer in s.timers ==> TimerOk(s, timer);
      }
    }
  }

  lemma RejectAllKeepsValid(s: State)
    requires Valid(s)
    ensures Valid(RejectAll(s)) && RejectAll(s).timers == map[]
  {
    forall timer | timer in s.timers ensures s.timers[timer].id in s.pending {
      assert TimerOk(s, timer);
    }
    assert forall id :: id in s.pending ==> CallOk(s, id);
  }

  lemma ResponseSettles(s: State, id: CallId, outcome: Outcome)
    requires Valid(s) && id in s.pending
    ensures var s' := SettleIfPending(s, id, outcome);
            && s'.pending == s.pending - {id} && s'.outcomes == s.outcomes[id := [outcome]]
            && forall timer :: timer in s'.timers <==> timer in s.timers && s.timers[timer].id != id
  {
    TimersOfCall(s, id);
    assert [] + [outcome] == [outcome];
  }

  // ------------------------------------------------------------------ which outcome is told

  /** This event, over a pending call, tells the caller this outcome. */
  predicate Tells(s: State, event: Event, id: CallId, outcome: Outcome)
    requires id in s.pending
  {
    match outcome
    case Resolved => event == Response(id, false)
    case Rejected => event == Response(id, true)
    case SendFailed => event == SendError(id)
    case ConnectionLost => event.BadJson? || event.SocketDown?
    case TimedOut => event == Fire(s.pending[id].timer)
    case Inactive => event.Fire? && s.pending[id].inactivityTimer == Some(event.timer)
  }

  /** What each event does to a pending call, written out. */
  lemma PendingCallIsTold(s: State, event: Event, now: Time, id: CallId)
    requires Valid(s) && id in s.pending
    ensures var s' := Step(s, event, now);
            var told := if id in s'.outcomes then s'.outcomes[id] else [];
            && (event == Response(id, false) ==> told == [Resolved])
            && (event == Response(id, true) ==> told == [Rejected])
            && (event == SendError(id) ==> told == [SendFailed])
            && (event.BadJson? || event.SocketDown? ==> told == [ConnectionLost])
            && (event == Fire(s.pending[id].timer) ==> told == [TimedOut])
            && (event.Fire? && s.pending[id].inactivityTimer == Some(event.timer) ==> told == [Inactive])
            && (id in s'.pending <==> told == [])
            && (told == [] <==> forall outcome :: !Tells(s, event, id, outcome))
  {
    assert CallOk(s, id);
    if event.Fire? && event.timer in s.timers {
      assert TimerOk(s, event.timer);
    }
    if !(forall outcome :: !Tells(s, event, id, outcome)) {
      var outcome :| Tells(s, event, id, outcome);
    } else {
      assert !Tells(s, event, id, Resolved) && !Tells(s, event, id, Rejected) && !Tells(s, event, id, SendFailed);
      assert !Tells(s, event, id, ConnectionLost) && !Tells(s, event, id, TimedOut) && !Tells(s, event, id, Inactive);
    }
  }

  /** A call that is not pending is told nothing any more. */
  lemma SettledCallIsLeftAlone(s: State, event: Event, now: Time, id: CallId)
    requires Valid(s) && id in s.outcomes && id !in s.pending
    ensures var s' := Step(s, event, now); id in s'.outcomes && s'.outcomes[id] == s.outcomes[id] && id !in s'.pending
  {
    if event.Fire? && event.timer in s.timers {
      assert TimerOk(s, event.timer);
    }
  }

  // ------------------------------------------------------------------ runs

  datatype Timed = Timed(event: Event, now: Time)

  /** A run from a fresh client; time does not go back, and no timer fires early. */
  ghost predicate IsRun(states: seq<State>, events: seq<Timed>) {
    && |states| == |events| + 1 && states[0] == START
    && (forall i :: 0 <= i < |events| ==> states[i + 1] == Step(states[i], events[i].event, events[i].now))
    && (forall i, j :: 0 <= i <= j < |events| ==> events[i].now <= events[j].now)
    && (forall i :: 0 <= i < |events| && events[i].event.Fire? && events[i].event.timer in states[i].timers ==>
          states[i].timers[events[i].event.timer].deadline <= events[i].now)
  }

  lemma {:induction false} RunIsValid(states: seq<State>, events: seq<Timed>, n: nat)
    requires IsRun(states, events) && n <= |events|
    ensures Valid(states[n])
  {
    if n > 0 {
      RunIsValid(states, events, n - 1);
      StepKeepsValid(states[n - 1], events[n - 1].event, events[n - 1].now);
    }
  }

  /** The call that step k makes. */
  predicate StartsCall(states: seq<State>, events: seq<Timed>, k: nat, id: CallId)
    requires |states| == |events| + 1
  {
    k < |events| && events[k].event.Call? && states[k].nextId == id
  }

  /**
   * Every call of a run, at every later moment: pending with its absolute timer armed at the instant fixed when
   * it was made, or told exactly one outcome and without an entry or a timer.
   */
  lemma {:induction false} EveryCallSettlesOnce(states: seq<State>, events: seq<Timed>, k: nat, id: CallId, n: nat)
    requires IsRun(states, events) && StartsCall(states, events, k, id) && k < n <= |events|
    ensures var s := states[n];
            && id in s.outcomes && |s.outcomes[id]| == (if id in s.pending then 0 else 1)
            && (id in s.pending ==>
                  && s.pending[id].timer in s.timers
                  && s.timers[s.pending[id].timer].deadline == events[k].now + events[k].event.timeoutMs
                  && s.pending[id].inactivityMs == events[k].event.inactivityMs)
            && (id !in s.pending ==> forall timer :: timer in s.timers ==> s.timers[timer].id != id)
    decreases n
  {
    RunIsValid(states, events, n);
    var s := states[n];
    assert id in s.pending ==> CallOk(s, id);
    if n == k + 1 {
      assert s == Step(states[k], events[k].event, events[k].now);
    } else {
      EveryCallSettlesOnce(states, events, k, id, n - 1);
      RunIsValid(states, events, n - 1);
      DeadlineStays(states[n - 1], events[n - 1].event, events[n - 1].now, id);
    }
    forall timer | timer in s.timers && id !in s.pending ensures s.timers[timer].id != id {
      assert TimerOk(s, timer);
    }
  }

  /** In a run a caller is told an outcome exactly by an event that tells it while the call is pending. */
  lemma {:induction false} ToldIff(states: seq<State>, events: seq<Timed>, id: CallId, outcome: Outcome, n: nat)
    requires IsRun(states, events) && n <= |events|
    ensures (id in states[n].outcomes && states[n].outcomes[id] == [outcome]) <==>
              exists m :: 0 <= m < n && id in states[m].pending && Tells(states[m], events[m].event, id, outcome)
  {
    if n > 0 {
      var s, event, now, s' := states[n - 1], events[n - 1].event, events[n - 1].now, states[n];
      ToldIff(states, events, id, outcome, n - 1);
      RunIsValid(states, events, n - 1);
      assert s' == Step(s, event, now);
      if id in s.pending {
        assert CallOk(s, id);
        PendingCallIsTold(s, event, now, id);
        OneOutcome(s, event, now, id, outcome);
      } else if id in s.outcomes {
        SettledCallIsLeftAlone(s, event, now, id);
      } else {
        UnknownCall(s, event, now, id);
      }
    }
  }

  lemma OneOutcome(s: State, event: Event, now: Time, id: CallId, outcome: Outcome)
    requires Valid(s) && id in s.pending
    ensures var s' := Step(s, event, now);
            (id in s'.outcomes && s'.outcomes[id] == [outcome]) <==> Tells(s, event, id, outcome)
  {
    hide Step;
    PendingCallIsTold(s, event, now, id);
  }

  lemma UnknownCall(s: State, event: Event, now: Time, id: CallId)
    requires Valid(s) && id !in s.outcomes
    ensures id in Step(s, event, now).outcomes ==> Step(s, event, now).outcomes[id] == []
  {
    assert id in s.pending ==> CallOk(s, id);
    if event.Fire? && event.timer in s.timers {
      assert TimerOk(s, event.timer) && CallOk(s, s.timers[event.timer].id);
    }
  }

  /** Whatever happens to a call, its absolute limit does not move. */
  lemma DeadlineStays(s: State, event: Event, now: Time, id: CallId)
    requires Valid(s) && id in s.outcomes
    ensures var s' := Step(s, event, now);
            && id in s'.outcomes
            && (id in s'.pending ==>
                  && id in s.pending && s'.pending[id].timer == s.pending[id].timer
                  && s'.pending[id].inactivityMs == s.pending[id].inactivityMs
                  && s.pending[id].timer in s.timers && s'.pending[id].timer in s'.timers
                  && s'.timers[s'.pending[id].timer] == s.timers[s.pending[id].timer])
  {
    StepKeepsValid(s, event, now);
    var s' := Step(s, event, now);
    if id in s'.pending {
      assert CallOk(s', id);
      if id in s.pending {
        assert CallOk(s, id);
        TimersBelow(s, id);
      }
    }
  }

  /** Step k starts the call or brings a progress report for it while it is pending. */
  predicate Touches(states: seq<State>, events: seq<Timed>, k: nat, id: CallId)
    requires |states| == |events| + 1
  {
    StartsCall(states, events, k, id) || (k < |events| && events[k].event == Progress(Some(id)) && id in states[k].pending)
  }

  lemma {:induction false} InactivityTimerWaits(states: seq<State>, events: seq<Timed>, k: nat, id: CallId, n: nat)
    requires IsRun(states, events) && Touches(states, events, k, id) && k < n <= |events|
    requires id in states[n].pending && states[n].pending[id].inactivityTimer.Some?
    ensures id in states[k + 1].pending && states[k + 1].pending[id].inactivityMs == states[n].pending[id].inactivityMs
    ensures states[n].pending[id].inactivityTimer.value in states[n].timers
    ensures events[k].now + states[n].pending[id].inactivityMs <= states[n].timers[states[n].pending[id].inactivityTimer.value].deadline
    decreases n
  {
    RunIsValid(states, events, n);
    assert CallOk(states[n], id);
    RunIsValid(states, events, n - 1);
    var s, s' := states[n - 1], states[n];
    assert s' == Step(s, events[n - 1].event, events[n - 1].now);
    if n == k + 1 {
      TouchSetsTimer(s, events[k].event, events[k].now, id);
    } else {
      TouchedIsKnown(states, events, k, id, n - 1);
      DeadlineStays(s, events[n - 1].event, events[n - 1].now, id);
      TimerStaysOrMoves(s, events[n - 1].event, events[n - 1].now, id);
      InactivityTimerWaits(states, events, k, id, n - 1);
    }
  }

  /**
   * The inactivity timer of a pending call runs from the last moment it was made or reported progress, for exactly
   * the limit the caller set; without a limit there is none.
   */
  lemma {:induction false} InactivityDeadlineIs(
    states: seq<State>, events: seq<Timed>, k: nat, id: CallId, n: nat) returns (last: nat)
    requires IsRun(states, events) && StartsCall(states, events, k, id) && k < n <= |events| && id in states[n].pending
    ensures k <= last < n && Touches(states, events, last, id)
    ensures forall i: nat :: last < i < n ==> !Touches(states, events, i, id)
    ensures var call, limit := states[n].pending[id], events[k].event.inactivityMs;
            && (call.inactivityTimer.Some? <==> limit > 0)
            && (call.inactivityTimer.Some? ==>
                  && call.inactivityTimer.value in states[n].timers
                  && states[n].timers[call.inactivityTimer.value].deadline == events[last].now + limit)
    decreases n
  {
    hide Valid, Step;
    EveryCallSettlesOnce(states, events, k, id, n);
    RunIsValid(states, events, n);
    PendingIsOk(states[n], id);
    RunIsValid(states, events, n - 1);
    var s, event, now := states[n - 1], events[n - 1].event, events[n - 1].now;
    assert states[n] == Step(s, event, now);
    if Touches(states, events, n - 1, id) {
      last := n - 1;
      if states[n].pending[id].inactivityTimer.Some? {
        TouchSetsTimer(s, event, now, id);
      }
    } else {
      EveryCallSettlesOnce(states, events, k, id, n - 1);
      DeadlineStays(s, event, now, id);
      last := InactivityDeadlineIs(states, events, k, id, n - 1);
      if states[n].pending[id].inactivityTimer.Some? {
        TimerStaysOrMoves(s, event, now, id);
      }
    }
  }

  lemma {:induction false} TouchedIsKnown(states: seq<State>, events: seq<Timed>, k: nat, id: CallId, n: nat)
    requires IsRun(states, events) && Touches(states, events, k, id) && k < n <= |events|
    ensures id in states[n].outcomes
    decreases n
  {
    RunIsValid(states, events, n - 1);
    if n == k + 1 {
      assert id in states[k].pending ==> CallOk(states[k], id);
      assert states[n] == Step(states[k], events[k].event, events[k].now);
    } else {
      TouchedIsKnown(states, events, k, id, n - 1);
      DeadlineStays(states[n - 1], events[n - 1].event, events[n - 1].now, id);
    }
  }

  lemma TouchSetsTimer(s: State, event: Event, now: Time, id: CallId)
    requires Valid(s) && id in Step(s, event, now).pending && Step(s, event, now).pending[id].inactivityTimer.Some?
    requires (event.Call? && s.nextId == id) || (event == Progress(Some(id)) && id in s.pending)
    ensures var s' := Step(s, event, now);
            var timer := s'.pending[id].inactivityTimer.value;
            timer in s'.timers && s'.timers[timer].deadline == now + s'.pending[id].inactivityMs
  {
    StepKeepsValid(s, event, now);
    assert CallOk(Step(s, event, now), id);
  }

  lemma TimerStaysOrMoves(s: State, event: Event, now: Time, id: CallId)
    requires Valid(s) && id in s.outcomes && id in Step(s, event, now).pending && Step(s, event, now).pending[id].inactivityTimer.Some?
    ensures var s' := Step(s, event, now);
            var timer := s'.pending[id].inactivityTimer.value;
            && id in s.pending && s.pending[id].inactivityTimer.Some? && timer in s'.timers
            && ((event == Progress(Some(id)) && s'.timers[timer].deadline == now + s'.pending[id].inactivityMs)
                || (timer == s.pending[id].inactivityTimer.value && timer in s.timers && s'.timers[timer] == s.timers[timer]))
  {
    StepKeepsValid(s, event, now);
    var s' := Step(s, event, now);
    DeadlineStays(s, event, now, id);
    assert CallOk(s', id) && CallOk(s, id);
    TimersBelow(s, id);
  }

  /** A call fails for inactivity only after a gap: it was made, and last reported progress, at least that long before. */
  lemma InactivityNeedsAGap(states: seq<State>, events: seq<Timed>, k: nat, id: CallId, n: nat)
    requires IsRun(states, events) && Touches(states, events, k, id) && k < n < |events|
    requires id in states[n].pending && id in states[n + 1].outcomes && states[n + 1].outcomes[id] == [Inactive]
    ensures states[n].pending[id].inactivityMs > 0
    ensures events[k].now + states[n].pending[id].inactivityMs <= events[n].now
  {
    RunIsValid(states, events, n);
    var s, event := states[n], events[n].event;
    assert states[n + 1] == Step(s, event, events[n].now);
    assert CallOk(s, id);
    OnlyTheTimerSays(s, event, events[n].now, id);
    InactivityTimerWaits(states, events, k, id, n);
  }

  lemma OnlyTheTimerSays(s: State, event: Event, now: Time, id: CallId)
    requires Valid(s) && id in s.pending && id in Step(s, event, now).outcomes && Step(s, event, now).outcomes[id] == [Inactive]
    ensures event.Fire? && event.timer in s.timers && s.pending[id].inactivityTimer == Some(event.timer)
  {
    assert CallOk(s, id);
    assert Step(s, event, now).outcomes[id][0] == Inactive;
    if event.Fire? && event.timer in s.timers {
      assert TimerOk(s, event.timer);
    }
  }

  /** A call times out no earlier than its absolute limit after it was made, however often it reported progress. */
  lemma TimesOutNoEarlier(states: seq<State>, events: seq<Timed>, k: nat, id: CallId, n: nat)
    requires IsRun(states, events) && StartsCall(states, events, k, id) && k < n < |events|
    requires id in states[n].pending && id in states[n + 1].outcomes && states[n + 1].outcomes[id] == [TimedOut]
    ensures events[k].now + events[k].event.timeoutMs <= events[n].now
  {
    RunIsValid(states, events, n);
    EveryCallSettlesOnce(states, events, k, id, n);
    var s, event := states[n], events[n].event;
    assert CallOk(s, id) && states[n + 1] == Step(s, event, events[n].now);
    assert states[n + 1].outcomes[id][0] == TimedOut;
    if event.Fire? && event.timer in s.timers {
      assert TimerOk(s, event.timer);
    }
  }

  // ------------------------------------------------------------------ the client

  class RpcClient {
    var nextId: CallId
    var pending: map<CallId, PendingCall>
    var timers: map<TimerId, Timer>
    var nextTimer: TimerId
    var outcomes: map<CallId, seq<Outcome>>

    function View(): State
      reads this
    {
      State(nextId, nextTimer, pending, timers, outcomes)
    }

    constructor ()
      ensures View() == START
    {
      nextId, pending, timers, nextTimer, outcomes := 1, map[], map[], 0, map[];
    }

    method SetTimeout(deadline: Time, id: CallId, inactivity: bool) returns (timer: TimerId)
      modifies this`timers, this`nextTimer
      ensures timer == old(nextTimer) && nextTimer == timer + 1
      ensures timers == old(timers)[timer := Timer(deadline, id, inactivity)]
    {
      timer := nextTimer;
      timers := timers[timer := Timer(deadline, id, inactivity)];
      nextTimer := nextTimer + 1;
    }

    method ClearTimers(call: PendingCall)
      modifies this`timers
      ensures timers == WithoutTimer(old(timers) - {call.timer}, call.inactivityTimer)
    {
      timers := timers - {call.timer};
      if call.inactivityTimer.Some? {
        timers := timers - {call.inactivityTimer.value};
      }
    }

    method SettleCall(id: CallId, outcome: Outcome)
      modifies this`pending, this`timers, this`outcomes
      ensures View() == SettleIfPending(old(View()), id, outcome)
    {
      if id !in pending {
        return;
      }
      ClearTimers(pending[id]);
      pending := pending - {id};
      outcomes := Told(outcomes, id, outcome);
    }

    method MakeCall(timeoutMs: nat, inactivityMs: nat, now: Time) returns (id: CallId)
      modifies this
      ensures View() == Step(old(View()), Call(timeoutMs, inactivityMs), now) && id == old(nextId)
    {
      id := nextId;
      nextId := nextId + 1;
      var timer := SetTimeout(now + timeoutMs, id, false);
      var call := PendingCall(timer, inactivityMs, None);
      if inactivityMs > 0 {
        var inactivityTimer := SetTimeout(now + inactivityMs, id, true);
        call := call.(inactivityTimer := Some(inactivityTimer));
      }
      pending := pending[id := call];
      outcomes := outcomes[id := []];
    }

    method OnProgressNotification(callId: Option<CallId>, now: Time)
      modifies this`pending, this`timers, this`nextTimer
      ensures View() == Step(old(View()), Progress(callId), now)
    {
      if callId.None? || callId.value !in pending {
        return;
      }
      var call := pending[callId.value];
      if call.inactivityTimer.Some? {
        timers := timers - {call.inactivityTimer.value};
        var timer := SetTimeout(now + call.inactivityMs, callId.value, true);
        pending := pending[callId.value := call.(inactivityTimer := Some(timer))];
      }
    }

    method OnMessage(event: Event, now: Time)
      requires event.BadJson? || event.OtherNotification? || event.Progress? || event.Response?
      requires Valid(View())
      modifies this
      ensures View() == Step(old(View()), event, now)
      ensures event.Response? && event.id in old(pending) ==>
                && pending == old(pending) - {event.id}
                && outcomes == old(outcomes)[event.id := [if event.error then Rejected else Resolved]]
                && forall timer :: timer in timers <==> timer in old(timers) && old(timers)[timer].id != event.id
      ensures event.OtherNotification? || (event.Response? && event.id !in old(pending)) ==> View() == old(View())
      ensures event.BadJson? ==>
                && pending == map[] && timers == map[]
                && outcomes.Keys == old(outcomes.Keys)
                && forall id :: id in outcomes ==>
                     outcomes[id] == if id in old(pending) then [ConnectionLost] else old(outcomes)[id]
    {
      if event.Response? && event.id in pending {
        ResponseSettles(View(), event.id, if event.error then Rejected else Resolved);
      }
      match event
      case BadJson => RejectEveryCall();
      case OtherNotification =>
      case Progress(callId) => OnProgressNotification(callId, now);
      case Response(id, error) => SettleCall(id, if error then Rejected else Resolved);
    }

    method RejectEveryCall()
      requires Valid(View())
      modifies this`pending, this`timers, this`outcomes
      ensures View() == RejectAll(old(View()))
      ensures pending == map[] && timers == map[] && outcomes.Keys == old(outcomes.Keys)
      ensures forall id :: id in outcomes ==>
                outcomes[id] == if id in old(pending) then [ConnectionLost] else old(outcomes)[id]
    {
      hide Valid, Told, WithoutTimer;
      ghost var s := View();
      var rest := pending.Keys;
      NothingRejected(s);
      while rest != {}
        invariant rest <= s.pending.Keys && pending == s.pending && nextId == s.nextId && nextTimer == s.nextTimer
        invariant timers == TimersLeft(s, rest) && outcomes == OutcomesSoFar(s, rest)
        decreases |rest|
      {
        hide TimersLeft, OutcomesSoFar;
        var id: CallId :| id in rest;
        OneMoreRejected(s, rest, id);
        ClearTimers(pending[id]);
        outcomes := Told(outcomes, id, ConnectionLost);
        rest := rest - {id};
      }
      EveryoneRejected(s);
      EveryoneIsTold(s);
      pending := map[];
    }

    method FireTimeout(timer: TimerId)
      modifies this`pending, this`timers, this`outcomes
      ensures View() == FireTimer(old(View()), timer)
    {
      if timer in timers {
        SettleCall(timers[timer].id, if timers[timer].inactivity then Inactive else TimedOut);
      }
    }
  }
}
