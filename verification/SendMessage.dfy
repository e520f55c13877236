// One send in the daemon: what it reports while it works, what it knows when it fails, and when
// it may say that nothing was clicked.
module SendMessage {
  import opened Rows
  import opened ReconcileScan
  import opened Sets

  datatype Phase = PreClick | PostClick

  /** An exception of a browser operation: one of the daemon's own, with or without a phase, or another. */
  datatype Throw = Own(phase: Option<Phase>) | Foreign

  datatype Progress = Progress(phase: Phase, turn: Option<TurnId>, url: Option<Url>, baseline: Option<set<TurnId>>)

  datatype Outcome =
    | Sent(result: SendResult)
    | Thrown(phase: Phase, turn: Option<TurnId>, url: Option<Url>, baseline: Option<set<TurnId>>)

  /** What one look at the tab shows in the confirmation window; it may also fail. */
  datatype Look = Look(turns: seq<Turn>, url: Url, throws: Option<Throw>)

  /** What the browser does: whether some step before the click throws, the turns before it, the click, and the looks until the deadline. */
  datatype Script = Script(
    prelude: Option<Throw>, steps: nat, before: seq<Turn>, clickThrows: bool, looks: seq<Look>, lastUrl: Url)

  // ------------------------------------------------------------------ attachment counts

  method Counts(values: seq<string>) returns (counts: map<string, nat>)
    ensures AreCounts(values, counts)
  {
    counts := map[];
    for n := 0 to |values|
      invariant forall value :: multiset(values[..n])[value] == if value in counts then counts[value] else 0
      invariant forall value :: value in counts ==> counts[value] > 0
    {
      assert values[..n + 1] == values[..n] + [values[n]];
      var value := values[n];
      counts := counts[value := (if value in counts then counts[value] else 0) + 1];
    }
    assert values[..|values|] == values;
  }

  ghost predicate AreCounts(values: seq<string>, counts: map<string, nat>) {
    && (forall value :: multiset(values)[value] == if value in counts then counts[value] else 0)
    && (forall value :: value in counts ==> counts[value] > 0)
  }

  predicate SameCounts(left: map<string, nat>, right: map<string, nat>) {
    |left| == |right| && forall key :: key in left ==> key in right && right[key] == left[key]
  }

  lemma SameCountsSameValues(a: seq<string>, b: seq<string>, left: map<string, nat>, right: map<string, nat>)
    requires AreCounts(a, left) && AreCounts(b, right) && SameCounts(left, right)
    ensures multiset(a) == multiset(b)
  {
    EqualSizeSubset(left.Keys, right.Keys);
    assert forall value :: multiset(a)[value] == multiset(b)[value];
  }

  lemma SameValuesSameCounts(a: seq<string>, b: seq<string>, left: map<string, nat>, right: map<string, nat>)
    requires AreCounts(a, left) && AreCounts(b, right) && multiset(a) == multiset(b)
    ensures SameCounts(left, right)
  {
    assert forall value :: value in left <==> multiset(a)[value] > 0;
    assert forall value :: value in right <==> multiset(b)[value] > 0;
    assert left.Keys == right.Keys;
    assert |left| == |left.Keys| && |right| == |right.Keys|;
  }

  /** The observed chips are the expected files, each as often. */
  method SameFiles(expected: seq<string>, observed: seq<string>) returns (same: bool)
    ensures same <==> multiset(expected) == multiset(observed)
  {
    var left := Counts(expected);
    var right := Counts(observed);
    same := SameCounts(left, right);
    if same {
      SameCountsSameValues(expected, observed, left, right);
    }
    if multiset(expected) == multiset(observed) {
      SameValuesSameCounts(expected, observed, left, right);
    }
  }

  // ------------------------------------------------------------------ recognising the sent turn

  predicate Recognised(turns: seq<Turn>, query: Query, k: nat)
    requires k < |turns|
  {
    var turn := turns[k];
    && NewUser(turns, query.baseline, k) && turn.reread.Some?
    && (|| turn.reread.value in query.matcher.strict
        || (query.image && turn.reread.value in query.matcher.imageStrict)
        || (OnlyNewUser(turns, query.baseline, k)
            && (turn.reread.value in query.matcher.loose || turn.reread.value in query.matcher.sane)))
  }

  /**
   * A new user turn is recognised by its text: the prompt as rendered, the prompt of an image request, or, of the only
   * new user turn, one that resembles the prompt or has a sane length.
   */
  lemma RecognisedIff(turns: seq<Turn>, query: Query, k: nat)
    requires k < |turns|
    ensures Recognised(turns, query, k) <==>
              && turns[k].user && turns[k].id !in query.baseline
              && match turns[k].reread
                 case None => false
                 case Some(text) =>
                   || text in query.matcher.strict || (query.image && text in query.matcher.imageStrict)
                   || ((text in query.matcher.loose || text in query.matcher.sane)
                       && forall j :: 0 <= j < |turns| && turns[j].user && turns[j].id !in query.baseline ==> j == k)
  {
    assert forall j :: 0 <= j < |turns| ==> (NewUser(turns, query.baseline, j) <==> turns[j].user && turns[j].id !in query.baseline);
    hide NewUser;
    assert OnlyNewUser(turns, query.baseline, k) <==>
             NewUser(turns, query.baseline, k) && forall j :: 0 <= j < |turns| && NewUser(turns, query.baseline, j) ==> j == k;
  }

  predicate HasNewUser(turns: seq<Turn>, baseline: set<TurnId>) {
    exists k :: 0 <= k < |turns| && NewUser(turns, baseline, k)
  }

  function FirstNewUser(turns: seq<Turn>, baseline: set<TurnId>): (k: nat)
    requires HasNewUser(turns, baseline)
    ensures k < |turns| && NewUser(turns, baseline, k) && forall j :: 0 <= j < k ==> !NewUser(turns, baseline, j)
  {
    if NewUser(turns, baseline, 0) then 0
    else
      var k :| 0 <= k < |turns| && NewUser(turns, baseline, k);
      assert NewUser(turns[1..], baseline, k - 1);
      var rest := FirstNewUser(turns[1..], baseline);
      assert forall j :: 0 < j < |turns| ==> NewUser(turns, baseline, j) == NewUser(turns[1..], baseline, j - 1);
      rest + 1
  }

  predicate IsNewAnswer(turns: seq<Turn>, baseline: set<TurnId>, k: nat)
    requires k < |turns|
  {
    !turns[k].user && turns[k].id !in baseline
  }

  /** The first new assistant turn after the user turn, or none when there is none. */
  predicate FirstAnswer(turns: seq<Turn>, baseline: set<TurnId>, user: nat, answer: Option<TurnId>) {
    match answer
    case None => forall k :: user < k < |turns| ==> !IsNewAnswer(turns, baseline, k)
    case Some(id) =>
      exists k :: user < k < |turns| && IsNewAnswer(turns, baseline, k) && turns[k].id == id
                  && forall j :: user < j < k ==> !IsNewAnswer(turns, baseline, j)
  }

  /** The answer is new, comes after the user turn, and no new assistant turn stands between. */
  lemma FirstAnswerIs(turns: seq<Turn>, baseline: set<TurnId>, user: nat, answer: Option<TurnId>)
    ensures FirstAnswer(turns, baseline, user, answer) <==>
              if answer == None then forall k :: user < k < |turns| ==> turns[k].user || turns[k].id in baseline
              else exists k :: user < k < |turns| && !turns[k].user && turns[k].id !in baseline && answer == Some(turns[k].id)
                     && forall j :: user < j < k ==> turns[j].user || turns[j].id in baseline
  {
    assert forall k :: 0 <= k < |turns| ==> (IsNewAnswer(turns, baseline, k) <==> !turns[k].user && turns[k].id !in baseline);
    hide IsNewAnswer;
  }

  predicate FirstRecognised(turns: seq<Turn>, query: Query, k: nat) {
    k < |turns| && Recognised(turns, query, k) && forall j :: 0 <= j < k ==> !Recognised(turns, query, j)
  }

  predicate NoneRecognised(turns: seq<Turn>, query: Query) {
    forall j :: 0 <= j < |turns| ==> !Recognised(turns, query, j)
  }

  /** The first recognised new user turn, if there is one, and the first assistant turn after it that is new as well, if there is one. */
  method FindSent(look: Look, query: Query) returns (user: Option<nat>, assistant: Option<TurnId>)
    ensures user.Some? ==> FirstRecognised(look.turns, query, user.value)
                           && FirstAnswer(look.turns, query.baseline, user.value, assistant)
    ensures user.None? ==> NoneRecognised(look.turns, query) && assistant.None?
  {
    user, assistant := None, None;
    for k := 0 to |look.turns|
      invariant forall j :: 0 <= j < k ==> !Recognised(look.turns, query, j)
    {
      if Recognised(look.turns, query, k) {
        user := Some(k);
        break;
      }
    }
    if user.Some? {
      for k := user.value + 1 to |look.turns|
        invariant forall j :: user.value < j < k ==> !IsNewAnswer(look.turns, query.baseline, j)
      {
        if IsNewAnswer(look.turns, query.baseline, k) {
          assistant := Some(look.turns[k].id);
          return;
        }
      }
    }
  }

  // ------------------------------------------------------------------ what the reports promise

  /** Before the click nothing is reported but the phase; after it the baseline, and an address only with a turn. */
  predicate ProgressOk(progress: Progress, baseline: set<TurnId>) {
    if progress.phase == PreClick then progress.turn.None? && progress.url.None? && progress.baseline.None?
    else
      && progress.baseline == Some(baseline)
      && (progress.url.Some? ==> progress.turn.Some?)
      && (progress.turn.Some? ==> progress.turn.value !in baseline)
  }

  predicate Follows(earlier: Progress, later: Progress) {
    && (earlier.phase == PostClick ==> later.phase == PostClick)
    && (earlier.turn.Some? ==> later.turn == earlier.turn)
  }

  /** Phases do not go back, and the observed turn is written once. */
  predicate ReportsOk(reports: seq<Progress>, baseline: set<TurnId>) {
    && (forall i :: 0 <= i < |reports| ==> ProgressOk(reports[i], baseline))
    && (forall i, j :: 0 <= i < j < |reports| ==> Follows(reports[i], reports[j]))
  }

  /** The first new user turn of the earliest look that has one, or none when no look has one. */
  predicate EarliestSeen(looks: seq<Look>, baseline: set<TurnId>, turn: Option<TurnId>) {
    match turn
    case None => forall i :: 0 <= i < |looks| ==> !HasNewUser(looks[i].turns, baseline)
    case Some(id) => exists i :: 0 <= i < |looks| && SeenFirstAt(looks, baseline, id, i)
  }

  predicate SeenFirstAt(looks: seq<Look>, baseline: set<TurnId>, id: TurnId, i: nat) {
    && i < |looks| && HasNewUser(looks[i].turns, baseline)
    && id == looks[i].turns[FirstNewUser(looks[i].turns, baseline)].id
    && forall j :: 0 <= j < i ==> !HasNewUser(looks[j].turns, baseline)
  }

  /** A look that fails, or that shows a recognised turn in a conversation. */
  predicate Ends(look: Look, query: Query) {
    look.throws.Some? || (IsConversation(look.url) && !NoneRecognised(look.turns, query))
  }

  /** The window ends with look n, or with the deadline after all of them. */
  predicate EndsAt(looks: seq<Look>, query: Query, n: nat) {
    && n <= |looks| && (forall i :: 0 <= i < n ==> !Ends(looks[i], query))
    && (n < |looks| ==> Ends(looks[n], query))
  }

  /** What the window makes of the look it ends with. */
  ghost predicate WindowOutcome(script: Script, query: Query, n: nat, outcome: Outcome) {
    EndsAt(script.looks, query, n) &&
    match outcome
    case Sent(result) =>
      && n < |script.looks| && script.looks[n].throws.None? && result.url == script.looks[n].url && IsConversation(result.url)
      && exists k: nat :: FirstRecognised(script.looks[n].turns, query, k) && result.userTurn == script.looks[n].turns[k].id
                          && FirstAnswer(script.looks[n].turns, query.baseline, k, result.assistantTurn)
    case Thrown(phase, turn, url, baseline) =>
      && (n < |script.looks| ==> script.looks[n].throws.Some?)
      && phase == PostClick && url == Some(script.lastUrl) && baseline == Some(query.baseline)
      && EarliestSeen(script.looks[..n], query.baseline, turn)
  }

  function IdsOf(turns: seq<Turn>): set<TurnId> {
    set k | 0 <= k < |turns| :: turns[k].id
  }

  function PhaseOf(clickStarted: bool, error: Throw): Phase {
    if clickStarted then PostClick
    else if error.Own? && error.phase.Some? then error.phase.value else PreClick
  }

  /**
   * The whole send. `clicked` says whether the send button was pressed. A failure that claims the time before the
   * click is one without a click; after it the outcome is that of the confirmation window, or of a click that did not
   * return.
   */
  method Send(script: Script, query: Query)
    returns (outcome: Outcome, clicked: bool, reports: seq<Progress>, ghost end: nat)
    requires query.baseline == IdsOf(script.before)
    ensures clicked <==> script.prelude.None?
    ensures outcome.Thrown? && outcome.phase == PreClick ==> !clicked
    ensures !clicked ==>
              && outcome.Thrown? && outcome.turn == None && outcome.url == None && outcome.baseline == None
              && (outcome.phase == PostClick <==> script.prelude == Some(Own(Some(PostClick))))
    ensures clicked && script.clickThrows ==>
              outcome == Thrown(PostClick, None, Some(script.lastUrl), Some(query.baseline))
    ensures clicked && !script.clickThrows ==> WindowOutcome(script, query, end, outcome)
    ensures ReportsOk(reports, query.baseline)
  {
    end := 0;
    clicked := false;
    reports := [Progress(PreClick, None, None, None)];
    for n := 0 to script.steps
      invariant ReportsOk(reports, query.baseline)
      invariant forall i :: 0 <= i < |reports| ==> reports[i] == Progress(PreClick, None, None, None)
    {
      reports := reports + [Progress(PreClick, None, None, None)];
    }
    if script.prelude.Some? {
      return Thrown(PhaseOf(false, script.prelude.value), None, None, None), clicked, reports, end;
    }
    clicked := true;
    var baseline := Some(query.baseline);
    reports := reports + [Progress(PostClick, None, None, baseline)];
    if script.clickThrows {
      return Thrown(PostClick, None, Some(script.lastUrl), baseline), clicked, reports, end;
    }
    reports := reports + [Progress(PostClick, None, None, baseline)];
    outcome, reports, end := Confirm(script, query, reports);
  }

  /** The confirmation window. */
  method Confirm(script: Script, query: Query, sofar: seq<Progress>)
    returns (outcome: Outcome, reports: seq<Progress>, ghost end: nat)
    requires ReportsOk(sofar, query.baseline) && sofar != []
    requires forall i :: 0 <= i < |sofar| ==> sofar[i].turn.None?
    ensures ReportsOk(reports, query.baseline)
    ensures WindowOutcome(script, query, end, outcome)
  {
    hide HasNewUser, Recognised;
    reports := sofar;
    var turn: Option<TurnId> := None;
    for n := 0 to |script.looks|
      invariant ReportsOk(reports, query.baseline)
      invariant forall i :: 0 <= i < |reports| ==> reports[i].turn.None? || reports[i].turn == turn
      invariant EarliestSeen(script.looks[..n], query.baseline, turn)
      invariant turn.Some? ==> turn.value !in query.baseline
      invariant forall i :: 0 <= i < n ==> !Ends(script.looks[i], query)
    {
      var look := script.looks[n];
      end := n;
      if look.throws.Some? {
        return Thrown(PostClick, turn, Some(script.lastUrl), Some(query.baseline)), reports, end;
      }
      ghost var before := turn;
      if HasNewUser(look.turns, query.baseline) {
        if turn.None? {
          turn := Some(look.turns[FirstNewUser(look.turns, query.baseline)].id);
        }
        reports := reports + [Progress(PostClick, turn, Some(look.url), Some(query.baseline))];
      }
      OneLookMore(script.looks, n, query.baseline, before, turn);
      var user, assistant := FindSent(look, query);
      if user.Some? && IsConversation(look.url) {
        return Sent(SendResult(look.url, look.turns[user.value].id, assistant)), reports, end;
      }
    }
    end := |script.looks|;
    assert script.looks[..|script.looks|] == script.looks;
    return Thrown(PostClick, turn, Some(script.lastUrl), Some(query.baseline)), reports, end;
  }

  lemma OneLookMore(looks: seq<Look>, n: nat, baseline: set<TurnId>, before: Option<TurnId>, turn: Option<TurnId>)
    requires n < |looks| && EarliestSeen(looks[..n], baseline, before)
    requires turn == if before.Some? || !HasNewUser(looks[n].turns, baseline) then before
                     else Some(looks[n].turns[FirstNewUser(looks[n].turns, baseline)].id)
    ensures EarliestSeen(looks[..n + 1], baseline, turn)
  {
    hide HasNewUser;
    if before.Some? {
      var i: nat :| i < n && SeenFirstAt(looks[..n], baseline, before.value, i);
      assert SeenFirstAt(looks[..n + 1], baseline, before.value, i);
    } else if turn.Some? {
      assert forall i :: 0 <= i < n ==> looks[..n + 1][i] == looks[..n][i];
      assert SeenFirstAt(looks[..n + 1], baseline, turn.value, n);
    }
  }
}
