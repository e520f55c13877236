// What a reconcile may conclude from the open tabs: when a sent turn may be bound to a request
// and when its absence may be proven.
module ReconcileScan {
  import opened Rows

  type Text = nat

  /** A rendered turn; `reread` is the text read again for image prompts, if the turn is still there. */
  datatype Turn = Turn(user: bool, id: TurnId, text: Text, reread: Option<Text>)

  /** A tab: its address, and its turns in document order unless they could not be read. */
  datatype Page = Page(url: Url, turns: Option<seq<Turn>>)

  /** The rendered texts recognised as the prompt, from the strictest test to the loosest. */
  datatype Matcher = Matcher(strict: set<Text>, imageStrict: set<Text>, loose: set<Text>, sane: set<Text>)

  datatype Tier = AnyText | StrictText | LooseText | SaneText

  datatype Query = Query(matcher: Matcher, image: bool, baseline: set<TurnId>)

  // ------------------------------------------------------------------ one page, declaratively

  predicate NewUser(turns: seq<Turn>, baseline: set<TurnId>, k: nat)
    requires k < |turns|
  {
    turns[k].user && turns[k].id !in baseline
  }

  predicate OnlyNewUser(turns: seq<Turn>, baseline: set<TurnId>, k: nat)
    requires k < |turns|
  {
    NewUser(turns, baseline, k) && forall j :: 0 <= j < |turns| && NewUser(turns, baseline, j) ==> j == k
  }

  predicate OnlyUser(turns: seq<Turn>, k: nat)
    requires k < |turns|
  {
    turns[k].user && forall j :: 0 <= j < |turns| && turns[j].user ==> j == k
  }

  function TextOf(turn: Turn, image: bool): Text {
    if image && turn.reread.Some? then turn.reread.value else turn.text
  }

  predicate Strict(query: Query, turn: Turn) {
    var text := TextOf(turn, query.image);
    text in query.matcher.strict || (query.image && text in query.matcher.imageStrict)
  }

  predicate AnyStrict(turns: seq<Turn>, query: Query) {
    exists j :: 0 <= j < |turns| && NewUser(turns, query.baseline, j) && Strict(query, turns[j])
  }

  /** Turn k may be the prompt: strictly, or as the only new turn of an anchored conversation. */
  predicate Candidate(turns: seq<Turn>, query: Query, anchored: bool, k: nat)
    requires k < |turns|
  {
    var text := TextOf(turns[k], query.image);
    && NewUser(turns, query.baseline, k)
    && (|| Strict(query, turns[k])
        || (&& !AnyStrict(turns, query) && anchored && OnlyNewUser(turns, query.baseline, k)
            && (text in query.matcher.loose || (OnlyUser(turns, k) && text in query.matcher.sane))))
  }

  predicate Readable(page: Page, query: Query, anchored: bool) {
    && page.turns.Some?
    && (anchored ==> page.turns.value != [])
    && (query.image ==>
          forall k :: 0 <= k < |page.turns.value| && NewUser(page.turns.value, query.baseline, k) ==>
            page.turns.value[k].reread.Some?)
  }

  /** Readable, and every user turn was there before the click. */
  ghost predicate Quiet(page: Page, query: Query, anchored: bool) {
    && Readable(page, query, anchored)
    && forall k :: 0 <= k < |page.turns.value| ==> !NewUser(page.turns.value, query.baseline, k)
  }

  /**
   * A turn may be the prompt when it is a user turn from after the click and its text is the prompt's; in an anchored
   * conversation that shows no other new user turn a resembling text is enough, and a sane length when it shows no
   * other user turn at all.
   */
  lemma CandidateIff(turns: seq<Turn>, query: Query, anchored: bool, k: nat)
    requires k < |turns|
    ensures Candidate(turns, query, anchored, k) <==>
              && turns[k].user && turns[k].id !in query.baseline
              && var text := match turns[k].reread
                             case Some(again) => if query.image then again else turns[k].text
                             case None => turns[k].text;
                 || text in query.matcher.strict || (query.image && text in query.matcher.imageStrict)
                 || (&& anchored && (forall j :: 0 <= j < |turns| && turns[j].user && turns[j].id !in query.baseline ==> j == k)
                     && (|| text in query.matcher.loose
                         || (text in query.matcher.sane && forall j :: 0 <= j < |turns| && turns[j].user ==> j == k)))
  {
    assert forall j :: 0 <= j < |turns| ==> (NewUser(turns, query.baseline, j) <==> turns[j].user && turns[j].id !in query.baseline);
    hide NewUser;
    if OnlyNewUser(turns, query.baseline, k) {
      assert AnyStrict(turns, query) <==> Strict(query, turns[k]);
    }
  }

  /** A tab counts when its turns were read, an anchored one only with a turn, and for images when every new user turn was read again. */
  lemma ReadableIff(page: Page, query: Query, anchored: bool)
    ensures Readable(page, query, anchored) <==>
              match page.turns
              case None => false
              case Some(turns) =>
                && (turns == [] ==> !anchored)
                && forall k :: 0 <= k < |turns| && turns[k].user && turns[k].id !in query.baseline && turns[k].reread == None ==> !query.image
    ensures Quiet(page, query, anchored) <==>
              match page.turns
              case None => false
              case Some(turns) => (turns == [] ==> !anchored) && forall k :: 0 <= k < |turns| && turns[k].user ==> turns[k].id in query.baseline
  {
    if page.turns.Some? {
      var turns := page.turns.value;
      assert forall k :: 0 <= k < |turns| ==> (NewUser(turns, query.baseline, k) <==> turns[k].user && turns[k].id !in query.baseline);
      hide NewUser;
    }
  }

  ghost predicate UniqueCandidate(page: Page, query: Query, anchored: bool, k: nat) {
    && Readable(page, query, anchored)
    && k < |page.turns.value|
    && Candidate(page.turns.value, query, anchored, k)
    && forall j :: 0 <= j < |page.turns.value| && Candidate(page.turns.value, query, anchored, j) ==> j == k
  }

  ghost predicate Ambiguous(page: Page, query: Query, anchored: bool) {
    && Readable(page, query, anchored)
    && exists i, j :: 0 <= i < j < |page.turns.value|
         && Candidate(page.turns.value, query, anchored, i) && Candidate(page.turns.value, query, anchored, j)
  }

  ghost predicate Unbound(page: Page, query: Query, anchored: bool) {
    !IsConversation(page.url) && exists k: nat :: UniqueCandidate(page, query, anchored, k)
  }

  ghost predicate Hit(page: Page, query: Query, anchored: bool) {
    IsConversation(page.url) && exists k: nat :: UniqueCandidate(page, query, anchored, k)
  }

  // ------------------------------------------------------------------ the scan, as it is computed

  predicate Passes(query: Query, tier: Tier, turn: Turn) {
    match tier
    case AnyText => true
    case StrictText => Strict(query, turn)
    case LooseText => TextOf(turn, query.image) in query.matcher.loose
    case SaneText => TextOf(turn, query.image) in query.matcher.sane
  }

  /** The positions of the true marks, in order. */
  function Indices(marks: seq<bool>): seq<nat> {
    if marks == [] then []
    else
      var n := |marks| - 1;
      if marks[n] then Indices(marks[..n]) + [n] else Indices(marks[..n])
  }

  predicate Ascending(indices: seq<nat>) {
    forall i, j :: 0 <= i < j < |indices| ==> indices[i] < indices[j]
  }

  lemma {:induction false} IndicesMeaning(marks: seq<bool>)
    ensures Ascending(Indices(marks))
    ensures forall k :: k in Indices(marks) <==> 0 <= k < |marks| && marks[k]
  {
    if marks != [] {
      var n := |marks| - 1;
      var rest := Indices(marks[..n]);
      IndicesMeaning(marks[..n]);
      assert forall i :: 0 <= i < |rest| ==> rest[i] in rest;
    }
  }

  function Marks(turns: seq<Turn>, query: Query, tier: Tier): (marks: seq<bool>)
    ensures |marks| == |turns|
    ensures forall k :: 0 <= k < |turns| ==>
              marks[k] == (NewUser(turns, query.baseline, k) && Passes(query, tier, turns[k]))
  {
    seq(|turns|, k requires 0 <= k < |turns| => NewUser(turns, query.baseline, k) && Passes(query, tier, turns[k]))
  }

  /** The positions of the new user turns that pass a tier. */
  function NewUsers(turns: seq<Turn>, query: Query, tier: Tier): seq<nat> {
    Indices(Marks(turns, query, tier))
  }

  lemma NewUsersMeaning(turns: seq<Turn>, query: Query, tier: Tier)
    ensures Ascending(NewUsers(turns, query, tier))
    ensures forall k :: k in NewUsers(turns, query, tier) <==>
              0 <= k < |turns| && NewUser(turns, query.baseline, k) && Passes(query, tier, turns[k])
  {
    var marks := Marks(turns, query, tier);
    IndicesMeaning(marks);
  }

  function UserMarks(turns: seq<Turn>): (marks: seq<bool>)
    ensures |marks| == |turns|
    ensures forall k :: 0 <= k < |turns| ==> marks[k] == turns[k].user
  {
    seq(|turns|, k requires 0 <= k < |turns| => turns[k].user)
  }

  /** Whether exactly one of the turns is a user turn. */
  predicate SingleUser(turns: seq<Turn>) {
    |Indices(UserMarks(turns))| == 1
  }

  lemma SingleUserMeaning(turns: seq<Turn>, k: nat)
    requires k < |turns| && turns[k].user
    ensures SingleUser(turns) <==> OnlyUser(turns, k)
  {
    var users := Indices(UserMarks(turns));
    IndicesMeaning(UserMarks(turns));
    assert k in users;
    var last := users[|users| - 1];
    assert users[0] in users && last in users;
  }

  /** The filters of the page loop, tier by tier. */
  function PromptMatches(turns: seq<Turn>, query: Query, anchored: bool): seq<nat>
  {
    var strict := NewUsers(turns, query, StrictText);
    if strict != [] || !anchored || |NewUsers(turns, query, AnyText)| != 1 then strict
    else
      var loose := NewUsers(turns, query, LooseText);
      if loose != [] || !SingleUser(turns) then loose
      else NewUsers(turns, query, SaneText)
  }

  /** The first assistant turn after turn k. */
  function AssistantAfter(turns: seq<Turn>, k: nat): Option<TurnId>
    decreases |turns| - k
  {
    if k + 1 >= |turns| then None
    else if !turns[k + 1].user then Some(turns[k + 1].id)
    else AssistantAfter(turns, k + 1)
  }

  lemma {:induction false} AssistantAfterIsFirst(turns: seq<Turn>, k: nat, j: nat)
    requires k < j <= |turns| && (forall i :: k < i < j ==> turns[i].user) && (j < |turns| ==> !turns[j].user)
    ensures AssistantAfter(turns, k) == if j < |turns| then Some(turns[j].id) else None
    decreases |turns| - k
  {
    if k + 1 < j {
      AssistantAfterIsFirst(turns, k + 1, j);
    }
  }

  /** The first assistant turn after turn k, or none when there is none. */
  predicate FirstAssistant(turns: seq<Turn>, k: nat, answer: Option<TurnId>) {
    match answer
    case None => forall j :: k < j < |turns| ==> turns[j].user
    case Some(id) =>
      exists j :: k < j < |turns| && !turns[j].user && turns[j].id == id && forall i :: k < i < j ==> turns[i].user
  }

  lemma {:induction false} AssistantAfterMeans(turns: seq<Turn>, k: nat)
    ensures FirstAssistant(turns, k, AssistantAfter(turns, k))
    decreases |turns| - k
  {
    if k + 1 < |turns| && turns[k + 1].user {
      AssistantAfterMeans(turns, k + 1);
      var answer := AssistantAfter(turns, k + 1);
      if answer.Some? {
        var j :| k + 1 < j < |turns| && !turns[j].user && turns[j].id == answer.value && forall i :: k + 1 < i < j ==> turns[i].user;
        assert forall i :: k < i < j ==> turns[i].user;
      }
    } else if k + 1 < |turns| {
      assert turns[k + 1].id == AssistantAfter(turns, k).value;
    }
  }

  datatype Outcome = Unreadable | NoNewUser | Unmatched | Several | NotBound | Match(result: ReconcileResult)

  const NOTHING := ReconcileResult(false, false, None, None, None)

  function MatchResult(page: Page, k: nat): ReconcileResult
    requires page.turns.Some? && k < |page.turns.value|
  {
    ReconcileResult(true, true, Some(page.url), Some(page.turns.value[k].id), AssistantAfter(page.turns.value, k))
  }

  function PageOutcome(page: Page, query: Query, anchored: bool): Outcome {
    if !Readable(page, query, anchored) then Unreadable
    else
      var turns := page.turns.value;
      var matches := PromptMatches(turns, query, anchored);
      if matches == [] then if NewUsers(turns, query, AnyText) == [] then NoNewUser else Unmatched
      else if |matches| > 1 then Several
      else if !IsConversation(page.url) then NotBound
      else
        FirstMatchInRange(turns, query, anchored);
        Match(MatchResult(page, matches[0]))
  }

  lemma FirstMatchInRange(turns: seq<Turn>, query: Query, anchored: bool)
    requires PromptMatches(turns, query, anchored) != []
    ensures PromptMatches(turns, query, anchored)[0] < |turns|
  {
    CandidatesAreMatches(turns, query, anchored);
    assert PromptMatches(turns, query, anchored)[0] in PromptMatches(turns, query, anchored);
  }

  lemma CandidatesAreMatches(turns: seq<Turn>, query: Query, anchored: bool)
    ensures forall k :: k in PromptMatches(turns, query, anchored) <==>
                          0 <= k < |turns| && Candidate(turns, query, anchored, k)
    ensures Ascending(PromptMatches(turns, query, anchored))
  {
    var strict := NewUsers(turns, query, StrictText);
    NewUsersMeaning(turns, query, StrictText);
    if |strict| > 0 {
      assert strict[0] in strict;
      assert AnyStrict(turns, query);
    } else {
      assert forall k :: 0 <= k < |turns| && NewUser(turns, query.baseline, k) && k !in strict ==> !Strict(query, turns[k]);
      assert !AnyStrict(turns, query);
      SoleNewUser(turns, query);
      if anchored && |NewUsers(turns, query, AnyText)| == 1 {
        LooseMatches(turns, query);
      }
    }
  }

  lemma LooseMatches(turns: seq<Turn>, query: Query)
    requires !AnyStrict(turns, query)
    requires |NewUsers(turns, query, AnyText)| == 1
    requires NewUsers(turns, query, StrictText) == []
    ensures forall k :: k in PromptMatches(turns, query, true) <==> 0 <= k < |turns| && Candidate(turns, query, true, k)
    ensures Ascending(PromptMatches(turns, query, true))
  {
    var news := NewUsers(turns, query, AnyText);
    var sole := news[0];
    NewUsersMeaning(turns, query, AnyText);
    NewUsersMeaning(turns, query, LooseText);
    NewUsersMeaning(turns, query, SaneText);
    SoleNewUser(turns, query);
    assert sole in news;
    SingleUserMeaning(turns, sole);
    var loose := NewUsers(turns, query, LooseText);
    if |loose| > 0 {
      assert loose[0] in loose && loose[0] == sole;
    }
    assert loose == [] ==> sole !in loose;
  }

  lemma SoleNewUser(turns: seq<Turn>, query: Query)
    ensures var news := NewUsers(turns, query, AnyText);
            forall k :: 0 <= k < |turns| ==>
              (OnlyNewUser(turns, query.baseline, k) <==> |news| == 1 && news[0] == k)
  {
    var news := NewUsers(turns, query, AnyText);
    NewUsersMeaning(turns, query, AnyText);
    forall k | 0 <= k < |turns| && OnlyNewUser(turns, query.baseline, k) ensures |news| == 1 && news[0] == k {
      assert k in news;
      var last := news[|news| - 1];
      assert news[0] in news && last in news;
    }
    if |news| == 1 {
      assert news[0] in news;
    }
  }

  lemma OutcomeMeaning(page: Page, query: Query, anchored: bool)
    ensures PageOutcome(page, query, anchored).NoNewUser? <==> Quiet(page, query, anchored)
    ensures PageOutcome(page, query, anchored).Several? <==> Ambiguous(page, query, anchored)
    ensures PageOutcome(page, query, anchored).NotBound? <==> Unbound(page, query, anchored)
    ensures PageOutcome(page, query, anchored).Match? <==> Hit(page, query, anchored)
    ensures forall k: nat :: IsConversation(page.url) && UniqueCandidate(page, query, anchored, k) ==>
              PageOutcome(page, query, anchored) == Match(MatchResult(page, k))
  {
    if Readable(page, query, anchored) {
      var turns := page.turns.value;
      CandidatesAreMatches(turns, query, anchored);
      QuietMeansNoNewUsers(turns, query);
      var m := PromptMatches(turns, query, anchored);
      assert forall i :: 0 <= i < |m| ==> m[i] in m;
      if |m| == 0 {
        assert forall k :: 0 <= k < |turns| ==> !Candidate(turns, query, anchored, k);
      } else if |m| == 1 {
        assert forall k :: 0 <= k < |turns| && Candidate(turns, query, anchored, k) ==> k in m;
        assert UniqueCandidate(page, query, anchored, m[0]);
      } else {
        assert Candidate(turns, query, anchored, m[0]) && Candidate(turns, query, anchored, m[1]) && m[0] < m[1];
        assert Ambiguous(page, query, anchored);
        assert forall k: nat :: !UniqueCandidate(page, query, anchored, k);
      }
    }
  }

  lemma QuietMeansNoNewUsers(turns: seq<Turn>, query: Query)
    ensures NewUsers(turns, query, AnyText) == [] <==>
            forall k :: 0 <= k < |turns| ==> !NewUser(turns, query.baseline, k)
  {
    var news := NewUsers(turns, query, AnyText);
    NewUsersMeaning(turns, query, AnyText);
    if news != [] {
      assert news[0] in news;
    } else {
      assert forall k :: 0 <= k < |turns| && NewUser(turns, query.baseline, k) ==> k in news;
    }
  }

  function Outcomes(pages: seq<Page>, query: Query, anchored: bool): (outcomes: seq<Outcome>)
    ensures |outcomes| == |pages|
  {
    if pages == [] then []
    else
      var n := |pages| - 1;
      Outcomes(pages[..n], query, anchored) + [PageOutcome(pages[n], query, anchored)]
  }

  lemma OutcomeAt(pages: seq<Page>, query: Query, anchored: bool, i: nat)
    requires i < |pages|
    ensures Outcomes(pages, query, anchored)[i] == PageOutcome(pages[i], query, anchored)
  {
  }

  /** The flags of the page loop after a sequence of pages. */
  datatype Flags = Flags(unreadable: bool, ambiguous: bool, unbound: bool, unmatched: bool, matches: seq<ReconcileResult>)

  function FlagsOf(outcomes: seq<Outcome>): Flags {
    if outcomes == [] then Flags(false, false, false, false, [])
    else
      var n := |outcomes| - 1;
      var flags := FlagsOf(outcomes[..n]);
      match outcomes[n]
      case Unreadable => flags.(unreadable := true)
      case NoNewUser => flags
      case Unmatched => flags.(unmatched := true)
      case Several => flags.(ambiguous := true)
      case NotBound => flags.(unbound := true)
      case Match(result) => flags.(matches := flags.matches + [result])
  }

  function Verdict(outcomes: seq<Outcome>, anchored: bool): ReconcileResult {
    var flags := FlagsOf(outcomes);
    if |flags.matches| == 1 && !flags.ambiguous && !flags.unbound then flags.matches[0]
    else if |flags.matches| > 1 || flags.unreadable || flags.ambiguous || flags.unbound then NOTHING
    else NOTHING.(proven := anchored && outcomes != [] && !flags.unmatched)
  }

  lemma {:induction false} FlagsMeaning(outcomes: seq<Outcome>)
    ensures var flags := FlagsOf(outcomes);
            && (flags.unreadable <==> exists i :: 0 <= i < |outcomes| && outcomes[i].Unreadable?)
            && (flags.ambiguous <==> exists i :: 0 <= i < |outcomes| && outcomes[i].Several?)
            && (flags.unbound <==> exists i :: 0 <= i < |outcomes| && outcomes[i].NotBound?)
            && (flags.unmatched <==> exists i :: 0 <= i < |outcomes| && outcomes[i].Unmatched?)
  {
    if outcomes != [] {
      FlagsMeaning(outcomes[..|outcomes| - 1]);
    }
  }

  lemma {:induction false} MatchesMeaning(outcomes: seq<Outcome>)
    ensures var results := FlagsOf(outcomes).matches;
            && (|results| == 0 <==> forall i :: 0 <= i < |outcomes| ==> !outcomes[i].Match?)
            && (|results| == 1 ==>
                  exists i :: 0 <= i < |outcomes| && outcomes[i] == Match(results[0])
                         && forall j :: 0 <= j < |outcomes| && outcomes[j].Match? ==> j == i)
            && (|results| > 1 ==>
                  exists i, j :: 0 <= i < j < |outcomes| && outcomes[i].Match? && outcomes[j].Match?)
  {
    if outcomes != [] {
      var n := |outcomes| - 1;
      MatchesMeaning(outcomes[..n]);
      assert forall i :: 0 <= i < n ==> outcomes[..n][i] == outcomes[i];
    }
  }

  function ScanVerdict(pages: seq<Page>, query: Query, anchored: bool): ReconcileResult {
    Verdict(Outcomes(pages, query, anchored), anchored)
  }

  // ------------------------------------------------------------------ what a verdict means

  lemma VerdictAbsent(outcomes: seq<Outcome>, anchored: bool)
    requires forall i :: 0 <= i < |outcomes| && outcomes[i].Match? ==> outcomes[i].result.found
    ensures var v := Verdict(outcomes, anchored);
            !v.found && v.proven <==> anchored && outcomes != [] && forall i :: 0 <= i < |outcomes| ==> outcomes[i].NoNewUser?
  {
    FlagsMeaning(outcomes);
    MatchesMeaning(outcomes);
  }

  predicate OnlyMatch(outcomes: seq<Outcome>, i: nat) {
    && i < |outcomes| && outcomes[i].Match?
    && (forall j :: 0 <= j < |outcomes| && outcomes[j].Match? ==> j == i)
    && (forall j :: 0 <= j < |outcomes| ==> !outcomes[j].Several? && !outcomes[j].NotBound?)
  }

  lemma VerdictFound(outcomes: seq<Outcome>, anchored: bool)
    requires forall i :: 0 <= i < |outcomes| && outcomes[i].Match? ==> outcomes[i].result.found
    ensures forall i: nat :: OnlyMatch(outcomes, i) ==> Verdict(outcomes, anchored) == outcomes[i].result
    ensures Verdict(outcomes, anchored).found ==> exists i: nat :: OnlyMatch(outcomes, i)
    ensures !Verdict(outcomes, anchored).found ==> NothingBound(Verdict(outcomes, anchored))
  {
    FlagsMeaning(outcomes);
    MatchesMeaning(outcomes);
    if Verdict(outcomes, anchored).found {
      var i :| 0 <= i < |outcomes| && outcomes[i] == Match(FlagsOf(outcomes).matches[0])
               && forall j :: 0 <= j < |outcomes| && outcomes[j].Match? ==> j == i;
      assert OnlyMatch(outcomes, i);
    }
  }

  /** Absence is proven exactly when every anchored tab was read and shows only turns from before the click. */
  lemma AbsenceProvenIff(pages: seq<Page>, query: Query, anchored: bool)
    ensures var v := ScanVerdict(pages, query, anchored);
            !v.found && v.proven <==>
            anchored && pages != [] && forall i :: 0 <= i < |pages| ==> Quiet(pages[i], query, anchored)
  {
    var outcomes := Outcomes(pages, query, anchored);
    forall i | 0 <= i < |pages|
      ensures outcomes[i].NoNewUser? <==> Quiet(pages[i], query, anchored)
      ensures outcomes[i].Match? ==> outcomes[i].result.found
    {
      OutcomeAt(pages, query, anchored, i);
      OutcomeMeaning(pages[i], query, anchored);
    }
    VerdictAbsent(outcomes, anchored);
  }

  ghost predicate OnlyHit(pages: seq<Page>, query: Query, anchored: bool, i: nat) {
    && i < |pages| && Hit(pages[i], query, anchored)
    && (forall j :: 0 <= j < |pages| && Hit(pages[j], query, anchored) ==> j == i)
    && (forall j :: 0 <= j < |pages| ==> !Ambiguous(pages[j], query, anchored) && !Unbound(pages[j], query, anchored))
  }

  /** What is said when nothing is found: no address and no turn, whether absence is proven or not. */
  predicate NothingBound(verdict: ReconcileResult) {
    !verdict.found && verdict.url == None && verdict.userTurn == None && verdict.assistantTurn == None
  }

  /** The turn is bound: the address of its tab, its id, and the first answer after it. */
  predicate Binds(verdict: ReconcileResult, page: Page, k: nat) {
    && page.turns.Some? && k < |page.turns.value|
    && verdict.found && verdict.proven && verdict.url == Some(page.url) && verdict.userTurn == Some(page.turns.value[k].id)
    && FirstAssistant(page.turns.value, k, verdict.assistantTurn)
  }

  /** A turn is bound exactly when one conversation tab alone has one candidate and no tab is ambiguous or unbound. */
  lemma FoundIff(pages: seq<Page>, query: Query, anchored: bool)
    ensures ScanVerdict(pages, query, anchored).found <==> exists i: nat :: OnlyHit(pages, query, anchored, i)
    ensures forall i: nat, k: nat :: OnlyHit(pages, query, anchored, i) && UniqueCandidate(pages[i], query, anchored, k) ==>
              Binds(ScanVerdict(pages, query, anchored), pages[i], k)
    ensures !ScanVerdict(pages, query, anchored).found ==> NothingBound(ScanVerdict(pages, query, anchored))
  {
    hide Binds;
    var outcomes := Outcomes(pages, query, anchored);
    forall i | 0 <= i < |pages|
      ensures outcomes[i].Several? <==> Ambiguous(pages[i], query, anchored)
      ensures outcomes[i].NotBound? <==> Unbound(pages[i], query, anchored)
      ensures outcomes[i].Match? <==> Hit(pages[i], query, anchored)
      ensures outcomes[i].Match? ==> outcomes[i].result.found
      ensures forall k: nat :: IsConversation(pages[i].url) && UniqueCandidate(pages[i], query, anchored, k) ==>
                outcomes[i] == Match(MatchResult(pages[i], k))
    {
      OutcomeAt(pages, query, anchored, i);
      OutcomeMeaning(pages[i], query, anchored);
    }
    VerdictFound(outcomes, anchored);
    if ScanVerdict(pages, query, anchored).found {
      var i: nat :| OnlyMatch(outcomes, i);
      assert OnlyHit(pages, query, anchored, i);
    }
    forall i: nat | OnlyHit(pages, query, anchored, i) ensures OnlyMatch(outcomes, i) {
    }
    forall i: nat, k: nat | OnlyHit(pages, query, anchored, i) && UniqueCandidate(pages[i], query, anchored, k)
      ensures Binds(ScanVerdict(pages, query, anchored), pages[i], k)
    {
      MatchBinds(pages[i], k);
    }
  }

  lemma MatchBinds(page: Page, k: nat)
    requires page.turns.Some? && k < |page.turns.value|
    ensures Binds(MatchResult(page, k), page, k)
  {
    AssistantAfterMeans(page.turns.value, k);
  }

  // ------------------------------------------------------------------ the loops

  method MissingReread(page: Page, query: Query, anchored: bool) returns (missing: bool)
    requires page.turns.Some? && (anchored ==> page.turns.value != []) && query.image
    ensures missing <==> !Readable(page, query, anchored)
  {
    var turns := page.turns.value;
    var newUsers := NewUsers(turns, query, AnyText);
    NewUsersMeaning(turns, query, AnyText);
    var i := 0;
    while i < |newUsers|
      invariant 0 <= i <= |newUsers|
      invariant forall j :: 0 <= j < i ==> newUsers[j] in newUsers && turns[newUsers[j]].reread.Some?
    {
      assert newUsers[i] in newUsers;
      if turns[newUsers[i]].reread.None? {
        return true;
      }
      i := i + 1;
    }
    assert forall k :: k in newUsers ==> turns[k].reread.Some?;
    missing := false;
  }

  /** The part of the loop body that may give a tab up; a tab lost while re-reading still counts as read. */
  method ReadPage(page: Page, query: Query, anchored: bool) returns (counted: bool, legible: bool)
    ensures legible <==> Readable(page, query, anchored)
    ensures legible ==> counted
  {
    if page.turns.None? || (anchored && page.turns.value == []) {
      return false, false;
    }
    if query.image {
      var missingTurn := MissingReread(page, query, anchored);
      return true, !missingTurn;
    }
    return true, true;
  }

  /** What the loop body makes of one page. */
  method ScanPage(pages: seq<Page>, i: nat, query: Query, anchored: bool) returns (outcome: Outcome, counted: bool)
    requires i < |pages|
    ensures outcome == Outcomes(pages, query, anchored)[i]
    ensures outcome != Unreadable ==> counted
  {
    OutcomeAt(pages, query, anchored, i);
    var page := pages[i];
    var legible;
    counted, legible := ReadPage(page, query, anchored);
    if !legible {
      return Unreadable, counted;
    }
    var promptMatches := PromptMatches(page.turns.value, query, anchored);
    if promptMatches == [] {
      return if NewUsers(page.turns.value, query, AnyText) == [] then NoNewUser else Unmatched, counted;
    }
    if |promptMatches| > 1 {
      return Several, counted;
    }
    if !IsConversation(page.url) {
      return NotBound, counted;
    }
    FirstMatchInRange(page.turns.value, query, anchored);
    return Match(MatchResult(page, promptMatches[0])), counted;
  }

  /** The page loop with its flags. */
  method ScanPages(pages: seq<Page>, query: Query, anchored: bool) returns (r: ReconcileResult)
    ensures r == ScanVerdict(pages, query, anchored)
  {
    var unreadable, ambiguous, unboundMatch, unmatchedNewUsers := false, false, false, false;
    var readable := 0;
    var matches: seq<ReconcileResult> := [];
    ghost var outcomes := Outcomes(pages, query, anchored);
    for i := 0 to |pages|
      invariant FlagsOf(outcomes[..i]) == Flags(unreadable, ambiguous, unboundMatch, unmatchedNewUsers, matches)
      invariant readable <= i && (!unreadable ==> readable == i)
    {
      assert outcomes[..i + 1][..i] == outcomes[..i];
      var outcome, counted := ScanPage(pages, i, query, anchored);
      if counted {
        readable := readable + 1;
      }
      match outcome
      case Unreadable => unreadable := true;
      case NoNewUser =>
      case Unmatched => unmatchedNewUsers := true;
      case Several => ambiguous := true;
      case NotBound => unboundMatch := true;
      case Match(result) => matches := matches + [result];
    }
    assert outcomes[..|pages|] == outcomes;
    if |matches| == 1 && !ambiguous && !unboundMatch {
      return matches[0];
    }
    if |matches| > 1 || unreadable || ambiguous || unboundMatch {
      return NOTHING;
    }
    return NOTHING.(proven := anchored && |pages| > 0 && readable == |pages| && !unmatchedNewUsers);
  }

  // ------------------------------------------------------------------ which tabs are scanned

  datatype Params = Params(
    query: Query, pendingUserTurn: Option<TurnId>, pendingUrl: Option<Url>, conversationUrl: Option<Url>)

  /**
   * What the browser shows while the verdict is formed: the tabs open at the start, the tab
   * (if any) that opening an address leads to, and the tabs open after each such attempt.
   */
  datatype Browser = Browser(tabs: seq<Page>, reached: map<Url, Page>, later: map<Url, seq<Page>>, fallback: seq<Page>)

  function Anchors(params: Params): seq<Url> {
    (if params.pendingUrl.Some? then [params.pendingUrl.value] else [])
    + (if params.conversationUrl.Some? && params.conversationUrl != params.pendingUrl
       then [params.conversationUrl.value] else [])
  }

  function PagesAt(pages: seq<Page>, url: Url): seq<Page> {
    if pages == [] then []
    else (if pages[0].url == url then [pages[0]] else []) + PagesAt(pages[1..], url)
  }

  lemma {:induction false} PagesAtMeaning(pages: seq<Page>, url: Url)
    ensures forall page :: page in PagesAt(pages, url) <==> page in pages && page.url == url
  {
    if pages != [] {
      PagesAtMeaning(pages[1..], url);
    }
  }

  function TurnMarks(turns: seq<Turn>, turn: TurnId): (marks: seq<bool>)
    ensures |marks| == |turns|
    ensures forall k :: 0 <= k < |turns| ==> marks[k] == (turns[k].user && turns[k].id == turn)
  {
    seq(|turns|, k requires 0 <= k < |turns| => turns[k].user && turns[k].id == turn)
  }

  /** Where a tab shows a user turn, as pairs of tab and position. */
  function PageHits(page: Page, turn: TurnId): seq<(Page, nat)> {
    if page.turns.None? then []
    else
      var hits := Indices(TurnMarks(page.turns.value, turn));
      seq(|hits|, i requires 0 <= i < |hits| => (page, hits[i]))
  }

  function TurnAnchorHits(pages: seq<Page>, turn: TurnId): seq<(Page, nat)> {
    if pages == [] then []
    else TurnAnchorHits(pages[..|pages| - 1], turn) + PageHits(pages[|pages| - 1], turn)
  }

  predicate AllRead(pages: seq<Page>) {
    forall i :: 0 <= i < |pages| ==> pages[i].turns.Some?
  }

  /** The scan for a known turn id binds a turn but never proves absence. */
  function ScanTurnAnchor(pages: seq<Page>, turn: TurnId): ReconcileResult {
    var hits := TurnAnchorHits(pages, turn);
    if !AllRead(pages) || |hits| != 1 then NOTHING
    else if !IsConversation(hits[0].0.url) then NOTHING
    else
      var answer := if hits[0].0.turns.Some? then AssistantAfter(hits[0].0.turns.value, hits[0].1) else None;
      ReconcileResult(true, true, Some(hits[0].0.url), Some(turn), answer)
  }

  predicate HitShows(pages: seq<Page>, hit: (Page, nat), turn: TurnId) {
    && hit.0 in pages && hit.0.turns.Some? && hit.1 < |hit.0.turns.value|
    && hit.0.turns.value[hit.1].user && hit.0.turns.value[hit.1].id == turn
  }

  lemma PageHitsShow(page: Page, turn: TurnId)
    ensures forall hit :: hit in PageHits(page, turn) ==> HitShows([page], hit, turn)
  {
    if page.turns.Some? {
      var hits := Indices(TurnMarks(page.turns.value, turn));
      IndicesMeaning(TurnMarks(page.turns.value, turn));
      assert forall i :: 0 <= i < |hits| ==> hits[i] in hits;
    }
  }

  lemma {:induction false} HitsShowTheTurn(pages: seq<Page>, turn: TurnId)
    ensures forall hit :: hit in TurnAnchorHits(pages, turn) ==> HitShows(pages, hit, turn)
  {
    hide PageHits;
    if pages != [] {
      HitsShowTheTurn(pages[..|pages| - 1], turn);
      PageHitsShow(pages[|pages| - 1], turn);
    }
  }

  ghost predicate Shows(page: Page, turn: TurnId) {
    page.turns.Some? && exists k :: 0 <= k < |page.turns.value| && page.turns.value[k].user && page.turns.value[k].id == turn
  }

  /** A turn is bound by its id only where every tab was read and one conversation tab shows it. */
  lemma TurnAnchorBindsWhatIsShown(pages: seq<Page>, turn: TurnId)
    requires ScanTurnAnchor(pages, turn).found
    ensures var r := ScanTurnAnchor(pages, turn);
            && r.userTurn == Some(turn) && r.url.Some? && IsConversation(r.url.value) && AllRead(pages)
            && exists page :: page in pages && page.url == r.url.value && Shows(page, turn)
  {
    HitsShowTheTurn(pages, turn);
    var hit := TurnAnchorHits(pages, turn)[0];
    assert hit in TurnAnchorHits(pages, turn);
    assert Shows(hit.0, turn);
  }

  /** Turn k of a tab is the user turn looked for. */
  predicate ShowsTurn(page: Page, turn: TurnId, k: nat) {
    page.turns.Some? && k < |page.turns.value| && page.turns.value[k].user && page.turns.value[k].id == turn
  }

  /** Of all turns of all tabs, turn k of tab i alone is the user turn looked for. */
  ghost predicate SoleTurn(pages: seq<Page>, turn: TurnId, i: nat, k: nat) {
    && i < |pages| && ShowsTurn(pages[i], turn, k)
    && forall j: nat, l: nat :: j < |pages| && ShowsTurn(pages[j], turn, l) ==> j == i && l == k
  }

  /** The hits of one tab are the turns that show the user turn, each once and in order. */
  lemma PageHitsAre(page: Page, turn: TurnId)
    ensures forall k: nat :: (page, k) in PageHits(page, turn) <==> ShowsTurn(page, turn, k)
    ensures forall n :: 0 <= n < |PageHits(page, turn)| ==> PageHits(page, turn)[n].0 == page
    ensures forall m, n :: 0 <= m < n < |PageHits(page, turn)| ==> PageHits(page, turn)[m].1 < PageHits(page, turn)[n].1
  {
    if page.turns.Some? {
      var hits := Indices(TurnMarks(page.turns.value, turn));
      IndicesMeaning(TurnMarks(page.turns.value, turn));
      forall k: nat | ShowsTurn(page, turn, k) ensures (page, k) in PageHits(page, turn) {
        var n :| 0 <= n < |hits| && hits[n] == k;
        assert PageHits(page, turn)[n] == (page, k);
      }
      assert forall n :: 0 <= n < |hits| ==> hits[n] in hits;
    }
  }

  ghost predicate ShowsNowhere(pages: seq<Page>, turn: TurnId) {
    forall i: nat, k: nat :: i < |pages| ==> !ShowsTurn(pages[i], turn, k)
  }

  lemma PageShowsNothing(page: Page, turn: TurnId)
    ensures PageHits(page, turn) == [] <==> forall k: nat :: !ShowsTurn(page, turn, k)
  {
    PageHitsAre(page, turn);
    var hits := PageHits(page, turn);
    if hits != [] {
      assert hits[0] == (page, hits[0].1) && hits[0] in hits;
    }
  }

  lemma PageShowsOnce(page: Page, turn: TurnId, k: nat)
    ensures PageHits(page, turn) == [(page, k)] <==> ShowsTurn(page, turn, k) && forall l: nat :: ShowsTurn(page, turn, l) ==> l == k
  {
    PageHitsAre(page, turn);
    var hits := PageHits(page, turn);
    if ShowsTurn(page, turn, k) && forall l: nat :: ShowsTurn(page, turn, l) ==> l == k {
      var last := |hits| - 1;
      assert (page, k) in hits && hits[0] in hits && hits[last] in hits;
      assert hits[0] == (page, hits[0].1) && hits[last] == (page, hits[last].1);
      assert hits[0].1 == k == hits[last].1;
    }
    if hits == [(page, k)] {
      assert (page, k) in hits;
      assert forall l: nat :: ShowsTurn(page, turn, l) ==> (page, l) in hits;
    }
  }

  lemma {:induction false} HitsAreNone(pages: seq<Page>, turn: TurnId)
    ensures TurnAnchorHits(pages, turn) == [] <==> ShowsNowhere(pages, turn)
  {
    hide PageHits, ShowsTurn;
    if pages != [] {
      var n := |pages| - 1;
      HitsAreNone(pages[..n], turn);
      PageShowsNothing(pages[n], turn);
      assert ShowsNowhere(pages, turn) <==> ShowsNowhere(pages[..n], turn) && ShowsNowhere([pages[n]], turn) by {
        assert forall i: nat :: i < n ==> pages[..n][i] == pages[i];
        assert [pages[n]][0] == pages[n];
      }
      assert ShowsNowhere([pages[n]], turn) <==> forall k: nat :: !ShowsTurn(pages[n], turn, k) by {
        assert [pages[n]][0] == pages[n];
      }
    }
  }

  /** A sole turn is the sole hit. */
  lemma {:induction false} SoleTurnIsHit(pages: seq<Page>, turn: TurnId, i: nat, k: nat)
    requires SoleTurn(pages, turn, i, k)
    ensures TurnAnchorHits(pages, turn) == [(pages[i], k)]
    decreases |pages|
  {
    hide PageHits, ShowsTurn, TurnAnchorHits;
    var n := |pages| - 1;
    var init, last := pages[..n], pages[n];
    assert forall j: nat :: j < n ==> init[j] == pages[j];
    HitsSplit(pages, turn);
    if i < n {
      assert SoleTurn(init, turn, i, k);
      SoleTurnIsHit(init, turn, i, k);
      PageShowsNothing(last, turn);
    } else {
      assert ShowsNowhere(init, turn);
      HitsAreNone(init, turn);
      PageShowsOnce(last, turn, k);
    }
  }

  lemma HitsSplit(pages: seq<Page>, turn: TurnId)
    requires pages != []
    ensures TurnAnchorHits(pages, turn) == TurnAnchorHits(pages[..|pages| - 1], turn) + PageHits(pages[|pages| - 1], turn)
  {
  }

  /** A sole hit is a sole turn. */
  lemma {:induction false} HitIsSoleTurn(pages: seq<Page>, turn: TurnId) returns (i: nat, k: nat)
    requires |TurnAnchorHits(pages, turn)| == 1
    ensures SoleTurn(pages, turn, i, k) && TurnAnchorHits(pages, turn) == [(pages[i], k)]
    decreases |pages|
  {
    hide PageHits, ShowsTurn, TurnAnchorHits;
    NoHitsOfNothing(turn);
    var n := |pages| - 1;
    var init, last := pages[..n], pages[n];
    assert forall j: nat :: j < n ==> init[j] == pages[j];
    HitsSplit(pages, turn);
    PageShowsNothing(last, turn);
    if PageHits(last, turn) == [] {
      i, k := HitIsSoleTurn(init, turn);
    } else {
      HitsAreNone(init, turn);
      i, k := n, PageHits(last, turn)[0].1;
      PageHitsAre(last, turn);
      assert PageHits(last, turn) == [(last, k)];
      PageShowsOnce(last, turn, k);
    }
  }

  lemma NoHitsOfNothing(turn: TurnId)
    ensures TurnAnchorHits([], turn) == []
  {
  }

  lemma SoleTurnShows(pages: seq<Page>, turn: TurnId, i: nat, k: nat)
    requires SoleTurn(pages, turn, i, k)
    ensures i < |pages| && ShowsTurn(pages[i], turn, k)
  {
  }

  /**
   * A known turn is bound exactly when every tab was read, one turn of one tab alone is that user turn, and the tab is
   * a conversation; otherwise nothing is said.
   */
  lemma TurnAnchorFoundIff(pages: seq<Page>, turn: TurnId)
    ensures ScanTurnAnchor(pages, turn).found <==>
              && (forall i :: 0 <= i < |pages| ==> pages[i].turns.Some?)
              && exists i: nat, k: nat :: SoleTurn(pages, turn, i, k) && pages[i].url.Conversation?
    ensures forall i: nat, k: nat :: ScanTurnAnchor(pages, turn).found && SoleTurn(pages, turn, i, k) ==>
              Binds(ScanTurnAnchor(pages, turn), pages[i], k)
    ensures !ScanTurnAnchor(pages, turn).found ==> ScanTurnAnchor(pages, turn) == ReconcileResult(false, false, None, None, None)
  {
    hide TurnAnchorHits, SoleTurn;
    if |TurnAnchorHits(pages, turn)| == 1 {
      var i, k := HitIsSoleTurn(pages, turn);
    }
    forall i: nat, k: nat | SoleTurn(pages, turn, i, k)
      ensures i < |pages| && TurnAnchorHits(pages, turn) == [(pages[i], k)]
      ensures ScanTurnAnchor(pages, turn).found ==> Binds(ScanTurnAnchor(pages, turn), pages[i], k)
    {
      SoleTurnIsHit(pages, turn, i, k);
      SoleTurnShows(pages, turn, i, k);
      AssistantAfterMeans(pages[i].turns.value, k);
    }
  }

  /** The loop over the tabs for a known turn id. */
  method ScanUserTurnAnchor(pages: seq<Page>, turn: TurnId) returns (r: ReconcileResult)
    ensures r == ScanTurnAnchor(pages, turn)
    ensures r.found <==>
              && (forall i :: 0 <= i < |pages| ==> pages[i].turns.Some?)
              && exists i: nat, k: nat :: SoleTurn(pages, turn, i, k) && pages[i].url.Conversation?
    ensures forall i: nat, k: nat :: r.found && SoleTurn(pages, turn, i, k) ==> Binds(r, pages[i], k)
    ensures !r.found ==> r == ReconcileResult(false, false, None, None, None)
  {
    hide SoleTurn, Binds;
    var unreadable := false;
    var matches: seq<(Page, nat)> := [];
    for n := 0 to |pages|
      invariant matches == TurnAnchorHits(pages[..n], turn)
      invariant unreadable <==> !AllRead(pages[..n])
    {
      assert pages[..n + 1][..n] == pages[..n];
      if pages[n].turns.None? {
        unreadable := true;
        assert pages[..n + 1][n].turns.None?;
      }
      matches := matches + PageHits(pages[n], turn);
    }
    assert pages[..|pages|] == pages;
    TurnAnchorFoundIff(pages, turn);
    if unreadable || |matches| != 1 || !IsConversation(matches[0].0.url) {
      return NOTHING;
    }
    var found := matches[0];
    var answer := if found.0.turns.Some? then AssistantAfter(found.0.turns.value, found.1) else None;
    return ReconcileResult(true, true, Some(found.0.url), Some(turn), answer);
  }

  function RescanTurnAnchor(anchors: seq<Url>, browser: Browser, turn: TurnId): ReconcileResult {
    if anchors == [] then NOTHING
    else if !IsConversation(anchors[0]) then RescanTurnAnchor(anchors[1..], browser, turn)
    else
      var pages := if anchors[0] in browser.later then browser.later[anchors[0]] else browser.tabs;
      var rebound := ScanTurnAnchor(pages, turn);
      if rebound.found then rebound else RescanTurnAnchor(anchors[1..], browser, turn)
  }

  /** The open tabs at the first conversation anchor that has any. */
  function ExactPages(anchors: seq<Url>, open: seq<Page>): seq<Page> {
    if anchors == [] then []
    else if IsConversation(anchors[0]) && PagesAt(open, anchors[0]) != [] then PagesAt(open, anchors[0])
    else ExactPages(anchors[1..], open)
  }

  function FirstConversation(anchors: seq<Url>): Option<Url> {
    if anchors == [] then None
    else if IsConversation(anchors[0]) then Some(anchors[0])
    else FirstConversation(anchors[1..])
  }

  function ReconcileSend(params: Params, browser: Browser): ReconcileResult {
    var anchors := Anchors(params);
    if params.pendingUserTurn.Some? then
      var observed := ScanTurnAnchor(browser.tabs, params.pendingUserTurn.value);
      if observed.found then observed
      else RescanTurnAnchor(anchors, browser, params.pendingUserTurn.value)
    else
      var exact := ExactPages(anchors, browser.tabs);
      var first := FirstConversation(anchors);
      if exact != [] then ScanVerdict(exact, params.query, true)
      else if first.Some? && first.value in browser.reached && IsConversation(browser.reached[first.value].url) then
        ScanVerdict([browser.reached[first.value]], params.query, true)
      else ScanVerdict(browser.fallback, params.query, false)
  }

  lemma {:induction false} ExactPagesMeaning(anchors: seq<Url>, open: seq<Page>)
    ensures ExactPages(anchors, open) != [] ==>
              exists url :: url in anchors && IsConversation(url) && ExactPages(anchors, open) == PagesAt(open, url)
  {
    if anchors != [] && !(IsConversation(anchors[0]) && PagesAt(open, anchors[0]) != []) {
      ExactPagesMeaning(anchors[1..], open);
    }
  }

  lemma {:induction false} FirstConversationMeaning(anchors: seq<Url>)
    ensures var first := FirstConversation(anchors);
            first.Some? ==> first.value in anchors && IsConversation(first.value)
  {
    if anchors != [] && !IsConversation(anchors[0]) {
      FirstConversationMeaning(anchors[1..]);
    }
  }

  lemma {:induction false} RescanBindsTheTurn(anchors: seq<Url>, browser: Browser, turn: TurnId)
    ensures var r := RescanTurnAnchor(anchors, browser, turn);
            if r.found then r.userTurn == Some(turn) && r.url.Some? && IsConversation(r.url.value) else r == NOTHING
  {
    if anchors != [] {
      RescanBindsTheTurn(anchors[1..], browser, turn);
      var pages := if anchors[0] in browser.later then browser.later[anchors[0]] else browser.tabs;
      if ScanTurnAnchor(pages, turn).found {
        TurnAnchorBindsWhatIsShown(pages, turn);
      }
    }
  }

  /** A request with an observed turn never gets a proof of absence; what it gets is that turn, or nothing. */
  lemma TurnAnchorNeverProvesAbsence(params: Params, browser: Browser)
    requires params.pendingUserTurn.Some?
    ensures var r := ReconcileSend(params, browser);
            if r.found then r.userTurn == params.pendingUserTurn && r.url.Some? && IsConversation(r.url.value) else r == NOTHING
  {
    var turn := params.pendingUserTurn.value;
    RescanBindsTheTurn(Anchors(params), browser, turn);
    if ScanTurnAnchor(browser.tabs, turn).found {
      TurnAnchorBindsWhatIsShown(browser.tabs, turn);
    }
  }

  // ------------------------------------------------------------------ which tabs decide

  predicate Open(tabs: seq<Page>, url: Url) {
    exists i :: 0 <= i < |tabs| && tabs[i].url == url
  }

  /** The conversation address to start from: the one the failed send reported, or else the one of the request. */
  predicate IsAnchor(params: Params, url: Url) {
    url.Conversation? && (params.pendingUrl == Some(url) || params.conversationUrl == Some(url))
  }

  /** An anchor comes first unless the reported address is another one of which `eligible` is true as well. */
  predicate ComesFirst(params: Params, url: Url, reportedEligible: bool) {
    IsAnchor(params, url) && (params.pendingUrl == Some(url) || !reportedEligible)
  }

  lemma OpenIs(tabs: seq<Page>, url: Url)
    ensures PagesAt(tabs, url) != [] <==> Open(tabs, url)
  {
    PagesAtMeaning(tabs, url);
    if PagesAt(tabs, url) != [] {
      assert PagesAt(tabs, url)[0] in PagesAt(tabs, url);
    }
    if Open(tabs, url) {
      var i :| 0 <= i < |tabs| && tabs[i].url == url;
      assert tabs[i] in PagesAt(tabs, url);
    }
  }

  predicate ReportedOpen(params: Params, tabs: seq<Page>) {
    params.pendingUrl.Some? && params.pendingUrl.value.Conversation? && Open(tabs, params.pendingUrl.value)
  }

  predicate ReportedConversation(params: Params) {
    params.pendingUrl.Some? && params.pendingUrl.value.Conversation?
  }

  /**
   * Without an observed turn the open tabs of the first anchor that has any decide; without such tabs the tab that
   * opening the first anchor leads to, if it is a conversation; and else all tabs, without an anchor.
   */
  lemma TabsThatDecide(params: Params, browser: Browser)
    requires params.pendingUserTurn == None
    ensures forall url :: ComesFirst(params, url, ReportedOpen(params, browser.tabs)) && Open(browser.tabs, url) ==>
              ReconcileSend(params, browser) == ScanVerdict(PagesAt(browser.tabs, url), params.query, true)
    ensures (forall url :: IsAnchor(params, url) ==> !Open(browser.tabs, url)) ==>
              (forall url :: ComesFirst(params, url, ReportedConversation(params)) ==>
                 ReconcileSend(params, browser) ==
                   if url in browser.reached && browser.reached[url].url.Conversation?
                   then ScanVerdict([browser.reached[url]], params.query, true)
                   else ScanVerdict(browser.fallback, params.query, false))
              && ((forall url :: !IsAnchor(params, url)) ==>
                    ReconcileSend(params, browser) == ScanVerdict(browser.fallback, params.query, false))
  {
    hide ScanVerdict, PagesAt, Open, ExactPages, FirstConversation, Anchors;
    var tabs, pending, conversation := browser.tabs, params.pendingUrl, params.conversationUrl;
    forall url ensures PagesAt(tabs, url) != [] <==> Open(tabs, url) {
      OpenIs(tabs, url);
    }
    AnchorsInOrder(params, browser);
    forall url | ComesFirst(params, url, ReportedOpen(params, tabs)) && Open(tabs, url)
      ensures ReconcileSend(params, browser) == ScanVerdict(PagesAt(tabs, url), params.query, true)
    {
      assert ExactPages(Anchors(params), tabs) == PagesAt(tabs, url) && PagesAt(tabs, url) != [];
    }
    if forall url :: IsAnchor(params, url) ==> !Open(tabs, url) {
      assert pending.Some? && pending.value.Conversation? ==> IsAnchor(params, pending.value);
      assert conversation.Some? && conversation.value.Conversation? ==> IsAnchor(params, conversation.value);
      assert ExactPages(Anchors(params), tabs) == [];
    }
  }

  /** The two searches through the anchors, written out. */
  lemma AnchorsInOrder(params: Params, browser: Browser)
    ensures var tabs, pending, conversation := browser.tabs, params.pendingUrl, params.conversationUrl;
            && ExactPages(Anchors(params), tabs) ==
                 (if pending.Some? && pending.value.Conversation? && PagesAt(tabs, pending.value) != []
                  then PagesAt(tabs, pending.value)
                  else if conversation.Some? && conversation.value.Conversation? then PagesAt(tabs, conversation.value)
                  else [])
            && FirstConversation(Anchors(params)) ==
                 (if pending.Some? && pending.value.Conversation? then pending
                  else if conversation.Some? && conversation.value.Conversation? then conversation else None)
  {
    hide PagesAt;
    var tabs, pending := browser.tabs, params.pendingUrl;
    var second := SecondAnchor(params);
    AnchorsAre(params);
    SearchOne(second, tabs);
    if pending.Some? {
      assert Anchors(params)[0] == pending.value && Anchors(params)[1..] == second;
    }
  }

  function SecondAnchor(params: Params): seq<Url> {
    if params.conversationUrl.Some? && params.conversationUrl != params.pendingUrl then [params.conversationUrl.value] else []
  }

  lemma AnchorsAre(params: Params)
    ensures Anchors(params) == (if params.pendingUrl.Some? then [params.pendingUrl.value] else []) + SecondAnchor(params)
    ensures params.pendingUrl.None? ==> Anchors(params) == SecondAnchor(params)
  {
  }

  lemma SearchOne(anchors: seq<Url>, tabs: seq<Page>)
    requires |anchors| <= 1
    ensures ExactPages(anchors, tabs) == if anchors != [] && anchors[0].Conversation? then PagesAt(tabs, anchors[0]) else []
    ensures FirstConversation(anchors) == if anchors != [] && anchors[0].Conversation? then Some(anchors[0]) else None
  {
    hide PagesAt;
    if anchors != [] {
      assert anchors[1..] == [];
    }
  }

  /** With an observed turn the open tabs decide if they show it, then the tabs after opening each anchor in turn. */
  lemma TabsThatShow(params: Params, browser: Browser)
    requires params.pendingUserTurn.Some?
    ensures var turn := params.pendingUserTurn.value;
            var after := (url: Option<Url>) =>
              if url.Some? && url.value.Conversation?
              then ScanTurnAnchor(if url.value in browser.later then browser.later[url.value] else browser.tabs, turn)
              else ReconcileResult(false, false, None, None, None);
            ReconcileSend(params, browser) ==
              if ScanTurnAnchor(browser.tabs, turn).found then ScanTurnAnchor(browser.tabs, turn)
              else if after(params.pendingUrl).found then after(params.pendingUrl)
              else if after(params.conversationUrl).found then after(params.conversationUrl)
              else ReconcileResult(false, false, None, None, None)
  {
    hide ScanTurnAnchor;
    var turn, second := params.pendingUserTurn.value, SecondAnchor(params);
    AnchorsAre(params);
    RescanOne(second, browser, turn);
    if params.pendingUrl.Some? {
      assert Anchors(params)[0] == params.pendingUrl.value && Anchors(params)[1..] == second;
    }
  }

  lemma RescanOne(anchors: seq<Url>, browser: Browser, turn: TurnId)
    requires |anchors| <= 1
    ensures RescanTurnAnchor(anchors, browser, turn) ==
              if anchors == [] || !anchors[0].Conversation? then ReconcileResult(false, false, None, None, None)
              else
                var shown := ScanTurnAnchor(if anchors[0] in browser.later then browser.later[anchors[0]] else browser.tabs, turn);
                if shown.found then shown else ReconcileResult(false, false, None, None, None)
  {
    hide ScanTurnAnchor;
    if anchors != [] {
      assert anchors[1..] == [];
    }
  }

  /** The tab the proof of absence rests on: it belongs to an anchor and shows nothing newer than the click. */
  ghost predicate AnchoredWitness(params: Params, browser: Browser, url: Url, page: Page) {
    && url in Anchors(params) && IsConversation(url)
    && (|| (page in browser.tabs && page.url == url)
        || (url in browser.reached && page == browser.reached[url] && IsConversation(page.url)))
    && Quiet(page, params.query, true)
  }

  /** Absence is only ever proven without an observed turn, from a rendered tab of an anchored conversation. */
  lemma AbsenceNeedsAnchor(params: Params, browser: Browser)
    requires var r := ReconcileSend(params, browser); !r.found && r.proven
    ensures params.pendingUserTurn.None?
    ensures exists url, page :: AnchoredWitness(params, browser, url, page)
  {
    var anchors := Anchors(params);
    if params.pendingUserTurn.Some? {
      TurnAnchorNeverProvesAbsence(params, browser);
    } else {
      var exact := ExactPages(anchors, browser.tabs);
      var first := FirstConversation(anchors);
      ExactPagesMeaning(anchors, browser.tabs);
      FirstConversationMeaning(anchors);
      if exact != [] {
        AbsenceProvenIff(exact, params.query, true);
        var url :| url in anchors && IsConversation(url) && exact == PagesAt(browser.tabs, url);
        PagesAtMeaning(browser.tabs, url);
        assert exact[0] in exact;
        assert AnchoredWitness(params, browser, url, exact[0]);
      } else if first.Some? && first.value in browser.reached && IsConversation(browser.reached[first.value].url) {
        AbsenceProvenIff([browser.reached[first.value]], params.query, true);
        assert Quiet([browser.reached[first.value]][0], params.query, true);
        assert AnchoredWitness(params, browser, first.value, browser.reached[first.value]);
      } else {
        AbsenceProvenIff(browser.fallback, params.query, false);
      }
    }
  }
}
