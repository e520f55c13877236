# Verification of the send protocol and its neighbours

This project models, in Dafny 4.11, the parts of the repository whose correctness rests on several
functions at once, and proves what they are for.

**The send protocol of `gpt-webai-pro`.** Short-lived command-line processes share one SQLite
database, one owner lock and one send lock per request, and one browser daemon per slot. A prompt
must never be posted twice although a process, a call or a daemon may die between arming a send and
learning what became of it. `Rows` holds the guarded updates as functions on the rows of one request,
`Columns` writes out what each leaves in every column and where the sender goes from there, and `Database` is the
same as a class over tables, statement by statement, proved against those functions;
`ReconcileScan` says when a lost send may be bound or disproved; `SendMessage` is the daemon's side of
one send; `SendProtocol` puts any number of processes, daemons and conversations together as an
interleaving of transactions, lock operations, messages and browser events, with a history of what
landed; `SendSafety` proves what every run keeps, and `Runs` and `SecondAttempt` build the runs that show
the second attempt is needed; `Interference` proves what others may do to an owned request, and
`ContinueLoop` that the owner's loop ends under it.

**Slots.** `Scheduler` is the choice of a slot, `Ledger` the capacity and the rolling weekly quota over
every run, `QuotaReached` the runs that show the bound is exact, `StopSafety` the locks around stopping
a container, `ReapOrder` the fairness of the reaper.

**Self-contained pieces.** `ResultCache` (the daemon's cache of finished sends and its queue),
`RpcCalls` (how calls settle), `WebSocket` (the runner's RFC 6455 codec over an arbitrary chunking),
`ImageBatch`, `ChipRoots`, `Staging`, and `WritePaths` with `WriteScope` (what the Grimoire stages let
into a commit).

Check it with `dafny verify dfyconfig.toml`.

## What is assumed of the environment

The claims about what lands hold under these assumptions, each written into `SendProtocol`:

- A conversation tab that shows any turn shows all its user turns, and opening a conversation address
  leads to that conversation or to no conversation (`Faithful`). A temporary address that redirects to the
  permanent one is ruled out with it. `SendSafety.AnswerSound` leans on this and through it
  `SendSafety.AtMostOneLanding`; the other results share the invariant but not this reason.
- A click lands, if at all, in the conversation of its own tab, before the send call ends, as a turn
  that was not in the baseline (`OpLands`). A failure reported after the click names the tab's own
  address (`OpFailsAfterClick`).
- Progress reports carry an address only together with an observed turn (`FromProgress`), which
  `SendMessage.Send` proves of the daemon.
- File locks exclude and are freed when their holder ends; transactions are atomic; the clock of the
  machine does not go back (for the reaper: strictly increases); the slot set and its limits are fixed.

## What turned out differently than written

- The configured weekly limit is not what a slot's sends are bounded by. The bound is
  limit + concurrency - 1 (`Ledger.WeeklyBound`), and even that needs the absence of one event: `run` writes
  `failed` without any lock when copying attachments fails, which can take a request out of the active count
  while another process is already sending it. `Ledger.WindowBound` counts these events, and the count is
  exact: for every limit, every concurrency and every k some run has k of them and exceeds the bound by k
  (`QuotaReached.ExcessIsReached`).
- The comment at `SendResultCache` calls a prompt started twice ambiguous for good. The code answers it again
  exactly when 64 keys are newer than its first start (`ResultCache.AnsweredAgainIff`, and from an empty
  cache `ResultCache.ForgottenAfterSixtyFour`).
- `recv_frame` drops what it has read of a frame when it times out. The stream stays readable exactly
  when fewer than two bytes of the frame had arrived (`WebSocket.TimeoutKeepsSyncIff`).
- `git commit` takes the whole index, and the listings that are checked show neither the old name of a
  staged rename nor a staged file below `.omo/` (`WriteScope.StagedRenameEscapes`). A name that git has to
  quote can be misread: an arrow inside it is taken for a rename (`WriteScope.QuotedNameEscapes`). The commit
  stays in scope exactly when no change of these two kinds goes from outside the write set
  (`WriteScope.CommitStaysInScopeIff`), and every other committed path is sound
  (`WriteScope.ListedCommitIsSound`).
- The fix lists its changes with directories collapsed, verify in full, and verify demands the same names. So
  a fix that creates a file in a directory without tracked files is always refused, however well the design
  output admits it (`WriteScope.NewDirectoriesAreRefused`).
- `normalize_path` is not idempotent: it changes its own result exactly when the first component that
  survives has a blank in front or the last one a blank behind (`WritePaths.NormalizeTwice`), as for `./ a` (`WritePaths.NormalizeTwiceDiffers`).
- `normalize_path` strips a leading `./` as text, so `.//a` is refused as absolute although it lies inside the
  workspace (`WritePaths.RefusedIff`, `WritePaths.DotDoubleSlashIsRefused`).
- The reaper is fair only as long as no reaper dies between its pick and the touch that follows: each such
  death lets the same candidate be picked once more (`ReapOrder.PickedWithinRank`, `ReapOrder.KillsStarve`).
- DESIGN.md section 5.2 lets attempt 2 follow only a positive proof of absence. The code also stages a
  request again after a failure before the click, which is as safe: nothing was clicked. The model
  follows the code.
- The database guards alone do not protect a verdict that is applied to an attempt read before the
  transaction (`Rows.StaleReadBreaksCoupling`); the owner lock does. Given the owner lock, the send lock
  adds nothing in this model (`SendSafety.SendLockIsTheOwners`).

## Model

| member | source | states |
|---|---|---|
| `SendSafety.AtMostOneLanding` | stacks/gpt-webai-pro/src/supervisor/run.ts:1407-1627 | In every run of any number of processes with crashes, lost calls and dying daemons, no two landed sends belong to the same request |
| `SendSafety.CoupledAlways` | stacks/gpt-webai-pro/src/supervisor/run.ts:1407-1627 | In every state of every run the status column and the attempt rows of a request agree: at most two attempts, the second only after the first is disproved, and for each status the states its latest attempt may have, with a usage row exactly when that attempt is settled as sent |
| `SendSafety.TurnsAreWriteOnce` | stacks/gpt-webai-pro/src/supervisor/run.ts:1564-1580 | A user turn once observed for an attempt stays the same for the rest of the run, the attempt is never disproved, and no later attempt is armed |
| `SendSafety.SendLockIsTheOwners` | stacks/gpt-webai-pro/src/supervisor/run.ts:839-844 | The send lock of a request is held exactly while its owner is in a section that takes it: with the owner lock it is never contended |
| `SendSafety.StepKeeps` | stacks/gpt-webai-pro/src/shared/fsx.ts:51-94 | Every step of the whole system, including a crash that frees its locks, keeps the global invariant and every observed turn |
| `SendSafety.AnswerSound` | stacks/gpt-webai-pro/src/daemon/actions/reconcile.ts:29-76 | A verdict of proven absence for a request whose stored anchors are sound implies that its first send never landed |
| `SendSafety.OneLandingPerRequest` | stacks/gpt-webai-pro/src/supervisor/run.ts:1415-1418 | The invariant alone rules out a second landing: a second call means the first attempt is disproved, so its call never landed |
| `SendSafety.DeliverKeeps` | stacks/gpt-webai-pro/src/daemon/actions/send.ts:186-202 | What an ended call hands back (nothing clicked, a result, or the anchors after the click) is all its caller relies on |
| `SendSafety.RowWriteKeeps` | stacks/gpt-webai-pro/src/supervisor/run.ts:126-128 | A status written outside every lock, such as the one of a failing creator, upsets no process in the middle of a send |
| `SecondAttempt.SecondAttemptCanLand` | stacks/gpt-webai-pro/src/supervisor/run.ts:784-789 | A run in which attempt 1 fails before the click, the request is staged again, and attempt 2 alone lands |
| `SecondAttempt.SecondAttemptAfterAbsence` | stacks/gpt-webai-pro/src/supervisor/run.ts:1595-1626 | A run in which attempt 1 is clicked without landing, its call fails with its anchors, a tab of the conversation proves its absence, and attempt 2 alone lands |
| `Rows.ArmKeepsCoupling` | stacks/gpt-webai-pro/src/supervisor/run.ts:1407-1428 | Arming commits exactly for a staged request with fewer than two attempts, adds one armed attempt after the unchanged earlier ones, and keeps status and attempts in agreement exactly when the request has a slot |
| `Rows.ConfirmKeepsCoupling` | stacks/gpt-webai-pro/src/supervisor/run.ts:1429-1457 | Confirming succeeds exactly for an armed or already settled attempt and leaves it settled with a usage row, observed turns kept |
| `Rows.MarkPreClickKeepsCoupling` | stacks/gpt-webai-pro/src/supervisor/run.ts:1458-1473 | Commits exactly for a latest attempt that is not uncertain; an armed one is disproved and with it every attempt, a disproved or settled one stays as it is |
| `Rows.MarkUncertainKeepsCoupling` | stacks/gpt-webai-pro/src/supervisor/run.ts:1474-1521 | An armed attempt becomes uncertain exactly when the request is still sending, and the request with it; an uncertain or settled attempt stays as it is, a disproved one is refused |
| `Rows.ApplyKeepsCoupling` | stacks/gpt-webai-pro/src/supervisor/run.ts:1555-1627 | Applying a verdict to the latest uncertain attempt always commits, keeps status and attempts in agreement, and disproves the attempt only for a proven absence without an observed turn; the columns are in `Columns.FoundWrites` and `Columns.AbsenceWrites` |
| `Rows.StaleReadBreaksCoupling` | stacks/gpt-webai-pro/src/supervisor/run.ts:1560-1626 | For an attempt read before the transaction, a proof of absence keeps the agreement exactly when that attempt is still the latest one or the request is no longer uncertain, and no turn was observed meanwhile |
| `Rows.StaleReadExample` | stacks/gpt-webai-pro/src/supervisor/run.ts:1560-1626 | A stale read that breaks the agreement: the request ends staged over an uncertain second attempt and can never be armed again |
| `Columns.ArmWrites` | stacks/gpt-webai-pro/src/supervisor/run.ts:1407-1428 | Arming commits exactly for a staged request whose only attempt, if any, is disproved; the columns it leaves, written out |
| `Columns.ConfirmWrites` | stacks/gpt-webai-pro/src/supervisor/run.ts:1429-1457 | A confirmed send leaves its user turn, the answer if it saw one, its address with status generating when the request was sending, and the first usage row of the request's slot |
| `Columns.ConfirmLeaves` | stacks/gpt-webai-pro/src/supervisor/run.ts:1433-1444 | An attempt that is not armed stays as it is: a settled one is the answer, any other is refused |
| `Columns.PreClickWrites` | stacks/gpt-webai-pro/src/supervisor/run.ts:1458-1473 | A failure before the click writes the state of an armed attempt and nothing else |
| `Columns.UncertainWrites` | stacks/gpt-webai-pro/src/supervisor/run.ts:1474-1521 | An uncertain send keeps the observed turn in the attempt, gives an address only to a request without one, and notes address and baseline for a later reconcile |
| `Columns.UncertainLeaves` | stacks/gpt-webai-pro/src/supervisor/run.ts:1480-1499 | An attempt that is not armed stays as it is: settled or uncertain it is the answer, any other is refused |
| `Columns.FoundWrites` | stacks/gpt-webai-pro/src/supervisor/run.ts:1571-1590 | A found verdict that names a conversation and no other turn than the observed one settles the attempt with its turns; an uncertain request generates at the address of the verdict, in its slot, with a usage row |
| `Columns.AbsenceWrites` | stacks/gpt-webai-pro/src/supervisor/run.ts:1595-1626 | A proven absence disproves the attempt: after attempt 1 an uncertain request is staged and retried, after attempt 2 it needs the user |
| `Columns.OtherVerdictsLeave` | stacks/gpt-webai-pro/src/supervisor/run.ts:1560-1612 | Every other verdict leaves all rows alone, with the decision or the refusal for each case |
| `Columns.RebindWrites` | stacks/gpt-webai-pro/src/supervisor/db.ts:255-297 | The answer is re-bound exactly in a generating request, over a settled attempt, for the turn and the answer last seen, and nothing else is written |
| `Columns.PointerMoves` | stacks/gpt-webai-pro/src/supervisor/run.ts:1004-1022 | The address of a generating request moves to another conversation, but never from a permanent one to a temporary one |
| `Columns.EndWrites` | stacks/gpt-webai-pro/src/supervisor/run.ts:1083-1132 | The end of a generating request, a noted error and a touch, column by column |
| `Columns.StatusWrites` | stacks/gpt-webai-pro/src/supervisor/db.ts:159-203 | A status written without a guard clears the note and keeps slot, address, attempts and usage; giving the slot back clears the slot alone |
| `Columns.LocksByPlace` | stacks/gpt-webai-pro/src/supervisor/run.ts:559-572 | Every place of a process but three is under the owner lock, and of those all but five under the send lock as well |
| `Columns.OwnerLeads` | stacks/gpt-webai-pro/src/supervisor/run.ts:604-707 | Outside the send lock: which acts are possible from which place under which status, where they lead and what they write |
| `Columns.SendLeads` | stacks/gpt-webai-pro/src/supervisor/run.ts:718-750 | The send up to its call: only with a slot, checked again and armed under the send lock, and a lost call is answered from the last report |
| `Columns.ReplyLeads` | stacks/gpt-webai-pro/src/supervisor/run.ts:738-836 | Each reply to the call of an armed attempt leaves it settled, disproved or uncertain, the last only while the request is still sending |
| `Columns.PreClickLeads` | stacks/gpt-webai-pro/src/supervisor/run.ts:771-813 | After a failure before the click its kind alone decides whether the request needs the user, is staged again without a slot, or fails |
| `Columns.RecoveryLeads` | stacks/gpt-webai-pro/src/supervisor/run.ts:839-900 | Recovery, for each status and latest attempt: mark, go back, fail, or ask with the observed turn, the noted address before that of the request, and the noted baseline |
| `Columns.VerdictLeads` | stacks/gpt-webai-pro/src/supervisor/run.ts:839-937 | From recovery to the applied verdict: what is possible where and where it leads; an update that throws, an answer that fails and a refused verdict all go back to the loop |
| `Columns.CatchLeads` | stacks/gpt-webai-pro/src/supervisor/run.ts:694-707 | An error of the owner fails the request unless a send may be on its way |
| `Columns.EndsLead` | stacks/gpt-webai-pro/src/supervisor/run.ts:1042-1132 | What finalising, missing images, giving up and a release write, whatever the status |
| `Interference.OthersOnlyFail` | stacks/gpt-webai-pro/src/supervisor/run.ts:559-572 | Whatever step any other process, daemon or browser takes, the attempts, usage, slot and address of an owned request stay, and its status unless it becomes failed |
| `Interference.InterferenceInRuns` | stacks/gpt-webai-pro/src/supervisor/run.ts:126-128 | Between any two moments of a run in which the owner takes no step, the request is what it was, at most failed |
| `ContinueLoop.ContinueOwned` | stacks/gpt-webai-pro/src/supervisor/run.ts:573-709 | For every sequence of readiness answers, outcomes, verdicts and interfering writes the owner's loop ends after a number of rounds linear in the attempts, inline retries and untried slots left, with status and attempts in agreement and observed turns kept; it retries in place at most as often as allowed, each time over an uncertain request and in time; and why it ends: a finished request, an answer to poll for, an uncertain send with no retry, time or use left, nothing to do now, or an error over a failed request |
| `ContinueLoop.RecoverSendState` | stacks/gpt-webai-pro/src/supervisor/run.ts:839-868 | Recovery without an outcome moves the request strictly forward and adds no attempt; it ends with an error only over a request that its creator failed after the status was read |
| `ContinueLoop.TrySlot` | stacks/gpt-webai-pro/src/supervisor/run.ts:617-660 | A staged round after which the loop goes on has used up an attempt, an untried slot, the slot it held or the status, also when all slots need a login |
| `ContinueLoop.AskAndSend` | stacks/gpt-webai-pro/src/supervisor/run.ts:661-707 | Whatever the readiness answer, a round after which the loop goes on has used something up |
| `ContinueLoop.Reconcile` | stacks/gpt-webai-pro/src/supervisor/run.ts:869-937 | A reconcile that returns nothing has left the uncertain state, adding no attempt and keeping the slot |
| `ContinueLoop.Send` | stacks/gpt-webai-pro/src/supervisor/run.ts:710-838 | A send either arms exactly one more attempt, or leaves the attempts alone and ends the request or the round |
| `ContinueLoop.SpinsIffSettled` | stacks/gpt-webai-pro/src/supervisor/run.ts:847-853 | A whole round through recovery of a sending request leads back to the same state exactly when its latest attempt is settled, and the invariant excludes that |
| `ReconcileScan.ScanPages` | stacks/gpt-webai-pro/src/daemon/actions/reconcile.ts:77-180 | The flag-driven loop over the tabs computes the verdict of the specification |
| `ReconcileScan.AbsenceProvenIff` | stacks/gpt-webai-pro/src/daemon/actions/reconcile.ts:171-179 | Not found and proven exactly when the scan is anchored, there are tabs, and every one was readable, rendered and shows no user turn outside the baseline |
| `ReconcileScan.FoundIff` | stacks/gpt-webai-pro/src/daemon/actions/reconcile.ts:144-171 | Found exactly when one conversation tab alone has exactly one candidate turn and no tab is ambiguous or unbound, and then that turn is the one bound |
| `ReconcileScan.CandidatesAreMatches` | stacks/gpt-webai-pro/src/daemon/actions/reconcile.ts:123-143 | The three tiers of matching select exactly the declared candidates, in document order |
| `ReconcileScan.CandidateIff` | stacks/gpt-webai-pro/src/daemon/actions/reconcile.ts:109-143 | What may be the prompt, written out: a user turn from after the click with its text, or in an anchored conversation the only new user turn with a resembling text, or with a sane length when it is the only user turn |
| `ReconcileScan.ReadableIff` | stacks/gpt-webai-pro/src/daemon/actions/reconcile.ts:96-122 | Which tabs count and which are quiet: read, with a turn when anchored, for images every new user turn read again, and quiet when every user turn was there before the click |
| `ReconcileScan.AbsenceNeedsAnchor` | stacks/gpt-webai-pro/src/daemon/actions/reconcile.ts:29-76 | Absence is only ever proven without an observed turn, and rests on a tab of one of the recorded conversation addresses that shows nothing newer than the click |
| `ReconcileScan.AssistantAfterIsFirst` | stacks/gpt-webai-pro/src/daemon/selectors.ts:72-77 | The answer bound to a user turn is the first assistant turn after it, or none |
| `ReconcileScan.ScanUserTurnAnchor` | stacks/gpt-webai-pro/src/daemon/actions/reconcile.ts:181-211 | Found exactly when every tab was read, one user turn of one tab has the id, and that tab is a conversation; then its address, that turn and the first answer after it, and otherwise nothing at all |
| `ReconcileScan.TurnAnchorFoundIff` | stacks/gpt-webai-pro/src/daemon/actions/reconcile.ts:181-211 | The same of the specification, over the turns of the tabs: none, two in one tab or one in each of two tabs bind nothing |
| `ReconcileScan.TabsThatDecide` | stacks/gpt-webai-pro/src/daemon/actions/reconcile.ts:29-76 | Without an observed turn: the open tabs of the first recorded address that has any decide, else the tab that opening the first recorded conversation leads to, else the unanchored tabs |
| `ReconcileScan.TabsThatShow` | stacks/gpt-webai-pro/src/daemon/actions/reconcile.ts:29-49 | With an observed turn: the open tabs if they show it, then the tabs after opening each recorded conversation in turn, and otherwise nothing |
| `ReconcileScan.TurnAnchorBindsWhatIsShown` | stacks/gpt-webai-pro/src/daemon/actions/reconcile.ts:198-210 | A turn is bound by its id only when every tab was read and a conversation tab shows it |
| `ReconcileScan.TurnAnchorNeverProvesAbsence` | stacks/gpt-webai-pro/src/daemon/actions/reconcile.ts:29-49 | A reconcile of a request with an observed turn binds that very turn in a conversation, or says nothing: it never proves absence |
| `SendMessage.Send` | stacks/gpt-webai-pro/src/daemon/actions/send.ts:28-206 | A failure that claims the time before the click is one without a click, and without a click the failure claims the time after it exactly when an error of the daemon itself says so; after the click the outcome is that of the confirmation window, or the anchors of a click that did not return; reports never go back in phase and never change an observed turn |
| `SendMessage.Confirm` | stacks/gpt-webai-pro/src/daemon/actions/send.ts:112-179 | The window ends with the first look that fails or shows a recognised turn in a conversation: then the first recognised turn and the first new answer after it are the result, otherwise the first new turn of the earliest look that had one is handed over |
| `SendMessage.FindSent` | stacks/gpt-webai-pro/src/daemon/actions/send.ts:127-158 | The first recognised new user turn if there is one, and the first new assistant turn after it if there is one |
| `SendMessage.RecognisedIff` | stacks/gpt-webai-pro/src/daemon/actions/send.ts:129-153 | A new user turn is recognised exactly by the text of the prompt, that of an image request when it is one, or, when it is the only new one, a resembling text or a sane length |
| `SendMessage.FirstAnswerIs` | stacks/gpt-webai-pro/src/daemon/actions/send.ts:154-158 | The answer handed over is the first assistant turn after the user turn that was not there before the click |
| `SendMessage.SameFiles` | stacks/gpt-webai-pro/src/daemon/actions/send.ts:233-271 | The chips are accepted exactly when their names are the expected files, each as often |
| `Scheduler.SelectSlot` | stacks/gpt-webai-pro/src/supervisor/slots.ts:62-84 | The slot selected is configured, not excluded, below its concurrency, idle or past its cooldown, and below its weekly limit, and precedes every other such slot; none is selected exactly when every slot fails one of these |
| `Scheduler.EligibleIff` | stacks/gpt-webai-pro/src/supervisor/slots.ts:62-78 | What the two queries count and which slots may be claimed, written out |
| `Scheduler.BeforeIff` | stacks/gpt-webai-pro/src/supervisor/slots.ts:79-83 | The order of two slots: fewer active requests, then longer unused with never used first, then the smaller id |
| `Scheduler.CompareIsAStrictTotalOrder` | stacks/gpt-webai-pro/src/supervisor/slots.ts:29-31 | The comparator is a strict total order by active count, last use with never used first, and id, although two never-used slots subtract to NaN |
| `Scheduler.ChoiceIsUnique` | stacks/gpt-webai-pro/src/supervisor/slots.ts:80-83 | At most one slot can be the choice of a claim |
| `Ledger.CapacityHolds` | stacks/gpt-webai-pro/src/supervisor/slots.ts:71-77 | In every run no slot ever has more active requests than the configured concurrency |
| `Ledger.WindowBound` | stacks/gpt-webai-pro/src/supervisor/slots.ts:17-28 | In every run and every window of seven days, confirmed sends of a slot stay within limit + concurrency - 1 plus one for each request its creator failed over a send in flight |
| `Ledger.WeeklyBound` | stacks/gpt-webai-pro/src/supervisor/slots.ts:17-28 | Without such failures no window of seven days exceeds limit + concurrency - 1 |
| `Ledger.SentInIs` | stacks/gpt-webai-pro/src/supervisor/slots.ts:17-28 | What a window of seven days counts: the usage rows of the slot in it, both ends included |
| `Ledger.HitsIff` | stacks/gpt-webai-pro/src/supervisor/run.ts:126-128 | The failures that are counted: a creator writes failed over a request active on the slot while a process may still find it sent |
| `Ledger.HitsOfIs` | stacks/gpt-webai-pro/src/supervisor/run.ts:126-128 | Counted over a run are the requests that some step of it hits so |
| `Ledger.ClaimCounts` | stacks/gpt-webai-pro/src/supervisor/slots.ts:50-60 | After a claim, what counts against the slot is what was sent in the window, what is active, and what was failed in mid-send; other slots count no more than before |
| `QuotaReached.ExcessIsReached` | stacks/gpt-webai-pro/src/supervisor/run.ts:126-128 | For every limit, concurrency and k some run has exactly k requests failed over a send in flight and sends limit + concurrency - 1 + k, each landing once: a run can exceed the bound by exactly as many sends as it has such failures |
| `QuotaReached.BoundIsReached` | stacks/gpt-webai-pro/src/supervisor/slots.ts:71-78 | For every limit and concurrency some run without such a failure reaches the weekly bound |
| `Database.GwpDatabase.ArmSendAttempt` | stacks/gpt-webai-pro/src/supervisor/run.ts:1407-1428 | The statements of the transaction change the request's rows as the specification says, and nothing when it throws |
| `Database.GwpDatabase.ConfirmSendAttempt` | stacks/gpt-webai-pro/src/supervisor/run.ts:1429-1457 | Attempt, request and usage rows after the transaction are those of the specification |
| `Database.GwpDatabase.MarkPreClickNoSend` | stacks/gpt-webai-pro/src/supervisor/run.ts:1458-1473 | The guarded update changes the latest attempt as the specification says |
| `Database.GwpDatabase.MarkSendUncertain` | stacks/gpt-webai-pro/src/supervisor/run.ts:1474-1521 | The rows after the transaction are those of the specification, and the attempt update is rolled back when the request is no longer sending |
| `Database.GwpDatabase.ApplyReconcileResult` | stacks/gpt-webai-pro/src/supervisor/run.ts:1555-1627 | The four decisions and the rows they leave, over the attempt read before the transaction |
| `Database.GwpDatabase.RebindAssistantTurnId` | stacks/gpt-webai-pro/src/supervisor/db.ts:255-297 | The answer is re-bound only for the turn and the answer last seen, in a generating request |
| `Database.GwpDatabase.TransitionAttempt` | stacks/gpt-webai-pro/src/supervisor/db.ts:226-254 | One attempt row changes exactly when it was in the guarded state, no other does |
| `Database.GwpDatabase.TouchNonterminalRequest` | stacks/gpt-webai-pro/src/supervisor/db.ts:396-402 | Only a sent, unfinished request is touched |
| `Database.GwpDatabase.ClaimSlotForRequest` | stacks/gpt-webai-pro/src/supervisor/slots.ts:32-61 | A staged request without a slot gets the one choice of the scheduler, which is configured, not excluded and below its limits; then its slot, the slot's last use and the update time are written and nothing else; none is claimed exactly when every slot fails a condition |
| `Database.GwpDatabase.MarkSlotProviderLimit` | stacks/gpt-webai-pro/src/supervisor/slots.ts:90-100 | The slot is usable again exactly from the end of the cooldown |
| `StopSafety.StopSparesUsers` | stacks/gpt-webai-pro/src/supervisor/run.ts:1315-1342 | No step of any run stops a container that a live owner of an active request, or a maintenance client, is using |
| `StopSafety.UsersFindItRunning` | stacks/gpt-webai-pro/src/supervisor/run.ts:1311-1314 | Whoever uses a managed container for an active request or under the activity lock finds it running |
| `StopSafety.LateClaimersWait` | stacks/gpt-webai-pro/src/supervisor/run.ts:1325-1330 | A claimer missing from the list cannot start or finish connecting before the tester releases the control lock |
| `StopSafety.UnusedIsStopped` | stacks/gpt-webai-pro/src/supervisor/run.ts:1315-1342 | From any state a managed container whose locks are free and none of whose active requests has a live owner can be stopped: the stop is not merely safe by never happening |
| `StopSafety.UsersCanConnect` | stacks/gpt-webai-pro/src/supervisor/run.ts:1311-1314 | From any state a new process with a new request gets to use the container of any managed slot whose control lock is free: users are not merely safe by being none |
| `StopSafety.PassesIff` | stacks/gpt-webai-pro/src/supervisor/run.ts:1326-1330 | A tester passes a listed request exactly when no other process holds its owner lock |
| `StopSafety.NextKeeps` | stacks/gpt-webai-pro/src/supervisor/run.ts:1343-1354 | Claims, connections, probes, stops, crashes and settled requests keep the invariant of the three kinds of locks |
| `RpcCalls.EveryCallSettlesOnce` | stacks/gpt-webai-pro/src/supervisor/rpc-client.ts:94-220 | At every moment of every run a call is pending with its absolute timer armed at the instant fixed when it was made, or was told exactly one outcome and has no entry and no timer |
| `RpcCalls.PendingCallIsTold` | stacks/gpt-webai-pro/src/supervisor/rpc-client.ts:104-135 | What each event tells a pending call: resolved, rejected, send error, lost connection, timed out or inactive, and that no other event settles it |
| `RpcCalls.ToldIff` | stacks/gpt-webai-pro/src/supervisor/rpc-client.ts:149-220 | In every run a caller is told an outcome exactly by an event that tells it at a moment when the call is pending: resolved only by a response without an error |
| `RpcCalls.SettledCallIsLeftAlone` | stacks/gpt-webai-pro/src/supervisor/rpc-client.ts:155-157 | A call that was settled is told nothing more, whatever arrives late |
| `RpcCalls.InactivityNeedsAGap` | stacks/gpt-webai-pro/src/supervisor/rpc-client.ts:191-206 | A failure for inactivity needs a gap of at least the inactivity limit since the call was made and since each of its reports |
| `RpcCalls.InactivityDeadlineIs` | stacks/gpt-webai-pro/src/supervisor/rpc-client.ts:119-125 | The inactivity timer of a pending call is due exactly the limit after the last moment the call was made or reported progress, and exists exactly when a limit was set |
| `RpcCalls.TimesOutNoEarlier` | stacks/gpt-webai-pro/src/supervisor/rpc-client.ts:111-113 | A call times out no earlier than its absolute limit, however often it reports progress |
| `RpcCalls.DeadlineStays` | stacks/gpt-webai-pro/src/supervisor/rpc-client.ts:197-206 | Whatever happens to other calls or is reported for this one, its absolute timer does not move |
| `RpcCalls.StepKeepsValid` | stacks/gpt-webai-pro/src/supervisor/rpc-client.ts:149-220 | Responses, reports, timers, send errors, unreadable messages and the end of the connection keep entries, timers and outcomes consistent |
| `RpcCalls.RpcClient.MakeCall` | stacks/gpt-webai-pro/src/supervisor/rpc-client.ts:94-137 | The entry, its timers and the next id are those of the specification |
| `RpcCalls.RpcClient.OnMessage` | stacks/gpt-webai-pro/src/supervisor/rpc-client.ts:149-190 | A response settles its call alone, as rejected exactly when it carries an error, and clears its timers; an unreadable message tells every pending call that the connection is lost; a notification or an unknown id changes no call |
| `RpcCalls.RpcClient.RejectEveryCall` | stacks/gpt-webai-pro/src/supervisor/rpc-client.ts:213-220 | The loop tells every pending call once that the connection is lost, leaves the others' outcomes, and no entry and no timer |
| `ResultCache.CacheStaysSmall` | stacks/gpt-webai-pro/src/daemon/main.ts:44-71 | After any sequence of calls there are at most 64 keys and 16 results, and a result only for a prompt started exactly once |
| `ResultCache.AmbiguousUntilPushedOut` | stacks/gpt-webai-pro/src/daemon/main.ts:48-61 | A prompt started twice is not answered from the cache while fewer than 64 keys are newer than its first start |
| `ResultCache.KnownIffYoung` | stacks/gpt-webai-pro/src/daemon/main.ts:55-60 | A key that is not started again is remembered exactly while fewer than 64 keys are newer |
| `ResultCache.AnsweredAgainIff` | stacks/gpt-webai-pro/src/daemon/main.ts:45-71 | A prompt started twice is answered again after its next send exactly when at least 64 keys have become newer than its first start |
| `ResultCache.ForgottenAfterSixtyFour` | stacks/gpt-webai-pro/src/daemon/main.ts:48-61 | From an empty cache: a prompt started twice, then distinct others, then sent once more is answered from the cache when there were 64 others and not when there were fewer |
| `ResultCache.BeginAges` | stacks/gpt-webai-pro/src/daemon/main.ts:51-61 | A start of a new key ages every other by one and pushes out exactly the one that 63 are newer than |
| `ResultCache.ResultSurvives` | stacks/gpt-webai-pro/src/daemon/main.ts:62-71 | A stored result is answered while fewer than 16 results are stored after it, its prompt is not started again, and fewer than 64 keys are newer |
| `ResultCache.NewestSixteenAreAnswered` | stacks/gpt-webai-pro/src/daemon/main.ts:44-71 | Of different prompts sent once each, any number of them, exactly the sixteen last are answered, each with its own result |
| `ResultCache.SendResultCache.BeginAttempt` | stacks/gpt-webai-pro/src/daemon/main.ts:51-61 | The eviction loop computes the specification |
| `ResultCache.SendResultCache.Set` | stacks/gpt-webai-pro/src/daemon/main.ts:62-71 | A result is stored as the specification says, the oldest ones leaving first |
| `ResultCache.LookupsSeeFinishedSends` | stacks/gpt-webai-pro/src/daemon/main.ts:238-308 | When an operation of the queue starts, all enqueued before it are done and no other is at work, and the cache it looks up in is the one these leave when they are run one after another |
| `WebSocket.DecodeEncoded` | dotfiles/claude/skills/fable-sol-loop/appserver-sol.py:55-90 | Decoding an encoded frame gives back its payload for every payload and mask, whatever bytes follow |
| `WebSocket.LengthRoundTrip` | dotfiles/claude/skills/fable-sol-loop/appserver-sol.py:59-66 | The length is written in the shortest field that can hold it, most significant byte first, and read back as it was |
| `WebSocket.DecodedIs` | dotfiles/claude/skills/fable-sol-loop/appserver-sol.py:79-86 | Whatever the bytes of a length that arrives, two or eight of them are read most significant first |
| `WebSocket.FrameBytes` | dotfiles/claude/skills/fable-sol-loop/appserver-sol.py:55-66 | Every byte of a frame: opcode, mask bit with the short length, the extended length most significant byte first, the mask, and the payload under it |
| `WebSocket.XorIsBitwise` | dotfiles/claude/skills/fable-sol-loop/appserver-sol.py:58 | A masked bit is one exactly when the bits of payload and mask differ |
| `WebSocket.ReceiveByOpcode` | dotfiles/claude/skills/fable-sol-loop/appserver-sol.py:88-98 | What the first frame leads to: a close ends the connection, a ping up to 255 bytes is answered and the next frame counts, a longer one is an error, anything else is returned |
| `WebSocket.UnmaskMasked` | dotfiles/claude/skills/fable-sol-loop/appserver-sol.py:58-90 | Masking is its own inverse |
| `WebSocket.WS.Drain` | dotfiles/claude/skills/fable-sol-loop/appserver-sol.py:68-98 | For texts and small pings cut into chunks anywhere, successive calls return the texts in order, send one masked pong with the same payload per ping, and leave nothing over |
| `WebSocket.WS.RecvFrame` | dotfiles/claude/skills/fable-sol-loop/appserver-sol.py:77-98 | One call does to the stream, the buffer and the sent bytes what the specification of what has arrived says (`WebSocket.ReceiveByOpcode`, `WebSocket.DecodedIs`) |
| `WebSocket.WS.Read` | dotfiles/claude/skills/fable-sol-loop/appserver-sol.py:68-75 | A read takes exactly n bytes when they arrive before a timeout and otherwise keeps all that arrived |
| `WebSocket.ArrivedIs` | dotfiles/claude/skills/fable-sol-loop/appserver-sol.py:68-75 | A timeout, or an empty chunk by which the peer closes, ends what a read gets; other chunks are joined |
| `WebSocket.WS.SendText` | dotfiles/claude/skills/fable-sol-loop/appserver-sol.py:55-66 | What is sent is one masked frame with first byte 0x81 (`WebSocket.FrameBytes`) |
| `WebSocket.PongIsAFrame` | dotfiles/claude/skills/fable-sol-loop/appserver-sol.py:91-95 | The answer to a ping is a proper masked pong frame with its payload exactly when the ping has at most 125 bytes |
| `WebSocket.TimeoutKeepsSyncIff` | dotfiles/claude/skills/fable-sol-loop/appserver-sol.py:77-88 | After a call that times out over the first k bytes of a frame, what it left together with the rest of the frame is the frame again exactly when k < 2 |
| `WebSocket.WrongTextAfterTimeout` | dotfiles/claude/skills/fable-sol-loop/appserver-sol.py:112-116 | A timeout after a header makes the next call return a text nobody sent |
| `ImageBatch.ParseImageManifest` | stacks/gpt-webai-pro/src/supervisor/image-batch.ts:6-25 | Accepted exactly when there are items and each has a prompt and a safe id that no other has in any case; then the ids in order, none with a dot |
| `ImageBatch.SafeIdIff` | stacks/gpt-webai-pro/src/supervisor/image-batch.ts:17 | The ids the pattern admits, by code points: 1 to 80 letters, digits, hyphens and underscores, the first neither of these two, with the two characters that fold to letters |
| `ImageBatch.LowerIs` | stacks/gpt-webai-pro/src/supervisor/image-batch.ts:18 | Of these characters the 26 capitals and the Kelvin sign are lowered and nothing else is |
| `ImageBatch.SplitImageChunks` | stacks/gpt-webai-pro/src/supervisor/image-batch.ts:26-30 | The chunks are the manifest in order, of one to five items, and only the last may be shorter than five |
| `ImageBatch.Finalize` | stacks/gpt-webai-pro/src/supervisor/run.ts:1042-1104 | Files are only added, each for an id that had none; a run completes only when every id has its file, and otherwise a file or a control is missing |
| `ImageBatch.RunFinalizer` | stacks/gpt-webai-pro/src/supervisor/run.ts:1042-1104 | Over any number of partial and resumed runs, a chunk reported complete has its files in bijection with its ids |
| `ImageBatch.CompleteIsBijection` | stacks/gpt-webai-pro/src/supervisor/run.ts:1083-1091 | When every id has a file, each id has exactly one and each file exactly one id |
| `ImageBatch.Envelope` | stacks/gpt-webai-pro/src/supervisor/run.ts:173-193 | A batch is complete exactly when every chunk is, and then its artifact ids are the manifest in order; otherwise they are exactly the ids that have a file |
| `ImageBatch.ListedInOrder` | stacks/gpt-webai-pro/src/supervisor/run.ts:173-193 | Whatever files are missing, the artifact ids stand in the order of the manifest |
| `ImageBatch.ResumeImageBatch` | stacks/gpt-webai-pro/src/supervisor/run.ts:153-168 | One invocation over the chunks keeps every chunk's ids and files, only adds files, and its envelope is complete exactly when every chunk is |
| `ImageBatch.RunImageBatch` | stacks/gpt-webai-pro/src/supervisor/run.ts:136-168 | From the manifest over any number of invocations and partial runs: whenever the envelope says complete, its artifact ids are the ids of the manifest in order; rejected exactly when the manifest is not acceptable |
| `ReapOrder.PickedWithinRank` | stacks/gpt-webai-pro/src/supervisor/run.ts:498-513 | With a strictly increasing clock a waiting candidate is passed by no more ticks than there were candidates before it, plus one for each reaper killed between its pick and its touch, whatever arrives or moves |
| `ReapOrder.KillsStarve` | stacks/gpt-webai-pro/src/supervisor/run.ts:500-513 | For any number of reapers killed after their pick there is a run in which each picks the same candidate and the next one waits: without the touch there is no fairness |
| `ReapOrder.StepUsesUp` | stacks/gpt-webai-pro/src/supervisor/db.ts:387-402 | A tick that takes another candidate uses one up, only a killed reaper gives one back, and nothing puts one in front of a waiting candidate |
| `ReapOrder.ListReapCandidates` | stacks/gpt-webai-pro/src/supervisor/db.ts:387-395 | The candidate picked precedes all others by update time, then creation time, then id; none is picked exactly when there is none |
| `ReapOrder.StepsAreOpen` | stacks/gpt-webai-pro/src/supervisor/db.ts:387-402 | What may happen at any moment: requests come in with the present time or go, and a reaper at work dies, or touches its candidate's update time alone |
| `ChipRoots.ObserveAttachmentChips` | stacks/gpt-webai-pro/src/daemon/selectors.ts:459-483 | For any chips the kept roots ascend strictly, none is a prefix of another, each is the deepest seed of an unambiguous group, and every unambiguous root is a prefix of a kept one |
| `ChipRoots.CompareIsTotalOrder` | stacks/gpt-webai-pro/src/daemon/selectors.ts:622-628 | Comparing paths is a strict total order that puts a proper prefix first |
| `ChipRoots.ComparePathLoop` | stacks/gpt-webai-pro/src/daemon/selectors.ts:622-628 | The loop computes the comparison |
| `ChipRoots.EveryRootIsCovered` | stacks/gpt-webai-pro/src/daemon/selectors.ts:478-482 | Following longer roots from any root ends at a kept one |
| `ChipRoots.CompareAtDifference` | stacks/gpt-webai-pro/src/daemon/selectors.ts:622-628 | Paths are compared at the first component in which they differ, whatever precedes it |
| `ChipRoots.RepresentsIff` | stacks/gpt-webai-pro/src/daemon/selectors.ts:472-476 | The chip kept for a root is of its group, which shares one name that is not empty, and of its deepest seeds the first in document order |
| `ChipRoots.UnambiguousIff` | stacks/gpt-webai-pro/src/daemon/selectors.ts:472-473 | A root is kept when its anchored chips carry one name that is not empty |
| `Staging.ValidateFiles` | stacks/gpt-webai-pro/src/supervisor/run.ts:1698-1718 | Accepted exactly when all files are regular; then pairwise distinct names in input order, each exactly determined: the basename for its first use when it is free, otherwise the basename with the first free ordinal from its number of uses on |
| `Staging.SuffixMeans` | stacks/gpt-webai-pro/src/supervisor/run.ts:1719-1724 | The ordinal goes in decimal before the first dot, or to the end when that dot comes first or there is none |
| `Staging.FreeName` | stacks/gpt-webai-pro/src/supervisor/run.ts:1707-1713 | The collision loop ends at the first free name from the given ordinal on |
| `Staging.SuffixIsInjective` | stacks/gpt-webai-pro/src/supervisor/run.ts:1719-1724 | Names for different ordinals differ |
| `WritePaths.CollectValues` | actions/grimoire/fix/scripts/fix.py:118-139 | The values are those of the two top-level lists and of six keys of each binding, a list standing for its items and any other value for itself unless it is empty |
| `WritePaths.AllowedWritePaths` | actions/grimoire/fix/scripts/fix.py:118-150 | The write set is every admissible value normalised, once, inside the workspace; every other nonblank value is invalid |
| `WritePaths.ProposedIff` | actions/grimoire/fix/scripts/fix.py:118-139 | Which values are proposed, by key: the items of two lists at the top, and under six keys of each binding the items of a list or the value itself unless it is empty |
| `WritePaths.RawIs` | actions/grimoire/fix/scripts/fix.py:141 | A proposed value as text: itself, nothing for an empty value, and otherwise what Python shows |
| `WritePaths.DirectExtraIff` | actions/grimoire/fix/scripts/fix.py:153-157 | The admitted kinds: below one of five directories, or a last component with one of six endings |
| `WritePaths.NameIs` | actions/grimoire/fix/scripts/fix.py:156 | The last component is what follows the last slash |
| `WritePaths.EndsIff` | actions/grimoire/fix/scripts/fix.py:157 | A name has an ending when it is something followed by it |
| `WritePaths.NormalizedIsInside` | actions/grimoire/fix/scripts/fix.py:48-61 | Whatever the text, a normalised path is relative with plain components only |
| `WritePaths.RefusedIff` | actions/grimoire/fix/scripts/fix.py:48-61 | A path is refused exactly when, without its outer blanks and leading ./, it is absolute or some of its first components lead out of the workspace |
| `WritePaths.DotDoubleSlashIsRefused` | actions/grimoire/fix/scripts/fix.py:50-55 | A path inside the workspace that is refused as absolute, because of a doubled slash after the leading dot |
| `WritePaths.ResolveLaws` | actions/grimoire/fix/scripts/fix.py:56-61 | Anywhere in a path an empty component or a dot means nothing, and a component followed by two dots means nothing |
| `WritePaths.StripMeans` | actions/grimoire/fix/scripts/fix.py:49 | What is stripped are the blanks at both ends, all of them and nothing else |
| `WritePaths.IsSpaceIff` | actions/grimoire/fix/scripts/fix.py:49 | The 29 code points that count as blanks |
| `WritePaths.DropDotSlashMeans` | actions/grimoire/fix/scripts/fix.py:50-51 | The leading ./ go, all of them and nothing else |
| `WritePaths.NormalizeTwice` | actions/grimoire/fix/scripts/fix.py:48-61 | Normalising again changes a path exactly when the first component of the text that survives has a blank in front or the last one has a blank behind |
| `WritePaths.NormalizeTwiceDiffers` | actions/grimoire/fix/scripts/fix.py:48-61 | A text whose normal form has a blank at its front, which the second normalisation strips |
| `WriteScope.RunStages` | actions/grimoire/fix/scripts/fix.py:354-372 | From the design output and the lines git prints for fix, verify and push: the commit stays inside what the design output admitted exactly when every hidden staged change and every misread path that goes is admitted; every other committed path is admitted and sound; without quoted names no directory was collapsed and the push takes the names verify listed |
| `WriteScope.NewDirectoriesAreRefused` | actions/grimoire/fix/scripts/fix.py:240-256 | The fix reads the collapsed listing and verify the full one: a push is decided only when no untracked directory was collapsed, so a fix that creates a file in a directory without tracked files is always refused; then both listings name the same paths |
| `WriteScope.FixChangedPaths` | actions/grimoire/fix/scripts/fix.py:240-256 | The names the fix reads off its lines, normalised, without the run's own artifacts |
| `WriteScope.VerifyDecidePush` | actions/grimoire/cast/scripts/cast_driver.py:702-757 | Verify, decide and push over what git prints: what is committed stays inside the write set exactly when every change is in it that is staged but hidden, or that goes although its line is misread |
| `WriteScope.CommitStaysInScopeIff` | actions/grimoire/cast/scripts/cast_driver.py:719-757 | When a push is decided over the two listings, the commit stays inside the write set exactly when every change is in it that is staged but hidden from the listings, or that goes by the lines of the push although its own line is misread |
| `WriteScope.UnquotedStaysInScopeIff` | actions/grimoire/cast/scripts/cast_driver.py:719-749 | When git quoted no name, the commit stays inside the write set exactly when every change that is staged but hidden from the listings is in it |
| `WriteScope.ListedCommitIsSound` | actions/grimoire/cast/scripts/cast_driver.py:719-757 | Every committed path that is neither hidden nor misread is one the design output admitted: in the write set, inside the workspace, of an admitted kind, not forbidden, and present |
| `WriteScope.CleanIndexCommitsSound` | actions/grimoire/cast/scripts/cast_driver.py:744-749 | With nothing staged before the push and no name quoted, the whole commit is sound |
| `WriteScope.StagedRenameEscapes` | actions/grimoire/cast/scripts/cast_driver.py:744-749 | A staged rename out of a forbidden directory passes fix, verify and decide, and the commit deletes the forbidden file |
| `WriteScope.QuotedNameEscapes` | actions/grimoire/verify/scripts/verify.py:57-65 | A staged file whose quoted name holds an arrow is misread as an artifact of the run, passes every stage and is committed outside the write set |
| `WriteScope.ApprovedMeans` | actions/grimoire/verify/scripts/verify.py:87-157 | Approval of a fix means every listed path is in the write set, allowed, not forbidden and present, and the listing is the fix's own |
| `WriteScope.LensesAre` | actions/grimoire/verify/scripts/verify.py:100-126 | Each lens holds exactly when its conditions do, path by path and with the forbidden names and directories written out, and approval is all four |
| `WriteScope.FixResultIs` | actions/grimoire/fix/scripts/fix.py:369-371 | A fix is a noop, a fix or a violation exactly by its inputs, its changes and what is allowed; its violations are the changes that are not |
| `WriteScope.DecisionIff` | actions/grimoire/cast/scripts/cast_driver.py:610-664 | Each decision is taken exactly under its conditions: a push needs an open design, a successful fix in scope, its evidence, and approval by every lens |
| `WriteScope.ChangedIff` | actions/grimoire/verify/scripts/verify.py:50-57 | Which paths have a line in the status, by what is committed, staged and in the working tree |
| `WriteScope.NamesIff` | actions/grimoire/fix/scripts/fix.py:240-244 | The line names a directory only in the collapsed listing, for an untracked path below one without tracked files |
| `WriteScope.EscapeIs` | actions/grimoire/verify/scripts/verify.py:57-62 | How each byte of a quoted name is printed: itself, after a backslash, by one of seven letters, or in three octal digits |
| `WriteScope.CommittedIs` | actions/grimoire/cast/scripts/cast_driver.py:744-749 | Whatever the push adds, hidden changes are committed, and what is committed was listed in full, is hidden, or stood on a line that is misread |
| `WriteScope.CommittedIffGoes` | actions/grimoire/cast/scripts/cast_driver.py:734-749 | The lines the push reads decide what is committed before anything is added: a path taken in by one of them goes as it is in the working tree, any other as it is staged |
| `WriteScope.CommittedIff` | actions/grimoire/cast/scripts/cast_driver.py:734-749 | When git quoted no name, the commit is exactly what was verified in full, as far as it differs from the last commit, and what is hidden, though the push reads the collapsed listing |
| `WriteScope.ChangedPaths` | actions/grimoire/verify/scripts/verify.py:50-66 | The names read off the status lines, after the first arrow, with forward slashes and without a slash at the end, each once, without the run's own artifacts |
| `WriteScope.ListingIsChangedPaths` | actions/grimoire/cast/scripts/cast_driver.py:702-716 | In a listing without quoted names the loop finds exactly the changed paths, collapsed or not, but for the run's own artifacts |

## Left out

- Database.GwpDatabase.ClaimSlotForRequest: the slots are given as a list of all ids; the schema, its migrations and the removal of slot rows are not modelled.
- ContinueLoop.ContinueOwned: polling for the answer is one step that returns, because it is bounded by the deadline alone; waiting and log lines are left out.
- ContinueLoop.Reconcile: the parameters of the call and the daemon's answer are arbitrary here; what they may be is the subject of `SendProtocol` and `ReconcileScan`.
- SendMessage.Send: the heartbeat repeats the latest report and is not modelled; the steps before the click are one script that may fail anywhere.
- ReconcileScan.CandidatesAreMatches: text comparison is four given sets of texts (strict, image, loose, sane); regular expressions, Unicode trimming and locale order are not modelled, and slot ids are numbers.
- StopSafety.StopSparesUsers: `login` and the direct stop in `cleanup` use another admission rule and are not part of this model; a container is running or not.
- WebSocket.WS.RecvFrame: the opening handshake, UTF-8 decoding of payloads and random masks (an arbitrary function here) are left out; continuation and binary frames are returned like texts, as the code does.
- ImageBatch.Finalize: contents, hashes and sizes of downloads are not modelled, only whether a download is stored and with which extension.
- WriteScope.RunStages: the fix's list of changed files may also come from an input file, which is not modelled; neither are ignored files, names that are not bytes, and `git add` or `git commit` calls that fail.
- WriteScope.NewDirectoriesAreRefused: speaks of listings without quoted names, which the stages read alike.
- WritePaths.AllowedWritePaths: what Python shows for a value that is not text is a parameter.
- ReapOrder.PickedWithinRank: ticks follow one another; two reapers at the same time are not modelled.
- Ledger.WeeklyBound: excludes the unlocked `failed` write over a send in flight, which makes the bound false; `Ledger.WindowBound` states it with these writes counted, and `QuotaReached.ExcessIsReached` that the count is exact.
- The daemon may take sends in any order in `SendProtocol`, which is more than its queue allows; the queue is in `ResultCache`.
- A cache hit is any found verdict in `SendProtocol`: it is keyed by prompt and proves nothing about the request.
- Playwright page work, model picking, downloads, screenshots, login sessions, Docker commands, tokens and ownership checks of containers are not modelled.
- JSON encoding of anchors, SHA-256, log lines and file bytes are uninterpreted.
- GitHub requests, model calls, labels, comment rendering and workflow files of the Grimoire actions are not modelled.
- `inspect`, `status` and other read-only commands would add only easy members.
