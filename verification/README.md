# Filing a return exactly once

This project models a small filing system and proves that its parts, taken together, file
each tax return at most once and never disagree about the result, whatever crashes.

Four parts take part:

- **Accountable** owns the filings. Its command endpoint combines idempotency keys with a
  filing state machine in one serializable transaction (`CommandStore.dfy`).
- **The provider** (the authority) accepts submissions into a ledger that is saved before
  any answer, rolls back when a save fails, completes operations from goroutines and calls
  back. `ProviderLedger.dfy` says what its events do to the ledger as a value;
  `LedgerServer.dfy` is the server itself, with its maps of record objects, its deep-cloned
  rollback snapshot and its locked sections.
- **The filing workflow** runs on checkpointed steps. `Filing.dfy` gives its position as a
  function of the results checkpointed so far, and the sequential program with its poll
  loop, which stops where that function says.
- **Reconcilers and starts**: the operator's `reconcile` and the scheduled reconciliation
  (`Reconcile.dfy`; `Verdicts.dfy` says what their lines, counters and records mean, read off the
  tables before the pass), the event consumer and the operator's direct start (`Consumer.dfy`),
  and runs of several polls (`Polls.dfy`).

`Protocol.dfy` composes the parts for one filing into a state machine of 25 actions. The workflow
may crash between an effect and its checkpoint, be restored to any history it ever had, be
deleted and started again, cancelled and resumed. Requests may be lost with or without effect,
arrive late or twice. The provider may fail to save and may restart. Lookups go by URL: for a
filing whose ID does not survive that (`Domain.Addressable`), the workflow and the reconcilers
may be told anything that another filing's row or operation could say. `ProtocolInvariant.dfy`
holds the invariant and its preservation by every action; `Guarantees.dfy` the results for one
filing, `Submission.dfy` what the submitted mark does and does not say, `Lookups.dfy` what
becomes of an ID in a URL and what that does to the results, and `Recovery.dfy` that no filing
gets stuck. `Calm.dfy` and `Scenarios.dfy` say what happens when nothing interferes: whatever the
workflow is told it records and returns, and every provider scenario runs from seeding to its
end. `Disturbances.dfy` says what is left after a cancellation, a restore, a lost database or a
late request. (`Runs.dfy` puts short runs together for all of them.) `System.dfy` runs any number
of filings over one command store, one ledger and one workflow database under their real string
keys, and shows that each filing then goes through a run of the one-filing protocol, so that the
results hold of all filings at once; `SystemTotals.dfy` adds up counts over all of them, and
`SystemPasses.dfy` shows that a reconciliation pass, as programmed, is a run of that system.
`Domain.dfy` has the identifiers and proves that they never collide; `Totals.dfy` has sums over
maps.

To verify: `dafny verify dfyconfig.toml`.

## Main results

- No effect without intent, for every ledger entry of every reachable system:
  `Guarantees.IntentBeforeEffect`, `System.EveryEffectWasIntended`.
- Accountable and the provider agree on every final addressable filing, whatever other filings'
  lookups came back with: `Guarantees.OutcomesAgree`, `System.EveryOutcomeAgrees`; a successful
  workflow means a settled filing: `Guarantees.SuccessMeansSettled`.
- Crash transparency: the composed system refines a machine in which each effect happens at
  most once, and every re-execution is a stutter: `Guarantees.StepIsPermitted`,
  `Guarantees.ReExecutionIsAStutter`, `Guarantees.EachEffectAtMostOnce`.
- Repeated POSTs are paid for by crashes and rollbacks, for one filing and over all of them:
  `Guarantees.DuplicatePostsNeedFaults`, `SystemTotals.AllDuplicatesNeedFaults`.
- No outcome is dropped: in every reachable state, a workflow that still expects an outcome of an
  addressable filing whose operation is completed records and returns exactly that outcome if it
  is left alone, also after cancelling and resuming, a restore, or a rebuild from nothing:
  `Scenarios.NoOutcomeIsDropped`, `Calm.ToldOutcomeIsRecorded`, `Disturbances.RebuiltAdopts`.
- Every scenario of the provider ends as it should, from seeding on, with exact attempts, fault
  counts, state and result: `Scenarios.EveryScenarioEnds`, `Scenarios.LostAnswerEnds`.
- Every reachable state can be continued to a settled filing, without deleting a workflow that
  has not failed: `Recovery.EveryFilingCanEnd`.
- The provider is durable, monotone and keeps balanced books over every run, and its
  in-place implementation with rollback does exactly that:
  `ProviderLedger.ProviderRunsAreDurable`, `LedgerServer.Server.HandleSubmit`.
- The command store is the fold of its log, replays at any distance, and what it answered stays
  what its rows say: `CommandStore.StateIsFoldOfLog`, `CommandStore.ReplayAtAnyDistance`,
  `CommandStore.StoredResultsNameOperations`.
- The two reconcilers are one policy, their dry run is faithful, a second pass is a no-op,
  and a pass is a run of the whole system: `Reconcile.ReconcilersAgree`,
  `Reconcile.DryRunIsFaithful`, `Reconcile.SecondPassChangesNothing`, `SystemPasses.PassIsARun`.
  Every line and every counter they report is exact, told from the tables before the pass:
  `Verdicts.VerdictsAreRight`, `Verdicts.CountersAreExact`.
- An acknowledged event is taken care of, and acknowledgements form prefixes:
  `Consumer.Worker.PollOnce`.

## Assumptions

- At most one live execution per workflow ID, as the runtime promises.
- A failed ledger write leaves the stored row as it was. (A write that fails after it took
  effect would break the equality of live and stored ledger.)
- Callbacks come only from the provider's own goroutine, not from an operator's `send`.
- A filing is seeded only before its first command. `PUT /filings` and `POST /seed` reset
  the state without clearing the commands (internal/accountable/server.go:295-297, 321-323),
  which deliberately breaks the link between log and state.
- In `Protocol` and `System`, commands come only from the workflow and the two reconcilers.
  `CommandStore` assumes nothing about its stream.
- In `Reconcile`, the provider's ledger and the runs of other actors stand still during a
  pass, except for rivals that start the same run first. Its ledger is what lookups by
  operation ID find, which for addressable filings is the provider's.
- Filing IDs are arbitrary, but the clients put them into URL paths unescaped
  (internal/accountable/server.go:460, internal/authority/server.go:567) and the servers read
  the path back decoded (internal/accountable/server.go:342, internal/authority/server.go:494).
  Results that rest on a lookup are therefore stated for addressable filings: IDs without `%`,
  `/`, `?`, `#` and control characters that are not empty, `.` or `..`. For all other IDs the
  model lets a lookup fail or find whatever belongs to another filing.

## What the code does not do

These claims suggest themselves and do not hold of the code:

- A later poll may commit past an event that an earlier poll left unacknowledged, because
  the set of blocked partitions is rebuilt for each poll (cmd/worker/main.go:156).
  `Polls.LaterPollMayPassABlockedEvent` gives a run, and
  `Polls.PassedExactlyWhenALaterHeadIsReady` says over any run of polls exactly when it happens.
- A clashing event without an event ID, filing ID or year can never be put on file. It blocks
  its partition for the poll that fetches it; the next poll passes it over if the first record
  it fetches there is ready and its commit goes through, and the clash is lost:
  `Consumer.UnreportableClashIsNeverDone`, `Polls.UnreportableClashIsPassedOver`.
- The detail text is part of the compared payload (internal/accountable/server.go:146-149), so a
  second recorder of the same outcome, or of the same review, is refused, and its pass or
  workflow fails, exactly when its detail differs:
  `Reconcile.SecondRecorderSucceedsExactlyWhen`. The state stays right:
  `Guarantees.ResolvedOnce`.
- `submitted` does not mean that the provider recorded the operation: a second ambiguous
  answer, from the resubmission, goes on to the submitted mark
  (internal/workflow/filing.go:215-257). `Submission.SubmittedWithoutEffect` gives the run,
  `Submission.SubmittedMeansRecordedOrDoubtful` shows that it takes such a history, and
  `Submission.SubmittedInVainExactlyWhen` exactly when one leads there.
- A repeated rejection answers without the detail of the first one
  (internal/authority/server.go:272 and 343-344): `ProviderLedger.RepeatedRejectionLosesDetail`
  gives the requests, `ProviderLedger.RepeatedRejectionExactly` says when the answers agree.
- A workflow's input can change: recreation after an error takes the scenario from Accountable,
  not from the failed history (internal/workflow/filing.go:436-448).
  `Reconcile.RecreationMayChangeInput` gives the pass, `Reconcile.FailedInputChangesExactlyWhen`
  and `Reconcile.RecreationKeepsInputExactlyWhen` say exactly when.
- An ID with an escape in it is looked up as another one: `a%62` as `ab`. Such a workflow may
  record the outcome of the other filing's operation, or return because the other filing is
  final: `Lookups.SomeIDsAreReadAsOthers`, `Lookups.MisreadOutcomeIsRecorded`,
  `Lookups.MisreadAsFinal`; `Lookups.OutcomesAgreeExactlyWhen` and
  `Lookups.ReadAsSentExactlyWhen` say for which IDs it does not happen. An ID that no lookup
  finds, such as `a/b`, fails validation each time, so its filing never leaves ready;
  `Recovery.EveryFilingCanEnd` is about addressable ones.

## Model

| member | source | states |
|---|---|---|
| `Domain.WorkflowIDsNeverCollide` | `internal/domain/types.go:51-57` | Two filings share a workflow ID, and so a provider operation ID, only if filing ID and tax year are equal; filing IDs may contain anything, "-y" included, and years are any integers. |
| `Domain.CommandKeysNeverCollide` | `internal/domain/types.go:59-65` | The four command keys are injective over all filings and never equal across kinds: equal keys mean the same filing, year and kind of command. |
| `Domain.IdentitiesAreCanonical` | `internal/domain/types.go:50-57` | Spelled out: filing F-17 of 2025 has the workflow and operation ID filing-F-17-y2025. |
| `Domain.CommandKeysAreCanonical` | `internal/domain/types.go:59-65` | And, for every filing, the four keys are that ID with their suffixes. |
| `CommandStore.CommandServer.ApplyCommand` | `internal/accountable/server.go:122-218` | The method over the two tables, branch by branch, leaves exactly the tables and gives exactly the answer of the transaction specified on the rows it locks; a refusal changes nothing. |
| `CommandStore.ApplyCases` | `internal/accountable/server.go:137-217` | A request either applies one permitted transition and adds one row under a fresh key, or repeats a stored request and moves one counter, or changes nothing. |
| `CommandStore.AllowedExactlyByRank` | `internal/accountable/server.go:107-118` | Which states each command is allowed in, by the rank of the state alone: an intent up to submitting, the mark in submitting only, reviews and outcomes from submitting until there is an outcome. |
| `CommandStore.AnsweredExactly` | `internal/accountable/server.go:137-206` | Each kind of answer, applied, repeated, conflict or failure, is given if and only if a condition holds that a caller can read off the two tables beforehand, the ownership of operation IDs included. |
| `CommandStore.AnswerNamesOperation` | `internal/accountable/server.go:184-217` | An applied command answers with its filing's ID, the state the row now has, and the operation the row now holds, empty only if it holds none; an intent's is the one it asked for, and no other command changes it. |
| `CommandStore.StoredResultsNameOperations` | `internal/accountable/server.go:207-217` | Over any stream: every stored result names its command's filing and state, and an operation that is still the one in the filing's row. |
| `CommandStore.StateIsFoldOfLog` | `internal/accountable/server.go:122-218` | Over any stream of commands with any keys, the state of each filing is the fold of the commands answered as applied, each permitted where it stands. |
| `CommandStore.FoldNeverGoesBack` | `internal/accountable/server.go:95-118` | Along any permitted log the rank ready, submitting, submitted, needs_review, final never falls; a submitted mark and an outcome occur at most once; nothing follows an outcome. |
| `CommandStore.StreamKeepsOrder` | `internal/accountable/server.go:107-118` | The same over whole streams: ranks rise, at most one MarkFilingSubmitted and one terminal command apply per filing, and a terminal filing is final. |
| `CommandStore.RowsPersist` | `internal/accountable/server.go:137-163` | A stored command keeps its request and its result through any later stream; its duplicate counter never falls. |
| `CommandStore.ReplayAtAnyDistance` | `internal/accountable/server.go:137-163` | After any later commands, repeating a stored request returns its original result as not applied with the new count and changes that count only; another request under the key is refused and changes nothing. |
| `CommandStore.AnswersAreAccountedFor` | `internal/accountable/server.go:399-409` | Over any stream, successful answers equal the growth of command rows plus the growth of the sum of duplicate counters, the two numbers the metrics report. |
| `ProviderLedger.PostIsTruthful` | `internal/authority/server.go:248-364` | A retryable answer leaves the operation absent and came for an absent one; a conclusive answer names a recorded entry of the same filing and scenario, and says rejected exactly when that entry is. |
| `ProviderLedger.RetryTaxonomy` | `internal/authority/server.go:535-564` | For every ledger, request and save result: a retryable error means the operation is not in the ledger and no entry changed; the ambiguous answers are exactly a bad request, an identity conflict, a gateway timeout and a failed save; a conclusive answer names a saved entry. |
| `ProviderLedger.ReadExactly` | `internal/authority/server.go:535-564` | Which answer, or loss of one, the client takes for what, and the words it passes on. |
| `ProviderLedger.PostAnsweredExactly` | `internal/authority/server.go:259-363` | Each answer to a POST is given if and only if a condition on the entry, the scenario and the fault counts beforehand holds: two 429s, two 503s, one lost timeout, then the recording. |
| `ProviderLedger.PostLeavesExactly` | `internal/authority/server.go:261-348` | What a POST leaves: a known operation one more attempt unless its identity differs, a new one its whole entry, a refused one only the count of its fault. |
| `ProviderLedger.HandlerAnswersExactly` | `internal/authority/server.go:248-257` | A POST without an ID is a bad request, one that cannot be saved an outage, and neither leaves a trace; every other is answered from the cell of its operation. |
| `ProviderLedger.LookupReportsEntry` | `internal/authority/server.go:493-505` | A lookup answers not_found if and only if there is no entry, and otherwise with its status and outcome. |
| `ProviderLedger.AnswersAreDurable` | `internal/authority/server.go:283-377` | Every accepted or rejected answer of a provider whose live ledger is the stored one names a stored entry of the same filing and scenario, and says rejected exactly when that entry is. |
| `ProviderLedger.RetriedPostsHadNoEffect` | `internal/workflow/filing.go:175-188` | However often the submit step retries, all its POSTs that ended in a retryable error left every entry as it was, and the operation absent. |
| `ProviderLedger.PostIsFair` | `internal/authority/server.go:255-348` | What each answer is charged in the metrics against what it changed: attempts, recordings, duplicates, 429s and no-effect 5xx. |
| `ProviderLedger.SubmitKeepsValid` | `internal/authority/server.go:255-348` | A POST keeps every entry well formed (an outcome is empty exactly while processing, rejected exactly for the reject scenario) and only ever grows entries: identity fields, a final status and outcome, and a finished callback stay. |
| `ProviderLedger.SubmitConserves` | `internal/authority/server.go:255-377` | A POST, saved or not, keeps the books: submissions are the entries, duplicates the extra attempts, transient the sum of min(count, 2), throttled the same plus hopeless 429s, and attempts the sum of all of them, the lost-timeout keys and the identity conflicts. |
| `ProviderLedger.SubmitIsLocal` | `internal/authority/server.go:255-348` | A POST reads and writes the cell of its own operation only. |
| `ProviderLedger.RepeatedRejectionExactly` | `internal/authority/server.go:261-281` | Repeating a rejected POST is rejected again for the same operation; the two answers are identical if and only if the operation was in the ledger before the first. |
| `ProviderLedger.RepeatedRejectionLosesDetail` | `internal/authority/server.go:334-346` | For every ledger and every new operation of the reject scenario, the first answer carries the failure detail and the repeated one an empty detail. |
| `ProviderLedger.ReactKeeps` | `internal/authority/server.go:391-485` | Every request, completion, callback, failed write and restart keeps the live ledger equal to the stored one, its entries growing, its books balanced, and lets a goroutine call back only for a durably completed, accepted entry. |
| `ProviderLedger.RestartResumesExactly` | `internal/authority/server.go:212-220` | After a restart on a well-formed stored ledger an operation has a goroutine, which waits, if and only if its entry has not finished its callback; completed ones included. |
| `ProviderLedger.FiringCompletes` | `internal/authority/server.go:404-428` | A goroutine whose delay is over saves its operation as completed and accepted and goes on to call back, or ends if that cannot be saved; it touches no other operation. |
| `ProviderLedger.DeliveryIsCounted` | `internal/authority/server.go:461-485` | A delivered callback is counted once if the count can be saved, and never for the scenario without callbacks. |
| `ProviderLedger.FinishingEnds` | `internal/authority/server.go:447-457` | A goroutine that is done ends, and its callback counts as finished exactly if that can be saved. |
| `ProviderLedger.GivingUpOwesCallback` | `internal/authority/server.go:447-448` | One that gives up leaves both ledgers as they are, and the next restart takes its callback up again. |
| `ProviderLedger.ProviderRunsAreDurable` | `internal/authority/server.go:366-377` | The same over every run of any length from any balanced provider. |
| `LedgerServer.CloneState` | `internal/authority/server.go:153-164` | The snapshot shares no mutable object with the live state and shows the same ledger. |
| `LedgerServer.Server.Load` | `internal/authority/server.go:111-138` | Starting on a stored row gives exactly the state after a restart event. |
| `LedgerServer.Server.SaveOrFail` | `internal/authority/server.go:368-377` | A failed save puts the snapshot back and leaves the row; a good one leaves the live state and stores it. |
| `LedgerServer.Server.SnapshotAndMutate` | `internal/authority/server.go:255-257` | The snapshot still shows the old ledger after the mutations, because it shares nothing with the records they write. |
| `LedgerServer.Server.Transact` | `internal/authority/server.go:255-377` | Either the attempt is live and stored, or the old ledger is live again in objects no earlier pointer reaches, the row is unchanged and the answer is the outage. |
| `LedgerServer.Server.HandleSubmit` | `internal/authority/server.go:248-364` | The whole handler is one submit event of the specification, for live state, stored row, goroutines and answer. |
| `LedgerServer.Server.Fire` | `internal/authority/server.go:404-428` | The first locked section of a completion goroutine is one fire event. |
| `LedgerServer.Server.CountDelivery` | `internal/authority/server.go:461-485` | Counting a delivered callback is one delivery event; a failed write takes the count back. |
| `LedgerServer.Server.FinishCallback` | `internal/authority/server.go:447-457` | The last locked section of a goroutine is one finish event. |
| `LedgerServer.Server.HandleStatus` | `internal/authority/server.go:493-505` | A lookup reports the entry as it is live, or not_found, and changes nothing. |
| `Filing.Run` | `internal/workflow/filing.go:74-320` | The sequential program with its poll loop, run over any checkpoints, stops exactly at the position that folding the checkpoints gives, for every prefix of every history. |
| `Filing.DeclareIntent` | `internal/workflow/filing.go:80-145` | Validation, the two early ends, and the intent command for a ready filing only. |
| `Filing.SubmitOnce` | `internal/workflow/filing.go:171-246` | Submission, resolution of an ambiguous answer by lookup, one resubmission, and rejection. |
| `Filing.AwaitOutcome` | `internal/workflow/filing.go:268-298` | The bounded wait ends with an outcome or, after the last round, with none. |
| `ProtocolInvariant.AdvanceKeepsOk` | `internal/workflow/filing.go:74-320` | Every branch of the workflow passes on what its step result proved: an intent behind every submission, the provider's outcome behind every recording, a stored command behind every result. |
| `ProtocolInvariant.StepKeepsInv` | `docs/PROOF_CONTRACT.md:16-20` | Each of the 25 actions keeps the invariant: seeding, duplicate starts, handling, lookups that find another filing, loss, retries, checkpoints, crashes, restores of any earlier history, deletion, cancel and resume, late and duplicated requests, the provider's goroutine, restarts and reconcilers. |
| `ProtocolInvariant.RunKeepsInv` | `docs/PROOF_CONTRACT.md:16-20` | Every state of every run satisfies it. |
| `Guarantees.IntentBeforeEffect` | `internal/workflow/filing.go:122-171` | In every reachable state a ledger entry has a filing that is past ready and stores exactly its operation ID. |
| `Guarantees.OutcomesAgree` | `internal/workflow/filing.go:159-305` | In every reachable state an accepted or rejected addressable filing has a completed operation with that outcome, whichever path recorded it. |
| `Guarantees.SuccessMeansSettled` | `internal/workflow/filing.go:88-319` | Every history that ended in success, current or any backup, has left the filing in review or final, and a provider outcome in its result is exactly the filing state; for a result that reports the filing as final already, if the filing is addressable. |
| `Guarantees.LateResolutionIsOpen` | `internal/accountable/server.go:107-118` | The outcome key is used exactly when the filing is terminal, so once the provider completed, one outcome command resolves any open filing, whatever its detail. |
| `Guarantees.ResolvedOnce` | `internal/accountable/server.go:113-116` | And no further command of any kind is applied after that. |
| `Guarantees.StoredCommandsAreCanonical` | `internal/workflow/filing.go:127-133` | In every reachable state the commands on record for a filing are the canonical ones, under its own keys: only the intent names the operation, only reviews and outcomes carry a detail. |
| `Guarantees.RuntimeEventsAreInvisible` | `docs/PROOF_CONTRACT.md:16-20` | Crashes, restores, deletion, retries, checkpoints, cancellation, lost, dropped and duplicated requests change nothing at Accountable and nothing in the ledger. |
| `Guarantees.StepIsPermitted` | `docs/PROOF_CONTRACT.md:16-20` | Each step of the composed system is one permitted effect of the crash-free machine or none; the outcome it may record is the provider's settled one, unless the filing is not addressable. |
| `Guarantees.ReExecutionIsAStutter` | `docs/PROOF_CONTRACT.md:18-20` | A step that is no new effect leaves filing row, command rows and ledger entry as they were, duplicate and attempt counters and callback bookkeeping aside. |
| `Guarantees.EachEffectAtMostOnce` | `docs/PROOF_CONTRACT.md:16-20` | Over any run, intent, filing, settlement, submitted mark, review and recorded outcome each happen at most once. |
| `Guarantees.OnlyLookupsLeadToPosts` | `internal/workflow/filing.go:147-239` | The workflow comes to a POST only from a lookup that found nothing. |
| `Guarantees.DuplicatePostsNeedFaults` | `internal/workflow/filing.go:147-239` | For an addressable filing: if every POST is handled before the next lookup and the network duplicates none, repeated submissions of an operation are at most the crashes plus history rollbacks, hence none in a run without them. |
| `Submission.SubmittedMeansRecordedOrDoubtful` | `internal/workflow/filing.go:200-257` | In every reachable state an addressable filing that is or was marked submitted is in the ledger, unless some history of its workflow holds an ambiguous answer to the resubmission. |
| `Submission.GoesOnExactlyWhenUnanswered` | `internal/workflow/filing.go:213-240` | At the resubmission, from any local state, the workflow goes on as if accepted with nothing recorded if and only if the POST is lost, its save fails, or the provider times out before recording. |
| `Submission.SubmittedInVainExactlyWhen` | `internal/workflow/filing.go:213-265` | For every run that has come to the resubmission of a filing still submitting, the next exchange makes it a submitted filing unknown to the provider if and only if the POST goes unanswered in that sense. |
| `Submission.StaysInVainExactlyWhen` | `internal/workflow/filing.go:213-240` | A filing that was already submitted in vain stays so if and only if this POST, too, goes unanswered or is refused by a fault scenario. |
| `Submission.SubmittedWithoutEffect` | `internal/workflow/filing.go:215-257` | For every addressable filing, the run in which both POSTs are lost ends with the filing submitted and nothing at the provider. |
| `Calm.ToldOutcomeIsRecorded` | `internal/workflow/filing.go:159-165` | For any state of the invariant and an open addressable filing whose operation is completed: whichever of the three lookups the workflow is at, handling it and the next request leaves the filing with that outcome, and on record under its own key with that lookup's reason. |
| `Calm.CalledBackIsRecorded` | `internal/workflow/filing.go:272-277` | So does a callback that has arrived while the workflow waits, with the callback's ID in the reason. |
| `Calm.ToldOutcomeIsReturned` | `internal/workflow/filing.go:300-319` | The rest of the run, undisturbed: the filing ends with that outcome and the workflow returns it. |
| `Calm.AdoptedIsFollowed` | `internal/workflow/filing.go:166-169` | Once the workflow has found an operation in progress, every later lookup of its is for that operation, whatever the history, and it never submits. |
| `Calm.MismatchFails` | `internal/workflow/filing.go:314-317` | A workflow that finds its filing in another state than it recorded ends in an error and changes nothing. |
| `Calm.SilenceEndsInReview` | `internal/workflow/filing.go:268-298` | While the operation is not completed, the workflow waits exactly the configured number of rounds and then sends the filing to review and returns that. |
| `Calm.RetriedExactly` | `internal/workflow/filing.go:80-138` | A failed attempt is repeated if and only if fewer than five retries were made, and never at the validation; while it can be repeated it is not checkpointed. |
| `Calm.FinalIsLeftAlone` | `internal/workflow/filing.go:88-94` | The workflow of a filing that is final returns that it was, and touches nothing. |
| `Scenarios.CompletedIsConcluded` | `internal/workflow/filing.go:147-319` | From every position at which a workflow of an open addressable filing still expects an outcome, an undisturbed run ends with the outcome that the provider holds, in the filing and in the result; it takes another POST only where one was due. |
| `Scenarios.NoOutcomeIsDropped` | `internal/workflow/filing.go:291-298` | The same in every reachable state: such a run exists. |
| `Scenarios.EveryScenarioEnds` | `scenarios/retries-throttling-rejection.sh:9-45` | Every scenario, from seeding to the end: the filing's state, the workflow's result with its detail, the provider's whole entry with its attempts, the fault counts, and whether the filing was marked submitted. |
| `Scenarios.AttemptsFail` | `scenarios/retries-throttling-rejection.sh:31-37` | A submission that is always turned away makes six attempts in all and then goes to review, without any effect at the provider. |
| `Scenarios.LostAnswerEnds` | `scenarios/lost-provider-response.sh:9-15` | For every scenario that the provider takes at once: with the answer to the POST lost, the workflow looks the operation up, goes on, and ends accepted with one attempt on record. |
| `Scenarios.OwedCallbackIsDelivered` | `internal/authority/server.go:212-220` | In any state with a completed accepted operation whose callback is unfinished: after a restart its goroutine calls back, under either callback ID, and finishes it; until then it stays owed. |
| `Disturbances.CancelledStops` | `scenarios/cancellation.sh:13-16` | Cancelling ends the execution, keeps the history, and changes nothing at either service. |
| `Disturbances.CancelledStays` | `scenarios/cancellation.sh:14-16` | A cancelled workflow stays so and sends nothing, whatever happens around it, until it is resumed, restored or deleted. |
| `Disturbances.ResumedAdopts` | `docs/PROOF_CONTRACT.md:31` | In any state of the invariant with a cancelled or failed workflow and a completed operation: resumed, it ends with the operation's outcome, and the provider's entry stays as it is unless a POST was due. |
| `Disturbances.AnyBackupComesBack` | `docs/PROOF_CONTRACT.md:34` | Whatever history a run ever had can be restored at any later time; the services stay where they are. |
| `Disturbances.RestoredAdopts` | `docs/PROOF_CONTRACT.md:34` | A running history restored from any backup ends with the outcome that the provider holds. |
| `Disturbances.RebuiltAdopts` | `docs/PROOF_CONTRACT.md:34` | And so does a workflow rebuilt from nothing, without another POST. |
| `Disturbances.LateResolution` | `docs/PROOF_CONTRACT.md:35` | In any state of the invariant, a reconciler that finds an addressable filing's operation completed resolves it, in review or still open: the outcome is in the row and on record with the reconciler's reason, the provider and the workflow are as they were. |
| `Disturbances.MisjudgedResolution` | `internal/authority/server.go:566-568` | For a filing that is not addressable, whatever outcome the lookup stood for is recorded. |
| `Disturbances.CopiesAreCounted` | `docs/PROOF_CONTRACT.md:18-20` | The network duplicates, drops and delivers requests one at a time, and no other with it. |
| `Disturbances.LostCommandArrives` | `docs/PROOF_CONTRACT.md:18-20` | A command whose answer is lost has its whole effect when it arrives; the workflow only knows that it failed. |
| `Disturbances.CallbacksAreTrue` | `internal/authority/server.go:433-446` | In every reachable state, each callback that has arrived is of the filing's own operation, which is completed, accepted and stored, and not of the scenario that leaves the callback out. |
| `Lookups.ReadAsSentExactlyWhen` | `internal/accountable/server.go:459-461` | An ID of one path segment is read back as it was sent if and only if the filing is addressable. |
| `Lookups.OperationIsReadAs` | `internal/authority/server.go:566-568` | If a filing's ID is read as another's, so is its operation ID at the provider. |
| `Lookups.SomeIDsAreReadAsOthers` | `internal/accountable/server.go:460` | There are such filings: a%62 is read as ab, in every year. |
| `Lookups.MisreadOutcomeIsRecorded` | `internal/workflow/filing.go:147-169` | For every filing that is read as another: a run ends with it accepted on the other's outcome, and the provider has never heard of it. |
| `Lookups.MisreadAsFinal` | `internal/workflow/filing.go:88-94` | For every such filing: a run ends in success with the result that it was final already, and it is ready. |
| `Lookups.OutcomesAgreeExactlyWhen` | `internal/workflow/filing.go:159-305` | For filings whose lookups find some filing: Accountable agrees with the provider about it in every reachable state if and only if it is addressable. |
| `Lookups.ForeignOperationFails` | `internal/workflow/filing.go:95-99` | A row that names another operation stops the workflow before it does anything. |
| `Recovery.EveryFilingCanEnd` | `internal/workflow/filing.go:361-460` | Every run that has seeded an addressable filing can be continued to one where it is in review, accepted or rejected, for any number of status polls; on the way a workflow is deleted only after it failed, and started only with the scenario that Accountable holds. |
| `Recovery.Recover` | `docs/PROOF_CONTRACT.md:16-20` | The continuation, from any state of the invariant: the filing's workflow ends in an error and is recreated; the new one adopts what the provider holds, completed after a restart if need be, or waits in vain and gives up, even if the provider never answers a POST. |
| `Recovery.Cleared` | `internal/workflow/filing.go:436-448` | Whatever workflow an open filing has, resumed if it was cancelled, can come to its deletion as a failed one, with both services as they were. |
| `System.OperationsAreOwn` | `internal/accountable/server.go:184-198` | No other filing ever owns the operation ID that an intent declares, so the unique index never refuses the workflow. |
| `System.OtherRowsAreForeign` | `internal/workflow/filing.go:95-99` | Whatever other filing's row a lookup finds, it is ready or names another operation, so it never passes for this filing's intent. |
| `System.CommandIsLocal` | `internal/accountable/server.go:137-217` | On the shared tables, with the real keys, a command does to its filing what the one-filing handler does, and nothing to any other. |
| `System.PostIsLocal` | `internal/authority/server.go:255-364` | The same for a POST on the shared ledger. |
| `System.ActionsAreLocal` | `internal/domain/types.go:50-65` | Every action of one filing is one protocol step for it and leaves every other filing's rows, entry, goroutine and workflow alone. |
| `System.ProviderStaysSynced` | `internal/authority/server.go:366-377` | Whatever the whole system does, the live ledger stays the stored one. |
| `System.EveryFilingRunsTheProtocol` | `docs/PROOF_CONTRACT.md:9-20` | Composition: in any run over any number of interleaved filings, each filing goes through a run of the one-filing protocol. |
| `System.EveryEffectWasIntended` | `docs/PROOF_CONTRACT.md:12-14` | In every reachable system each stored ledger entry belongs to a filing that is past ready and stores its operation ID. |
| `System.EveryOutcomeAgrees` | `internal/workflow/filing.go:322-331` | In every reachable system each final addressable filing has a stored, completed entry whose mapped outcome is its state, whatever other filings' lookups came back with. |
| `System.EverySuccessIsSettled` | `internal/workflow/filing.go:314-319` | In every reachable system a successful workflow's filing is at least in review, and in the state its result names; if the result is that it was final already, for addressable filings. |
| `System.ReachableSystemsAreConsistent` | `internal/accountable/server.go:113-116` | Every reachable system meets the conditions under which a reconciliation pass never breaks off and is idempotent. |
| `SystemTotals.EveryEffectAtMostOnce` | `docs/PROOF_CONTRACT.md:16-20` | In any run of the whole system each filing has its intent declared, its return filed and settled, and is marked, reviewed and recorded at most once each. |
| `SystemTotals.AllDuplicatesNeedFaults` | `internal/authority/server.go:270-271` | If in every filing's run each POST is handled before the next lookup and none is duplicated, and the ledger is of addressable filings, the stored count of duplicate submissions is at most the crashes and rollbacks of all workflows together. |
| `SystemTotals.RunStaysBalanced` | `internal/authority/server.go:255-377` | The provider's books balance in every state of every run of the whole system. |
| `SystemPasses.PassIsARun` | `cmd/opsctl/main.go:188-323` | A pass of either reconciler, applying or not, finished or broken off, with rivals or without, is a run of the whole system: the same store, a workflow for every run with its status and input, and the provider as it was. |
| `SystemPasses.VerdictIsARun` | `internal/workflow/filing.go:372-457` | Acting on one verdict is: sending and handling the outcome command, deleting and starting, or starting. |
| `SystemPasses.PassStaysReachable` | `internal/workflow/filing.go:361-460` | A pass over a reachable system leaves a reachable system. |
| `Reconcile.Fleet.OperatorPass` | `cmd/opsctl/main.go:188-323` | The operator's command, report-only or applying, is a pass of the policy: same world, same lines in order, same breaking off, and its missing count. |
| `Reconcile.Fleet.OperatorStep` | `cmd/opsctl/main.go:204-240` | One filing of it, in its own branch order: review first, then the run, then the missing run. |
| `Reconcile.Fleet.ScheduledPass` | `internal/workflow/filing.go:361-460` | The scheduled workflow is a pass of the same policy, and checked = started + finalized + escalated + healthy + lost start races, with recreated counting the remade ones. |
| `Reconcile.Fleet.ScheduledStep` | `internal/workflow/filing.go:372-457` | One filing of it, in its own branch order, and the counters it raises. |
| `Reconcile.DryRunIsFaithful` | `cmd/opsctl/main.go:226-229` | Report-only mode changes nothing, and its verdicts are exactly those an applying pass from the same start acts on, up to where that one breaks off if it does, even when rivals start runs meanwhile. |
| `Reconcile.FinalizeApplies` | `cmd/opsctl/main.go:230-237` | Finalizing an open filing of a consistent world is always applied, whatever the detail. |
| `Reconcile.PassFollowsPlan` | `cmd/opsctl/main.go:204-321` | From a consistent world and a current list a pass leaves exactly the filings and runs its verdicts stand for; it breaks off if and only if it is the operator's and some filing of the list loses a signalled start race. |
| `Reconcile.ReconcilersAgree` | `internal/workflow/filing.go:372-457` | Same list, clock, bound, runs, provider and rivals: the scheduled pass never breaks off, the operator's verdicts are its first ones, and unless some filing loses a signalled start race both reach the same verdicts and leave the same filings, workflow IDs and inputs; if one does, the operator breaks off. |
| `Reconcile.ResolvedExactlyWhenCompleted` | `cmd/opsctl/main.go:209-225` | A pass concludes an outcome from a lookup if and only if the provider's entry for the operation is completed with that outcome. |
| `Verdicts.VerdictsAreRight` | `cmd/opsctl/main.go:204-321` | Every line a pass reports is right, told without the policy from the list, runs and entries before the pass: OK exactly for a pending or enqueued run touched within the bound or a delayed one not overdue; escalated exactly without a due outcome, for cancelled and unknown runs, and for stale ones; recreated exactly for failed runs, missing exactly without one, finalized exactly with the provider's completed outcome. |
| `Verdicts.CountersAreExact` | `internal/workflow/filing.go:368-459` | Each counter of a finished scheduled pass is the number of listed filings of which that could be seen before. |
| `Verdicts.MissingIsExact` | `cmd/opsctl/main.go:203-322` | So is the operator's count of missing runs. |
| `Verdicts.LostIsExact` | `internal/workflow/filing.go:446-457` | The start races a pass loses are those of missing and failed runs that a signalled rival starts. |
| `Verdicts.BreaksOffAtFirstLoss` | `cmd/opsctl/main.go:265-278` | A pass that breaks off is the operator's, has reported exactly the filings before the first lost start race, and finds the rival's run there. |
| `Verdicts.FinalizedIsOnRecord` | `cmd/opsctl/main.go:230-237` | Every filing a pass finalized has the outcome command on record under its own key, with the reason of the reconciler that ran, even if the pass broke off later. |
| `Verdicts.RefusedExactlyWhen` | `internal/accountable/server.go:146-182` | In any world: recording an outcome is refused, and breaks the pass off, if and only if another command is on record under the key, or none is and the filing does not wait for an outcome; a refusal changes nothing. |
| `Reconcile.SecondRecorderSucceedsExactlyWhen` | `internal/accountable/server.go:146-149` | A second recorder under any of a filing's keys whose commands carry a detail, outcome and review included, succeeds if and only if it writes the same detail; otherwise it gets a conflict and changes nothing. |
| `Reconcile.PassMakesQuiet` | `cmd/opsctl/main.go:204-321` | After a pass every listed filing is final, unresolvable for now, or has a run that needs no repair. |
| `Reconcile.SecondPassChangesNothing` | `cmd/opsctl/main.go:188-323` | After a pass over all open filings, a second pass at any clock and bound, by either reconciler, changes no filing, no command row and no run. |
| `Reconcile.StartedIsFresh` | `internal/workflow/filing.go:446-448` | What a pass starts, whether it finishes or breaks off, is enqueued now under the filing's ID with the filing and scenario listed, or a rival's input. |
| `Reconcile.RecreationKeepsInputExactlyWhen` | `internal/workflow/filing.go:436-448` | For every pass and every recreated run, the input stays the same if and only if the failed run held exactly what is listed now, or what a rival starts. |
| `Reconcile.FailedInputChangesExactlyWhen` | `internal/workflow/filing.go:436-448` | From a consistent world and a current list, without rivals, a pass changes the input of a listed filing's run if and only if the run has failed, the filing is not in review, and the run held another filing or scenario than listed. |
| `Reconcile.RecreationMayChangeInput` | `cmd/opsctl/main.go:265-278` | For every filing and either reconciler: a run that failed with one scenario comes back with the other one that Accountable holds. |
| `Consumer.Worker.PollOnce` | `cmd/worker/main.go:147-234` | The poll loop over any interleaving of partitions commits exactly the specified records: a prefix per partition, each backed, with all earlier inputs and conflict rows unchanged. |
| `Consumer.Worker.Consume` | `cmd/worker/main.go:157-226` | The handler of one record, with its ways to fail, does exactly the specified start, verification and conflict report. |
| `Consumer.Worker.EnqueueFiling` | `cmd/opsctl/main.go:142-186` | The operator's direct start, with its ways to fail, does exactly the specified enqueue, verification and conflict report. |
| `Consumer.DirectStartIsVerified` | `cmd/opsctl/main.go:154-185` | A direct start succeeds if and only if nothing fails, the filing ID is not empty and the workflow ID was free or holds exactly the requested input; a reported clash is on file under the digest of both inputs; existing inputs and conflict rows stay. |
| `Consumer.DirectStartReportsExactly` | `cmd/opsctl/main.go:142-186` | Each error of a direct start is reported if and only if a condition on what was stored before and on what fails holds. |
| `Consumer.DirectStartLeavesExactly` | `cmd/opsctl/main.go:168-183` | A direct start, whatever it reports, leaves one new workflow with the requested input, or one new conflict row that names the requested filing, the input the workflow holds and the request, which differ, or nothing; if it reports that the workflow exists, its free digest ID has that row. |
| `Consumer.StartsConverge` | `cmd/opsctl/main.go:142-153` | A direct start and an event for the same input are interchangeable, whether the workflow ID was free or holds that input: the second one finds its work done and changes nothing. |
| `Consumer.AcknowledgedIsPrefix` | `cmd/worker/main.go:155-161` | In one poll the acknowledged records of a partition are a prefix of its fetched ones, all of them exactly when it was not blocked. |
| `Consumer.AcknowledgedIsBacked` | `cmd/worker/main.go:185-225` | Each acknowledged record is undecodable, or backed by a workflow with equal persisted input, or by a durable conflict row; no input and no conflict row changes. |
| `Consumer.DoneMeansBacked` | `cmd/worker/main.go:173-225` | One record: done implies backed, and without failures the two are the same. |
| `Consumer.DoneExactlyWhenReady` | `cmd/worker/main.go:173-225` | A record is done if and only if, beforehand, nothing is going to fail and the stored input can be read and is the event's own or a clash that can be put on file. |
| `Consumer.CanBeDoneExactlyWhen` | `cmd/worker/main.go:195-215` | Whether any course of events lets a record be done depends on the stored input and the event alone. |
| `Consumer.HandlingOnlyAdds` | `internal/accountable/server.go:262-266` | Workflow inputs and conflict rows are only ever added. |
| `Consumer.HandlerLeavesInputs` | `cmd/worker/main.go:173-194` | Handling an event makes a workflow with its filing and scenario exactly if the ID is free and the start takes effect. |
| `Consumer.HandlerFilesExactly` | `cmd/worker/main.go:202-222` | And it adds a conflict row exactly if nothing fails before the report, the report lands and can be filed, the workflow holds another input, and the event ID is free; the row names both inputs. |
| `Consumer.FirstStartWins` | `cmd/worker/main.go:155-194` | Over a whole poll: a free workflow ID is taken by the first record whose turn comes and whose start takes effect, acknowledged or not, and by no other. |
| `Consumer.FirstClashIsKept` | `cmd/worker/main.go:155-222` | And a free event ID by the first clash that is filed, with the input that the workflow held at that turn. |
| `Consumer.FirstConflictIsItsOwn` | `internal/accountable/server.go:262-266` | The first conflict row under an event ID names that event's filing, its requested input and the untouched existing one. |
| `Consumer.RedeliveryChangesNothing` | `cmd/worker/main.go:224-234` | After a crash between work and commit, redelivery of a backed record changes nothing and is acknowledged again unless something fails. |
| `Consumer.UnreportableClashIsNeverDone` | `internal/accountable/server.go:256-260` | An event without an ID, a filing or a year that clashes with a workflow, and any event without a filing ID, is not done by any handling of it. |
| `Polls.PassedExactlyWhenALaterHeadIsReady` | `cmd/worker/main.go:155-234` | Over any run of polls: the event at which one poll blocked a partition is passed by a commit, for good, if and only if the first record that some later poll fetches from the partition is ready and that poll's commit goes through; without a restart it is never acknowledged. |
| `Polls.CommitsOnlyIfHeadIsDone` | `cmd/worker/main.go:155-161` | One poll commits something of a partition if and only if the first record it fetched from it is handled. |
| `Polls.ReadyBeforehand` | `cmd/worker/main.go:187-202` | Whether that record is ready can be told from the inputs stored before the poll, unless an earlier record of the poll is for the same filing. |
| `Polls.LaterPollMayPassABlockedEvent` | `cmd/worker/main.go:156` | A start that fails in one poll is passed by the next: a concrete run. |
| `Polls.UnreportableClashIsPassedOver` | `cmd/worker/main.go:156` | With nothing failing, a clash that cannot be put on file blocks one poll and is passed by the next, and stays unrecorded: a concrete run. |

## Left out

- HTTP, JSON, SQL text, logging, flags and environment: handlers and
  transactions are atomic steps, decoding failures are answers or absent events. Of URLs, only
  the decoding of ASCII escapes in one path segment is modelled, in `Lookups`; where an ID with
  `/`, `?` or `#` leads is left open.
- DBOS, pgx and franz-go: replaced by at-least-once steps, checkpointed results, unique
  workflow IDs and per-poll record lists. Forking, queues and application versions are not
  modelled.
- `DecodeFilingInput`: of its ways to fail, an empty filing ID is modelled; any other persisted
  text either is or is not an input. Its shortcut for values that are already typed is not.
- Time: completion, callbacks and timeouts may come at any later step; only the
  reconcilers have a clock. `updated_at` of filings and the `stale_seconds` filter of the
  list are not modelled; a reconciler's list is any current list of open filings.
- Integer widths: counters, years and attempts are unbounded.
- The wording of the operator's lines beyond their kind and outcome (reason, age, provider status).
- The v2 patch step, which returns a constant and touches no business state.
- `PUT /filings`, and seeding after the first command (see Assumptions).
- `opsctl` list, inspect, cancel, resume and send, `cmd/producer`, `internal/chaos`,
  and the metrics endpoints; cancelling and resuming a workflow are actions of `Protocol`.
- Failed lookups and failed workflow listings inside a reconciliation pass: they end it like
  a failed command, which is modelled.
- The number of callbacks one goroutine sends: in `Protocol` either callback ID may arrive any
  number of times once the operation is completed and accepted, which covers retries, the
  duplicate scenario, and callbacks delayed beyond the goroutine or a restart.
- `ProviderLedger.SubmitConserves`: identity conflicts and hopeless rate limits have no
  counter in the code, so their numbers are parameters.
- `Guarantees.ReExecutionIsAStutter`: seeding a filing again before its first command is
  excepted, since it may replace the scenario.
