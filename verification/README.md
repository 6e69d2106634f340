# Verified model of the ainvest control protocols and money cores

This project models, in Dafny, the parts of ainvest whose correctness spans many calls: the durable
protocols that decide whether a paper order is approved and handed to execution, the alert journal, the
guard around live writes, and the arithmetic and merge cores of backtesting, reconciliation, budgeting and
health. Every result is stated over all inputs, all runs or all reachable states.

`dafny verify dfyconfig.toml` checks everything.

## How the model is built

* **Durable tables** (`PollTables`, `ApprovalTables`) are values with one function per repository operation,
  and a class whose methods perform the conditional updates and are proved equal to those functions. A
  transaction is all-or-nothing; unique keys are explicit; SHA-256 and HMAC references are injective
  constructors.
* **Concurrency and crashes** are state machines. `Polling` gives each poller a program counter and a
  possibly stale lease snapshot, and lets any poller or maintenance tool take its next transaction, crash, or
  be overtaken at any clock reading. `Approval` separates the read and the commit of a decision and the
  dispatch and the commit of a handoff. `EndToEnd` runs both machines together, with the poller's callback
  handler being the approval handler. `Alerts` runs one service against a journal whose commits may be lost
  or reported lost. `GuardedWrite` lets any thread call the delegate at any time.
* **Loops** (`OrderedUniqueBatch`, `FillBar`, `SimulateCosts`, `Loop`, `CompareStepwise`, `TakeSnapshot`,
  `Curve`, the alert validator) are methods with invariants, proved against a specification.
* **Injected code** (strategy worker, indicators, sizer, risk engine, executor, ledger, broker, guard,
  authorizer, journal, clocks) is a parameter or an arbitrary step. Exactly-once execution assumes an executor
  that is idempotent on the idempotency id, and says so (`IdempotentExecutor`).
* **Answers** (`PollLaws`, `ApprovalLaws`, `AlertLaws`, `FillLaws`, `ReplayLaws`, `ReconciliationLaws`,
  `BudgetLaws`) say when each operation succeeds, which error it gives otherwise and what it writes, over the
  fields themselves; `AnswersFirst` is the error of the first check that fails. `PollProgress` and `EndToEndLaws`
  say what the machines achieve when nobody disturbs them.
* **Decimals** are exact reals with explicit floor and ceiling; instants are integers; ids whose only role is
  order or identity are integers or strings.

## Where the code differs from what it promises

* A fill that appears twice in one broker feed is counted twice by order reconciliation, although the module
  says duplicates are classified idempotently. `RepeatedFillChangesIff` is the exact law: a repeat is harmless
  if and only if the report does not read that fill's order, and otherwise adds the quantity and lists the id
  again. The verdict survives exactly as `RepeatedFillMatchesIff` says. `RepeatedFillExample` goes to manual
  review; `RepeatedPartialFillExample` is a silent overcount that still matches.
* The alert journal can grow past the version that a reload accepts, because acknowledging and dispatching
  copy the checkpoint without validating it. `ReloadAcceptedIff` is the exact condition and
  `SomeJournalIsRefused` a run that violates it; everything else in the checkpoint always validates.
* The lifecycle's compare-and-set compares two values that its caller supplies. A log is a path exactly when
  each call that passes the transition's guard presents the live state (`LogIsPathIff`); a caller that still
  holds a state the order has left can record a second submission (`StaleCallersSubmitTwice`).

## Model

| member | source | states |
|---|---|---|
| `TelegramUpdates.Classify` | src/ainvest/approval/telegram_updates.py:459-513 | an update reaches a handler if and only if it is a private, unforwarded message or callback of an allowlisted sender and chat with its payload present; what reaches it carries the update's own id, sender, chat, message and payload |
| `TelegramUpdates.IgnoredForFirstObjection` | src/ainvest/approval/telegram_updates.py:472-505 | an update is ignored exactly when some objection is met, and for the reason of the first one in the order of the checks |
| `TelegramUpdates.OrderedUniqueBatch` | src/ainvest/approval/telegram_updates.py:866-879 | the batch is the strictly ordered sequence of exactly the received records; it is refused exactly when oversized or when one id carries two different records |
| `TelegramUpdates.NormalizedIsUnique` | src/ainvest/approval/telegram_updates.py:866-879 | received records have only one such batch, so arrival order and repeats do not matter |
| `PollTables.TelegramUpdateRepository.Ensure` | src/ainvest/db/repositories.py:75-82 | an absent row becomes the initial one; a present row is untouched |
| `PollTables.TelegramUpdateRepository.Acquire` | src/ainvest/db/repositories.py:84-115 | a free or expired lease is taken with a new epoch and version; otherwise nothing changes |
| `PollTables.TelegramUpdateRepository.Renew` | src/ainvest/db/repositories.py:117-148 | only the holder with matching epoch and version before expiry extends the lease |
| `PollTables.TelegramUpdateRepository.Release` | src/ainvest/db/repositories.py:150-168 | only the holder with matching epoch and version releases |
| `PollTables.TelegramUpdateRepository.Record` | src/ainvest/db/repositories.py:192-247 | under the fence the marker is inserted and the cursor moves past it, or a unique key fails and nothing changes |
| `PollLaws.AcquiresIff` | src/ainvest/db/repositories.py:84-115 | a lease is acquired if and only if the row is absent, its lease is free, or its expiry is no later than now; the row then names the new owner and expiry, one epoch and one version on, and otherwise nothing changes |
| `PollLaws.RenewsIff` | src/ainvest/db/repositories.py:117-148 | a lease is renewed if and only if the caller holds it at the epoch and version it names and it expires after now; only expiry and version change |
| `PollLaws.ReleasesIff` | src/ainvest/db/repositories.py:150-168 | a lease is released if and only if the caller holds it at the epoch and version it names, expired or not |
| `PollLaws.RecordsIff` | src/ainvest/db/repositories.py:192-247 | a record is stale exactly when the lease is not the caller's or has expired, conflicts exactly when a key or the id range fails, and otherwise appends the marker and moves the cursor past it, never back |
| `PollLaws.EveryWriteEntitled` | src/ainvest/db/repositories.py:84-247 | in every run each row write was made by a party entitled to it at its clock, given the row before it |
| `PollLaws.LiveLeaseIsNeverTaken` | src/ainvest/db/repositories.py:84-115 | in every run an acquisition at clock now follows a write whose lease was free or had expired by now |
| `PollingTheorems.RunInvariant` | src/ainvest/approval/telegram_updates.py:563-703 | in every reachable state the row's history is a chain of fenced writes, markers lie below the cursor, and each poller's position agrees with the tables while its snapshot is current |
| `PollingTheorems.PreChecksSuffice` | src/ainvest/approval/telegram_updates.py:638-703 | a poller that reaches its recording transaction never hits a unique key; if the fence lets it record, the id is at or above the cursor and above all recorded ids |
| `PollingTheorems.RecordedIdsIncrease` | src/ainvest/db/repositories.py:192-247 | recorded ids increase in recording order, stay below the cursor and never repeat a callback digest |
| `PollingTheorems.NoDeliveredUpdateSkipped` | src/ainvest/approval/telegram_updates.py:638-703 | when an update is recorded, every smaller id of its batch from the fetched cursor on has a marker |
| `PollingTheorems.EpochHasOneAcquirer` | src/ainvest/db/repositories.py:84-115 | an epoch has one acquisition and all its writes are the acquirer's |
| `PollingTheorems.RowOnlyGrows` | src/ainvest/db/repositories.py:84-247 | version, epoch and cursor never decrease |
| `PollingTheorems.OvertakenNeverWrites` | src/ainvest/db/repositories.py:117-247 | once the row's version has passed a snapshot, no renewal or record with that snapshot ever succeeds again, nor a release once the epoch has passed |
| `PollingTheorems.VerifyBeforeWriteFreezesCursor` | src/ainvest/approval/telegram_maintenance.py:115-199 | a successful verification proves that every row write since the maintenance acquisition was its own and the cursor never moved |
| `PollingTheorems.KeeperAnchored` | src/ainvest/approval/telegram_maintenance.py:115-154 | the maintenance lease always refers to its own acquisition in the row's history |
| `PollProgress.KeeperTakes` | src/ainvest/approval/telegram_maintenance.py:122-153 | a waiting maintenance tool remembers the first cursor it sees, takes the lease exactly when it is to be had and the cursor is still there, and gives up without a write when the cursor has moved |
| `PollProgress.KeeperVerifies` | src/ainvest/approval/telegram_maintenance.py:155-182 | a verification succeeds if and only if the lease is still its own, unexpired and at its version, and the cursor has not moved; otherwise it has failed for good and nothing is written |
| `PollProgress.KeeperLeaves` | src/ainvest/approval/telegram_maintenance.py:86-113 | on leaving, the row is given back if and only if it is still held at the lease's epoch with the cursor unmoved |
| `PollingDelivery.RecordedCallbacksWereHandled` | src/ainvest/approval/telegram_updates.py:660-722 | an update recorded as handled was completed by a handler; a recorded callback, duplicates included, had one delivery of its query completed |
| `PollingDelivery.HandlingRun` | src/ainvest/approval/telegram_updates.py:638-722 | in every reachable state each recorded verdict, and each verdict about to be recorded, rests on a completed handler call |
| `PollingDelivery.NoIssuedUpdateLost` | src/ainvest/approval/telegram_updates.py:563-703 | if the provider issues increasing ids and answers polls without gaps, every issued id below the cursor has a marker |
| `PollProgress.FetchIsUsedIff` | src/ainvest/approval/telegram_updates.py:563-599 | a poll's answer is used if and only if it has at most a hundred records with ids in range, put in order without repeats |
| `PollProgress.UpdateIsRecorded` | src/ainvest/approval/telegram_updates.py:638-703 | a due update left to one poller with a completing handler is recorded as handled, as a duplicate callback or as ignored, as classified, and the cursor moves just past it |
| `PollProgress.BatchIsSettled` | src/ainvest/approval/telegram_updates.py:638-703 | a poller left alone gets through its batch: every update of it ends below the cursor it started from or with a marker, and no marker is lost |
| `ApprovalTables.ApprovalStore.ClaimRiskDecision` | src/ainvest/db/repositories.py:290-303 | the first claim of a risk decision binds it; a later one reports the proposal that has it |
| `ApprovalTables.ApprovalStore.CreateProposal` | src/ainvest/approval/service.py:161-238 | claim, proposal and challenge appear together, or the error of the first failed check is returned and nothing changes |
| `ApprovalTables.ApprovalStore.ConsumeChallengeOnce` | src/ainvest/db/repositories.py:430-471 | a pending challenge of the expected version moves once and bumps its version |
| `ApprovalTables.ApprovalStore.Commit` | src/ainvest/db/repositories.py:480-510 | challenge, event and, for an approved callback, outbox row are written together or not at all |
| `ApprovalTables.ApprovalStore.ConsumeOutboxOnce` | src/ainvest/db/repositories.py:566-586 | a pending row becomes consumed once |
| `ApprovalTheorems.RunInvariant` | src/ainvest/approval/service.py:161-336 | in every reachable state rows agree with their frozen documents and with each other, and every pending decision still rests on valid rows |
| `ApprovalTheorems.StepExtends` | src/ainvest/db/repositories.py:430-586 | no step deletes a row, reopens a decided challenge or a consumed outbox row, or changes frozen columns |
| `ApprovalTheorems.RiskDecisionBindsOneProposal` | src/ainvest/approval/service.py:338-352 | a risk decision is bound by at most one proposal and a proposal has at most one challenge |
| `ApprovalTheorems.DecisionIsDurable` | src/ainvest/approval/telegram_approval.py:143-234 | a decided challenge has its event and an approved Telegram event its outbox row |
| `ApprovalTheorems.ChallengeYieldsOneEvent` | src/ainvest/approval/service.py:240-336 | a challenge has at most one event and an event at most one outbox row, whatever handlers race |
| `ApprovalTheorems.ConsumedRowsAreSilent` | src/ainvest/approval/handoff.py:137-216 | a row is consumed at most once and never dispatched afterwards |
| `ApprovalTheorems.EveryDispatchAuthorised` | src/ainvest/approval/handoff.py:159-255 | every dispatched request carries the hash of its proposal, challenge and an approved Telegram paper event, decided before both expiries and within 120 seconds of issue, and is dispatched before the proposal expires |
| `ApprovalTheorems.DispatchIdentity` | src/ainvest/approval/handoff.py:258-275 | repeated dispatches of one row are identical; dispatches of different rows share no command, idempotency or client order id |
| `ApprovalTheorems.OneEffectPerRiskDecision` | src/ainvest/approval/handoff.py:137-275 | with an idempotent executor one risk decision causes at most one effect |
| `ApprovalTheorems.PendingRowDispatchesIffInTime` | src/ainvest/approval/handoff.py:219-255 | the only reachable refusal of a row is expiry, and it happens exactly from the proposal's expiry on |
| `ApprovalTheorems.BoundCallbackApprovesIffInTime` | src/ainvest/approval/telegram_approval.py:143-234 | the bound user's callback approves a pending challenge if it is unexpired and expires it otherwise |
| `ApprovalLaws.IssuesIff` | src/ainvest/approval/service.py:161-238 | a challenge is issued if and only if every check passes, the risk decision is unclaimed and no key is taken; otherwise the error is that of the first check to fail, in order, and nothing is written |
| `ApprovalLaws.IssueWrites` | src/ainvest/approval/service.py:161-238 | issuing writes the claim, the proposal and its pending challenge with the terms, hashes, method, scope and expiries requested, and nothing else |
| `ApprovalLaws.BindsIff` | src/ainvest/approval/telegram_approval.py:63-113 | a delivered message is bound if and only if it carries the nonce and hash of a pending, unexpired paper challenge of its proposal, and neither challenge nor message is bound yet |
| `ApprovalLaws.TokenIsCanonical` | src/ainvest/approval/tokens.py:72-84 | a token is accepted if and only if it is 43 base64 digits that encode exactly 32 bytes |
| `ApprovalLaws.CallbackAnswers` | src/ainvest/approval/telegram_approval.py:143-234 | in every reachable state a callback is invalid if and only if it names no challenge; one that names a decided challenge is used, and a pending one is approved before both expiries and expired from the first on |
| `ApprovalLaws.DirectAnswers` | src/ainvest/approval/service.py:240-336 | in every reachable state a direct decision is invalid if and only if no challenge has the token and used on a decided challenge; on a pending one it is expired from the first expiry on, and before it approved if the caller said yes and denied if no |
| `ApprovalLaws.CommitsIff` | src/ainvest/db/repositories.py:430-510 | a decision commits if and only if its challenge is still pending at the version read and no key is taken; then challenge, event and outbox row change as it says and nothing else does |
| `ApprovalLaws.DirectDecisionIsRecorded` | src/ainvest/approval/service.py:240-336 | from any reachable state, a direct yes or no to a pending challenge, once committed, leaves the event Expired, Approved or Denied and the challenge's status accordingly, and no outbox row |
| `ApprovalLaws.CallbackDecisionIsRecorded` | src/ainvest/approval/telegram_approval.py:143-234 | from any reachable state, the callback that names a pending challenge, once committed, leaves the bound user's approval and its outbox row, or an expired event and no row |
| `ApprovalLaws.HandlerDecides` | src/ainvest/approval/telegram_approval.py:143-234 | a resting handler that reads a callback or a direct answer leading to a decision, undisturbed before its commit, commits that decision and rests again |
| `ApprovalLaws.LoadsIff` | src/ainvest/approval/service.py:354-388 | a stored challenge and its proposal load if and only if each document is valid by itself, equals its columns, and both carry one hash |
| `ApprovalLaws.PolicyAnswersFirst` | src/ainvest/approval/handoff.py:219-255 | a trusted row is refused for the first policy check that fails, in order, and dispatched if none does |
| `ApprovalLaws.UntrustedIff` | src/ainvest/approval/handoff.py:137-168 | a row is refused as untrusted if and only if its event or proposal is missing, its event's method and scope do not belong together, or its proposal's hash is not that of its own fields |
| `ApprovalLaws.RequestSaysWhatWasApproved` | src/ainvest/approval/handoff.py:258-275 | a request carries the approved hash, proposal and event, the row's time, and four different ids of this row and event |
| `ApprovalHandoff.ApprovalHandoffService.Reject` | src/ainvest/approval/handoff.py:202-216 | a refusal consumes the row, or reports that it was consumed already |
| `ApprovalHandoff.ApprovalHandoffService.Consume` | src/ainvest/approval/handoff.py:137-200 | missing and consumed rows are reported untouched and a refused row is consumed without a request; a request that was sent is reported handed off, refused, to be retried or broken exactly as the executor succeeded, rejected, asked to retry or broke its contract, and the row is consumed exactly in the first two cases |
| `ApprovalHandoff.MachineHandsOff` | src/ainvest/approval/handoff.py:137-200 | one undisturbed call has the tables and the dispatches of the machine's begin and finish steps |
| `EndToEnd.MatchedIsDecidable` | src/ainvest/approval/telegram_approval.py:143-234 | a callback bound to a challenge decides it if pending and is answered as used otherwise |
| `EndToEnd.RunInvariant` | src/ainvest/approval/telegram_approval.py:143-255 | in every run of both machines each completed callback has an answer and each answered challenge is decided |
| `EndToEnd.AnswersAreTrue` | src/ainvest/approval/telegram_approval.py:143-255 | in every run each answer names the challenge its own callback matches, or no challenge matched when the callback was read, and a pending decision of a poller is about its current callback |
| `EndToEnd.RecordedCallbackIsSettled` | src/ainvest/approval/telegram_approval.py:143-255 | whenever a poller has recorded a callback, a delivery of it was answered; the challenge it matched is decided and has its durable event and, if approved, its outbox row; an answer without a challenge means none matched when it was read |
| `EndToEndLaws.CallbackIsAnswered` | src/ainvest/approval/telegram_approval.py:136-234 | a poller whose callback names a pending challenge, left to finish, has it committed as an approval with its outbox row before the expiry and as an expiry from it on, is answered with that challenge, and records the update as handled next |
| `EndToEndLaws.CallbackIsDismissed` | src/ainvest/approval/telegram_approval.py:136-234 | a callback that names no challenge or a decided one is answered at once without touching a table |
| `EndToEndLaws.AbortRollsBack` | src/ainvest/approval/telegram_updates.py:705-722 | a poller that crashes or gives up inside the handler call takes its undecided answer with it: no table changes and no answer is given |
| `AlertService.CheckIntegrity` | src/ainvest/observability/alerts.py:207-269 | the validator's loops accept exactly the checkpoints with distinct incidents and notices, fitting deliveries, every current notice announced on every route, and sizes within capacity |
| `AlertService.Journal.Commit` | src/ainvest/observability/alerts.py:278-290 | a commit is accepted exactly when the expected version is the durable one |
| `AlertService.StartService` | src/ainvest/observability/alerts.py:307-341 | a service starts exactly with an independent route and an empty or accepted journal of its own configuration; otherwise the first failed check is reported |
| `AlertService.Service.constructor` | src/ainvest/observability/alerts.py:319-341 | an accepted start holds the journal's checkpoint, or the empty one, unpoisoned |
| `AlertService.Service.Commit` | src/ainvest/observability/alerts.py:357-366 | anything but an accepted commit poisons the service |
| `AlertService.Service.Handle` | src/ainvest/observability/alerts.py:374-472 | an event is refused, kept or reduced as planned, and reduced only through the journal |
| `AlertService.Service.Acknowledge` | src/ainvest/observability/alerts.py:474-520 | an acknowledgement is refused, repeated or committed as planned |
| `AlertService.Service.SelectDue` | src/ainvest/observability/alerts.py:522-562 | the loop selects exactly the deliveries due now, in order |
| `AlertService.Service.DeliverOne` | src/ainvest/observability/alerts.py:522-562 | one delivery's attempt, send and receipt follow the specified step |
| `AlertService.Service.Deliver` | src/ainvest/observability/alerts.py:522-562 | the loop over the batch is the fold of single deliveries |
| `AlertService.Service.DispatchDue` | src/ainvest/observability/alerts.py:522-562 | the due deliveries are attempted, sent and marked in order, each attempt durable before its send |
| `AlertLaws.HandleAnswers` | src/ainvest/observability/alerts.py:374-411 | an event is kept exactly as old news that is not from the future; every other event is refused with the code of the first check that fails, written over event, previous incident, clock and policy, and accepted if none does |
| `AlertLaws.HandleWrites` | src/ainvest/observability/alerts.py:405-472 | an accepted event's incident: escalated until a recovery, owned by the owner of its state and kept by a recovery, one revision on exactly when its state changed, and its acknowledgement kept exactly when not; undelivered notices of the incident are superseded on a change and the new state announced once on every route |
| `AlertLaws.AcknowledgeAnswers` | src/ainvest/observability/alerts.py:474-520 | a request about no incident is missing; otherwise the first failing check refuses it, a repeat of the recorded request is kept, and a first one is recorded on its incident and nowhere else |
| `AlertLaws.DueAreExactly` | src/ainvest/observability/alerts.py:522-535 | due are exactly the deliveries neither delivered nor superseded whose time has come |
| `AlertLaws.BackoffDoubles` | src/ainvest/observability/alerts.py:536-548 | the backoff starts at the retry time, doubles with each of the first ten attempts and is capped at an hour |
| `AlertLaws.StatesChangeLawfully` | src/ainvest/observability/alerts.py:374-574 | over every run an incident becomes recovered only by handling a recovery of its own whose evidence is no older than the policy allows, an escalated incident leaves that state only so, and a recovered one only by a later report of its own |
| `AlertLaws.IntegrityIff` | src/ainvest/observability/alerts.py:207-269 | the validator accepts a checkpoint if and only if routes, incidents and notices are distinct, the independent route is there, no incident and no notice is bad in any of the ways listed, every current state is announced on every route, and all is within capacity |
| `AlertLaws.FieldsIff` | src/ainvest/observability/alerts.py:105-205 | a reload's field constraints: revisions and sequences from one and versions and attempts from zero up to 63 bits, evidence on a recovery, and a policy of at most an hour and ten thousand entries |
| `AlertTheorems.JournalAlwaysValid` | src/ainvest/observability/alerts.py:207-269 | after every run the durable checkpoint passes the integrity validator, unvalidated copies included |
| `AlertTheorems.ReducedIsGood` | src/ainvest/observability/alerts.py:374-472 | within capacity the reduced checkpoint keeps the whole checkpoint invariant |
| `AlertTheorems.RunProceeds` | src/ainvest/observability/alerts.py:374-574 | along any run the journal keeps every delivery in place, keeps every incident at its revision or a later one, and sends nothing that was settled |
| `AlertTheorems.ReloadAcceptedIff` | src/ainvest/observability/alerts.py:307-341 | a restart accepts the journal if and only if its version is within the counter range |
| `AlertExhaustion.SomeJournalIsRefused` | src/ainvest/observability/alerts.py:374-574 | some run without crashes or failed commits, all at one clock reading, ends with a journal that a restart refuses: reports of one alarm up to the version bound, then one delivery attempt |
| `AlertTheorems.CountersOkIffVersionOk` | src/ainvest/observability/alerts.py:153-205 | of all bounded counters only the version can leave its range |
| `AlertTheorems.HandleValidationFailsIffExhausted` | src/ainvest/observability/alerts.py:374-472 | past the capacity check, validation fails only when the version is exhausted and a proposal is made only when it is not; the proposal is again a good checkpoint |
| `AlertTheorems.HandleNeverInvalid` | src/ainvest/observability/alerts.py:374-472 | in every running service whose version is below the bound, no event fails validation |
| `AlertTheorems.AcknowledgedIsGood` | src/ainvest/observability/alerts.py:474-520 | the acknowledged copy keeps the whole checkpoint invariant |
| `AlertTheorems.ReplacedIsGood` | src/ainvest/observability/alerts.py:564-574 | the replaced delivery keeps the whole checkpoint invariant |
| `AlertTheorems.CommitNeverConflicts` | src/ainvest/observability/alerts.py:357-366 | under one writer an unpoisoned service always knows the durable version |
| `AlertTheorems.SendsAreOrdered` | src/ainvest/observability/alerts.py:522-574 | per incident and channel the revisions sent never go back, and two sends of one notice are at least min(3600, retry * 2^min(attempts, 10)) seconds apart |
| `AlertTheorems.SettledNoticesStaySilent` | src/ainvest/observability/alerts.py:522-574 | a notice recorded as delivered or superseded is never sent again |
| `GuardedWrite.SingleUseLiveDelegate.Enter` | src/ainvest/runtime.py:563-587 | the broker is entered only on the owner thread, before the close and for the first time; any other call is recorded as misuse |
| `GuardedWrite.SingleUseLiveDelegate.RecordReturn` | src/ainvest/runtime.py:577-587 | a call that came back is recorded as completed with its result, and nothing else changes |
| `GuardedWrite.SingleUseLiveDelegate.RecordError` | src/ainvest/runtime.py:577-582 | the broker's own error is kept as raised and completes nothing |
| `GuardedWrite.SingleUseLiveDelegate.Close` | src/ainvest/runtime.py:589-599 | the close returns the delegate's record and ends all entry |
| `GuardedWrite.EnteredAtMostOnce` | src/ainvest/runtime.py:537-599 | in every interleaving the broker is entered at most once, by the owner, and never after the close |
| `GuardedWrite.ClosedIsFinal` | src/ainvest/runtime.py:589-599 | after the close nobody enters and the snapshot stands; a call still pending at the close may yet end once, and otherwise results and errors are final |
| `GuardedWrite.OutcomeIsTruthful` | src/ainvest/runtime.py:624-686 | a returned value is the one completed call's result; a guard rejection means the broker was and will be never entered; any other outcome is the broker's own error or unknown |
| `GuardedWrite.ReturnsIff` | src/ainvest/runtime.py:624-659 | a value is returned if and only if one undisturbed call completed before the close and the guard passed its result on |
| `GuardedWrite.RunReads` | src/ainvest/runtime.py:537-599 | in every interleaving the delegate's record is what the steps say: entered by the owner's first call unless a close came before it, ended by the first end after that, and misused by every other call |
| `GuardedWrite.OutcomeIff` | src/ainvest/runtime.py:624-686 | each outcome if and only if its cause: a broker error is raised as itself whatever the guard did; with no call made, the guard's startup error or a rejection; the value exactly when one undisturbed call gave it and the guard passed it on; everything else is an unknown outcome |
| `Rounding.FloorToBounds` | src/ainvest/backtest/costs.py:186-236 | rounding down loses less than one unit and never crosses zero |
| `FillCosts.FillBar` | src/ainvest/backtest/costs.py:183-236 | the inner loop over prioritised orders is the fold of single offers, with its result limit |
| `FillCosts.SimulateCosts` | src/ainvest/backtest/costs.py:152-252 | the nested loops compute the simulation function, or refuse invalid input or too many fills |
| `FillCostTheorems.DueIsFair` | src/ainvest/backtest/costs.py:176-203 | an offer never exceeds what is wanted or left, and leaves less than an increment of one of them |
| `FillCostTheorems.MoneySplit` | src/ainvest/backtest/costs.py:204-219 | one fill's rounded cash, commission, spread and slippage add up to within one quantum and are non-negative |
| `FillLedger.BarsKeep` | src/ainvest/backtest/costs.py:173-236 | through all bars the counters agree with the log, every fill is explained by the fills before it, and finished bars are exhausted |
| `FillConservation.QuantityIsConserved` | src/ainvest/backtest/costs.py:165-249 | filled plus unfilled is each order's quantity and neither is negative |
| `FillConservation.BarSharesItsVolume` | src/ainvest/backtest/costs.py:173-234 | all fills of a bar together stay within volume times participation |
| `FillConservation.FillIsAdmissible` | src/ainvest/backtest/costs.py:176-203 | each fill is a positive whole number of increments of one order in one bar, inside its delay, expiry and limit, priced against it on a whole tick that covers the quoted costs by less than one tick |
| `FillConservation.CashIdentity` | src/ainvest/backtest/costs.py:204-236 | over n fills the cash deltas differ from frictionless cash at the opens minus the total cost by less than n quanta |
| `FillConservation.QuantaAre` | src/ainvest/backtest/costs.py:204-236 | n quanta are n times 1e-8 |
| `FillConservation.CostsAreNonNegative` | src/ainvest/backtest/costs.py:204-219 | commission, spread and slippage of every fill are non-negative despite the mixed rounding |
| `FillConservation.CommissionIsExact` | src/ainvest/backtest/costs.py:204-208 | each fill's commission is the proportional part plus, exactly when the order has no earlier fill, the flat part, rounded up |
| `FillConservation.FlatCommissionOnce` | src/ainvest/backtest/costs.py:204-235 | an order that trades pays the flat commission exactly once on top of its proportional commissions, rounded up by less than a quantum for each of its own fills; one that does not trade pays nothing |
| `FillConservation.InputOrderIrrelevant` | src/ainvest/backtest/costs.py:167-167 | permuting the candidate orders changes no fill, no unfilled quantity and not the total cost |
| `FillCosts.ByPriorityKeeps` | src/ainvest/backtest/costs.py:167-167 | the orders are traded by creation time, then id |
| `FillLaws.InvalidIff` | src/ainvest/backtest/costs.py:34-110 | a request is refused as invalid if and only if its costs, bars or orders are out of their written-out ranges, out of order or not distinct |
| `FillLaws.NothingFillableIsLeft` | src/ainvest/backtest/costs.py:173-236 | after each bar, an order created long enough before it and not expired by its close, whose one adverse tick price is positive and at or inside its limit, has less than an increment left to fill, or the bar has less than an increment left to give |
| `FillLaws.FillIsExact` | src/ainvest/backtest/costs.py:176-236 | every fill trades an eligible order at that one price; its spread is the half spread rounded down, its slippage the rest of the impact rounded up, its commission rounded up and its cash rounded down, each a multiple of a quantum |
| `FillLaws.LimitMeansOneTooMany` | src/ainvest/backtest/costs.py:173-236 | a simulation of accepted input fails only when 4096 fills and a 4097th are all due |
| `Replay.Loop` | src/ainvest/backtest/runner.py:237-346 | the loop over the schedule threads state and retained bytes as specified and stops at the first error |
| `Replay.RunReplay` | src/ainvest/backtest/runner.py:194-363 | input that is oversized, invalid or rejected by its own validation is refused with its code, and otherwise the trace is the specified one |
| `ReplayTheorems.NoLookahead` | src/ainvest/backtest/runner.py:70-346 | datasets that agree on everything visible at a cutoff, under schedules that share their points up to it, give the same steps for those points or fail at the same one with the same code |
| `ReplayTheorems.StepsArePointInTime` | src/ainvest/backtest/runner.py:70-346 | in every accepted run each step used the newest quote and exactly the sequence of bars known at its cutoff, in the dataset's order, and the state left by the step before, never a future one nor another strategy's |
| `ReplayLaws.AcceptsIff` | src/ainvest/backtest/runner.py:205-232 | input is accepted if and only if its bars and quotes are complete, owned and in order, its schedule is in order and knows nothing of the future, and its limits and initial state are in range |
| `ReplayLaws.ContextAnswers` | src/ainvest/backtest/runner.py:70-191 | a point's context holds the newest known quote, exactly the known bars under one provenance, and what the indicators computed from them; otherwise its error is that of the first check to fail, in order |
| `ReplayLaws.DecideAnswers` | src/ainvest/backtest/runner.py:237-338 | a point answers with a timeout, its context's error, or the error of the first check of the worker's answer and its signal that fails, in order; and otherwise with the step that the libraries made of it |
| `ReplayLaws.RunAnswers` | src/ainvest/backtest/runner.py:237-346 | in every run the steps are the decisions of their points, each from the state left before it and within the size limits; the run stops exactly at the end, a failed point or an oversized step; a step carries a risk decision for its candidate if and only if its signal was sized to one |
| `Reconciliation.Unique` | src/ainvest/execution/reconciliation.py:612-619 | the loop keeps the first occurrence of each code |
| `Reconciliation.ClassifyFills` | src/ainvest/execution/reconciliation.py:320-327 | the loop splits fills into new ones and ids already known, in order |
| `Reconciliation.FindBreach` | src/ainvest/execution/reconciliation.py:351-359 | the loop reports a breach if and only if some fill is beyond the limit |
| `Reconciliation.CollectCodes` | src/ainvest/execution/reconciliation.py:298-363 | the codes collected are the specified discrepancies |
| `Reconciliation.CompareStepwise` | src/ainvest/execution/reconciliation.py:227-389 | the stepwise comparison computes the report function |
| `Reconciliation.OrderReconciler.Reconcile` | src/ainvest/execution/reconciliation.py:211-435 | the report is the comparison's, and each manual review raises exactly one alert with the next number |
| `Reconciliation.OrderReconciler.ReconcileWithLedger` | src/ainvest/execution/reconciliation.py:391-435 | a matched report applies its new fills all or nothing, and a refusal turns it into a manual review |
| `ReconciliationTheorems.DiscrepanciesAreDistinct` | src/ainvest/execution/reconciliation.py:300-375 | each code arises at most once and in a fixed order, so removing repeats changes nothing |
| `ReconciliationTheorems.ListingOrderIrrelevant` | src/ainvest/execution/reconciliation.py:227-435 | without a ledger the whole report is unchanged by permuting broker orders and fills |
| `ReconciliationMatch.MatchedIff` | src/ainvest/execution/reconciliation.py:162-389 | a report matches if and only if exactly one broker order carries the client order id, its status is known and fits the local lifecycle as spelled out case by case, and every other comparison is clean |
| `ReconciliationMatch.MatchBoundsExposure` | src/ainvest/execution/reconciliation.py:333-366 | a match bounds the filled quantity by the expected one and the buy notional by quantity times limit; sales are at or above the limit |
| `ReconciliationMatch.FoldingIsAFixpoint` | src/ainvest/execution/reconciliation.py:318-351 | booking a match's new fills makes the same feed match again with nothing new and every fill known |
| `ReconciliationMatch.RepeatedFillChangesIff` | src/ainvest/execution/reconciliation.py:227-435 | for every feed, repeating one of its fills leaves the report unchanged if and only if the report does not read the fills of that fill's order; otherwise the filled quantity grows by exactly the fill's and its id is listed once more |
| `ReconciliationMatch.RepeatInMatchedFeed` | src/ainvest/execution/reconciliation.py:318-351 | in a matched feed exactly the repeats of other orders' fills are harmless |
| `ReconciliationMatch.RepeatedFillMatchesIff` | src/ainvest/execution/reconciliation.py:318-351 | the verdict after repeating a fill of the matched order: still a match if and only if the fill was not booked and both copies fit the expected quantity |
| `ReconciliationMatch.RepeatedFillExample` | src/ainvest/execution/reconciliation.py:318-351 | a filled order whose fill is listed twice goes to manual review |
| `ReconciliationMatch.RepeatedPartialFillExample` | src/ainvest/execution/reconciliation.py:318-351 | a partial fill of 3 listed twice still matches, with 6 reported filled and its id twice new |
| `ReconciliationMatch.LedgerMovesOnlyOnMatch` | src/ainvest/execution/reconciliation.py:391-435 | with a ledger the outcome is a match exactly when the comparison matches and no new fill is refused; then all are applied, otherwise the ledger is untouched |
| `ReconciliationLaws.FindsBroker` | src/ainvest/execution/reconciliation.py:227-290 | the compared order is the only one with the client order id or, failing any, the only one with the broker order id; two candidates are a manual review, and none is one for an order in flight and otherwise unknown |
| `ReconciliationLaws.CodesMean` | src/ainvest/execution/reconciliation.py:298-363 | each code is raised if and only if its own comparison fails, written over the order, the feed and the expectation |
| `ReconciliationLaws.ReportMeans` | src/ainvest/execution/reconciliation.py:282-389 | a manual review of a compared order carries exactly the codes whose comparisons fail, in a fixed order and the first as its reason; with none the report matches; an unknown status is a review of its own |
| `ReconciliationLaws.ReportLists` | src/ainvest/execution/reconciliation.py:316-331 | a comparison reads the order's own fills, each as often as listed, by time and id: their sum is the filled quantity and their ids are listed in that order, as new or as already booked |
| `ReconciliationLaws.MatchedStatuses` | src/ainvest/execution/reconciliation.py:162-196 | a locally filled order matches only a filled broker order, a rejected one only a rejected one, a cancelled one only a cancelled or partially filled one, a partially filled one never an accepted or rejected one, and none an unknown status |
| `ReconciliationLaws.LedgerReport` | src/ainvest/execution/reconciliation.py:391-435 | with a ledger a match lists the ids the ledger applied, in order; the first refusal makes it a manual review for the ledger's reason |
| `Budget.ResearchBudgetGuard.TakeSnapshot` | src/ainvest/agents/research_budget.py:103-122 | held money is the sum over unsettled and unknown reservations; the remainder is never negative |
| `Budget.ResearchBudgetGuard.PauseGuard` | src/ainvest/agents/research_budget.py:129-132 | the first pause raises one alert and later ones none |
| `Budget.ResearchBudgetGuard.ReserveRun` | src/ainvest/agents/research_budget.py:134-161 | a reservation is admitted, refused with a pause, or rejected as invalid or reused |
| `Budget.ResearchBudgetGuard.SettleRun` | src/ainvest/agents/research_budget.py:163-199 | a settlement books known usage as spent, keeps unknown usage held and pauses, and pauses on overruns and exhaustion |
| `BudgetTheorems.EstimateRoundsUp` | src/ainvest/agents/research_budget.py:24-36 | an estimate is at least the exact cost, less than a quantum above it, and monotone in the tokens |
| `BudgetTheorems.RunKeeps` | src/ainvest/agents/research_budget.py:134-199 | for any monotone non-negative cost the books stay balanced through every run |
| `BudgetTheorems.BudgetIsSafe` | src/ainvest/agents/research_budget.py:95-199 | in every run: not paused implies spent plus held within the ceiling; spent is the sum of rounded-up known settlements; the excess of a paused guard is at most the overruns of its settlements; a pause has exactly one alert |
| `BudgetTheorems.HonestRunsStayWithinCeiling` | src/ainvest/agents/research_budget.py:134-199 | while no settlement exceeds its reservation the ceiling holds, paused or not |
| `BudgetTheorems.PauseIsPermanent` | src/ainvest/agents/research_budget.py:129-161 | after a pause no further steps lift it, add an alert or book another run |
| `BudgetTheorems.SettlementReplays` | src/ainvest/agents/research_budget.py:163-180 | after a settlement and any further steps, settling the run again changes nothing and is accepted if and only if it reports the same usage |
| `BudgetLaws.ReserveAnswers` | src/ainvest/agents/research_budget.py:134-161 | tokens out of range and a run already booked are errors; otherwise a run is admitted and its worst cost held if and only if the guard is not paused, there is room for a run, and spent plus held plus that cost is within the ceiling; a refusal pauses for the number of runs before it pauses for the money |
| `BudgetLaws.ReachableReserveAnswers` | src/ainvest/agents/research_budget.py:134-161 | in every reachable state of a guard a fresh run is admitted if and only if it fits |
| `BudgetLaws.SettleAnswers` | src/ainvest/agents/research_budget.py:163-199 | bad tokens, an unknown run and a different second settlement are errors that change nothing; a first settlement books known usage as spent, holds unknown usage at the larger of reservation and cost, and pauses with the code of the first reason: unknown usage, usage beyond the reservation, exhaustion |
| `Health.HealthAggregator.Observe` | src/ainvest/observability/health.py:242-257 | undeclared and mismatched dependencies are refused; otherwise the observation is merged |
| `Health.HealthAggregator.ResolveEqualSequence` | src/ainvest/observability/health.py:288-322 | equal sequences that agree keep the newest time, and ones that disagree become a conflict |
| `Health.HealthAggregator.Remove` | src/ainvest/observability/health.py:259-286 | a removal merges an unavailable observation of a declared dependency |
| `Health.HealthAggregator.constructor` | src/ainvest/observability/health.py:198-240 | every declared dependency starts not ready at sequence zero |
| `Health.HealthAggregator.CheckReadiness` | src/ainvest/observability/health.py:348-363 | not ready exactly on failed liveness or a required dependency down; ready exactly when alive and all ready |
| `HealthTheorems.MergeIsAJoin` | src/ainvest/observability/health.py:288-322 | merging is commutative, associative and idempotent |
| `HealthTheorems.BoardResolves` | src/ainvest/observability/health.py:242-322 | after any run each dependency shows the highest sequence observed, the latest time at it, and what all observations at it say, or a conflict if they differ |
| `HealthTheorems.ObservationsConverge` | src/ainvest/observability/health.py:242-322 | runs that make the same observations in any order and any number of times end in the same board |
| `HealthTheorems.ConflictClearsOnlyOnHigherSequence` | src/ainvest/observability/health.py:242-322 | sequences never go back, and a conflict lasts as long as its sequence |
| `HealthTheorems.ConflictIff` | src/ainvest/observability/health.py:288-322 | a conflict shows exactly when observations at the highest sequence disagree or one of them is itself a conflict |
| `Drawdown.Curve` | src/ainvest/backtest/reporting.py:212-247 | the single pass fails exactly at the first bad period with its code; otherwise the drawdown is the maximum loss over all pairs from a positive index to a later one, lies in [0, 1], and the return is the final index minus one |
| `Drawdown.DrawdownExtends` | src/ainvest/backtest/reporting.py:218-231 | comparing each new index with the running peak keeps the maximum over all pairs |
| `Drawdown.IndexTelescopes` | src/ainvest/backtest/reporting.py:218-227 | with no flows the index is the value over the first value |
| `Drawdown.FlowlessReturnTelescopes` | src/ainvest/backtest/reporting.py:218-240 | with no flows the total return is last over first minus one |
| `Drawdown.PeriodAnswers` | src/ainvest/backtest/reporting.py:212-233 | a period stops the walk with the first of: nothing to start from, a flow above its value, an index or a return beyond the bound on either side |
| `Lifecycle.InMemoryStatePersistence.PersistTransition` | src/ainvest/execution/state_machine.py:186-232 | a failing write leaves no record and a repeated event adds none |
| `Lifecycle.TransitionSubject` | src/ainvest/execution/state_machine.py:449-550 | a call is idempotent, stale, illegal, failed or recorded, in that order of checks |
| `LifecycleTheorems.LogsAreLegal` | src/ainvest/execution/state_machine.py:65-129 | whatever callers do, the log holds legal edges and self-loops and no event id twice |
| `LifecycleTheorems.RecordedIff` | src/ainvest/execution/state_machine.py:449-550 | a call is recorded and binds its event id if and only if the id is free, the presented state is the expected one, the move is a self-loop or an edge, and the write does not fail |
| `LifecycleTheorems.LogIsPathIff` | src/ainvest/execution/state_machine.py:449-550 | a subject's log is a path from its initial state if and only if each call that passes that guard presents the live state |
| `LifecycleTheorems.LifecycleRuns` | src/ainvest/execution/state_machine.py:65-129 | then an order changes state at most nine times and a cancel three times, and no state is entered twice, so an order is submitted at most once |
| `LifecycleTheorems.NoSubmissionAfterUnknown` | src/ainvest/execution/state_machine.py:123-129 | after an unknown submission the order is never submitting again |
| `LifecycleTheorems.NineChangesHappen` | src/ainvest/execution/state_machine.py:65-87 | the bound of nine is reached |
| `LifecycleTheorems.StaleCallersSubmitTwice` | src/ainvest/execution/state_machine.py:449-550 | an order walked to submission by callers that present its live state is submitted again by one that still holds the approved state |
| `LifecycleTheorems.RetryIsIdempotent` | src/ainvest/execution/state_machine.py:468-479 | after an event has succeeded, a call with its id at any later point of the run succeeds without changing anything, whatever state it presents |
| `LifecycleTheorems.EventsAreRecorded` | src/ainvest/execution/state_machine.py:186-232 | after every run an event id is bound exactly when a record carries it, so failed calls bind nothing |
| `LifecycleTheorems.AllowedIff` | src/ainvest/execution/state_machine.py:65-129 | a machine allows exactly the 19 order edges or the 7 cancel edges, so the guards on final and unknown states forbid nothing more |
| `LifecycleTheorems.FinalIff` | src/ainvest/execution/state_machine.py:102-121 | the final states are exactly those that an edge enters and none leaves |
| `LifecycleTheorems.CallAnswers` | src/ainvest/execution/state_machine.py:449-550 | a bound event id succeeds without a change; otherwise a call fails with the first of stale, illegal and failed write, or appends its record and binds its event id |
| `LifecycleTheorems.ArmedFailsOnce` | src/ainvest/execution/state_machine.py:186-232 | a storage failure hits the next write and only that one: the call fails, leaves no trace, and made again it succeeds |

## Left out

- The HTTPS transports, provisioning tool, terminal prompts and atomic file writes: input and output only.
- Settings, YAML, secrets, runtime mode tables, metrics and tracing: single-branch validation and lookups.
- SQLAlchemy identity maps, isolation levels and migrations: each repository call is one atomic step over the declared unique keys.
- The 50-digit decimal context: costs, estimates and metrics are exact reals, so its rounding of very long intermediate values, and the final quantization of reported metrics, are not modelled.
- JSON size limits of cost requests and results, and replay's busy lock; a replay's input limits and the validation of its calendar and strategy definition are one verdict given to `RunReplay`, and its step limits use an arbitrary size function.
- FillConservation.InputOrderIrrelevant: the digest of the request, which the source copies into the result and every fill, is not modelled; it changes with the listing order.
- `adjust_holdings`, volatility and annualization, section assembly and benchmarks of reports.
- Broker, instrument and account identity checks of the cost request: the model has one instrument and paper orders only.
- Audit rows written beside approval and handoff transactions, alert next-action texts, and callback answers sent to Telegram.
- WebAuthn approvals: their challenges exist in the tables and can be decided directly, but no live handoff is modelled.
- The poller and the maintenance lease are program-counter machines over the repository operations rather than classes, because their steps interleave; backoff delays, jitter and heartbeat threads are arbitrary waiting.
- The callback handler is modelled as a read step and a commit step over the approval tables; only the handoff service also has its sequential method.
- Lifecycle persistence over an audit service, whose seen-event set is filled after its commit: the in-memory port is modelled.
- Reconciliation of broker orders unknown to the system (`find_unknown_broker_orders`): one branch per order.
- PollingDelivery.NoIssuedUpdateLost: assumes a provider that issues increasing ids and answers without gaps, which the code cannot enforce.
- ApprovalTheorems.OneEffectPerRiskDecision: assumes an executor idempotent on the idempotency id, which is outside the repository's handoff code.
- ReplayTheorems.NoLookahead: the two runs read the same clock and use the same deterministic libraries; acceptance of the whole dataset is checked before the loop and may depend on later records.
