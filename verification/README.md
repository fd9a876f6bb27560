# Verification of the background migration core

This project models the parts of the wallet that move funds, keys and routes without the user watching,
as the Swift and Rust sources implement them, and proves what those parts are relied on for.

- **Outbox.** The persisted broadcast outbox of the background migration. `OutboxModel` gives every
  mutation as a function on snapshots; `Rescheduling` and `OutboxSelection` treat the check made before a
  broadcast and the reschedule after it; `OutboxInvariant`, `OutboxSteps`, `OutboxSubmission`,
  `OutboxStaging`, `OutboxRemoval` and `OutboxUpdates` prove the invariant over all updates;
  `OutboxRunner` is the runner as a protocol that can die anywhere, `OutboxForgotten` and
  `OutboxScenario` show where its evidence ends; `OutboxAnnouncements`, `Rotation` and `OutboxChoice`
  treat announcements, fairness and selection. `OutboxReadiness` says from the stored snapshot alone what a
  run sends, and `OutboxEffects`, `OutboxRequests` and `OutboxAlerts` say when each mutation is refused and
  all that it changes, without naming the mutation. `Outbox` is the outbox with fields that are updated in
  place and `OutboxStore` the stored snapshot with one run over it; both are proved against the functions,
  and `OutboxRefinement` proves such a run to be a run of the protocol.
- **Keychain.** The accessibility migration of stored secrets, over an add and a delete that may be the
  last thing the process does, rerun any number of times.
- **Tor route policy.** `NetworkPrivacy` is the shared state as one atomic step at a time of any number of
  calls and direct connections; `NetworkPrivacyRoute` and `NetworkPrivacyLeases` prove what holds under
  every interleaving, `NetworkPrivacyBootstrap` which end of a bootstrap leads where, and
  `NetworkPrivacyAlone` what each call does when nobody else moves.
- **Notification coordinator.** `Notifications` (the steps and their laws), `NotificationSteps` (each step
  in full) and `NotificationCoordinator` (the object).
- **Denomination preparation.** `Preparation` (which runs are parked, which waves count as confirmed, how
  the progress bar moves), `PreparationPasses` (every decision with its exact condition) and
  `PreparationManager` (the object and its loops).
- **Lightwalletd codec.** `WireFormat` (round trips), `WireGrammar` (which bytes are accepted) and
  `LightwalletdCodec` (the loops).

`Common`, `StringOrder` and `Counting` are shared. `dfyconfig.toml` lists the whole project.

Two places where the code falls short of its own comments are stated as such: a write-ahead is forgotten
when its item is removed while the broadcast is in flight (`OutboxForgotten`, `OutboxScenario`), and a run
that merely waits for confirmations is parked when the two inspections of one step disagree
(`Preparation.TornInspectionParks`), although the comment on the handoff says it must not be.

## Model

| member | source | states |
|---|---|---|
| Rescheduling.RescheduleExact | ios/Runner/BackgroundMigrationOutbox.swift:1050-1107 | `rescheduleOverdueItems` succeeds exactly when the timing is valid and each of the n overdue peers expires more than n blocks after the tip; then the heights strictly increase in processing order, start after the tip, are at most `timingMaxBlocks` apart and stay below each item's own expiry, nothing saturates, no other field of any item changes, and the updates report exactly these heights |
| Rescheduling.HeightsAreSampled | ios/Runner/BackgroundMigrationOutbox.swift:1050-1107 | what the heights are, for any draws: each overdue peer, in processing order, lies one raw sample after the one before it, at least one block, at most `timingMaxBlocks`, and at most as far as leaves every peer behind a block of its own before this peer expires |
| Rescheduling.CheckGap | ios/Runner/BackgroundMigrationOutbox.swift:850-870 | what the check before the broadcast leaves open: when it passes, rescheduling has room if and only if the earliest peer expiry is more than n blocks away, which one shared expiry guarantees |
| Rescheduling.CheckIsExact | ios/Runner/BackgroundMigrationOutbox.swift:850-870 | with one shared expiry among the overdue peers the check passes if and only if the reschedule succeeds, for every random source |
| Rescheduling.CheckAloneIsNotEnough | ios/Runner/BackgroundMigrationOutbox.swift:850-870 | with peers that expire two and three blocks after the tip the check passes and the reschedule throws, for every random source |
| OutboxSelection.SelectionIsDue | ios/Runner/BackgroundMigrationOutboxRunner.swift:117-156 | whatever the runner's second update selects is a stored, armed item of a batch of the endpoint, due, not expired, and with the canonical expiry of the tip |
| OutboxSelection.CheckIsExactOnRunnerPath | ios/Runner/BackgroundMigrationOutboxRunner.swift:119-155 | for every item the runner selects at a tip whose canonical expiry does not overflow, the submission can begin, and the check passes if and only if recording its acceptance at that tip succeeds, for all random draws and permutations; a failure is the invalid schedule the check reported before anything was sent |
| OutboxReadiness.OpensInspected | ios/Runner/BackgroundMigrationOutbox.swift:430-449 | from the snapshot stored before a run: the endpoint inspected is the one next in the rotation over those of batches with a live item or a proof still to announce, and there is none exactly when no batch needs inspection |
| OutboxReadiness.SelectsWhatIsReady | ios/Runner/BackgroundMigrationOutboxRunner.swift:117-156 | from the snapshot stored before a run, with neither recovery nor sweeps in the statement: something is selected exactly when an armed batch of the endpoint, in which nothing live must be retired at the tip, has an item that is due and waits for no retry; it is then the one chosen item, as stored |
| OutboxReadiness.ChosenOnce | ios/Runner/BackgroundMigrationOutbox.swift:789-838 | the chosen item is unique: first ready batch of the scope next in turn, least height, least txid, least position |
| OutboxReadiness.CheckNeedsRoom | ios/Runner/BackgroundMigrationOutbox.swift:850-870 | the check of a ready batch in closed form: it passes exactly when the item has no other live overdue item beside it, or when the tip plus their number is below the canonical expiry of the tip |
| OutboxReadiness.WritesAheadWhatIsSent | ios/Runner/BackgroundMigrationOutboxRunner.swift:117-215 | the second update of a run selects something exactly when the chosen item of the inspected endpoint passes the check, and then exactly that item with its stored payload; it fails only when something was ready |
| OutboxUpdates.UpdateKeeps | ios/Runner/BackgroundMigrationOutbox.swift:211-1039 | every atomic update of the store, by the channel or by the runner, keeps the invariant (unique ids; receipts and items awaiting reconciliation one to one; well-formed items and announcements), and every item stored afterwards follows one stored before or is fresh |
| OutboxUpdates.ReceiptsReconcile | ios/Runner/BackgroundMigrationOutboxChannel.swift:119-153 | in every snapshot reachable by any sequence of updates, each listed receipt still has its raw transaction, no two receipts name one item, and receipts match items awaiting reconciliation one to one |
| OutboxUpdates.EvidenceIsImmutable | ios/Runner/BackgroundMigrationOutbox.swift:211-1039 | while an id stays stored, its item stays in the same batch with the same part index, txid, payload, digest, anchor and expiry, and its attempt count never falls, over any stretch of any run |
| OutboxRemoval.AcknowledgeDropsOnlyReconciled | ios/Runner/BackgroundMigrationOutbox.swift:979-999 | acknowledging any set of receipts leaves every item awaiting reconciliation whose own receipt is not in the set, unchanged and under the same owner |
| OutboxRemoval.CrossBatchIdsLoseItems | ios/Runner/BackgroundMigrationOutbox.swift:979-999 | receipts are acknowledged by batch, item and outcome but items are dropped by item id alone: acknowledging one receipt drops an item of another batch with the same id, while that batch's receipts stay listed |
| OutboxRemoval.DiscardKeeps | ios/Runner/BackgroundMigrationOutbox.swift:1008-1022 | a discard that succeeds keeps the invariant and removes no batch with an item that may have been broadcast or awaits reconciliation |
| OutboxRemoval.AcknowledgedTogether | ios/Runner/BackgroundMigrationOutbox.swift:979-999 | in a matched snapshot a receipt is in the acknowledged set exactly when some acknowledged receipt names its item, and a settled batch has no receipt outside the set |
| OutboxStaging.StageTwiceIsOnce | ios/Runner/BackgroundMigrationOutbox.swift:211-303 | staging the same batch again right after it was staged succeeds and changes nothing |
| OutboxStaging.StageKeepsItems | ios/Runner/BackgroundMigrationOutbox.swift:211-303 | staging leaves every stored item as it is: no status and no schedule is rolled back, and no receipt changes |
| OutboxStaging.StageKeepsExactly | ios/Runner/BackgroundMigrationOutbox.swift:211-303 | for a batch without attempts, as the channel decodes it, staging keeps the invariant if and only if no incoming item id is stored under another batch id |
| OutboxSubmission.RescheduledPeers | ios/Runner/BackgroundMigrationOutbox.swift:1109-1130 | every item the reschedule touches is an armed peer, and the rebuilt item differs from the old one in its two schedule heights only |
| OutboxSubmission.AcceptanceClearsTip | ios/Runner/BackgroundMigrationOutbox.swift:907-944 | after an acceptance is recorded at a tip, no other armed item of that batch is due at that tip |
| OutboxEffects.AcceptanceIs | ios/Runner/BackgroundMigrationOutbox.swift:907-944 | a recorded acceptance in full: the submitted item is accepted, exactly its overdue peers get heights after the tip, and one receipt is added that carries the item, its batch, the tip, the code, message and date, has the outcome acceptedEquivalent if and only if the answer was equivalent, and lists the new heights of exactly those peers, each once; nothing else changes |
| OutboxEffects.RejectionIs | ios/Runner/BackgroundMigrationOutbox.swift:946-977 | a recorded rejection in full: the item is rejected, its batch is disarmed and watches no proof, one receipt reports item, tip and answer, and nothing else changes |
| OutboxEffects.RejectedBatchIsSilent | ios/Runner/BackgroundMigrationOutbox.swift:946-977 | after a rejection the batch is due at no tip and its endpoint is not inspected on its account |
| OutboxEffects.UnknownOutcomeIs | ios/Runner/BackgroundMigrationOutbox.swift:872-887 | a send without an answer: the item is armed again, the attempt counted, and the next one put off by 60, 300, 900 or 3600 seconds by the number of attempts |
| OutboxEffects.RecoveryIs | ios/Runner/BackgroundMigrationOutbox.swift:412-428 | the recovery does that to every interrupted submission and to nothing else |
| OutboxEffects.RetryWaits | ios/Runner/BackgroundMigrationOutbox.swift:1195-1204 | an item armed again is not due before its delay is over, and from then on it is exactly while its window lasts |
| OutboxEffects.BeginningIs | ios/Runner/BackgroundMigrationOutbox.swift:840-848 | a submission that begins marks its one item with the attempt and its date, and changes nothing else |
| OutboxEffects.BegunAndCancelled | ios/Runner/BackgroundMigrationOutbox.swift:840-905 | a submission begun and cancelled before its send leaves the item as it was but for the error: no attempt is counted and it can be sent at once |
| OutboxEffects.AcknowledgementIs | ios/Runner/BackgroundMigrationOutbox.swift:979-999 | an acknowledgement in full: exactly the acknowledged receipts go; a batch goes exactly if a rejected, expired or needs-resign receipt of it is acknowledged together with all its receipts, or if all its items are reconciled, it watches no proof and its "transfers sent" is not pending; every other batch stays under its id without its reconciled items, in order |
| OutboxEffects.PendingCompletionStays | ios/Runner/BackgroundMigrationOutbox.swift:979-999 | a pending "transfers sent" survives any acknowledgement without a rejected, expired or needs-resign receipt of its batch: the batch stays stored under its id with the announcement pending, and the announcement can be acknowledged |
| OutboxRequests.StagingRefuses | ios/Runner/BackgroundMigrationOutbox.swift:211-303 | staging is invalid exactly for a flawed request, and conflicts exactly if the stored batch has another owner, has a submission while endpoint or timing would change, or holds an item that the request would deliver differently or a second time |
| OutboxRequests.StagingIs | ios/Runner/BackgroundMigrationOutbox.swift:211-303 | an accepted request is stored as it is under a new id; under a stored one the new items are put behind the old, endpoint, timing and proof height are replaced, the proof announcements start over exactly if the height moved, and "transfers sent" exactly if it moved or an item is new |
| OutboxRequests.ArmingIs | ios/Runner/BackgroundMigrationOutbox.swift:305-331 | arming is refused exactly for an unknown batch, an empty request without a proof, or a delivery that the batch does not hold; otherwise exactly the staged items asked for are armed, and the first arming is dated |
| OutboxRequests.RecoveringIs | ios/Runner/BackgroundMigrationOutbox.swift:333-381 | recovering a batch is refused exactly without transactions or endpoint, or for a batch of another owner, an empty one or one with a transaction not expected; otherwise staged items are armed, interrupted submissions armed again, the endpoint replaced, and the batch armed if that leaves it anything armed |
| OutboxRequests.DiscardingIs | ios/Runner/BackgroundMigrationOutbox.swift:1008-1022 | a discard is refused exactly while the batch has a submission, an attempt or a receipt, and otherwise removes exactly that batch |
| OutboxRequests.RevocationIs | ios/Runner/BackgroundMigrationOutbox.swift:1024-1039 | a revocation removes exactly the batches of the account, the receipts of those batches, the delivered announcements under its prefix, and its place in the rotation |
| OutboxRequests.RevokedScopeIsForgotten | ios/Runner/BackgroundMigrationOutbox.swift:1024-1039 | an account that was served last and is then revoked is forgotten by the rotation of scopes |
| OutboxRequests.CanonicalIs | ios/Runner/BackgroundMigrationOutbox.swift:1159-1167 | the canonical expiry at a height is the one multiple of 34560 that lies more than 34560 and at most 69120 above it, if that is a 64-bit height |
| OutboxRequests.ExpirySweepIs | ios/Runner/BackgroundMigrationOutbox.swift:721-748 | the expiry sweep: at the endpoint exactly the armed items whose expiry the tip reached are expired, their batches are disarmed and watch no proof, the new receipts are exactly theirs, and nothing else changes |
| OutboxRequests.ResignSweepIs | ios/Runner/BackgroundMigrationOutbox.swift:750-787 | the resign sweep: the same for armed items that are due and carry another expiry than the canonical one of the tip |
| OutboxRunner.ReachableIsSafe | ios/Runner/BackgroundMigrationOutboxRunner.swift:36-317 | in every execution of runs that may stop between any two steps, interleaved with any channel calls: the invariant holds, at most one item is submitting, what was sent and stayed stored is on record, a selected item is in its window, and a run has sent at most once |
| OutboxRunner.WriteAheadSurvives | ios/Runner/BackgroundMigrationOutboxRunner.swift:117-300 | an item written ahead and sent, anywhere in any execution: in every later world, while it has stayed stored, its txid is listed as attempted, its batch cannot be discarded, and its payload is the one sent |
| OutboxRunner.SendIsRecordedFirst | ios/Runner/BackgroundMigrationOutboxRunner.swift:117-227 | when a payload is handed to `sendTransaction` and its item is still stored, that item is already listed as attempted, cannot be discarded, and holds exactly this payload |
| OutboxForgotten.EvidenceLastsWhileStored | ios/Runner/BackgroundMigrationOutboxRunner.swift:117-300 | the exact reach of the write-ahead: until the item is selected again, a stored item that was written ahead and sent is on record as attempted if and only if it was stored in every world since the write-ahead |
| OutboxForgotten.GoneIsForgotten | ios/Runner/BackgroundMigrationOutbox.swift:979-1039 | once an item id is not stored, by whatever removal, an item stored under it later has no attempt on record until a write-ahead selects it again |
| OutboxForgotten.RevokedInFlightIsForgotten | ios/Runner/BackgroundMigrationOutbox.swift:1024-1039 | any execution that has just written ahead extends to one where the account is revoked, the payload is sent all the same and the batch is staged again, after which the sent item is stored with no attempt on record and its batch can be discarded |
| OutboxScenario.RevocationLosesASend | ios/Runner/BackgroundMigrationOutboxRunner.swift:117-227 | one execution in full, from the empty store: eight events that end with the sent item stored, not attempted and free to be discarded |
| OutboxRunner.OneSendPerRun | ios/Runner/BackgroundMigrationOutboxRunner.swift:229-233 | two sends belong to two runs: a run begins between them |
| OutboxRunner.EverySendIsInWindow | ios/Runner/BackgroundMigrationOutboxRunner.swift:117-233 | every send of every execution is due at the tip its run learned, before its expiry, carries the canonical expiry of that tip and goes to the endpoint that reported it; and at most one item is submitting |
| OutboxRunner.AcceptanceCannotFail | ios/Runner/BackgroundMigrationOutboxRunner.swift:247-271 | from every safe world, when nothing changes the store between the write-ahead and the answer, recording an acceptance succeeds, whatever the answer says and whatever is drawn |
| OutboxRunner.AnswerClearsTip | ios/Runner/BackgroundMigrationOutboxRunner.swift:253-271 | right after the runner records an acceptance the item is accepted and no armed item of its batch is due at that tip |
| OutboxStore.Store.RunOnce | ios/Runner/BackgroundMigrationOutboxRunner.swift:36-317 | one run over the stored snapshot, whatever the endpoint answers: it sends exactly when it learns a tip, is not cancelled before, and the snapshot stored before the run has an item to send, and then exactly that item with its stored payload; it reports why it stopped otherwise, a cancellation only if something was cancelled; a failed send leaves the item armed, a refusal rejected with its receipt, an acceptance accepted with a receipt that is an acceptance if and only if the code is 0, whenever the canonical expiry of the tip does not overflow; and what is stored is given by the replies |
| OutboxStore.Store.Update | ios/Runner/BackgroundMigrationOutboxStore.swift:123-132 | an atomic channel update stores exactly what the mutation specifies, or reports its error and stores nothing |
| OutboxStore.Store.BeforeSend | ios/Runner/BackgroundMigrationOutboxRunner.swift:36-215 | recovery, tip and write-ahead of one run: it selects exactly when there is something to send, and exactly that, with the item open and its acceptance recordable; or it gives the reason to stop |
| OutboxStore.Store.WriteAhead | ios/Runner/BackgroundMigrationOutboxRunner.swift:117-215 | the write-ahead at a tip selects exactly the item to send from what was stored before the run; without one it asks for the user if something was ready or a receipt of this tip says so, and otherwise waits or has no work |
| OutboxRefinement.RunIsProtocol | ios/Runner/BackgroundMigrationOutboxRunner.swift:36-317 | one run of the runner, whatever it is told, is a stretch of the protocol: every execution that is idle goes on to an idle world with exactly the store that the run leaves, and a send is among its events if and only if the run sends; so what holds of every execution holds of the runner |
| OutboxChoice.SelectedIsLeast | ios/Runner/BackgroundMigrationOutbox.swift:789-838 | `selectDue` selects something exactly when an armed batch of the endpoint has a due item; it is then the item least by height and txid among the due items of a due batch of the scope next in rotation |
| OutboxChoice.ProofIsEarliest | ios/Runner/BackgroundMigrationOutbox.swift:503-525 | the proof announced first is the one of least height among those reached, then of least batch id |
| OutboxChoice.EndpointIsInspectable | ios/Runner/BackgroundMigrationOutbox.swift:430-449 | an endpoint is inspected exactly when some armed batch needs it, and it is the endpoint of such a batch |
| Rotation.InspectionIsFair | ios/Runner/BackgroundMigrationOutbox.swift:430-449 | with the same n endpoints eligible each time, any n consecutive inspections visit each endpoint exactly once, whatever was inspected before |
| Rotation.SelectionIsFair | ios/Runner/BackgroundMigrationOutbox.swift:789-838 | with the same n scopes due each time, any n consecutive selections serve each scope exactly once |
| StringOrder.LessIs | ios/Runner/BackgroundMigrationOutbox.swift:430-449 | the order that keys are sorted by: a proper prefix comes first, and otherwise the lower code unit where two strings first differ |
| Rotation.NextIs | ios/Runner/BackgroundMigrationOutbox.swift:430-449 | the next key, told by the order of the keys alone: the lowest above the one used last, if that is still eligible and some key is above it, and otherwise the lowest of all |
| OutboxAnnouncements.TransfersSentOnce | ios/Runner/BackgroundMigrationOutbox.swift:662-719 | "transfers sent" is acknowledged at most once per batch id between revocations of its account, also when the batch is pruned and staged again |
| OutboxAnnouncements.NoticeOncePerHeight | ios/Runner/BackgroundMigrationOutbox.swift:527-660 | the verified notice and the height-only notice are each acknowledged at most once per proof height: between two acknowledgements the batch was gone or had another height |
| OutboxAnnouncements.NeverBothPendingAndDelivered | ios/Runner/BackgroundMigrationOutbox.swift:484-719 | in every reachable snapshot no announcement is both pending and delivered, and a pending completion is of a batch not yet announced |
| OutboxAnnouncements.NudgeDoesNotBlock | ios/Runner/BackgroundMigrationOutbox.swift:484-660 | a height-only nudge, outstanding or delivered, never blocks the verified notice: it is queued, its endpoint is inspected, and it can be acknowledged before or after the nudge |
| OutboxAlerts.ProofReadyIs | ios/Runner/BackgroundMigrationOutbox.swift:484-525 | at a tip the earliest proof that is reached and still owed at the endpoint is queued, if there is one, and nothing else changes |
| OutboxAlerts.VerifiedIs | ios/Runner/BackgroundMigrationOutbox.swift:527-555 | verified readiness is recorded exactly if an armed batch of the run watches a proof; the earliest is then queued unless it was delivered |
| OutboxAlerts.PendingIsDelivered | ios/Runner/BackgroundMigrationOutbox.swift:557-586 | the announcement to deliver is the earliest pending one, and its acknowledgement retires it and nothing else |
| OutboxAlerts.NudgeIsDelivered | ios/Runner/BackgroundMigrationOutbox.swift:599-660 | a nudge is queued exactly for an armed batch about whose proof nothing was said; it can then be acknowledged, and is not queued again |
| OutboxAlerts.CompletionIsDelivered | ios/Runner/BackgroundMigrationOutbox.swift:662-719 | "transfers sent" is queued exactly when the batch watches no proof, has items, all of them accepted, and was not announced; it can then be acknowledged, which puts it on record, and is not queued again while it is there |
| OutboxAlerts.LastAcceptanceIsAnnounced | ios/Runner/BackgroundMigrationOutboxRunner.swift:253-271 | after the recorded acceptance of the last transfer of a batch its "transfers sent" is pending and can be acknowledged |
| OutboxAlerts.EmptiedIsRemoved | ios/Runner/BackgroundMigrationOutbox.swift:697-719 | acknowledged for a batch that was emptied meanwhile, "transfers sent" removes the batch exactly if it has no items and watches no proof, and no other batch |
| OutboxAlerts.DeliveryRefuses | ios/Runner/BackgroundMigrationOutbox.swift:577-719 | an acknowledgement is refused exactly for a batch that is gone or an announcement that is not pending |
| Outbox.Outbox.Stage | ios/Runner/BackgroundMigrationOutbox.swift:211-303 | merging item by item in place leaves the snapshot that staging specifies, or reports its error |
| Outbox.Outbox.ArmBatch | ios/Runner/BackgroundMigrationOutbox.swift:305-331 | arming in place leaves the specified snapshot, or reports its error |
| Outbox.Outbox.RecoverBatch | ios/Runner/BackgroundMigrationOutbox.swift:333-381 | recovering a batch in place leaves the specified snapshot and says whether there was one |
| Outbox.Outbox.RecoverInterrupted | ios/Runner/BackgroundMigrationOutbox.swift:412-428 | the nested loops turn every open submission into an uncertain, counted and delayed attempt, and change nothing else |
| Outbox.Outbox.NextEndpoint | ios/Runner/BackgroundMigrationOutbox.swift:430-449 | selects the next endpoint in rotation, of an armed batch that needs inspection, exactly when there is one |
| Outbox.Outbox.SelectDue | ios/Runner/BackgroundMigrationOutbox.swift:789-838 | selects the least due item of the scope next in rotation, exactly when there is one |
| Outbox.Outbox.Sweep | ios/Runner/BackgroundMigrationOutbox.swift:721-787 | the nested loops of the two sweeps retire exactly the armed items they hit, disarm their batches, and list one receipt for each in order |
| Outbox.Outbox.RescheduleOverdue | ios/Runner/BackgroundMigrationOutbox.swift:1050-1107 | the loop in place over the shuffled and sorted peers computes the specified heights and updates, or fails where the specification does |
| Outbox.Outbox.RecordAccepted | ios/Runner/BackgroundMigrationOutbox.swift:907-944 | marking, rescheduling and receipt in place leave the specified snapshot, or the error of the specification; `OutboxEffects.AcceptanceIs` says what that snapshot is |
| Outbox.Outbox.RecordRejected | ios/Runner/BackgroundMigrationOutbox.swift:946-977 | the rejection in place leaves the specified snapshot, or its error |
| Outbox.Outbox.AcknowledgeReceipts | ios/Runner/BackgroundMigrationOutbox.swift:979-999 | settled batches, then reconciled items, then spent batches are removed in place as specified; `OutboxEffects.AcknowledgementIs` says which go and what stays |
| Outbox.Outbox.Revoke | ios/Runner/BackgroundMigrationOutbox.swift:1024-1039 | the account's batches, their receipts, its announcements and its place in the rotation go, as specified |
| Keychain.NothingIsLost | ios/Runner/KeychainAccessibilityMigrator.swift:82-210 | at any point of any run, over any number of stopped runs: an account's data is in the canonical or the staging service, an unresolved account is exactly as it was, and no account was written to more than four times |
| Keychain.KeptStep | ios/Runner/KeychainAccessibilityMigrator.swift:130-175 | each write takes one account exactly one rank down with the same data and touches no other account, so the bookkeeping of all accounts extends by it |
| Keychain.FinishedRunsKeepData | ios/Runner/KeychainAccessibilityMigrator.swift:82-116 | when a run finishes, every account has exactly one canonical copy of the target class with the data it had before the first run and no staged copy, and was written to exactly as often as it was behind |
| Keychain.Migrator.EnsureFirstUnlockThisDeviceOnly | ios/Runner/KeychainAccessibilityMigrator.swift:82-116 | one run: it finishes with every account settled, counts the migrated ones and records completion, or throws and leaves completion as it was; for an allowed service it throws only when it is stopped or some account is unresolved, and it is stopped only within its first 2 + 6n store operations |
| Keychain.Rerun | ios/Runner/KeychainAccessibilityMigrator.swift:82-116 | any number of runs, each stopped after any number of store operations: data is kept throughout, and a last run that lives for more than 2 + 6n operations does not stop short, and fails only if an account was unresolved from the start |
| NetworkPrivacyRoute.FreeSlotIsConsistent | rust/src/network_privacy.rs:333-454 | under every interleaving of single atomic steps of enable, disable, bootstrap, publish, failure and dormancy calls: whenever the slot lock is free, a Ready or Failed status or an installed client implies that Tor is desired; which end of a bootstrap leads where is stated by the next rows |
| NetworkPrivacyBootstrap.ClientWasMade | rust/src/network_privacy.rs:407-454 | in every execution an installed client is, up to its mode, the one that an earlier bootstrap, which ended well, made for the call that installed it |
| NetworkPrivacyBootstrap.ReadyWasBooted | rust/src/network_privacy.rs:407-454 | Ready is stored only by a call whose own bootstrap ended well, and only while Tor is desired |
| NetworkPrivacyBootstrap.FailedWasBooted | rust/src/network_privacy.rs:516-527 | Failed is stored only by a call whose own bootstrap failed, and only while Tor is desired |
| NetworkPrivacyBootstrap.SuccessEnds | rust/src/network_privacy.rs:426-450 | a call whose bootstrap ended well, at its unlock: if it read in the slot that Tor was desired, its client is installed and it has stored Ready, which stands exactly if no call that starts over has stored Bootstrapping since; if not, it went straight to the unlock |
| NetworkPrivacyBootstrap.ReadyIsOverwritten | rust/src/network_privacy.rs:98-115 | one execution in full in which such a call leaves Bootstrapping behind, because `begin_tor_enable` stores it without the slot lock |
| NetworkPrivacyBootstrap.FailureEnds | rust/src/network_privacy.rs:516-527 | a call whose bootstrap failed, at its unlock: no client is installed, and it has stored Failed if and only if it read in the slot that Tor was desired, which stands exactly if no call that starts over has stored Bootstrapping since |
| NetworkPrivacyAlone.BootAlone | rust/src/network_privacy.rs:328-454 | `enable_tor` with nobody else moving: Tor is desired; a ready client is kept; otherwise the awaited bootstrap decides between Ready with the client made, in the recorded mode, and Failed without a client |
| NetworkPrivacyAlone.EnableAlone | rust/src/network_privacy.rs:98-115 | `begin_tor_enable` with nobody else moving: Tor is desired and connecting, there is no client, the epoch is over, the waker table is empty and everyone in it was woken |
| NetworkPrivacyAlone.DisableAlone | rust/src/network_privacy.rs:503-514 | `disable_tor` with nobody else moving leaves the direct route without a client |
| NetworkPrivacyAlone.DormantAlone | rust/src/network_privacy.rs:288-326 | `set_tor_dormant` with nobody else moving records the mode and applies it to an installed client |
| NetworkPrivacyAlone.RouteAlone | rust/src/network_privacy.rs:528-562 | `tor_client_for_route` with the route standing still: the route, the client or the message for each combination of intent, status and client |
| NetworkPrivacyRoute.DirectOnlyWhenNotDesired | rust/src/network_privacy.rs:528-562 | `tor_client_for_route` returns the direct route only if at some instant of that very call Tor was not desired |
| NetworkPrivacyRoute.RoutesAreDecided | rust/src/network_privacy.rs:528-562 | whatever a route reader returns fits what it read: direct exactly when the intent it read was off, a client only under a Ready status with a client found |
| NetworkPrivacyRoute.DormancyIsNotLost | rust/src/network_privacy.rs:288-326 | whenever no dormancy call and no holder of the slot is mid-flight, an installed client's last applied mode is the recorded intent |
| NetworkPrivacyLeases.NoDirectIoAfterEnable | rust/src/network_privacy.rs:98-115 | once a critical section of `begin_tor_enable` has ended with Tor desired, no direct connection, old or new, runs its inner I/O until some `disable_tor` clears the intent, under every interleaving |
| NetworkPrivacyLeases.IoIsAllowed | rust/src/network_privacy.rs:167-189 | inner I/O runs only in a lease of the current epoch and never while the bar of an enable stands |
| NetworkPrivacyLeases.OldLeaseNeverRuns | rust/src/network_privacy.rs:154-206 | a lease of an older epoch never runs its inner I/O again, not even after a `disable_tor` |
| NetworkPrivacyLeases.NobodyLeftAsleep | rust/src/network_privacy.rs:98-115 | every waker parked before an enable was drained and woken: with the waker lock free and no enable still waking, a lease whose waker was not woken is in the table and of the current epoch |
| NetworkPrivacyLeases.WaitEndsAtZero | rust/src/network_privacy.rs:139-152 | the wait for direct connections succeeds only at an instant with no live lease |
| NetworkPrivacyLeases.NoMissedWakeup | rust/src/network_privacy.rs:139-206 | while the wait is parked and not notified, a lease is live or one is about to notify it |
| NetworkPrivacyAlone.WaitAlone | rust/src/network_privacy.rs:139-152 | a wait whose check finds no live connection ends, and one that finds some parks |
| NetworkPrivacyAlone.PollAlone | rust/src/network_privacy.rs:167-189 | a poll with nobody else moving reaches the inner I/O if and only if Tor is not desired and the connection is of the current epoch, and gives the waker lock back |
| NetworkPrivacyAlone.OpenAlone | rust/src/network_privacy.rs:159-165 | a connection that opens belongs to the current epoch, so that its polls reach the inner I/O if and only if Tor is not desired |
| Notifications.AnsweredExactlyOnce | ios/Runner/MigrationPreparationNotificationCoordinator.swift:240-485 | over any sequence of calls and callbacks in any order, no caller is answered more often than it asked, and once the notification centre owes no callback every caller was answered exactly as often as it asked |
| Notifications.WaitersAreOwed | ios/Runner/MigrationPreparationNotificationCoordinator.swift:240-485 | while any caller waits, the callback of the newest submission is still to come |
| Notifications.SupersededChangesNothing | ios/Runner/MigrationPreparationNotificationCoordinator.swift:430-477 | the callback of a superseded submission changes nothing and answers nobody |
| Notifications.NewestAnswersEveryone | ios/Runner/MigrationPreparationNotificationCoordinator.swift:430-485 | the callback of the newest submission answers every waiting caller once, with what became of it, and only on success are its events accepted |
| Notifications.KeyIsInjective | ios/Runner/MigrationPreparationNotificationCoordinator.swift:59-76 | the key of an event tells its scope and its kind, whatever characters the scope contains |
| Notifications.ResolveReallows | ios/Runner/MigrationPreparationNotificationCoordinator.swift:86-101 | after a scope is resolved any event of it can be raised again, and none of it is pending |
| Notifications.ResolveKeepsOthers | ios/Runner/MigrationPreparationNotificationCoordinator.swift:86-101 | resolving a scope leaves what was accepted for any other scope, when scope names contain no bar |
| NotificationSteps.EnqueueIs | ios/Runner/MigrationPreparationNotificationCoordinator.swift:240-277 | an enqueue in full: a caller with events is told at once, and true, if and only if every event is accepted once a window that is over is dropped; otherwise the generation grows by one, the caller is appended to those waiting, and the new request holds what was pending and every event just raised that is not accepted |
| NotificationSteps.ResolveIs | ios/Runner/MigrationPreparationNotificationCoordinator.swift:278-325 | resolving a scope drops exactly what is pending for it, withdraws the request if nothing is left and otherwise submits what is left |
| NotificationSteps.RetainIs | ios/Runner/MigrationPreparationNotificationCoordinator.swift:327-375 | retaining scopes keeps exactly what is pending and what was accepted for one of them |
| NotificationSteps.SuppressIs | ios/Runner/MigrationPreparationNotificationCoordinator.swift:397-413 | suppressing counts everything pending as accepted and tells every waiting caller true, once for each time it waits |
| NotificationSteps.ClearAllIs | ios/Runner/MigrationPreparationNotificationCoordinator.swift:415-428 | clearing everything leaves nothing pending or accepted and tells every waiting caller false |
| NotificationSteps.AcceptedWasSubmitted | ios/Runner/MigrationPreparationNotificationCoordinator.swift:430-477 | in any run an alert counts as accepted only if earlier the newest request that held it was taken by the notification centre, or it was suppressed while pending |
| NotificationCoordinator.NotificationCoordinator.AddCallback | ios/Runner/MigrationPreparationNotificationCoordinator.swift:430-485 | the object's callback keeps the invariant; an old generation leaves everything but the list of owed callbacks and answers nobody; the newest one answers each waiting caller once and empties the list of waiters |
| NotificationCoordinator.NotificationCoordinator.EnqueueFor | ios/Runner/MigrationPreparationNotificationCoordinator.swift:240-277 | one enqueue in place: the caller is told in this step if and only if every event is accepted after expiry; otherwise it waits on a new request that holds every event not accepted; and nobody who waits is forgotten |
| NotificationCoordinator.NotificationCoordinator.EveryoneAnswered | ios/Runner/MigrationPreparationNotificationCoordinator.swift:240-485 | in any valid object that is owed no callback, every caller was answered exactly as often as it asked |
| Preparation.NothingTrackableIsParked | ios/Runner/BackgroundMigrationPreparationManager.swift:2077-2633 | when marking and deciding see the same inspection, a step adds a run to the parked set only if it was inspected as needing the foreground and not as waiting for confirmations, or if a tracking pass closed it and its alert was submitted or not required |
| Preparation.ParkedForAReason | ios/Runner/BackgroundMigrationPreparationManager.swift:1458-2633 | in any run of such steps, whoever is parked was parked by a step with that reason and has stayed parked since |
| Preparation.TrackableIsParkedExactly | ios/Runner/BackgroundMigrationPreparationManager.swift:2577-2617 | without that agreement: a run seen waiting for confirmations is parked exactly when the deciding inspection did not see it so on a handoff, or, at launch and after a mutation, failed or saw no waiting run but some run in need of the foreground |
| Preparation.TornInspectionParks | ios/Runner/BackgroundMigrationPreparationManager.swift:1532-1548 | one failed read of the credentials followed by one that succeeds parks a healthy run, at launch, at a handoff and after a mutation |
| Preparation.TargetIsExact | ios/Runner/BackgroundMigrationPreparationManager.swift:509-538 | the resume target is to track exactly when some run waits for confirmations, and the foreground exactly when none does and some run is eligible |
| Preparation.UnparkedRunIsPending | ios/Runner/BackgroundMigrationPreparationManager.swift:576-581 | an unparked run waiting for confirmations is pending work and is tracked on launch, whatever the state of any other account |
| Preparation.ReadyIsClassified | ios/Runner/BackgroundMigrationPreparationManager.swift:208-267 | a pass closes exactly the runs whose result closes them, with an alert for each, and every confirmed wave is closed |
| Preparation.OnlyTheChainConfirms | ios/Runner/BackgroundMigrationPreparationManager.swift:395-453 | a run is reported confirmed exactly when it waits for confirmations and every transaction listed for it was answered as mined at least three blocks deep |
| Preparation.ConfirmedWaveIsObserved | ios/Runner/BackgroundMigrationPreparationManager.swift:1764-1947 | every confirmed wave of a pass is a run that was not parked and was observed to be deep enough in that pass |
| Preparation.ProgressIsSound | ios/Runner/BackgroundMigrationPreparationManager.swift:364-393 | progress stays within its total and is complete exactly when there is something to observe and all of it reached the target |
| Preparation.OneUpdate | ios/Runner/BackgroundMigrationPreparationManager.swift:455-507 | one update of the bar never moves it back, keeps it short of full until the wave is complete, and passes neither the confirmed fraction nor the next boundary unless it was there |
| Preparation.HeartbeatsStayBelow | ios/Runner/BackgroundMigrationPreparationManager.swift:455-507 | any number of heartbeats on unchanged progress stays short of the next confirmation's boundary exactly when the bar and the rounded fraction were short of it |
| Preparation.BarNeverMovesBack | ios/Runner/BackgroundMigrationPreparationManager.swift:2134-2174 | over any number of passes and heartbeats up to the first complete wave the bar never moves back and never fills |
| PreparationPasses.DispositionIs | ios/Runner/BackgroundMigrationPreparationManager.swift:395-453 | what a pass decides about a run, for every inspection and every answer: each disposition with its exact condition; a missing answer never needs the foreground |
| PreparationPasses.ProgressIs | ios/Runner/BackgroundMigrationPreparationManager.swift:364-393 | the progress of a wave counts one unit for each of the first three confirmations of each transaction, out of three for each transaction listed or stage planned, whichever are more |
| PreparationPasses.AlertsAre | ios/Runner/BackgroundMigrationPreparationManager.swift:208-267 | an alert is raised exactly for a result that closes its run, of the kind that speaks for it, and the confirmed waves are exactly the runs with a confirmed result |
| PreparationPasses.AlertsCount | ios/Runner/BackgroundMigrationPreparationManager.swift:208-267 | there are as many alerts as results that close a run, and the background task failed exactly if some result breaks it |
| PreparationPasses.ProgressKnown | ios/Runner/BackgroundMigrationPreparationManager.swift:208-267 | after a pass the progress known of a run is the last that the pass saw, or the cached one |
| PreparationPasses.RetriesAre | ios/Runner/BackgroundMigrationPreparationManager.swift:208-267 | the retries without progress are the results that ask again about a run of which neither the cache nor the pass knows any progress |
| PreparationPasses.ResultsAre | ios/Runner/BackgroundMigrationPreparationManager.swift:1764-1947 | every run that is not parked has its result, and there are no others |
| PreparationPasses.ClosedIs | ios/Runner/BackgroundMigrationPreparationManager.swift:2077-2109 | a pass closes a run exactly if one of its sightings, not parked, is one that closes it |
| PreparationPasses.TargetIs | ios/Runner/BackgroundMigrationPreparationManager.swift:509-538 | the resume target for every inspection, a failed one included: the foreground, tracking, or done |
| PreparationPasses.ParkedIs | ios/Runner/BackgroundMigrationPreparationManager.swift:1458-2633 | exactly who is parked after each step: handoff, launch, mutation, pass, release of one run and release of all |
| PreparationPasses.ReleasedRunIsTracked | ios/Runner/BackgroundMigrationPreparationManager.swift:576-581 | a waiting run that is released is pending at once and a launch tracks it, and nobody else is released |
| PreparationPasses.LaunchTracks | ios/Runner/BackgroundMigrationPreparationManager.swift:1532-1593 | exactly when a launch tracks: some run waits for confirmations, and some waiting run is not parked or nothing is parked |
| PreparationPasses.BarIs | ios/Runner/BackgroundMigrationPreparationManager.swift:455-507 | where each update leaves the bar: at the confirmed fraction if that is ahead, or one unit on if that stays below the next boundary and the full bar, or where it was |
| PreparationPasses.FirstHeartbeats | ios/Runner/BackgroundMigrationPreparationManager.swift:2158-2174 | until the first pass comes back each heartbeat shows one unit more, up to 50 |
| PreparationPasses.CompleteWaveShows | ios/Runner/BackgroundMigrationPreparationManager.swift:2134-2156 | a wave of which every unit is confirmed shows 949 of the 1000 units of the bar |
| PreparationPasses.BoundaryIs | ios/Runner/BackgroundMigrationPreparationManager.swift:455-507 | the next boundary is the share of one confirmation more, rounded down, and at the end the whole bar |
| PreparationPasses.RoundedIsNearest | ios/Runner/BackgroundMigrationPreparationManager.swift:455-507 | the confirmed fraction is rounded to the nearest unit, halves up |
| PreparationManager.EligibleScopes | ios/Runner/BackgroundMigrationPreparationManager.swift:2693-2727 | the loop over the credentials finds exactly the eligible runs, or none when the credentials cannot be read |
| PreparationManager.TrackableScopes | ios/Runner/BackgroundMigrationPreparationManager.swift:2640-2669 | the loop over the credentials finds exactly the runs waiting for confirmations |
| PreparationManager.InspectTarget | ios/Runner/BackgroundMigrationPreparationManager.swift:2418-2460 | the loop over the credentials decides the resume target of what it inspected |
| PreparationManager.Manager.TrackingBatch | ios/Runner/BackgroundMigrationPreparationManager.swift:208-267 | the loop over the results classifies each and updates the cached progress in place as specified |
| PreparationManager.Manager.RunPass | ios/Runner/BackgroundMigrationPreparationManager.swift:2077-2109 | a whole pass: it parks exactly the runs that were not parked and that their own sighting closed, once the alert is accepted or not wanted; it reports success exactly if nothing had to be submitted or it was accepted; every confirmed wave was unparked and observed deep enough |
| PreparationManager.Manager.HandleLaunch | ios/Runner/BackgroundMigrationPreparationManager.swift:1532-1593 | the launch parks as specified, and tracking begins with an empty bar exactly when some run is left to observe or nothing explains why none is |
| PreparationManager.Manager.MarkReadyForHandoff | ios/Runner/BackgroundMigrationPreparationManager.swift:2599-2617 | the handoff parks eligible runs that are not trackable over what was parked, and reports whether any eligible run exists |
| WireFormat.VarintRoundTrip | ios/Runner/NativeLightwalletdClient.swift:383-440 | any 64-bit value is read back from its varint, wherever it stands, consuming exactly its bytes |
| WireFormat.ReadDropsHighBits | ios/Runner/NativeLightwalletdClient.swift:426-440 | what is read from any bytes: the sum of at most ten seven-bit groups with everything above the 64th bit dropped, so high bits of a tenth byte are lost |
| WireFormat.FrameRoundTrip | ios/Runner/NativeLightwalletdClient.swift:358-407 | the payload of a frame is found again below 2^32 bytes, whatever follows |
| WireFormat.PayloadIsFramed | ios/Runner/NativeLightwalletdClient.swift:395-407 | whatever is accepted as a frame starts with the frame of its payload |
| WireFormat.SendResponseRoundTrip | ios/Runner/NativeLightwalletdClient.swift:310-356 | a send response is recovered from its frame: every int32 code, negative ones included, and the message, through well-formed unknown fields anywhere between |
| WireFormat.TransactionRoundTrip | ios/Runner/NativeLightwalletdClient.swift:243-262 | the height of a transaction is recovered past its bytes, whatever they are; no height reads as the mempool |
| WireFormat.LatestBlockRoundTrip | ios/Runner/NativeLightwalletdClient.swift:165-188 | any block height is recovered from its response, whatever comes after it |
| WireGrammar.VarintIs | ios/Runner/NativeLightwalletdClient.swift:426-440 | a varint is read exactly where at most ten bytes stand of which all but the last have the continuation bit, and it ends there |
| WireGrammar.BodyIs | ios/Runner/NativeLightwalletdClient.swift:442-470 | a field is skipped exactly if its body is whole: a varint, eight or four bytes, or a length with as many bytes; groups and unknown wire types are refused |
| WireGrammar.FrameIs | ios/Runner/NativeLightwalletdClient.swift:395-407 | data yields a payload exactly when it starts with the uncompressed frame of it |
| WireGrammar.SendResponseIs | ios/Runner/NativeLightwalletdClient.swift:310-356 | a send response is accepted from any data exactly when its payload can be cut into whole fields whose messages are all text, and says the last code and the last message, or 0 and nothing |
| WireGrammar.TransactionIs | ios/Runner/NativeLightwalletdClient.swift:243-262 | a transaction is accepted exactly when its payload can be cut into whole fields, and its height is the last field 2 that is a varint, or zero |
| WireGrammar.LatestBlockIs | ios/Runner/NativeLightwalletdClient.swift:165-188 | the block height is the first field 1 that is a varint after whole fields, whatever follows; it is missing exactly if whole fields without one fill a payload that is not empty |
| LightwalletdCodec.EncodeVarintLoop | ios/Runner/NativeLightwalletdClient.swift:383-393 | the loop that shifts the value out byte by byte builds its varint |
| LightwalletdCodec.ReadVarintAt | ios/Runner/NativeLightwalletdClient.swift:426-440 | the loop that accumulates shifted bytes reads the value and moves the index as specified, or fails where the specification does |
| LightwalletdCodec.ParseSendFields | ios/Runner/NativeLightwalletdClient.swift:310-356 | the loop over the fields reads them as `WireFormat.SendFields` specifies, or fails where it does, and always ends within the data |

## Left out

- OutboxUpdates.UpdateKeeps: assumes of a staged batch that no item carries an attempt, which the channel's decoder guarantees, and that no incoming item id is stored under another batch id, which nothing in the program checks; OutboxStaging.StageKeepsExactly shows that this condition is exact, and OutboxRemoval.CrossBatchIdsLoseItems what happens without it.
- OutboxRunner.WriteAheadSurvives: requires that the item stays stored from the write-ahead on; OutboxForgotten shows that the evidence ends exactly there, by an execution and by an if-and-only-if.
- OutboxRunner.AcceptanceCannotFail: assumes that nothing changes the store between the write-ahead and the answer and that the canonical expiry of the tip does not overflow; a channel call in between may remove the item or restage its timing.
- NetworkPrivacyLeases.NobodyLeftAsleep: says that a waker was woken, not that the woken task is then scheduled.
- Notifications.ResolveKeepsOthers: requires scope names without a bar, because resolving a scope `a` also drops what was accepted for a scope that starts with `a|`.
- Preparation.NothingTrackableIsParked: requires that a step's two inspections agree; the program inspects twice, and TrackableIsParkedExactly says what happens when they differ.
- Preparation.BarNeverMovesBack: covers a task up to its first complete wave, after which the bar may fall back when a later total is incomplete again; doubles are exact fractions here.
- Txids are taken as already in lower case; the item initializer folds them (BackgroundMigrationOutbox.swift:61).
- Receipt ids are triples of batch id, item id and outcome; the program joins them into one string (BackgroundMigrationOutbox.swift:1132-1157).
- SHA-256 is an arbitrary function of the payload, and `sampleDelay` is any raw sample brought into `[1, max]`; its floating-point distribution is not modelled.
- Strings compare by code unit; the program's sort follows Unicode canonical ordering.
- Integer traps: the attempt count, the submission generation, lease ids, epochs and the display units are unbounded here; heights are 64-bit with explicit saturation and overflow.
- The store's file, encryption and key are left out: a read or write that fails is a run that stops. The run lock is left out: runs do not overlap.
- The runner's result beyond the transport outcome: next heights, delays, notification metadata and the account it names.
- Retry cadence, `nextActionHeight` and `nextActionAccountUuid`: queries with no effect on the state.
- Keychain: the preserved attributes (label, description and so on) are one opaque value and nothing is claimed about them; a transient store failure is a stop, and the platform's status codes are not modelled.
- Keychain: items the platform cannot list, and the completion flag of other services.
- Tor: the bootstrap itself, its deadline and the lock that serialises bootstraps (the results hold without it); a reader of the slot is one atomic step; memory orderings are sequentially consistent.
- Tor: `rust/src/tor_update_relay.rs`, the update relay, which is sockets and HTTP.
- Coordinator: the text, order and identifiers of the summary, its persistence across launches, and removal of delivered requests.
- Preparation: the totals over all cached progress are not computed, because the bar's results hold for any progress; fingerprints and texts of alerts, the watchdog, how background work is scheduled and armed again.
- Preparation: a run's inspected state is an input; `rust/src/migration_preparation.rs`, which computes it, is not part of this model.
- Codec: the text decoder is a parameter; URL building, the request messages and the transport are left out.
- Flutter channels, user interface, notification centre and task scheduler calls: only their outcomes enter, as parameters.
