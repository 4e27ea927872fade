# A verified model of arandu-whatsapp's stateful cores

arandu-whatsapp is a Go module that runs WhatsApp sessions for many tenants. This project models the parts of it that
carry the most state and concurrency, and proves in Dafny what they promise over every run:

- **Webhook deliveries** (`DeliveryTable`, `DeliveryStore`, `EndpointIds`, `WebhookDispatch`): rows claimed, completed,
  failed and pruned by any number of workers, fenced by a token and a version.
- **Durable mention-all** (`MentionAll`, `MentionAllProperties`, `MentionAllLosses`, `MentionAllHandlers`): a transactional
  outbox of a snapshot, two queue jobs, a message row and an outcome, with crashes, a concurrent cleanup handler and
  the deletion of instances.
- **Pairing** (`Passkey`, `PasskeyRuns`, `QrConsumer`, `ContactSyncs`): the passkey commands and their mutex, the QR
  channel that writes without it, the consumer of that channel, and the handles of the background contact syncs.
- **Paged reads** (`Ordering`, `InstancePages`, `MessagePages`): keyset pages over instances, cursor and numbered pages
  over messages.
- **Lease, alias table and configuration cache** (`ConnectionLease`, `AddressMappings`, `ConfigurationCache`).

Each core has two layers. Functions on values give the meaning of one atomic step (an SQL statement, a transaction,
a critical section), and a run is a sequence of such steps by anybody; lemmas about runs carry the safety results.
Classes with the source's fields run the same operations imperatively, with loops, early returns and rollbacks, and
are proved against those functions. Where an operation gives up its lock or runs several statements, the steps of
others that fall in between are an argument, so its contract holds for every interleaving.

`dafny verify dfyconfig.toml` checks everything.

## Assumptions

- One SQL statement is atomic, a transaction is all or nothing and isolated, and the unique keys of the migrations are
  enforced. Comparing with NULL is never true.
- Tokens, process ids, job ids and request ids are fresh, as UUIDs are.
- The queue runs one handler of a job at a time, counts one attempt per run, and drops a job only when it is deleted,
  when its handler returns nil, or when its tries are used up; `Tries = -1` is never used up. Crashes can happen
  between any two steps. Two runs of one job at a time could commit both outcomes; the queue excludes them.
- Calls to WhatsApp, image drawing and the network answer anything: their answers are arguments.
- The passkey timeout is a 64-bit `int`. LIKE and trimming happen outside: a query sees the set of rows that match.
- An offset below zero is refused by PostgreSQL and read as zero by SQLite.

## Where the code differs from its documentation, or surprises

The model follows the code.

- `docs/passkey-pairing.md` lists `PASSKEY_CHALLENGE_ALREADY_USED`. The code never gives that answer: accepting an
  assertion also moves the state on, so a second submission is told the state is invalid. The state `IDLE` is never
  reached either (`PasskeyRuns.IdleIsNeverReached`); a new session has the empty state.
- `docs/send-messages.md` calls the webhook the source of the final result. A snapshot that has expired or no longer
  decodes is removed without any outcome, by the attempt or by the retention job, and so is one whose instance is
  deleted: no final webhook comes then (`MentionAllLosses.WhenOutcomesAreLost` says exactly when).
- A "failed" outcome does not mean that nothing was sent: a send can be accepted and its attempt still fail
  (`MentionAllLosses.WhenFailedMeansUnsent` says exactly when that happens).
- A confirmation can be awaited for a challenge nobody answered (`PasskeyRuns.WhenConfirmationsAreUnanswered`).
- A delivery's endpoint id is accepted in spellings that are never printed (`EndpointIds.WhenAcceptedIdsArePrinted`).
- A pairing that succeeds before its first QR code leaves the call that started it without a code and without an
  error, until its own context ends (`QrConsumer.WhenTheCallerHearsNothing`).
- A page number is multiplied by its limit in 32 bits. Pages far past the end can repeat page 1 or fail
  (`MessagePages.WhenPagesAreRight` says exactly when).
- "Set takes effect on the next event" needs that no lookup of the configuration was in flight at the commit
  (`ConfigurationCache.WhenAWriteTakesEffect`); otherwise the old answer can live for one more window
  (`ConfigurationCache.StraddlingLookupIsStale`).
- The lease belongs to the process: two holders in one process share it, and the first release ends it for both
  (`ConnectionLease.OneReleaseEndsEveryHold`).

## Model

| member | source | states |
|---|---|---|
| `EndpointIds.ParseInvertsFormat` | internal/webhook/manager.go:242-244 | Every 64-bit integer printed in decimal parses back to itself, and a number outside 64 bits is refused |
| `EndpointIds.CutAtFirstColon` | internal/webhook/repository.go:253-257 | An id splits at its first colon |
| `EndpointIds.ParseInvertsEndpointId` | internal/webhook/repository.go:253-263 | Parsing a printed id gives the same target and instance exactly for the two targets with a positive 64-bit instance; every other id is refused |
| `EndpointIds.IdsSpelledOut` | internal/webhook/repository.go:253-263 | Ids read "instance:41" and "global:41", and every accepted id names one of those two kinds and a positive 64-bit number |
| `EndpointIds.EndpointIdsAreDistinct` | internal/webhook/manager.go:242-244 | Different endpoints never share an id |
| `EndpointIds.WhenAcceptedIdsArePrinted` | internal/webhook/repository.go:253-263 | An accepted id is the one its endpoint prints as exactly when its number has no sign and no leading zero |
| `EndpointIds.ParsingIsNotInjective` | internal/webhook/repository.go:258-262 | Ids with a plus sign or a leading zero are accepted for the same endpoint; the dispatcher itself only sends printed ids (`WebhookDispatch.SelectEndpoints`) |
| `WebhookDispatch.SelectEndpoints` | internal/webhook/manager.go:171-200 | An event goes to the configured endpoint exactly when the configuration is enabled, readable, has the event on and a usable URL, and to the global one exactly when it is enabled, each under its own URL and its printed id; problems with the configuration are reported and stop nothing else; nothing is sent without a signing secret |
| `WebhookDispatch.EventHasOneRowPerEndpoint` | database/migrations/20260825_0005_expand_webhook_deliveries.go:26 | However often and in whatever order the deliveries of one event are created, with any other statements in between except those that remove rows, exactly one row stands for each endpoint |
| `DeliveryTable.ValidKept` | internal/webhook/repository.go:156-160 | Every statement keeps the row invariant: a token and a lease exactly while processing, attempts equal to the claim version, delivered and permanent never together, no token shared, one row per event and endpoint |
| `DeliveryTable.ReachableIsValid` | internal/webhook/repository.go:61-240 | Every table that any interleaving of Create, Claim, Complete, Fail and Prune reaches with fresh tokens satisfies that invariant and holds only tokens a claim of the run brought |
| `DeliveryTable.ClaimableRows` | internal/webhook/repository.go:156-160 | Exactly which rows a claim takes: pending ones, retryable failures, and processing ones whose lease has passed |
| `DeliveryTable.RowStep` | internal/webhook/repository.go:156-223 | All a statement can do to a surviving row: claim it with the next version, decide it under its current token and version, or nothing |
| `DeliveryTable.RowProgress` | internal/webhook/repository.go:145-240 | Over any run a row that lives never loses versions, gains a token only through a higher one, never changes again once delivered or permanent, and keeps its payload until delivered |
| `DeliveryTable.IdentityStays` | internal/webhook/repository.go:145-240 | A row keeps its tenant, event, endpoint and birth time as long as it lives |
| `DeliveryTable.ClaimsFindTheBirthPayload` | internal/webhook/repository.go:70-83 | Whatever runs between, a claim of a stored delivery finds the URL, body and headers it was created with, under its tenant, event and endpoint |
| `DeliveryTable.HeldRowIsUntouched` | internal/webhook/repository.go:156-160 | A row that carries a token at the end of a run that did not issue it was that very row throughout the run |
| `DeliveryTable.OutcomesAreFenced` | internal/webhook/repository.go:199-219 | Complete and Fail change the table exactly when they carry the current token and version of their row, and never another row; an expired claim nobody took over may still finish |
| `DeliveryTable.OutcomesAreOrdered` | internal/webhook/repository.go:190-224 | Of two effective outcomes of one delivery the earlier is a retryable failure with a strictly smaller version, so at most one Complete takes effect |
| `DeliveryTable.ClaimDecidesOnce` | internal/webhook/repository.go:190-224 | One claim decides at most one outcome in a whole run, even if its row is pruned and the id stored anew |
| `DeliveryTable.ClaimReadsItsOwnRow` | internal/webhook/repository.go:178-187 | With other workers between the update, the Find and the fence read, a fence read that succeeds proves the Find returned the very row the update wrote, with the payload from before it |
| `DeliveryTable.CreateStoresOneRow` | internal/webhook/repository.go:79-89 | An event created any number of times for one endpoint leaves one row |
| `DeliveryTable.LeaseExcludesClaims` | internal/webhook/repository.go:156-160 | While a claim's lease lasts no other claim takes its row: until the claim's own outcome the row stands as claimed |
| `DeliveryTable.KeysAreKept` | internal/webhook/repository.go:61-240 | Only Prune and the deletion of the instance remove rows, and no row changes its tenant, event or endpoint |
| `DeliveryTable.CascadeTakesEndpoints` | database/migrations/20260825_0003_create_webhook_deliveries.go:42-46 | Deleting an instance takes exactly the tenant's rows at its endpoints |
| `DeliveryStore.Store.Create` | internal/webhook/repository.go:61-90 | A malformed endpoint id is refused and stores nothing; an id or a key (tenant, event, endpoint) that is taken already is ignored with Ok(false); otherwise the new row is pending and carries the item's URL, body and every header plus its own id in `X-Arandu-Delivery-ID`, and every other row stands |
| `DeliveryStore.Store.Find` | internal/webhook/repository.go:92-143 | Finds a row only under its own tenant and tells it field by field under its own id; a row without an event id goes by its own id; a failing statement or undecodable headers are an error of their own |
| `DeliveryStore.Store.Claim` | internal/webhook/repository.go:145-188 | Takes a row exactly when it is the tenant's, not delivered, not permanently failed and under no running lease, and writes token, version, lease and attempt; a claim handed out names that delivery, field by field as it was read while its own token was current, numbered by the version it fences with; a lost fence is an error; a claim that took nothing answers "not found" exactly for missing or final rows |
| `DeliveryStore.Store.Complete` | internal/webhook/repository.go:190-208 | Takes effect exactly under the tenant, token and version of the row, which then is delivered with its payload wiped, status and times recorded and the claim cleared, and changes nothing else; otherwise success is reported only if the delivery is gone, and a stale claim if it is not or the lookup fails |
| `DeliveryStore.ClaimAndComplete` | internal/webhook/repository.go:145-208 | A claim that is handed out can be completed: completing it at once answers success and leaves the named row delivered with the status and time given |
| `DeliveryStore.Store.Fail` | internal/webhook/repository.go:210-224 | Takes effect exactly under the tenant, token and version of the row, records the failure, keeps the payload, and leaves the row claimable unless the failure is permanent |
| `DeliveryStore.Store.RequireCurrentClaim` | internal/webhook/repository.go:265-277 | An outcome that changed no row is a success if the delivery is gone, and stale if it still exists or the lookup fails, whatever runs in between |
| `DeliveryStore.Store.Prune` | internal/webhook/repository.go:226-240 | Removes exactly the tenant's rows created before the cutoff, of any status, keeps all others as they are, and counts the removed |
| `MentionAll.StepKeeps` | internal/message/processor.go:176-352 | Every atomic step of queue, handlers and crashes keeps the outbox invariant: a stored snapshot is undecided and guarded by its cleanup job, jobs belong to their process, outcomes are unique and sound, and every run in flight knows what it relies on |
| `MentionAll.RunKeeps` | internal/message/processor.go:135-352 | Every run keeps the outbox invariant |
| `MentionAll.SettleKeeps` | internal/message/processor.go:263-352 | The four finalizing transactions keep it, also when the cleanup handler runs while the message handler is in flight |
| `MentionAllProperties.OneOutcomePerProcess` | internal/message/processor.go:263-308 | Over every run with crashes, retries, rollbacks and a concurrent cleanup job a process commits at most one outcome; a stored snapshot means none yet; a committed success has its message row under the enqueued id as long as its instance exists |
| `MentionAllLosses.StoredUntilDecidedOrDiscarded` | internal/message/processor.go:197-352 | Over every run the snapshot of a process is stored exactly when it was neither discarded nor decided |
| `MentionAllLosses.NothingElseLosesAProcess` | internal/message/processor.go:197-352 | Without a discard (expiry, undecodable columns, cleanup, deletion of the instance) a process is pending or has its outcome, never neither and never both |
| `MentionAllLosses.WhenOutcomesAreLost` | internal/message/processor.go:197-352 | Over every run, overtaken attempts included, a process ends without any final result exactly when its snapshot was discarded and no attempt committed an outcome |
| `MentionAllLosses.DiscardedIsLost` | internal/message/processor.go:310-352 | When no discard overtakes an attempt, a discard alone decides |
| `MentionAllLosses.OvertakenAndCrashed` | internal/message/processor.go:310-338 | A failing input: a cleanup overtakes an attempt, which then crashes |
| `MentionAllLosses.OvertakingState` | internal/message/processor.go:197-240 | The state it starts from is reached: the attempt is under way and the cleanup job has found the snapshot |
| `MentionAllLosses.OvertakenAttemptDecides` | internal/message/processor.go:332-337 | An attempt that a cleanup overtook can still commit the outcome afterwards |
| `MentionAllLosses.ExpiryLosesTheOutcome` | internal/message/processor.go:228-233 | A failing input: an expired snapshot is removed and no outcome is recorded |
| `MentionAllLosses.CleanupLosesTheOutcome` | internal/message/processor.go:310-338 | A failing input: the retention job removes the snapshot and no outcome is recorded |
| `MentionAllLosses.DeletionLosesTheOutcome` | database/migrations/20260825_0004_create_message_jobs.go:45-48 | A failing input: the deletion of the instance takes the snapshot along |
| `MentionAllLosses.WhenFailedMeansUnsent` | internal/message/processor.go:240-260 | Over every run a process is committed as failed although it was sent exactly when an attempt, final or the last one, commits its failure after a message of the process was taken |
| `MentionAllLosses.WhenSendsAreOnRecord` | internal/message/processor.go:240-260 | Throughout a run all sends of a process are on record as its success, or about to be, exactly when no message was taken and reported failed and no attempt with an accepted send crashed or rolled back |
| `MentionAllLosses.UnmuddledFailuresAreUnsent` | internal/message/processor.go:240-260 | In such a run "failed" means "not sent" |
| `MentionAllLosses.StepKeepsClear` | internal/message/processor.go:240-260 | One step keeps all sends on record exactly when it is none of those faults |
| `MentionAllLosses.SentAndFailed` | internal/message/service.go:433-442 | A failing input: the last attempt's message is taken, the call reports an error, and the failure is committed |
| `MentionAllProperties.SnapshotsAreNeverOrphaned` | internal/message/processor.go:176-184 | At every point of every run a stored snapshot has its cleanup job in the queue |
| `MentionAllProperties.OutcomesOnlyGrow` | internal/message/processor.go:263-308 | No step withdraws or changes a committed outcome |
| `MentionAllProperties.OneMessageIdPerProcess` | internal/message/service.go:433-435 | All sends of one process carry the message id stored when it was enqueued |
| `MentionAllProperties.NoSendAfterTheRowExists` | internal/message/service.go:374-378 | No attempt begun after the message row exists sends again, whatever else runs short of deleting the instance and its rows |
| `MentionAllProperties.AttemptsAreCounted` | internal/message/processor.go:247-253 | In a run without faults the attempts recorded on the message job of a stored snapshot are exactly those begun |
| `MentionAllProperties.RemovedWithinFiveAttempts` | internal/message/processor.go:197-261 | In a run without faults, and without the deletion of an instance, a process begins at most five attempts; after the fifth it has lost its snapshot and cleanup job; five minus the attempts begun is the measure |
| `MentionAllProperties.FaultFreeRunsAreOnTrack` | internal/message/processor.go:172-175 | Every state a fault-free run reaches is one the progress result applies to |
| `MentionAllProperties.ErrorsLeaveAttempts` | internal/message/processor.go:247-253 | Without a fault a handler returns an error only with attempts to spare or when the snapshot is gone |
| `MentionAllHandlers.AttemptIsARun` | internal/message/processor.go:197-261 | The handler's attempt is a piece of a run, so everything proved of runs holds of it |
| `MentionAllHandlers.AttemptRetries` | internal/message/processor.go:247-253 | The same of one attempt on values: who retries, who commits which outcome, by the answers of instance, message row and send |
| `MentionAllHandlers.CleanupIsARun` | internal/message/processor.go:310-338 | The cleanup handler is a piece of a run too, and takes the snapshot and its message job or nothing |
| `MentionAllHandlers.Vanished` | internal/message/processor.go:197-227 | A snapshot that is gone ends the job well, except between the two reads of one that does not decode, which is an error |
| `MentionAllHandlers.WhatIsBlank` | internal/message/processor.go:340-347 | Which job ids are skipped as blank: those of Unicode white space only |
| `MentionAllHandlers.Finishing` | internal/message/processor.go:172-175 | A job leaves the queue with a nil return; an error leaves it for another attempt unless it was the fifth of a message job, which becomes a dead letter; a cleanup job never does |
| `MentionAllHandlers.GivingUp` | internal/message/processor.go:172-175 | Crashes use up attempts too: a message job with five recorded is given up without running |
| `MentionAllHandlers.Deleting` | database/migrations/20260825_0004_create_message_jobs.go:45-48 | Deleting an instance takes exactly its snapshots and message rows and leaves jobs and outcomes; echoes are stored only for instances that exist |
| `MentionAllHandlers.TakingUp` | internal/message/processor.go:172-175 | Every taking up of a queued job counts an attempt |
| `MentionAllHandlers.Processor.Enqueue` | internal/message/processor.go:176-184 | Snapshot, message job and cleanup job are stored together or, on any failing statement or taken key, not at all |
| `MentionAllHandlers.Processor.FinalizeSuccess` | internal/message/processor.go:263-286 | Message row, outcome, removal of the cleanup job and of the snapshot commit together or not at all; a message row that must be inserted and is already there, or whose instance is gone, prevents it |
| `MentionAllHandlers.Processor.FinalizeFailure` | internal/message/processor.go:288-308 | The failure outcome commits together with the removal of cleanup job and snapshot, or not at all |
| `MentionAllHandlers.Processor.RemoveSnapshotAndJobs` | internal/message/processor.go:340-352 | Removes the snapshot and both jobs, skipping blank ids, or nothing; no outcome is recorded |
| `MentionAllHandlers.Processor.HandleCleanup` | internal/message/processor.go:310-338 | Removes the snapshot and its message job, or on any error nothing; a missing snapshot counts as done |
| `MentionAllHandlers.Processor.ProcessMentionAll` | internal/message/service.go:365-449 | Sends only when no message row exists; a changed instance or an undecodable snapshot is final, every other problem is retried |
| `MentionAllHandlers.Processor.Handle` | internal/message/processor.go:197-261 | A nil return means the snapshot is gone and an error that nothing was committed; an attempt adds at most one outcome and one send; a curable failure of attempts one to four keeps the snapshot and commits nothing, from the fifth on it commits the failure, a failure no attempt can cure is committed at once, and an expired snapshot is removed without an outcome |
| `Passkey.ChallengeLifetime` | internal/whatsapp/pairing.go:219-231 | A challenge lives more than no time and at most fifteen minutes, exactly as long as the key asks when that is positive and no longer |
| `Passkey.WhenLifetimeIsAsAsked` | internal/whatsapp/pairing.go:219-231 | Exactly when a challenge lives as long as its key asks: always for a timeout within the cap, otherwise when the product in 64 bits falls on the same side |
| `Passkey.HugeTimeoutWraps` | internal/whatsapp/pairing.go:223 | A failing instance: a timeout of about 584 years wraps to less than a millisecond |
| `Passkey.WhenAssertionsAreAccepted` | internal/whatsapp/pairing.go:141-167 | An assertion is accepted exactly when it answers the awaited challenge in time and is well formed; the "already used" answer is unreachable, a second submission meets the wrong state |
| `Passkey.QrKeepsSound` | internal/whatsapp/pairing.go:80-202 | Whatever the QR channel writes, an awaited challenge stays unconsumed and has a key and an id |
| `Passkey.PairingSession.RequestChallenge` | internal/whatsapp/passkey.go:100-145 | A client that is not connected or is logged in already is refused; otherwise an open challenge is answered as it is, a session that is new, idle, failed or expired, or whose challenge ran out, fetches a new one, and every other state is refused; a new challenge is unconsumed under the fresh id and ends exactly when its key asks; a failed fetch leaves the pairing failed with its reason, whatever the QR channel wrote meanwhile; the mutex is left as found |
| `Passkey.PairingSession.SubmitAssertion` | internal/whatsapp/passkey.go:157-190 | Refuses a client that cannot be paired; otherwise sends exactly when the awaited challenge accepts the assertion, and answers every other case with its own error in the order of the checks; WhatsApp's answer then decides the state whatever the QR channel wrote meanwhile; a refused submission changes nothing but an expired challenge |
| `PasskeyRuns.StepKeepsSingleUse` | internal/whatsapp/pairing.go:141-167 | Every step of commands, QR channel and confirmations keeps each accepted id from being open again |
| `PasskeyRuns.StepKeepsSentOnce` | internal/whatsapp/passkey.go:165-182 | Every step keeps each accepted id sent at most once |
| `PasskeyRuns.RunKeeps` | internal/whatsapp/pairing.go:80-202 | The invariants hold over every interleaving |
| `PasskeyRuns.RequestIdsAreSingleUse` | internal/whatsapp/passkey.go:91-191 | Given fresh ids, each request id is accepted and sent at most once over every interleaving, and an awaited challenge is unconsumed with a key and an id |
| `PasskeyRuns.OneCommandAtATime` | internal/whatsapp/passkey.go:160-163 | At most one command at a time is past the command mutex |
| `PasskeyRuns.WhatRequestsLeave` | internal/whatsapp/passkey.go:100-145 | The steps of a challenge request: the states that fetch, what a key, no key or a failed fetch leaves |
| `PasskeyRuns.WhatAnswersLeave` | internal/whatsapp/passkey.go:157-190 | The steps of a submission and a confirmation: what is taken, sent, and left by either answer of WhatsApp |
| `PasskeyRuns.WhatTheChannelLeaves` | internal/whatsapp/pairing.go:80-202 | The QR channel writes at any time, whoever holds the mutex: a new challenge, a failure, the completion, a confirmation that then waits for the mutex |
| `PasskeyRuns.SubmissionsNeverUndoConfirmation` | internal/whatsapp/service.go:1769-1782 | Once the confirmation is sent, no steps of submissions or challenge requests, whenever they began, move the pairing: only the QR channel or another confirmation does |
| `PasskeyRuns.WhenConfirmationsAreUnanswered` | internal/whatsapp/pairing.go:169-181 | "Awaiting confirmation implies a consumed challenge" fails in a run exactly when a confirmation, or the acceptance of an assertion, meets an unconsumed challenge |
| `PasskeyRuns.WhenConsumptionIsKept` | internal/whatsapp/pairing.go:80-91 | One step keeps the challenge being answered or confirmed consumed exactly when the QR channel neither confirms an open one nor replaces one being answered |
| `PasskeyRuns.WhenAnsweredChallengesStayConsumed` | internal/whatsapp/passkey.go:160-182 | The same over every run from a new session |
| `PasskeyRuns.ConfirmationWithoutSubmission` | internal/whatsapp/pairing.go:175-181 | A failing input: the QR channel confirms an open challenge |
| `PasskeyRuns.IdleIsNeverReached` | internal/whatsapp/pairing.go:14-24 | The documented idle state is never reached |
| `PasskeyRuns.OvertakenSubmission` | internal/whatsapp/passkey.go:165-182 | Another: a second challenge replaces the first while its assertion is being sent, and the acceptance then stands beside an unanswered challenge |
| `QrConsumer.Consume` | internal/whatsapp/service.go:1440-1589 | The consumer stops at the first turn that ends the pairing; a code met by one of the five passkey states adds nothing and every other drawn one is shown in its place, at most as many as the limit; it hands its caller the first code or else the failure and never both, and hands nothing exactly when the pairing succeeds before any code |
| `QrConsumer.TurnsEndOrGoOn` | internal/whatsapp/service.go:1525-1583 | No turn both completes and fails the pairing, and one that does neither and is no command leaves a passkey pairing under way if one was |
| `QrConsumer.ShownCodesAreNumbered` | internal/whatsapp/service.go:1507-1520 | Shown codes are numbered 1, 2, ... without gaps |
| `QrConsumer.TakenUpCodesAreShown` | internal/whatsapp/service.go:1507-1520 | Every code taken up and drawn is shown, in the place its turn gives it |
| `QrConsumer.PasskeyHidesCodes` | internal/whatsapp/service.go:1501-1506 | Once the pairing is fetching, awaiting or submitting an assertion, or awaiting or having sent a confirmation, no code is shown, whatever the channel brings, further requests and confirmations included, until the pairing ends or a command changes it |
| `QrConsumer.WhichStatesHideCodes` | internal/whatsapp/service.go:1501-1506 | A code adds nothing in exactly those five states, or when it cannot be drawn; in every other state it is shown next |
| `QrConsumer.WhatTurnsLeave` | internal/whatsapp/service.go:1525-1583 | The state each turn leaves: completed after pairing, confirmation sent after a confirmation that went out, awaiting an assertion after a request with a key, failed after the errors, unchanged otherwise |
| `QrConsumer.RequestsHideCodes` | internal/whatsapp/service.go:1556-1569 | A passkey request with a key hides all later codes until then |
| `QrConsumer.WhenTheCallerHearsNothing` | internal/whatsapp/service.go:1514-1531 | The call that started the pairing is never answered exactly when the first turn to end the pairing completes it and no code was drawn before |
| `QrConsumer.PairedBeforeTheFirstCode` | internal/whatsapp/service.go:1525-1529 | A failing input: the phone pairs before the first code arrives |
| `ContactSyncs.RunningSyncsAreReachable` | internal/whatsapp/service.go:1389-1438 | Over every interleaving a sync still running is its instance's registered one, cancelled already, or held by the call about to cancel it |
| `ContactSyncs.StepKeeps` | internal/whatsapp/service.go:1389-1438 | Every step keeps that |
| `ContactSyncs.OneSyncPerInstance` | internal/whatsapp/service.go:1395-1400 | No instance has two syncs that are neither cancelled nor about to be |
| `ContactSyncs.OutForGood` | internal/whatsapp/service.go:1396-1399 | A handle that lost its place never gets it back |
| `ContactSyncs.EndedOrCancelledForGood` | internal/whatsapp/service.go:1401-1405 | A sync that returned never runs again, and one that was cancelled stays cancelled |
| `ContactSyncs.ShutdownStopsEverySync` | internal/whatsapp/service.go:1425-1438 | Once all handles were taken out and no call holds one any more, every sync that was running then is cancelled or has returned |
| `ContactSyncs.OnlyItsOwnEndClearsAnEntry` | internal/whatsapp/service.go:1417-1423 | A finishing sync never removes its successor's entry |
| `ContactSyncs.Service.StartContactSync` | internal/whatsapp/service.go:1389-1405 | Registers the new sync and leaves every earlier one of the instance cancelled or about to be |
| `ContactSyncs.Service.CancelContactSync` | internal/whatsapp/service.go:1407-1415 | Takes the entry out under the lock and fires it after the steps of others, and changes nothing else; no sync of the instance from before runs on undisturbed |
| `ContactSyncs.Service.CancelAllContactSyncs` | internal/whatsapp/service.go:1425-1438 | Takes out every handle registered when it took the lock and fires each once, in any order and with others running in between; it changes nothing else |
| `ContactSyncs.Service.ClearContactSync` | internal/whatsapp/service.go:1417-1423 | Clears its own entry and no other |
| `InstancePages.ListPage` | internal/database/repository/instance_repository.go:142-226 | The exact inputs refused as invalid; an absent cursor is never refused, a garbled one always, and any other exactly when it names no stored row; otherwise the next rows past the cursor in order, at most two hundred, with a cursor exactly when more rows follow |
| `InstancePages.CutIsThePage` | internal/database/repository/instance_repository.go:197-224 | Reading one row more than fits gives exactly the page and whether there is another |
| `InstancePages.CursorsRoundTrip` | internal/database/repository/instance_repository.go:247-280 | A cursor handed out is accepted again and names the last row of its page |
| `InstancePages.PagesSkipNothing` | internal/database/repository/instance_repository.go:183-225 | A page is in order, past the cursor, and leaves out nothing up to where the next page goes on |
| `InstancePages.NoRowRepeats` | internal/database/repository/instance_repository.go:142-226 | Following cursors while rows come and go, between pages and between the two statements of a page, gives rows in order and none twice |
| `InstancePages.LastingRowsAreReturned` | internal/database/repository/instance_repository.go:142-226 | Every row present and matching throughout is returned unless a cursor is refused on the way |
| `InstancePages.ReturnedRowsWereThere` | internal/database/repository/instance_repository.go:142-226 | Every returned row was there when some page was read |
| `InstancePages.OnlyVanishedRowsRefuse` | internal/database/repository/instance_repository.go:228-245 | A walk is refused only if a row vanished between the page that named it and the lookup of its cursor |
| `InstancePages.FixedTableIsListed` | internal/database/repository/instance_repository.go:142-226 | On a table that does not change, following cursors ends after exactly the needed number of pages and returns the whole ordered list |
| `InstancePages.PagesIsTheCeiling` | internal/database/repository/instance_repository.go:217-224 | That number is the length divided by the limit, rounded up |
| `Ordering.ListingIsUnique` | internal/database/repository/instance_repository.go:197 | There is one way to list rows by creation time and id |
| `Ordering.ListingSplits` | internal/database/repository/instance_repository.go:193-197 | The list after a listed row is the remainder of the list |
| `MessagePages.ReverseInPlace` | internal/database/repository/message_repository.go:289-293 | The swapping loop reverses the slice |
| `MessagePages.List` | internal/database/repository/message_repository.go:253-299 | Fifty rows unless asked otherwise and never more than two hundred; in both directions the records are ascending: the first rows past the cursor, or the last rows before it |
| `MessagePages.PagesBesideTheCursor` | internal/database/repository/message_repository.go:269-284 | With the cursor on a listed row, the two pages are exactly the windows on either side of it |
| `MessagePages.BackwardUndoesForward` | internal/database/repository/message_repository.go:269-293 | Going forward and then back from the first new row ends with the cursor row |
| `MessagePages.GoneCursorGivesNothing` | internal/database/repository/message_repository.go:278-280 | A cursor whose message is gone gives no rows in either direction |
| `MessagePages.CeilingIsTight` | internal/database/repository/message_repository.go:453-461 | The page count is the total divided by the limit, rounded up |
| `MessagePages.NewestFirst` | internal/database/repository/message_repository.go:321 | The numbered list is newest first, and of two equally old messages the larger id comes first |
| `MessagePages.ListPage` | internal/database/repository/message_repository.go:301-333 | Clamps limit (fifty by default, two hundred at most) and page, computes the offset in 32 bits and asks for that window: the right records whenever the place fits, the totals a second statement counts, and a failure exactly when the wrapped offset is negative on PostgreSQL |
| `MessagePages.WhenPagesAreRight` | internal/database/repository/message_repository.go:321-323 | Exactly when a numbered page holds what it should: its place fits 32 bits, or the wrapped offset as the database reads it is past the end as well |
| `MessagePages.FarPageRepeatsTheFirst` | internal/database/repository/message_repository.go:323 | Page 536870913 with limit 200 wraps to offset 0 and repeats page 1 |
| `MessagePages.FarPageIsRefused` | internal/database/repository/message_repository.go:323 | Page 10737420 with limit 200 wraps below zero: PostgreSQL refuses it and SQLite repeats page 1 |
| `MessagePages.ExistingPagesFit` | internal/database/repository/message_repository.go:323 | No existing page wraps in a list of at most 2^31 - 1 messages |
| `MessagePages.PagesAreTheWholeList` | internal/database/repository/message_repository.go:301-333 | Pages 1 to the last, joined, are the whole list, newest first, when it has at most 2^31 - 1 messages |
| `ConnectionLease.LeaseExcludesOthers` | internal/database/repository/instance_repository.go:600-604 | After an owner acquires, no other owner acquires for two minutes over every run with a clock that never goes back, unless the owner releases |
| `ConnectionLease.LeaseIsKept` | internal/database/repository/instance_repository.go:600-625 | While a lease lasts only the owner's release ends it |
| `ConnectionLease.OwnerReenters` | internal/database/repository/instance_repository.go:603 | The owner gets in again at any time and its lease then reaches further |
| `ConnectionLease.OneReleaseEndsEveryHold` | internal/database/repository/instance_repository.go:623-626 | Acquisitions of one owner are not counted: one release opens the instance to everybody |
| `ConnectionLease.LeasesAreBounded` | internal/database/repository/instance_repository.go:600-626 | In every reachable table owner and end are set together and no lease reaches further than two minutes past the clock |
| `ConnectionLease.LeaseRunsOut` | internal/database/repository/instance_repository.go:603 | Nobody keeps an instance by crashing: two minutes after the last acquisition anyone gets it |
| `ConnectionLease.DeletedRowIsNeverGranted` | internal/database/repository/instance_repository.go:600-604 | A deleted row is granted to nobody, and no acquisition brings it back |
| `ConnectionLease.Locks.TryAcquire` | internal/database/repository/instance_repository.go:587-609 | Reports success exactly when the row exists and is free, expired or the owner's own, and then holds it for two minutes; a malformed id changes nothing |
| `ConnectionLease.Locks.Release` | internal/database/repository/instance_repository.go:611-628 | Clears the owner's own lock and its end, and changes no other row |
| `AddressMappings.UpsertSetsTheAliases` | internal/database/repository/address_mapping_repository.go:72-101 | After an upsert the aliases of the address are exactly the non-empty ones given, every other address keeps its own except those taken over, and other instances keep everything |
| `AddressMappings.UpsertedRows` | internal/database/repository/address_mapping_repository.go:72-98 | Row by row: which rows an upsert leaves and what they say |
| `AddressMappings.StepAgrees` | internal/database/repository/address_mapping_repository.go:72-115 | Every statement keeps all rows of one canonical address equal and no alias empty |
| `AddressMappings.AliasesResolveAlike` | internal/database/repository/address_mapping_repository.go:25-61 | In every reachable table all aliases of one canonical address resolve to the same mapping with the same sorted alias list |
| `AddressMappings.SortedListIsUnique` | internal/database/repository/address_mapping_repository.go:45-47 | A set of aliases has one sorted list |
| `AddressMappings.SortedListExists` | internal/database/repository/address_mapping_repository.go:45-47 | Every set of aliases has such a list |
| `AddressMappings.FirstDifferenceDecides` | internal/database/repository/address_mapping_repository.go:45-47 | The order of that list: the first differing character decides, and a beginning comes before what it begins |
| `AddressMappings.LookupAfterUpsert` | internal/database/repository/address_mapping_repository.go:25-61 | A lookup by any stored alias returns the stored mapping with exactly its aliases |
| `AddressMappings.NoAliasesDeletes` | internal/database/repository/address_mapping_repository.go:79-81 | A mapping without a usable alias deletes the address |
| `AddressMappings.Repository.Upsert` | internal/database/repository/address_mapping_repository.go:63-102 | The delete-then-insert loop leaves exactly that table, or, exactly when one of its statements fails, the old one and an error |
| `AddressMappings.Repository.FindByAlias` | internal/database/repository/address_mapping_repository.go:25-61 | Returns the row of the alias and the sorted aliases of its address as they are at the second statement; with nothing in between the alias is among them |
| `AddressMappings.Repository.DeleteByCanonicalJid` | internal/database/repository/address_mapping_repository.go:104-115 | Removes every alias of the address in this instance and nothing else |
| `ConfigurationCache.AnswersAreRecent` | internal/webhook/configuration_cache.go:71-99 | Over every run each answer, "not found" included, is what the table held at the moment of its read, given inside the window after the fill that remembered it |
| `ConfigurationCache.ReadsAreTrue` | internal/webhook/configuration_cache.go:82-91 | A recorded read is what the table held at that moment of the run |
| `ConfigurationCache.WhenAWriteTakesEffect` | internal/webhook/configuration_cache.go:101-108 | After a committed write and its forget, all later lookups are told what was written exactly when no lookup is in flight that read something else |
| `ConfigurationCache.SetTakesEffect` | internal/webhook/service.go:101-135 | What Set stored is in effect once forgotten, whatever ran between commit and forget, when no lookup of it was in flight at the commit |
| `ConfigurationCache.StraddlingLookupIsStale` | internal/webhook/configuration_cache.go:81-91 | A failing input: a lookup that read before the write and remembers after the forget leaves the old answer in the cache |
| `ConfigurationCache.OthersAreNoticed` | internal/webhook/configuration_cache.go:14-20 | Over every run, another process's write is noticed once a window has passed since, when no lookup of it was in flight |
| `ConfigurationCache.WhatStepsLeave` | internal/webhook/configuration_cache.go:71-108 | A write changes one configuration and a forget drops one entry; nothing else changes or drops either |
| `ConfigurationCache.Webhooks.Set` | internal/webhook/service.go:68-135 | Row and events are written together or not at all; a named event takes its named value and every other keeps its own, an empty naming clears them; the cache entry is gone afterwards, and without another writer or a lookup in flight the new configuration is in effect |
| `ConfigurationCache.Webhooks.Lookup` | internal/webhook/configuration_cache.go:71-99 | Answers from the cache inside the window and from the table as it was read otherwise, whatever others do before the answer is stored; a failed read is not remembered, and a cache that does not take the answer does not change it |

## Left out

- Grants and tenant checks, SQL text and drivers, JSON and the base64url cursor encoding: library calls or one-branch facts; a cursor is modelled as what its text decodes to.
- WhatsMeow, HTTP, image and QR drawing, ffmpeg: foreign code, present only as arguments that answer anything.
- The client hub (`internal/whatsapp/hub.go`) and the map of pairing sessions: each of their properties can be read off one body.
- Delivery rows from before migration 0005: they break the equality of attempts and claim version; the model's rows are born in Create.
- The delivery worker's loop, its retry times and the signing of requests: they live in a library that is not part of this model.
- Whether an outcome's event reaches anyone: an outcome commits also when no webhook endpoint is configured for it.
- Queue back-off times and job time-outs: a run may begin an attempt at any moment, which covers them.
- Of the deletion of an instance only what it takes along is modelled (deliveries, mention-all snapshots, message rows, aliases, the lease); its own checks and the fate of live sessions are not.
- The connection status rows that the QR consumer writes and its clean-up of client, hub and lock: one write per branch.
- `QrConsumer.Consume`: a command that writes the pairing while a passkey confirmation waits for its mutex is modelled as a turn before or after it, so the fields beside the state can differ.
- `Passkey.PairingSession.RequestChallenge`: finding the instance and its session is not modelled, it only refuses.
- `Passkey.PairingSession.SubmitAssertion`: the same.
- `DeliveryStore.Store.Find`: the fallback for rows without an endpoint id is not modelled; Create refuses an empty one, so only older rows need it.
- `ConfigurationCache.Webhooks.Set`: normalizing names and URLs is an argument; the row's id and timestamps are not modelled.
- `AddressMappings.Repository.Upsert`: the created and updated timestamps of the rows are not modelled, nothing reads them back.
- `InstancePages.ListPage`: of a row only its place in the order is modelled, and the name filter arrives trimmed.
- `MessagePages.List`: of a message only its place is modelled; the status updates read per message are not.
- `MessagePages.CeilingIsTight`: the code divides in floating point, which agrees with the integer ceiling for totals up to 2^31 - 1.
- `MentionAllProperties.RemovedWithinFiveAttempts`: bounds the attempts, not the time, because back-off and scheduling belong to the queue.
