# LoRaMapr receiver: durable delivery, tracking and codecs

A Dafny model of the stateful core of the receiver, with proofs of what it keeps. `dafny verify dfyconfig.toml` checks all of it.

**Durable outbox, dispatch and installation rotation.** Accepted deliveries wait in one bucket and move to a quarantine
bucket; beside them are a byte-ordered due index, two counters, a dispatch pause, a rotation journal and a cached binding.
`Outbox.dfy` gives every transaction as a function of the records, `OutboxStore.dfy` is the store itself, which updates
index and counters step by step and is proved to make those transactions. `OutboxInvariant`, `OutboxRuns`, `OutboxHistory`
and `OutboxLaws` hold what every transaction and every run keep, where a crash is a step that reopens the store, and
`OutboxEffects` what each transaction achieves and exactly when it can.
`Dispatch`, `DispatchEffects`, `DispatchLaws`, `DeliveryRuns` and `StaleAnswers` add the dispatcher, `OutboxEngine` the
staging goroutine, `InstallationRotation` and `RotationLaws` the four-phase rotation across two stores with a crash between
any two durable writes, and `Pairing`, `PairingEffects` and `PairingLaws` the pairing phases on top of it.

**MeshCore telemetry and tracking.** `TelemetryArbiter` has the sections under the arbiter's lock and `TelemetryLaws` lets
them interleave with callers, timers and the session reader; `TelemetryEffects` says which response
belongs to whom. `TelemetryRF` associates raw frames with tagged responses.
`RouteRecovery`, `TrackingSchedule`, `PollingLoop`, `Tracking` and `TrackingHistory` are the stale-route latch, the polling
intervals, the loop, the controller and its history of polls.
`RoutePath` is the compact path encoding.

**Home auto session.** `HomeAutoSession` describes start and stop control with debounce, cooldown, a persisted pending
action and restart reconciliation; `HomeAutoModule` is the module, `HomeAutoEffects` says
what calls for which action, and `HomeAutoLaws` has the run properties.

**Meshtastic native codec.** `ProtoVarint`, `ProtoFields` and `FrameScanner` decode varints, fields and frames, each loop
proved against a recursive description for which the round trips are proved.

Throughout, a class holds what the source keeps in a mutable object. Its methods are proved to be steps of functions on
values, and the run properties are proved about those functions. Times are nanoseconds as integers, and where the source
reads a clock or calls the cloud, the reading and the answer are parameters.

Some properties do not hold as one would first state them. For each there is an input on which it fails and the exact
condition under which it holds:

- A delivery can be deleted unposted when its identifier is accepted anew while the answer to a pruned predecessor of the
  same identifier is outstanding (`StaleAnswers.StaleAnswerDeletes`). `DeliveryRuns.KeptExactlyWhenHandFits` gives the
  states in which that cannot happen, and `DeliveryRuns.AcceptedIsKept` says that it never does to fresh identifiers.
- Reopening the outbox can pass the byte bound (`OutboxLaws.ReopenCanExceedBytes`); `OutboxLaws.ReopenKeepsBounds` says
  exactly when it does not.
- Recovery of a rotation can leave a delivery of the old installation waiting, when the writer took it from the stage after
  the quarantine write (`RotationLaws.LateRecordIsLeft`, `RotationLaws.LateRecordCanBeLeft`).
  `RotationLaws.RecoveryFromAnyCrashPoint` says that these are the only ones, and `RotationLaws.ReconcilingSetsLateAside`
  what becomes of them.
- A rotation whose last journal write fails while the process goes on leaves a gap. A receiver that pairs in it and submits
  another code before a restart activates the same installation identity twice. `PairingLaws.NoIdentityActivatedTwice` and
  `PairingLaws.SubmittingBoundInTheGapActivatesTwice` show that submitting while bound in that gap is exactly what has to be
  avoided, and `PairingLaws.GapIsReachable` how one gets there.
- A tracking policy with fractions of a second is truncated and can poll faster than its own minimum
  (`TrackingSchedule.FractionsAreLost`); `TrackingSchedule.MinimumIsKeptExactly` says which policies do not.
- Bytes before a frame can swallow it (`FrameScanner.StartPairCanSwallowFrame`); `FrameScanner.GarbageIsSkipped` with
  `FrameScanner.WasteIsExactlyHarmless` says which do not.

## Model

| member | source | states |
|---|---|---|
| OutboxRuns.StepSound | internal/outbox/store.go:97-972 | every transaction and every reopen keeps the invariant (one bucket per record, keyed by its own identifier, states the bucket allows, distinct sequences, cache agreement) and does to each record only what it may: same event, sequence and enqueue time, no way back from quarantine, gone only by delete or by expiry |
| OutboxRuns.RunKeepsInvariant | internal/outbox/store.go:97-972 | the invariant holds after any sequence of transactions and crashes |
| DeliveryRuns.KeptUntilAcknowledged | internal/receiverevents/dispatch.go:62-140 | over every run of enqueues, dispatch transactions, reconciliation, rotation, operator actions, pruning and crashes in any interleaving, a waiting delivery stays in exactly one bucket with everything its caller gave unchanged, until a move deletes it after the cloud has acknowledged a request that carried it, or removes it to make room at least the retention after the move that quarantined it; what the dispatcher has in hand under the identifier at the start must fit |
| DeliveryRuns.KeptExactlyWhenHandFits | internal/receiverevents/dispatch.go:85-104 | this holds from exactly the states in which a picked or posted record of the identifier is the one that waits and no acknowledgement of one is already held; for a record picked but not marked, provided that it can be marked |
| DeliveryRuns.OnlyAcceptedAppears | internal/receiverevents/dispatch.go:85-92 | from an empty outbox, only an identifier that was accepted is ever stored or in the dispatcher's hand |
| DeliveryRuns.AcceptedIsKept | internal/receiverevents/prepare.go:28-35 | from an empty outbox and after any run, a delivery accepted under an identifier not accepted before, as the receiver makes them, is kept until acknowledged over every run that follows |
| StaleAnswers.StaleAnswerDeletes | internal/receiverevents/dispatch.go:96-104 | a run from the empty outbox in which an identifier is posted, quarantined, pruned after the retention and accepted again before the answer comes, and the acknowledgement of the first delivery deletes the second |
| DeliveryRuns.DeletesAcknowledged | internal/receiverevents/dispatch.go:96-104 | the dispatcher deletes only the record it has posted and only after an acknowledgement |
| DeliveryRuns.UninterruptedIsDispatch | internal/receiverevents/dispatch.go:62-140 | the dispatcher's moves with nothing between them make exactly the dispatch |
| OutboxRuns.Conservation | internal/outbox/store.go:754-842 | for the store alone, over any run of its transactions and crashes: a waiting record is still in exactly one bucket unless a delete named it or room was made at least the retention after the step that quarantined it |
| OutboxHistory.RecordsEvolve | internal/outbox/store.go:171-192 | attempts grow by one exactly at a record's own successful retry or pause, its due time moves only at its own retry or when a crash puts it back, its state follows the step, and every record the step does not name is untouched |
| OutboxHistory.AcceptanceStarts | internal/outbox/store.go:97-151 | an accepted record was not there, starts pending under the next sequence, with the given or defaulted times, and leaves the waiting records alone |
| OutboxLaws.StepKeepsBounds | internal/outbox/store.go:97-151 | every run-time operation keeps the count within MaxEvents and the bytes within MaxBytes |
| OutboxLaws.ReopenKeepsBounds | internal/outbox/store.go:864-933 | reopening keeps the count bound always, and the byte bound exactly when what putting inflight records back adds fits into the free room and what expired quarantine leaves |
| OutboxLaws.ReopenCanExceedBytes | internal/outbox/store.go:911-931 | an outbox within its bounds that a reopen takes over the byte bound because a due time gets a fraction of a second, although the word pending is shorter than inflight |
| OutboxLaws.FastPathAgrees | internal/outbox/store.go:622-640 | when the cache names the binding, the full scan it skips would change nothing and succeed |
| OutboxLaws.ReconcileAgrees | internal/outbox/store.go:618-711 | after reconciling, scan or no scan, every waiting record belongs to the binding; matching ones are untouched and the others are in quarantine |
| OutboxLaws.CacheChanges | internal/outbox/store.go:713-752 | the cached principal is set only by reconciling and dropped only by accepting a record of another principal |
| OutboxLaws.PauseChanges | internal/outbox/store.go:194-345 | a stored pause changes only for a strictly larger generation of the right kind, by resolving its own collision, when rotation quarantines its delivery, or when another pause is stored over it |
| DispatchLaws.NeverOverwritesPause | internal/receiverevents/dispatch.go:62-84 | a dispatch never stores a pause over another, and leaves one alone that the caller's generations do not resolve |
| Outbox.FullReconcileAgrees | internal/outbox/store.go:650-705 | a full scan leaves no waiting record of another principal |
| Outbox.Matches | internal/outbox/store.go:640-660 | the keys collected for a move are exactly those of the waiting records the filter wants |
| BucketOrder.DueKeyOrder | internal/outbox/store.go:1053-1059 | byte order of due keys is the order on (time, sequence, identifier), in both directions |
| BucketOrder.DueTimestampOfKey | internal/outbox/store.go:1061-1066 | the time read from a due key is the time it was made from |
| BucketOrder.DueKeyNamesDelivery | internal/outbox/store.go:1053-1059 | two deliveries never share a due key |
| BucketOrder.BigEndianKeepsOrder | internal/outbox/store.go:1111-1115 | fixed-width big-endian encoding followed by more bytes compares as the numbers do, then as the rest does |
| DueIndex.FirstKeyIsEarliest | internal/outbox/store.go:153-169 | the first key of an exact index names the pending record least in time, then sequence |
| DueIndex.AnswerIsNextDue | internal/outbox/store.go:153-169 | the index look-up and a linear scan give the same answer, if any record is due at all |
| DueIndex.ExactRewritten | internal/outbox/store.go:935-972 | taking the old key out and putting the new one in keeps exactly one key per pending record and none for others |
| StoreAgreement.MovedOne | internal/outbox/store.go:440-470 | one round of a quarantining loop keeps records, index, count and bytes in agreement |
| StoreAgreement.PrunedOne | internal/outbox/store.go:820-842 | one round of the pruning cursor keeps them in agreement, whether or not the record has expired |
| StoreAgreement.ResetEnds | internal/outbox/store.go:885-933 | once every record has been visited, the rebuilt index is exact for the reset records |
| OutboxStore.Store.TryEnqueue | internal/outbox/store.go:103-142 | one accepting transaction of the store is the abstract one, with index, count and bytes still exact |
| OutboxStore.Store.Enqueue | internal/outbox/store.go:97-151 | a second attempt is made after pruning exactly when the first found no room |
| OutboxStore.Store.PruneQuarantine | internal/outbox/store.go:801-842 | removes exactly the expired quarantined records; the underflow branch of the counters is never taken |
| OutboxStore.Store.NextDue | internal/outbox/store.go:153-169 | returns the pending record with the least due time and sequence when it is due, and nothing exactly when no pending record is due |
| OutboxStore.Store.MarkInflight | internal/outbox/store.go:171-179 | pending becomes inflight and loses its due key, or the stated error changes nothing |
| OutboxStore.Store.Retry | internal/outbox/store.go:181-192 | the record is pending again at the given time with one attempt more |
| OutboxStore.Store.PauseDelivery | internal/outbox/store.go:194-248 | record and pause are written together or not at all |
| OutboxStore.Store.ClearResolvedPause | internal/outbox/store.go:267-295 | clears by kind and strictly larger generation, refuses unknown kinds |
| OutboxStore.Store.MoveAll | internal/outbox/store.go:440-486 | moves the collected records one by one, and rolls all of them back if any prefix exceeds the byte bound |
| OutboxStore.Store.Collect | internal/outbox/store.go:640-660 | the collecting pass yields the wanted keys, each once |
| OutboxStore.Store.ResolveCollision | internal/outbox/store.go:297-345 | quarantines the paused delivery and removes its pause together |
| OutboxStore.Store.Quarantine | internal/outbox/store.go:516-554 | moves one record with reason and diagnosis |
| OutboxStore.Store.QuarantineByReceiver | internal/outbox/store.go:556-616 | moves every waiting record of a receiver agent and no other |
| OutboxStore.Store.ReconcileBinding | internal/outbox/store.go:618-711 | moves every waiting record of another principal, unless the cache says that there is none |
| OutboxStore.Store.BeginInstallationRotation | internal/outbox/store.go:364-398 | writes an intent journal unless one is unfinished |
| OutboxStore.Store.QuarantineInstallationRotation | internal/outbox/store.go:400-486 | moves the old installation's records, drops a pause among them and advances the journal in one transaction |
| OutboxStore.Store.AdvanceInstallationRotation | internal/outbox/store.go:488-514 | advances only from the expected phase and is idempotent |
| OutboxStore.Store.Delete | internal/outbox/store.go:754-778 | removes from the bucket that holds the record, with its due key and its bytes |
| OutboxStore.Store.RebuildCounters | internal/outbox/store.go:1096-1109 | recounts both buckets |
| OutboxStore.Store.ResetInflight | internal/outbox/store.go:885-933 | inflight records become pending and due now, and the index is rebuilt from nothing |
| OutboxStore.Store.Reopen | internal/outbox/store.go:864-933 | from consistent records and any index and counters, a consistent store |
| OutboxEffects.AcceptsWhenItFits | internal/outbox/store.go:97-151 | a valid input under a new identifier is accepted if and only if it fits as things are or beside the records whose retention is not over, and records leave quarantine only when it did not fit as things were |
| OutboxEffects.RefusesOthers | internal/outbox/store.go:97-151 | an invalid input or a known identifier is refused and changes nothing |
| OutboxEffects.PrunesExactly | internal/outbox/store.go:820-842 | pruning removes exactly the quarantined records whose retention is over |
| OutboxEffects.RewritesExactly | internal/outbox/store.go:171-248 | marking, retrying and pausing succeed exactly on a waiting record, pending for a mark, whose new form fits the byte bound |
| OutboxEffects.ClearsExactly | internal/outbox/store.go:267-295 | a credential pause is cleared exactly by a larger credential or binding generation, a binding pause by a larger binding generation, a collision by neither |
| OutboxEffects.QuarantinedRecord | internal/outbox/store.go:516-554 | quarantining moves that record alone, stamped with the reason, the failure and the time |
| OutboxEffects.ReceiverSetAside | internal/outbox/store.go:556-616 | the same for exactly the waiting records of the receiver agent |
| OutboxEffects.AgentIsNeeded | internal/outbox/store.go:556-616 | an agent that is not named is an error of its own; otherwise only room can be missing |
| OutboxEffects.OthersSetAside | internal/outbox/store.go:640-705 | a scan moves exactly the waiting records of other principals, those of the same installation as needing new credentials and the others as reset |
| OutboxEffects.MovesWhenNothingGrows | internal/outbox/store.go:440-486 | a move of several records is refused only because some record grows by it |
| OutboxEffects.ResolvesExactly | internal/outbox/store.go:297-345 | a collision is resolved exactly for the paused delivery that still waits, and its pause goes with it |
| OutboxEffects.ReconcilesExactly | internal/outbox/store.go:618-640 | an incomplete binding is refused and changes nothing |
| OutboxEffects.RotationDropsPause | internal/outbox/store.go:400-486 | rotation drops a pause exactly when its delivery is among those it moves, and the journal counts these |
| OutboxEffects.BeginsExactly | internal/outbox/store.go:364-398 | a rotation begins between two named, different installations, and an unfinished one is left as it is |
| OutboxEffects.AdvancesExactly | internal/outbox/store.go:488-514 | a journal moves from the expected phase and no other, and is not moved twice |
| OutboxEffects.DeletesExactly | internal/outbox/store.go:754-778 | deleting succeeds exactly on a known record and touches no other |
| OutboxEffects.ReopensExactly | internal/outbox/store.go:885-933 | after a reopen exactly the inflight records are pending and due now, and the others are what they were |
| Dispatch.ActionsByAnswer | internal/receiverevents/dispatch.go:142-195 | which answers pause, pair again, stop, quarantine or retry, and which kind of pause, each in both directions |
| Dispatch.RetryDelayDoubles | internal/receiverevents/dispatch.go:208-220 | two seconds, doubled by each of the first five attempts, then constant |
| Dispatch.DispatchWith | internal/receiverevents/dispatch.go:62-140 | the dispatcher over the store is the dispatch function: pause check, reconcile, pick, mark, post, settle |
| DispatchLaws.DispatchIsRun | internal/receiverevents/dispatch.go:62-140 | a dispatch is a sequence of store transactions, so every run law applies to it and to a crash between any two of them |
| DispatchLaws.DispatchKeepsInvariant | internal/receiverevents/dispatch.go:62-140 | a dispatch keeps the outbox invariant |
| DispatchLaws.PostsSafely | internal/receiverevents/dispatch.go:62-105 | an uninterrupted dispatch posts only with no pause stored, and only a due record of the caller's principal that is already durably inflight |
| DispatchLaws.DispatchMakesProgress | internal/receiverevents/dispatch.go:85-140 | a dispatch without error never adds due or inflight records, and a post either lowers the number due or leaves a pause the binding does not resolve |
| DispatchLaws.PauseBlocks | internal/receiverevents/dispatch.go:62-84 | an unresolved pause makes a dispatch a no-op that posts nothing |
| DispatchLaws.DrainIsBounded | internal/receiverevents/dispatch.go:62-140 | at one time and binding, any number of error-free dispatches post at most as often as there were due records, and add nothing inflight |
| DispatchEffects.AnswerIsActedOn | internal/receiverevents/dispatch.go:96-140 | by the fields of the answer: acknowledged is deleted; retryable, 429, 5xx and transport failures are pending with one attempt more and due after the time asked for or two seconds doubled by at most five attempts; 401, 403 and a 409 collision leave a pause of their kind with the binding's generations; any other 4xx is in quarantine with that answer's reason and failure |
| DispatchEffects.OneKind | internal/receiverevents/dispatch.go:142-195 | every answer is of exactly one of these kinds |
| DispatchEffects.BrokenOnlyForRoom | internal/receiverevents/dispatch.go:96-140 | once posted, a dispatch breaks off only because the record's new form does not fit |
| DispatchEffects.PostsFirstDue | internal/receiverevents/dispatch.go:62-95 | with no pause and a reconciled binding, a dispatch posts the earliest due record if its mark fits, and has it durably inflight by then |
| InstallationRotation.Rotator.RotateInstallation | internal/runtime/installation_rotation.go:34-61 | takes up an unfinished journal or begins a new one, then resumes |
| InstallationRotation.Rotator.Recover | internal/runtime/installation_rotation.go:63-79 | nothing without a journal, a check of a completed one, otherwise resume |
| InstallationRotation.Rotator.Continue | internal/runtime/installation_rotation.go:81-160 | falling through the phases is the same as making the remaining durable writes one by one until done or refused |
| InstallationRotation.WritesRunOut | internal/runtime/installation_rotation.go:81-149 | every durable write brings the journal strictly closer to completion and keeps both identities |
| RotationLaws.WriteKeepsUnderway | internal/runtime/installation_rotation.go:81-149 | each phase pins which of the two identities the state can hold, and every write keeps that |
| RotationLaws.ActKeepsUnderway | internal/runtime/installation_rotation.go:81-149 | so does every other outbox transaction or crash between two writes |
| RotationLaws.QuarantineLeavesNone | internal/outbox/store.go:400-486 | the quarantine step leaves no old-installation record waiting and touches no other record |
| RotationLaws.RecoveryFromAnyCrashPoint | internal/runtime/installation_rotation.go:34-160 | from any crash point of a rotation, with any other transactions in between, recovery with byte room ends completed under the identity chosen at the start and unbound, and recovering again changes nothing; a record of the old installation then waits exactly if it was accepted after the quarantine write and has not been deleted or moved since; without room recovery refuses and changes nothing |
| RotationLaws.WaitingIsLate | internal/runtime/installation_rotation.go:81-92 | the same for the crash point itself: past the quarantine write, exactly the records that came late wait |
| RotationLaws.LateRecordIsLeft | internal/outbox/engine.go:230-239 | a record of the old installation that the writer takes from the stage after the quarantine write is left waiting by recovery, wherever after that write the crash falls |
| RotationLaws.LateRecordCanBeLeft | internal/outbox/engine.go:230-239 | such a crash point: two writes of a rotation, one staged record, a crash |
| RotationLaws.ReconcilingSetsLateAside | internal/outbox/store.go:618-711 | the next successful reconciliation under a binding of another installation sets every such record aside |
| RotationLaws.RefusedRecoveryChangesNothing | internal/runtime/installation_rotation.go:81-92 | recovery refuses exactly when the quarantine step has no room, and then leaves both stores as they were |
| RotationLaws.SecondRecoveryChangesNothing | internal/runtime/installation_rotation.go:63-79 | recovery of a completed rotation only reports it |
| RotationLaws.RecoversExactly | internal/runtime/installation_rotation.go:63-79 | without a journal nothing is done, and a completed one is reported if it names the stored identity and refused otherwise |
| Pairing.Manager.SubmitPairingCode | internal/pairing/manager.go:89-128 | rotates first exactly when bound, and takes the code only if that succeeded |
| Pairing.Manager.ApplyLifecycleChange | internal/pairing/manager.go:142-208 | rotates first exactly when bound and deauthorised or replaced, then clears |
| Pairing.Manager.Ask | internal/pairing/manager.go:210-315 | what one pass decides before it calls the cloud: wait, refuse, expire, promote, or ask |
| Pairing.Manager.Answer | internal/pairing/manager.go:249-457 | the update the reply makes on whatever record is then stored |
| Pairing.RetryDelayGrows | internal/pairing/manager.go:496-505 | four seconds after the first failure, doubled up to the fifth, two minutes from the sixth on, and monotone |
| Pairing.RetryWaits | internal/pairing/manager.go:409-434 | after a retryable failure nothing is asked before the delay has passed |
| PairingLaws.EventKeeps | internal/pairing/manager.go:89-457 | code-entered and bootstrap-exchanged mean unbound, the stored identity is bound exactly if it has been activated, and what is being asked is asked for it; every permitted event keeps this |
| PairingLaws.NoIdentityActivatedTwice | internal/pairing/manager.go:89-457 | over any run of submissions, lifecycle changes, replies, broken rotations, restarts and other outbox work with fresh identities, no installation identity is activated twice, provided no code is submitted while bound under a rotation whose last write is missing |
| PairingLaws.SubmittingBoundInTheGapActivatesTwice | internal/pairing/manager.go:95-107 | the proviso is needed everywhere: from every consistent state that breaks it, the submission and one ordinary pairing round activate the stored identity again |
| PairingLaws.GapIsReachable | internal/runtime/installation_rotation.go:137-145 | permitted events alone reach such a state: pair, rotate until the last journal write fails, pair again |
| PairingLaws.FreshInstallation | internal/pairing/manager.go:54-87 | a fresh installation meets the invariant |
| PairingEffects.ChangesExactly | internal/pairing/manager.go:142-208 | a bound receiver that is replaced or deauthorised ends under another identity, unbound, with nothing of the pairing left and its old deliveries set aside; every other change, and every change to an unbound receiver, leaves identity, binding and outbox alone |
| PairingEffects.SubmitsExactly | internal/pairing/manager.go:89-128 | a code of eight characters is taken under a new identity by a bound receiver and under the same one by an unbound receiver |
| PairingEffects.AsksExactly | internal/pairing/manager.go:210-315 | when a request is sent and which, and when a token is given up as expired |
| PairingEffects.AnswersExactly | internal/pairing/manager.go:249-457 | what each reply makes of phase, credentials, identity and the next attempt |
| PairingEffects.RenewsExactly | internal/runtime/installation_rotation.go:95-125 | a rotation leaves a blank record under the journal's new identity |
| PairingEffects.NoIdentityIsRefused | internal/runtime/installation_rotation.go:34-61 | a receiver without an identity cannot begin a rotation |
| OutboxEngine.AccountedStep | internal/outbox/engine.go:77-101 | under every step stageBytes is the queued sizes plus the item in hand and stays within the limit, and nothing is sent on the closed stage |
| OutboxEngine.OrderedStep | internal/outbox/engine.go:224-246 | everything accepted is reported, stored, in hand or staged, in order of acceptance, and the enqueues made are exactly those of the reported and stored |
| OutboxEngine.RunKeeps | internal/outbox/engine.go:77-246 | both, and the replay of the store from its log of transactions, hold over every interleaving |
| OutboxEngine.ClosedMeansDrained | internal/outbox/engine.go:209-246 | when the writer has returned, each accepted delivery was enqueued once and has one result, both in order of acceptance, and no staged byte is left |
| OutboxEngine.CloseTerminates | internal/outbox/engine.go:224-246 | after Close the writer has a move open whenever there is room for a result, and only its own moves use up the work left |
| OutboxEngine.ClosedRunEnds | internal/outbox/engine.go:209-246 | however a run goes on after Close, the writer makes at most the moves it had left, and it has returned exactly when none is left |
| OutboxEngine.StagesExactly | internal/outbox/engine.go:77-101 | a delivery is staged exactly while the engine is open and both bounds of the stage allow it |
| OutboxEngine.Writing.TryStage | internal/outbox/engine.go:77-101 | refuses when closed or when either stage bound would be passed, otherwise accounts for the item it sends |
| OutboxEngine.Writing.Close | internal/outbox/engine.go:209-215 | stops accepting and closes the stage together, once |
| OutboxEngine.Writing.Drain | internal/outbox/engine.go:231-239 | one round of the writer is take, store, release the bytes, publish |
| TelemetryArbiter.Arbitration.RequestTelemetry | internal/meshcore/telemetry.go:230-256 | a request takes its slot only when both slots are free, in the mode the capability allows |
| TelemetryArbiter.Arbitration.RequestReset | internal/meshcore/telemetry.go:185-204 | a reset takes its slot only when both slots are free |
| TelemetryArbiter.Arbitration.FinishTelemetry | internal/meshcore/telemetry.go:618-665 | only the caller that still finds its own request frees the slot, and its tag is kept for 45 seconds |
| TelemetryArbiter.Arbitration.FinishPathReset | internal/meshcore/telemetry.go:577-592 | the same for resets |
| TelemetryArbiter.Arbitration.PruneExpired | internal/meshcore/telemetry.go:667-673 | the deleting loop keeps exactly the tags that have not expired |
| TelemetryArbiter.Arbitration.RecordSent | internal/meshcore/telemetry.go:510-527 | a binary request adopts the tag unless a finished request still owns it |
| TelemetryArbiter.Arbitration.FallBack | internal/meshcore/telemetry.go:481-486 | capability and active request become legacy together |
| TelemetryArbiter.Arbitration.MatchBinary | internal/meshcore/telemetry.go:409-424 | a tagged response belongs to the active binary request with that tag, and to nobody while the tag is expired |
| TelemetryArbiter.Arbitration.MatchLegacy | internal/meshcore/telemetry.go:369-387 | a legacy response is ignored by tagged requests, mismatched by prefix, or accepted |
| TelemetryLaws.NextPlaces | internal/meshcore/telemetry.go:177-287 | the slots exclude each other, and every request is in its slot, being completed or completed once, under every interleaving of callers, timers, cancels, disconnect and reader |
| TelemetryLaws.SendersNeverBlock | internal/meshcore/telemetry.go:577-665 | the one-element channel is empty whenever its completion is sent |
| TelemetryLaws.UnsupportedStays | internal/meshcore/telemetry.go:289-294 | once unsupported, the capability stays so for the session and the active request is legacy |
| TelemetryLaws.NextTags | internal/meshcore/telemetry.go:391-541 | no tag is adopted within 45 seconds of its last owner's end, and a tagged success carries the tag last recorded for its request |
| TelemetryLaws.PrunedRemembers | internal/meshcore/telemetry.go:667-673 | pruning at any past time forgets no tag still within its retention |
| TelemetryLaws.RunKeeps | internal/meshcore/telemetry.go:177-665 | all of this over every run, sessions included |
| TelemetryLaws.EveryRequestCompletes | internal/meshcore/telemetry.go:222-287 | from an idle adapter, when no request is in a slot or on its way, each request issued has exactly one completion |
| TelemetryLaws.NextLegacy | internal/meshcore/telemetry.go:363-389 | every legacy result comes from a response with its prefix that was read while that request was active in legacy mode |
| TelemetryEffects.LegacyExactly | internal/meshcore/telemetry.go:369-387 | a legacy response is accepted if and only if a legacy request is active and the prefix is its target's first six bytes, and mismatched if and only if one is active and it is not |
| TelemetryEffects.TaggedExactly | internal/meshcore/telemetry.go:409-424 | a tagged response has an owner if and only if the active binary request was given that tag and no finished request may still own it |
| TelemetryEffects.RequestsExactly | internal/meshcore/telemetry.go:230-256 | a new request is binary unless the Companion is known not to support it |
| TelemetryEffects.AdoptsExactly | internal/meshcore/telemetry.go:510-527 | a tag is refused exactly to a binary request while a finished one may still own it |
| TelemetryEffects.FinishesExactly | internal/meshcore/telemetry.go:618-665 | finishing the current request frees its slot alone and keeps its tag for 45 seconds |
| TelemetryEffects.FallsBackExactly | internal/meshcore/telemetry.go:477-499 | a rejected binary command makes its request a legacy one exactly when the Companion does not know it, and otherwise fails it |
| TelemetryEffects.SentExactly | internal/meshcore/telemetry.go:500-541 | a confirmed send gives the request its tag; a malformed one, or a tag not free yet, ends it |
| TelemetryEffects.ReadsExactly | internal/meshcore/telemetry.go:448-463 | responses go to their handlers, every other frame first to the reset that may wait for it |
| TelemetryEffects.SnapshotsExactly | internal/meshcore/telemetry.go:305-362 | a request waits for its contact from asking until a snapshot is completed, and nothing else of it changes |
| TelemetryEffects.SessionForgets | internal/meshcore/adapter.go:600-605 | a new session knows nothing of the Companion and owes no tag |
| TelemetryEffects.LegacyIsWrittenOnce | internal/meshcore/telemetry.go:477-499 | the legacy command is written only for the request that is still current, and a failed write ends it |
| TelemetryEffects.ResetsExactly | internal/meshcore/telemetry.go:550-566 | a reset is done exactly when its command was accepted and fails when it was rejected |
| TelemetryEffects.ContactsExactly | internal/meshcore/telemetry.go:448-607 | a waiting route snapshot is completed by its own contact or by any other command response |
| TelemetryEffects.SessionEndFinishes | internal/meshcore/adapter.go:628-629 | the end of a session finishes what is in both slots as disconnected |
| TelemetryEffects.ResponsesFinish | internal/meshcore/telemetry.go:363-424 | what the reader finishes on each response, matched or not |
| TelemetryRF.Correlator.Record | internal/meshcore/telemetry_rf.go:55-70 | the window is always the latest 32 recordable frames in strictly increasing order |
| TelemetryRF.Correlator.Sift | internal/meshcore/telemetry_rf.go:80-98 | the pass over the window finds exactly the frames between the boundaries and those inside the time window |
| TelemetryRF.Correlator.NearestOf | internal/meshcore/telemetry_rf.go:146-156 | the highest sequence |
| TelemetryRF.Correlator.Correlate | internal/meshcore/telemetry_rf.go:75-133 | picks the highest-sequence frame strictly between request and response and inside the time window, or says why there is none, and uses a frame's signal values at most once |
| TelemetryRF.AssociationIsUnique | internal/meshcore/telemetry_rf.go:75-133 | over an increasing window the description of the result leaves a single answer |
| TelemetryRF.NoFrameGivenTwice | internal/meshcore/telemetry_rf.go:124-132 | over a session no frame supplies signal values to two responses |
| TelemetryRF.OutcomesExactly | internal/meshcore/telemetry_rf.go:75-144 | by sequences and times alone: when a frame is selected and which, what each other outcome says there was instead, and what each confidence means |
| TelemetryRF.CandidateValues | internal/meshcore/telemetry_rf.go:55-62 | the signal strength is the third byte and the signal-to-noise ratio the second in quarters, both signed |
| TelemetryRF.WindowsExactly | internal/meshcore/telemetry_rf.go:64-70 | thirty-two frames, and a quarter of a second unless configured |
| RouteRecovery.ResetsAreAmortised | internal/meshcore/tracking.go:588-659 | over every run three times the resets requested is at most the confirmed stale-route timeouts |
| RouteRecovery.LatchHolds | internal/meshcore/tracking.go:604-625 | after an acknowledged reset no further reset is requested until the route changes, a flood is observed, a path update arrives, a poll succeeds on a known route, or tracking restarts |
| RouteRecovery.AcknowledgedLatches | internal/meshcore/tracking.go:646-655 | an acknowledgement latches the route that was reset |
| RouteRecovery.LiftedStartsAfresh | internal/meshcore/tracking.go:857-872 | each of those events does lift the latch, and the next confirmed timeout starts a streak of one |
| RouteRecovery.ThreeTimeoutsReset | internal/meshcore/tracking.go:606-634 | outside an episode the third timeout on one route requests a reset, and not an earlier one |
| RouteRecovery.RefusedResetIsRepeated | internal/meshcore/tracking.go:612-620 | a refused reset is requested again after exactly three further timeouts |
| RouteRecovery.ConfirmedCounts | internal/meshcore/tracking.go:588-611 | a direct timeout over a cached route counts, and another route than the last starts a new streak |
| RouteRecovery.UnconfirmedCountsNothing | internal/meshcore/tracking.go:588-611 | any other failure counts nothing and ends a streak |
| RouteRecovery.SuccessEstablishes | internal/meshcore/tracking.go:902-922 | a success on a known route ends the episode and numbers the route exactly when it is another one |
| RouteRecovery.NoticesAreCounted | internal/meshcore/tracking.go:927-940 | over any run without a restart, path updates are counted one by one |
| TrackingSchedule.NormalisedIsOrdered | internal/meshcore/tracking.go:69-110 | normalising orders any policy and keeps the durations of an ordered one |
| TrackingSchedule.IntervalStaysBounded | internal/meshcore/tracking.go:781-799 | over every run the interval stays between the minimum and the longest interval of the policy; for whole-second policies exactly, otherwise within a second of the minimum |
| TrackingSchedule.FractionsAreLost | internal/meshcore/tracking.go:347-347 | a normalised policy with a fraction of a second whose first interval is below its own minimum |
| TrackingSchedule.MinimumIsKeptExactly | internal/meshcore/tracking.go:1122-1145 | the minimum interval holds over every run exactly for the policies whose motion intervals are not below it once cut to whole seconds; the slow one counts only where some speed is slow |
| TrackingSchedule.BackoffIsExponential | internal/meshcore/tracking.go:781-799 | the k-th failure in a row waits the base doubled k - 1 times, up to the maximum |
| TrackingSchedule.MotionNeedsTwoSamples | internal/meshcore/tracking.go:1094-1111 | a known motion changes only after two agreeing samples in a row |
| TrackingSchedule.SuccessSetsInterval | internal/meshcore/tracking.go:1122-1145 | after a success the interval is the one of the motion that then holds |
| TrackingSchedule.SampleSetsMotion | internal/meshcore/tracking.go:1028-1120 | what a fix makes of the motion: by its speed from an unknown one, unknown without a usable fix, unchanged when rejected or in agreement |
| TrackingSchedule.StartsUnknown | internal/meshcore/tracking.go:321-357 | tracking starts with an unknown motion, at the interval for that |
| TrackingSchedule.FailureSetsInterval | internal/meshcore/tracking.go:781-799 | a session's remote failure keeps the cadence of the motion last known, every other failure backs off |
| TrackingSchedule.TakeOverExactly | internal/meshcore/tracking.go:264-283 | when a change of control source wakes the loop and what it does to the interval |
| TrackingSchedule.DefaultsExactly | internal/meshcore/tracking.go:59-110 | the policy that an empty one becomes |
| PollingLoop.RequestsAreSpaced | internal/meshcore/tracking.go:474-527 | from the loop itself: under every policy that keeps its minimum, requests of a run that nothing wakes are at least the scheduled intervals apart, and k of them span k - 1 minimum intervals |
| PollingLoop.StepHolds | internal/meshcore/tracking.go:474-527 | every step of the loop keeps the next request as far away as the interval read after the last one |
| PollingLoop.WakeUpsCostOneIntervalEach | internal/meshcore/tracking.go:474-527 | over every run, woken w times, k requests span at least k - 1 - w minimum intervals |
| PollingLoop.WakingBreaksSpacing | internal/meshcore/tracking.go:264-283 | that is attained under every normalised policy: a run from the start with one wake-up whose two requests go out at the same time |
| PollingLoop.NextRequestExactly | internal/meshcore/tracking.go:517-527 | a session counts from the start of a tagged request, everything else from the end of the poll |
| PollingLoop.StepsExactly | internal/meshcore/tracking.go:474-527 | the clock of the loop is the time of its last step, outcomes and sessions alone move its schedule, and a wake-up is taken once |
| TrackingSchedule.NormalisedKeepsMinimum | internal/meshcore/tracking.go:69-110 | every normalised whole-second policy keeps its minimum |
| Tracking.TrackingController.Start | internal/meshcore/tracking.go:321-357 | a new generation with everything about routes and motion forgotten, or the stated error and no change |
| Tracking.TrackingController.Stop | internal/meshcore/tracking.go:362-399 | no section of an earlier run is current any more |
| Tracking.TrackingController.RecoverStaleRoute | internal/meshcore/tracking.go:588-631 | the first locked section is the recovery step, and asks for a reset exactly when that step requests one |
| Tracking.TrackingController.FinishReset | internal/meshcore/tracking.go:632-659 | the second section records the answer only for the run that asked |
| Tracking.TrackingController.RearmForNewRoute | internal/meshcore/tracking.go:857-872 | ends an acknowledged episode exactly on evidence of a changed route |
| Tracking.TrackingController.NoteStaleFailure | internal/meshcore/tracking.go:820-833 | counts a streak on one fingerprint |
| Tracking.TrackingController.EstablishRoute | internal/meshcore/tracking.go:902-922 | a success on a known route ends the episode and numbers a changed route |
| Tracking.TrackingController.HandlePathUpdated | internal/meshcore/tracking.go:927-940 | counts notices for the tracked contact only |
| Tracking.TrackingController.FailureInterval | internal/meshcore/tracking.go:781-799 | motion cadence for a session's remote failures, capped doubling otherwise |
| Tracking.TrackingController.ApplyMotion | internal/meshcore/tracking.go:1094-1120 | the hysteresis step |
| Tracking.TrackingController.SetControlSource | internal/meshcore/tracking.go:264-283 | a session take-over restores the motion cadence and wakes the loop unless the adapter is gone |
| TrackingHistory.OneEventPerPoll | internal/meshcore/tracking.go:878-896 | a poll has at most one recovery event, and its own history entry names it |
| TrackingHistory.HistoryNamesEveryEventOnce | internal/meshcore/tracking.go:588-754 | over a run the events the history names are exactly the rearmings and the answered resets that took place, each once and in order |
| TrackingHistory.RouteIsNamedInEpisodes | internal/meshcore/tracking.go:878-896 | without an event an entry names the route taken exactly while an episode is open and the route is known |
| Tracking.KeepsLatest | internal/meshcore/tracking.go:942-947 | the history keeps the last fifty polls |
| Tracking.TrackingController.RecordSuccess | internal/meshcore/tracking.go:661-705 | recovery and schedule both take their success step, and the bounded history grows by one |
| Tracking.TrackingController.RecordFailure | internal/meshcore/tracking.go:707-754 | recovery and schedule both take their failure step, and the bounded history grows by one |
| HomeAutoLaws.StepKeeps | internal/homeautosession/module.go:797-1261 | a pending start means no session, a pending stop means one, neither has the key of the last success of its kind, and memory and state file agree, after every step, crash and restart |
| HomeAutoLaws.StepCarries | internal/homeautosession/module.go:797-1709 | while an action is pending a step calls only for it and under its key, and never puts another in its place |
| HomeAutoLaws.OneKeyWhilePending | internal/homeautosession/module.go:573-1709 | as long as an action stays pending, through retries, cooldowns, new positions, crashes and restarts, every call carries its action and key |
| HomeAutoLaws.CrashInCallIsRemembered | internal/homeautosession/module.go:1041-1049 | a call cut off by a crash leaves its action pending, and a reconciling restart keeps it under the same key |
| HomeAutoLaws.RestoredFits | internal/homeautosession/module.go:573-643 | a consistent state file is never found inconsistent, and a reconciling restart keeps its commitments |
| HomeAutoLaws.NoStartRepeatsTheLast | internal/homeautosession/module.go:993-1121 | over every run no start call carries the key of the last start that succeeded |
| HomeAutoLaws.PromotedFits | internal/homeautosession/module.go:972-991 | what is pending displaces any candidate, and promotion changes no commitment |
| HomeAutoLaws.DelayIsBounded | internal/homeautosession/module.go:2175-2227 | every retry waits between nine seconds and four minutes, jitter included |
| HomeAutoLaws.AttestedPositionsMoveForward | internal/homeautosession/module.go:686-698 | an attested position not newer than the last sighting changes nothing |
| HomeAutoEffects.TransitionsPropose | internal/homeautosession/module.go:669-781 | leaving home proposes a start and drops the stop, coming home the reverse, with node, time and key of the observation; every other position leaves both candidates as they were |
| HomeAutoEffects.PositionsAreRemembered | internal/homeautosession/module.go:669-781 | an observation that counts is remembered of its node alone, and one that does not changes nothing |
| HomeAutoEffects.StartsFollowLeaving | internal/homeautosession/module.go:742-1121 | over every run, a start is called for only for a node seen leaving home, in control mode without a session; with nothing pending that was at least the debounce time ago, except when the call makes up for a start without a session |
| HomeAutoEffects.StopsFollowReturning | internal/homeautosession/module.go:753-1223 | over every run, a stop is called for only during a session, after the debounce, for a node seen coming home or idle inside |
| HomeAutoEffects.CallsExactly | internal/homeautosession/module.go:797-1223 | a round calls the cloud if and only if nothing holds it back, for what stands, and a stop a second time without session ID exactly when that is asked for |
| HomeAutoEffects.DecidesExactly | internal/homeautosession/module.go:797-970 | what a decision tries, from the mode, the clock and what stands |
| HomeAutoEffects.HurriesExactly | internal/homeautosession/module.go:2257-2286 | when a stop that timed out is retried before its cooldown is over |
| HomeAutoEffects.SuccessSettles | internal/homeautosession/module.go:1090-1261 | what an accepted start and an ended session leave behind |
| HomeAutoEffects.StopAnswersSettle | internal/homeautosession/module.go:1180-1261 | a stop is settled by its last answer, and a session the cloud has closed already is taken as stopped |
| HomeAutoEffects.AttemptsExactly | internal/homeautosession/module.go:993-1180 | what an attempt does before any call: suppressed, put off, held back, or its pending action written down |
| HomeAutoEffects.NamesExactly | internal/homeautosession/module.go:1496-1615 | whose start an answer without a session, or with one already active, is taken to be |
| HomeAutoEffects.ErrorsSettle | internal/homeautosession/module.go:1437-1709 | what each kind of error leads to, by what it can be recognised as |
| HomeAutoEffects.DelaysExactly | internal/homeautosession/module.go:2175-2227 | half a minute doubled up to the fourth failure; 10, 20 and 30 seconds for a stop that timed out |
| HomeAutoEffects.JitterIsSmall | internal/homeautosession/module.go:2196-2213 | the jitter moves a delay by up to ten per cent of it, as the hash byte says, and never past its bounds |
| HomeAutoEffects.ResetClears | internal/homeautosession/module.go:404-430 | a reset by hand clears what holds the module back and keeps the session |
| HomeAutoEffects.ReconcilesExactly | internal/homeautosession/module.go:573-643 | a reconciling restart takes up the pending action as the candidate that stands unless it has been done or its session is gone |
| HomeAutoEffects.ReconcilingKeeps | internal/homeautosession/module.go:573-643 | it changes neither the session nor the keys of the last successes |
| HomeAutoEffects.ContradictionHoldsBack | internal/homeautosession/module.go:573-651 | a state file that contradicts itself holds the module back, and one with a session goes on with it |
| HomeAutoEffects.RestartsExactly | internal/homeautosession/module.go:466-571 | without reconciling, session and pending action are forgotten |
| HomeAutoEffects.SavesExactly | internal/homeautosession/module.go:1745-1887 | the state file forgets candidates, positions and the retry class, and nothing else |
| HomeAutoModule.Module.ConsumePosition | internal/homeautosession/module.go:669-781 | facts and candidates from one observation |
| HomeAutoModule.Module.Decide | internal/homeautosession/module.go:797-875 | the guards before anything is tried: disabled, misconfigured, degraded, cooling down |
| HomeAutoModule.Module.DecideWithoutCooldown | internal/homeautosession/module.go:871-970 | stabilisation, promotion, idle stop, debounce and observe mode |
| HomeAutoModule.Module.Evaluate | internal/homeautosession/module.go:797-970 | one evaluation is one round of the state machine, calls and state file included |
| HomeAutoModule.Module.AttemptStart | internal/homeautosession/module.go:993-1121 | suppress, defer, block, or persist the pending start, call and settle |
| HomeAutoModule.Module.AttemptStop | internal/homeautosession/module.go:1123-1180 | the same for a stop |
| HomeAutoModule.Module.SettleStop | internal/homeautosession/module.go:1180-1223 | at most two calls under one key, the second without a session ID |
| HomeAutoModule.Module.HandleCloudError | internal/homeautosession/module.go:1437-1733 | the error cases in the handler's order |
| HomeAutoModule.Module.ReconcileStartup | internal/homeautosession/module.go:573-651 | what a restart makes of the pending action and the session it finds |
| HomeAutoModule.Module.Bootstrap | internal/homeautosession/module.go:466-571 | reconcile the state file, or forget it when reconciling is off |
| HomeAutoModule.Module.ResetDegraded | internal/homeautosession/module.go:404-430 | forgets pending action, candidates and cooldowns |
| HomeAutoModule.Module.Doubled | internal/homeautosession/module.go:2175-2187 | the doubling loop gives thirty seconds to four minutes |
| ProtoVarint.DecodeUndoesEncode | internal/meshtastic/native_serial.go:891-917 | every 64-bit value is read back with its length from its encoding, whatever follows |
| ProtoVarint.EncodeIsShortest | internal/meshtastic/native_serial.go:891-917 | no spelling the decoder accepts is shorter than the encoder's |
| ProtoVarint.DecodesExactly | internal/meshtastic/native_serial.go:891-904 | a varint is read exactly when one of the first ten bytes has no continuation bit, and ends at the first such byte |
| ProtoVarint.DecodeVarint | internal/meshtastic/native_serial.go:891-904 | the shifting loop computes the number its first ten groups spell, modulo 2^64, or the right error |
| ProtoVarint.EncodeVarint | internal/meshtastic/native_serial.go:906-917 | the loop writes the base 128 spelling |
| ProtoFields.FieldUndoes | internal/meshtastic/native_serial.go:833-889 | one field of any wire type is read back from its encoding, whatever follows |
| ProtoFields.DecodeAllUndoesEncodeAll | internal/meshtastic/native_serial.go:833-889 | any list of fields is read back from its encoding, and what follows is decoded as if alone |
| ProtoFields.RoundTrip | internal/meshtastic/native_serial.go:833-889 | decoding inverts the specification encoder on every list of encodable fields |
| ProtoFields.DecodingIsStable | internal/meshtastic/native_serial.go:833-889 | whatever was decoded is encodable, and encoding and decoding it again gives the same fields |
| ProtoFields.ReadsExactly | internal/meshtastic/native_serial.go:833-889 | a field that is read has the number and wire type of its key, and every refusal has its own cause |
| ProtoFields.DecodeProtoFields | internal/meshtastic/native_serial.go:833-889 | the index loop is the recursive decoding, errors included |
| ProtoFields.DecodeFieldBody | internal/meshtastic/native_serial.go:851-883 | the switch on the wire type |
| FrameScanner.GarbageIsSkipped | internal/meshtastic/native_serial.go:124-195 | a frame is returned from behind other bytes, with exactly the bytes behind it left, exactly when those bytes have a discard count and it is within the limit |
| FrameScanner.WasteIsExactlyHarmless | internal/meshtastic/native_serial.go:139-183 | bytes have a discard count exactly when they are noise, lone first start bytes and complete headers of unusable length |
| FrameScanner.WasteBound | internal/meshtastic/native_serial.go:139-183 | the discard count is at most the number of bytes |
| FrameScanner.FramesComeBackInOrder | internal/meshtastic/native_serial.go:124-203 | from a stream of frames with such bytes before each, the payloads come back in order and the bytes after the last are untouched |
| FrameScanner.ResultsExactly | internal/meshtastic/native_serial.go:124-195 | whatever is scanned: payloads within the limit, when the scan says that there are no frames, and how both counts move |
| FrameScanner.FrameShape | internal/meshtastic/native_serial.go:197-203 | two start bytes, the length high byte first, the payload |
| FrameScanner.StartPairCanSwallowFrame | internal/meshtastic/native_serial.go:166-183 | two bytes that form a start pair and end inside a header lose the frame behind them |
| FrameScanner.NativeFrameScanner.NextFrame | internal/meshtastic/native_serial.go:124-195 | the byte loop is the scan, with limits defaulted |
| FrameScanner.NativeFrameScanner.SkipByte | internal/meshtastic/native_serial.go:146-166 | a byte that completes no start pair is held back if it may begin one, and dropped and counted otherwise |
| FrameScanner.NativeFrameScanner.ReadBody | internal/meshtastic/native_serial.go:168-193 | what follows a start pair: frame, end of stream, or resynchronisation |
| RoutePath.RouteIsReadBack | internal/meshcore/route.go:38-55 | every path the compact encoding can hold is read back, whatever fills the buffer |
| RoutePath.AcceptedPathReencodes | internal/meshcore/route.go:38-55 | an accepted path re-encodes to the byte and the bytes it was read from |
| RoutePath.KindsExactly | internal/meshcore/route.go:38-50 | which encodings are a flood, a direct route, a path or invalid |
| RoutePath.DecodeRoute | internal/meshcore/route.go:38-55 | the slicing loop cuts the path bytes into hashes, or names the special cases |

## Left out

- OutboxStore.Store.NextDue: requires fewer than 2^64 records ever accepted; the wrap-around of the stored sequence counter is not modelled.
- OutboxStore.Store.Reopen: corruption recovery by renaming the file, integrity checks and schema versions are not modelled.
- OutboxStore.Store.ReconcileBinding: the counts of records kept and moved are not returned.
- OutboxStore.Store.PruneQuarantine: the number of records removed is not returned.
- Dispatch.DispatchWith: talks to the store directly; an enqueue by the engine goroutine between reconciling and picking is outside `DispatchLaws.PostsSafely`, and times too close to the end of the clock's range are excluded.
- Dispatch.ActionsByAnswer: error texts are not parsed; an answer is given by its retryable flag, status and code.
- Pairing.Manager.Answer: labels, endpoints, configuration versions and flow keys in the cloud part of the record are not modelled, nor is a crash between the cloud accepting an activation and the record being written, after which the cloud can see the activation twice.
- Pairing.Manager.SubmitPairingCode: codes are taken as already trimmed and upper-case.
- InstallationRotation.Rotator.Recover: identifiers are taken as already trimmed, and new ones are parameters that the pairing laws require to be fresh.
- OutboxEngine.ClosedRunEnds: assumes somebody receives results; with a full result channel and no receiver the writer waits for ever, and a closed engine may refuse an operation it has carried out.
- TelemetryLaws.NextTags: assumes a wall clock that does not run backwards within a session.
- TelemetryLaws.NextPlaces: a caller that stops waiting on cancellation does not receive the completion left in its channel; opening, releasing and reconnecting the link are not modelled.
- TelemetryRF.Correlator.Record: the hash of the frame is a parameter; millisecond roundings in diagnostics are not modelled.
- TrackingSchedule.BackoffIsExponential: covers whole-second policies; other policies only have the bounds of `TrackingSchedule.IntervalStaysBounded`.
- DeliveryRuns.KeptExactlyWhenHandFits: a record picked but not yet marked that does not fit is only harmful once it can be marked; whether a later move makes room for the mark depends on the encoded sizes, so the converse supposes it.
- Tracking.TrackingController.RecordSuccess: coordinates, distance and speed are opaque, so a position report arrives already judged; telemetry diagnostics, session diagnostic codes and path-update flags in the status are not modelled.
- HomeAutoModule.Module.ConsumePosition: the distance from home and the boundary margin are opaque, so a position arrives already placed.
- HomeAutoModule.Module.HandleCloudError: error texts are not parsed; an error carries the properties the source reads from it, and the jitter's hash byte is a parameter.
- HomeAutoModule.Module.Persist: the state file is assumed to be written, and a successful start to name a session; summaries, decisions and status codes for display are not modelled.
- ProtoVarint.DecodeVarint: the bit-wise OR of disjoint groups is written as their sum.
- ProtoFields.RoundTrip: the encoder for fields is a specification; the source only encodes one fixed message.
- FrameScanner.NativeFrameScanner.NextFrame: buffering and partial reads of the serial port are not modelled, and an interrupted read ends the stream.
- RoutePath.DecodeRoute: hashes stay bytes; their hexadecimal spelling is not modelled.
- JSON encodings enter only as a size function on records; files and transactions of the embedded database are atomic updates.
- Decoding of Meshtastic messages above the field level, Cayenne LPP payloads, companion framing, lease registry, clock samples and signatures would add straight-line members.
- HTTP, Bluetooth, serial opening, status pages, portal, logging, command line, installation and update code have no property of this kind.
