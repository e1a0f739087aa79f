# The Home Assistant Link credential lifecycle, verified

This Dafny project models how the CLI sets up, reconnects, rolls back and removes
Home Assistant Link, and proves what holds over whole runs of it. The lifecycle works
on four durable stores that are never written together: the profile's record in
`config.json`, the three OAuth slots in the keyring (current, pending, retiring), the
two device-credential slots, and what Home Assistant and the Relay hold (live grants,
accepted devices). Every function on the path is a series of single durable writes, and
any of them can fail, take effect without saying so, or be the last before a crash.

Check it with `dafny verify dfyconfig.toml`.

## How it is built

- `Records`, `GrantCheckpoints`, `DeviceRevocation`: the saved records, their validity
  rules, the revocation checkpoint and the device plan.
- `Protocol`: one durable step (`Effect`), what it does (`Apply`) and after what durable
  state it may come (`Enabled`). It speaks of durable state only, so a crash between any
  two steps needs no step of its own.
- `Invariant`, `Runs`: what every reachable state satisfies, step by step, and the
  theorems over whole runs.
- `Resume`, `RemovalPlan`: what a run decides from the saved state before it acts.
- `Outside`: the world a run acts on. Each step is checked against `Enabled`; a script
  decides what fails, what is lost and where everything stops. In a *reliable* run
  nothing fails, and the contracts then also say how the run ends; `person` is who signs
  in then.
- `SetupRequests`, `Authorization`, `RemoteDevice`, `Promotion`, `Connection`,
  `Removal`, `Holds`: the code itself, method by method, in its order of writes. Because
  every write goes through `Outside`, each method is proved to be a run of the protocol,
  so the theorems of `Runs` hold at each of its crash points.
- `RollbackLimits`, `Scenarios`: where the code does not do what it is for, with the
  exact condition and a concrete reachable run.
- `SecretStore`, `MutationSession`, `SecretAccess`, `SettingsEdit` with
  `OrderedObjects`, `RepairLock`, `InstallSwap`: the independent parts.

## What does not hold

The code is modelled as it is. Six statements one would expect turn out false:

1. A run that rolls back does not always restore the previous connection. It does so if
   and only if the new grant is not promoted, Current's grant was honoured when the run
   began, and the retiring slot was empty then (`RunRestoresExactly`, `RestoredExactly`).
   - Once the new grant is promoted, completing the rollback ends in a ready record that
     describes another grant than the current slot holds (`LateRollbackBreaksCurrent`). It
     takes a Relay that reports another user's device to a run resumed after the promotion.
   - A crash between the copy of Current to the retiring slot and the overwriting of the
     current slot leaves Current's own grant in retiring. The next run revokes it before
     anything else, and a rollback in that run ends ready, with Current in its slot, on a
     dead grant (`RestoredGrantCanBeDead`). A run that connects instead ends with the new
     grant honoured (`Connect`).
2. A rollback cannot begin while a device is marked as activating, because the record's
   own rules do not allow the marker in `rolling_back` (`RollbackBeginsExactly`,
   `MarkedRollbackIsRefused`). The run then ends with an error and the record as it was.
3. Automatic removal cannot always begin. It is refused exactly for a saved sign-in
   without a stored grant (in authorizing or rolling back), for a promoted reconnect
   whose old grant is already retired, for an unknown authorization outcome on a record
   that names no grant (`GrantsBlockedExactly`, `RemovalCanBeBlocked`,
   `UnknownOutcomeBlocks`), and for a device only a missing Current could revoke
   (`DevicesBlockedExactly`). A removal that is cut off never takes a removable profile
   there (`RemoveUntilDone`).
4. The dry run of the device plan is not exact. A remote-only profile in the middle of a
   promotion passes it, and is then refused by the real run's own check of Current
   against the current slot (`DryRunMissesExactly`, `DryRunCanMiss`).
5. A storage hold is not cleared only after it was marked verified. On a ready, healthy
   record it is cleared directly (`ClearHold`, `UnverifiedHoldIsCleared`).
6. A write through an inner handle of the memoizing backend leaves outer caches stale
   exactly when they remember another value (`InnerWriteExactly`).

## Assumptions

- Identifiers, origins and tokens matter up to equality and emptiness. SHA-256 is
  injective. Generations, tokens and device ids are fresh when issued.
- One Relay (`home`) is behind the profile's origin and its local URL during a run.
- A config save is atomic and a failed one has no effect; keyring and remote steps may
  fail although they took effect. A keyring error leaves at most a storage hold behind.
  The clock never runs before an envelope's creation.
- Remote revocation is idempotent (section 2 of RFC 7009) and may be answered as done
  while the grant is still honoured; a code or a refresh with a
  dead grant answers `invalid_grant` (section 5.2 of RFC 6749), and the Relay binds
  exactly the devices it accepts.
- The Relay reports another user's device only while the new grant is not promoted;
  finding 1 says what happens otherwise.
- Somebody revokes grants or devices outside the CLI only before a run or during its
  browser step.
- A platform lock is either plain or, like a Windows mutex, granted again to the thread
  that has it; a crash frees it.
- The empty lifecycle state, an alias of ready in old files, is read as ready. The marker
  flag and its device id are one optional value.
- A lock marker and a rename are written completely or not at all.

## Model

| member | source | states |
|---|---|---|
| Runs.LegalRunHasInv | cli/cloud_config_transaction.go:20-312 | Every sequence of single durable steps, cut off after any of them, keeps the whole invariant of config, keyring, device slots and remote side |
| Runs.ConfigAndKeyringAgree | cli/cloud_config_transaction.go:20-312 | In every reachable state config and keyring agree: a pending slot has its saved Pending; token_stored and cloud_verified have the pending slot; device_bound has Pending's grant in pending or current; committed, retiring and ready have Current's grant in current; ready has no retiring slot; no record, no slots; after a grant checkpoint only checkpointed slots |
| Runs.StoredGrantsAreNeverLost | cli/cloud_oauth_secret_store.go:120-306 | A grant a slot ever held stays in a slot for as long as Home Assistant honours it, and is revoked once the grants are checkpointed or the record is gone |
| Runs.PromotionNeverConflicts | cli/cloud_oauth_secret_store.go:249-251 | The conflict branch of a promotion is never taken in any run |
| Runs.ActivatedDeviceIsNeverLost | cli/cloud_setup_remote.go:127-356 | Every device the Relay accepts is in a slot; a marked one is found by the removal plan, which never stops for a missing or mismatched marked device |
| Runs.EveryCrashResumes | cli/cloud_selected_secret_preflight.go:32-331 | In every crash state no removal has begun on, the slot checks pass and the sign-in resumes with the stored grant, with the promoted one, or from the start, each in exactly the states that call for it |
| Runs.StepsInOrder | cli/cloud_setup_authorization.go:273-281 | Order over one whole history of runs and crashes: an exchange comes after its sign-in was saved, an activation after its device was marked, a device revocation under a grant issued before and never after a removal revoked that grant; what is deleted is revoked or a copy |
| Runs.StoredSignInLives | cli/cloud_setup_authorization.go:134-175 | Nothing the code does on its own kills a grant it still resumes with: without revocations from outside and removals, a stored sign-in stays honoured through every run and crash |
| Resume.CrashStatesResume | cli/cloud_setup_authorization_resume.go:5-89 | The same resumption result for every state with the invariant, as the function of the slots the source computes |
| Resume.ResumedIsBound | cli/cloud_setup_authorization_resume.go:5-89 | For any record and slots: a sign-in resumes only with a stored grant bound to the saved sign-in and this origin, and starts over only where nothing is stored |
| Resume.AcceptedIsBound | cli/cloud_selected_secret_preflight.go:32-378 | For any record and slots: what the preflight accepts is bound to the record that names it |
| RemovalPlan.CheckedIsSound | cli/cloud_authorization_cleanup_plan.go:62-224 | For any record and slots: an accepted plan has every slot proved revoked, or every configured grant in some slot |
| Runs.FreshHasInv | cli/config_cloud.go:166-194 | A profile without Link satisfies the invariant every run starts from |
| GrantCheckpoints.MatchIsEquality | cli/cloud_authorization_revocation_checkpoint.go:213-243 | Checkpoint matching is equality of the whole envelope |
| GrantCheckpoints.CoversExactly | cli/cloud_authorization_cleanup_plan.go:282-318 | A checkpoint validates after exactly the deletions of its own slots; a slot that differs in any field blocks |
| DeviceRevocation.PlanIsExact | cli/cloud_device_revoke_flow.go:113-240 | Targets are exactly the credentials in the slots the checkpoint names, each once; a local pairing is named only when it is the marked device; the record with the checkpoint still loads |
| SetupRequests.SetupRequest.PersistPending | cli/cloud_config_transaction.go:20-48 | Saves Pending of the saved generation or a first one, or leaves copy and disk as they were; succeeds whenever nothing fails |
| SetupRequests.SetupRequest.PersistPendingSignIn | cli/cloud_config_transaction.go:61-75 | A first sign-in is kept in memory with nothing written; one beside a saved Pending is saved at once |
| SetupRequests.SetupRequest.StartSignInCodeExchange | cli/cloud_config_transaction.go:76-88 | Ok means Pending is saved, now or before |
| SetupRequests.SetupRequest.ClearPendingAuthorization | cli/cloud_config_transaction.go:89-119 | Clears Pending of exactly this generation in authorizing, or changes nothing |
| SetupRequests.SetupRequest.AdvancePendingLifecycle | cli/cloud_config_transaction.go:120-143 | Goes up one rank or stays; on a failed save the disk is unchanged |
| SetupRequests.SetupRequest.CheckpointDeviceActivation | cli/cloud_config_transaction.go:144-186 | Marks this device once; another marked device is refused |
| SetupRequests.SetupRequest.ClearDeviceActivation | cli/cloud_config_transaction.go:187-221 | Clears the marker or restores the copy |
| SetupRequests.SetupRequest.CheckpointDeviceBinding | cli/cloud_config_transaction.go:222-260 | Saves the Relay and device_bound in one step, only from rank two or three and never over another Relay |
| Authorization.CleanupAmbiguousPending | cli/cloud_setup_authorization.go:354-386 | A revoked grant's slot is emptied before its Pending is cleared |
| Authorization.CleanupUnstored | cli/cloud_setup_authorization.go:310-352 | Every answer other than the safety stop comes with the grant revoked and verified dead; after an ambiguous store the slot and Pending are cleared too |
| Authorization.StoreNewGrant | cli/cloud_setup_authorization.go:285-306 | Ok: the grant is in the pending slot; otherwise it is no live grant outside the slots, or a safety stop is raised |
| Authorization.HandOver | cli/client_mutation_session.go:75-130 | The other writers have run; the lock counts as taken back exactly onto the config it was given up with, otherwise the run stops |
| Authorization.BrowserSignIn | cli/cloud_setup_authorization.go:203-276 | Ok: Pending with this client and generation is saved and nothing else changed; a first sign-in given up before the exchange leaves no step of its own at all |
| Authorization.ExchangeAndStore | cli/cloud_setup_authorization.go:277-307 | Only a safety stop may leave a live grant that no slot holds |
| Authorization.PickGeneration | cli/cloud_setup_authorization.go:190-202 | The saved generation in authorizing, otherwise one Current does not have |
| Authorization.RefreshStored | cli/cloud_setup_authorization.go:134-175 | Ok exactly for a live grant with nothing changed; a dead one in authorizing is cleared away |
| Authorization.ClearDead | cli/cloud_setup_authorization.go:150-173 | A dead grant is cleared away exactly in authorizing; a clearing that is not proved stops for the Owner |
| Authorization.SignIn | cli/cloud_setup_authorization.go:176-307 | A sign-in from the browser to a stored live grant; succeeds when nothing fails and nobody interferes |
| Authorization.AuthorizeOrRefresh | cli/cloud_setup_authorization.go:127-308 | A live grant in the slot the run works with |
| Authorization.RecordVerified | cli/cloud_setup_authorization.go:95-112 | The slot the grant came from holds the complete verified envelope with the same grant |
| Authorization.SaveStored | cli/cloud_setup_authorization.go:63-69 | Pending describes the stored grant and token_stored is reached |
| Authorization.SaveVerified | cli/cloud_setup_authorization.go:113-120 | Pending describes the verified grant and cloud_verified is reached |
| Authorization.VerifySession | cli/cloud_setup_authorization.go:63-125 | From a live grant to a verified, saved sign-in of the expected Relay |
| Authorization.AuthorizeAndVerify | cli/cloud_setup_authorization.go:19-125 | From any saved state of a sign-in to a verified one with an honoured grant, Current's grant untouched; succeeds for the saved origin when the stored grant is live and nothing fails; a stored sign-in to another origin, or another Relay than expected, is an identity conflict |
| RemoteDevice.DiscardRejected | cli/cloud_setup_remote_recovery.go:8-28 | The marker is gone before the rejected secret is |
| RemoteDevice.PromoteDevice | cli/device_credential_store.go:229-251 | Current is written, then pending deleted; the device is settled |
| RemoteDevice.BindAndPromote | cli/cloud_setup_remote.go:183-202 | Bound is saved before the credential moves to the current slot |
| RemoteDevice.MarkPending | cli/cloud_setup_remote.go:155-165 | The marker is saved before the device can be accepted, and nothing else changes |
| RemoteDevice.ActivatePending | cli/cloud_setup_remote.go:155-203 | Marked, activated, bound and promoted; or, when rejected, unmarked and gone with current untouched |
| RemoteDevice.ResumePendingDevice | cli/cloud_setup_remote.go:127-204 | A pending Cloud credential becomes the current one or is gone; a local pairing is refused and stays |
| RemoteDevice.BindCurrent | cli/cloud_setup_remote.go:240-269 | The current device is bound, when nothing fails exactly if the Relay accepts it, or unmarked |
| RemoteDevice.ReuseCurrentDevice | cli/cloud_setup_remote.go:205-281 | The device slots stay; when nothing fails, true exactly for an accepted device whose Relay is proven; false means no accepted device is overwritten |
| RemoteDevice.PairNewDevice | cli/cloud_setup_remote.go:283-356 | A new device is stored, marked, activated, bound and promoted |
| RemoteDevice.Establish | cli/cloud_setup_remote.go:106-356 | Ok: the device is in the current slot, accepted by the Relay, with no pending duplicate: the pending one, else the current one where it may be reused and is accepted, else a new one; always reached when nothing fails; another Relay is refused with nothing changed |
| Promotion.KeepCurrentAside | cli/cloud_oauth_secret_store.go:249-263 | The current grant has a copy in retiring, and nothing else changed |
| Promotion.OverwriteCurrent | cli/cloud_oauth_secret_store.go:264-273 | The current slot holds the pending grant while pending still has it |
| Promotion.DropPromoted | cli/cloud_oauth_secret_store.go:242-248 | Pending is emptied only beside a current slot with its grant |
| Promotion.PromotePending | cli/cloud_oauth_secret_store.go:223-278 | Completed, the slots are what the store's atomic promotion leaves; cut off anywhere, they are on the way to it |
| Promotion.ReachableSlotsPromote | cli/cloud_oauth_secret_store.go:223-278 | Wherever a run may ask for a promotion, the store's convergence applies to its slots |
| Promotion.PromoteAuthorization | cli/cloud_setup_authorization_resume.go:99-144 | A finished promotion is recognised, a begun one resumed, either with the same result: the current slot holds the honoured new grant |
| Outside.World.RevokeAndVerify | cli/cloud_setup_production.go:217-244 | Ok means the grant was revoked and a refresh with it is refused as invalid, although a revocation may be answered as done without effect |
| Outside.World.VerifyAccess | cli/cloud_session.go:18-127 | Ok: the grant is live and the session is its own person, token and Relay |
| Promotion.RetirePrevious | cli/cloud_setup_production.go:165-196 | Ok: the retiring slot is empty and its grant is dead; current, pending and config untouched |
| Connection.RetireAndFinish | cli/setup_cloud.go:350-363 | Ready, with only the current grant in the slots, honoured as before, and no other stored grant alive |
| Connection.SettleAndFinish | cli/setup_cloud.go:339-363 | The same from committed |
| Connection.CommitConnection | cli/cloud_config_transaction.go:271-312 | Pending becomes Current and the record ready, its grant honoured as before; succeeds when nothing fails |
| Connection.StartRollback | cli/cloud_reconnect_rollback.go:13-25 | rolling_back is saved before anything is revoked |
| Connection.UndoSignIn | cli/cloud_reconnect_rollback.go:34-56 | The pending grant is revoked before its slot is emptied, and nothing else changes |
| Connection.Rollback | cli/cloud_reconnect_rollback.go:8-72 | Exactly the state of `AfterRollback`: ready on the previous connection, whose grant is honoured if and only if it was; succeeds when nothing fails and no device is marked |
| Connection.FinishRollback | cli/cloud_reconnect_rollback.go:57-72 | The record is ready again, or copy and disk stay rolling back |
| Connection.RejectUserChange | cli/cloud_reconnect_identity.go:3-17 | Refused exactly when the sign-in is another person's; only for a reconnect that can still be rolled back |
| Connection.AddRemote | cli/cloud_setup_remote.go:27-104 | Verified, the right device accepted, honoured grant promoted: ready to commit; when nothing fails, a conflict exactly when somebody else signs in; a stored sign-in to another origin is refused |
| Connection.AddExisting | cli/cloud_setup_production.go:87-163 | The same with the paired device |
| Connection.AddDevice | cli/cloud_config_flow.go:119-121 | The same for either kind of run, each with the device it calls for |
| Connection.BindExisting | cli/cloud_setup_production.go:133-162 | A bound credential is the one in the current slot although it was read before the wait |
| Connection.PersistHold | cli/cloud_recovery_hold.go:153-220 | The error's hold, and nothing else, is saved on an unheld record; a held one is left alone; an identity conflict creates no record; a failed save restores the copy |
| Connection.RollbackOrStop | cli/cloud_config_flow.go:122-132 | Back on the previous connection with its grant honoured if and only if it was, or a safety stop to report |
| Connection.FinishEarlier | cli/cloud_config_flow.go:62-101 | A begun rollback or commit is finished first, keeping the current grant; otherwise the retiring grant, and it alone, is dead and gone |
| Connection.OpenSignIn | cli/cloud_config_flow.go:102-118 | An open sign-in: the saved one, a first one, or a reconnect with Current kept |
| Connection.Conclude | cli/cloud_config_flow.go:119-136 | Commits what was achieved, or rolls back a reconnect as somebody else; any other error is reported as it is |
| Connection.CheckIntent | cli/cloud_config_flow.go:302-327 | Ok exactly for a record this kind of run may work on |
| Connection.ExpectedRelay | cli/cloud_setup_remote_identity.go:47-86 | The recorded or locally discovered Relay, empty only without either; a discovery for another origin is an identity conflict |
| Connection.InspectDevices | cli/cloud_device_preflight.go:53-112 | When nothing fails, Ok exactly if no local pairing is pending and a current device comes with a proven Relay; an identity conflict otherwise |
| Connection.RunFrom | cli/cloud_config_flow.go:221-299 | Connected as the same person, to this origin, with an honoured grant and the device the run calls for; or restored, the grant honoured if and only if it was and retiring was empty; or an error to report; when nothing fails, exactly the ending the sign-in calls for |
| Connection.RunOpened | cli/cloud_config_flow.go:102-136 | The same for a run with nothing left to finish |
| Connection.RestoredExactly | cli/cloud_config_flow.go:95-101 | Retiring first, then rolling back, leaves a working grant if and only if it worked and no retiring slot was left |
| Connection.RunExisting | cli/cloud_config_flow.go:14-137 | A whole run with the paired device, with the same endings; a pending device is refused before anything changes |
| Connection.RunRemote | cli/cloud_config_flow.go:139-300 | A whole remote run, with the same endings; a discovery for another origin, a pending local pairing or a current device without a proven Relay is refused before anything changes |
| Connection.Connect | cli/command_cloud_connect.go:248-291 | A whole command. Connected: ready for this origin, as the same person, its grant honoured, its device accepted and the right one, no other stored grant alive. Restored: the previous grant honoured if and only if it was when the run began and retiring was empty. Refused by the record or the devices: at most a hold changes. Failed: the hold the error calls for, and no other, is saved. A sign-in stored for another origin fails. From every crash state whose stored grant is honoured, when nothing fails, it connects, or restores exactly when a rollback was begun or somebody else signs in |
| Connection.StoredSignInAnswers | cli/cloud_setup_authorization.go:134-175 | After every such history, `Connect` finds the stored grant honoured that it needs to succeed |
| RollbackLimits.RollbackBeginsExactly | cli/cloud_reconnect_rollback.go:20-25 | The first save of a rollback is accepted exactly while no device is marked |
| RollbackLimits.RollbackRestoresExactly | cli/cloud_reconnect_rollback.go:57-72 | A completed rollback restores agreement exactly when the new grant was not promoted, and a working connection exactly when Current's grant was honoured besides |
| RollbackLimits.RunRestoresExactly | cli/cloud_config_flow.go:95-132 | The same over a whole run, which retires first: only with an empty retiring slot |
| Scenarios.RestoredGrantCanBeDead | cli/cloud_oauth_secret_store.go:249-271 | A reachable reconnect, cut off before the promotion, whose next run restores a revoked grant |
| Scenarios.LateRollbackBreaksCurrent | cli/cloud_reconnect_rollback.go:57-72 | A reachable reconnect whose rollback would end ready with Current describing another grant |
| Scenarios.MarkedRollbackIsRefused | cli/config_cloud.go:212-235 | A reachable reconnect whose rollback the record's own rules refuse |
| Scenarios.DryRunCanMiss | cli/cloud_device_revoke.go:107-124 | A reachable profile the dry run accepts although no stored grant can revoke its device |
| Scenarios.RemovalCanBeBlocked | cli/cloud_authorization_cleanup_plan.go:165-224 | A reachable profile whose Current grant is in no slot, so that no automatic removal may begin |
| Scenarios.UnknownOutcomeBlocks | cli/cloud_authorization_cleanup_plan.go:165-224 | An unknown outcome held on a record that names no grant blocks its removal |
| Scenarios.UnverifiedHoldIsCleared | cli/command_cloud.go:202-233 | A reachable ready record whose storage hold is cleared without ever being marked verified |
| Scenarios.ReadyIsReachable | cli/cloud_config_flow.go:139-300 | A concrete legal run from a fresh profile to a ready connection |
| RemovalPlan.GrantsBlockedExactly | cli/cloud_authorization_cleanup_plan.go:33-224 | The grant checks refuse exactly three kinds of state, and never report a changed slot |
| RemovalPlan.DevicesBlockedExactly | cli/cloud_device_revoke_flow.go:245-291 | The device checks refuse exactly a device only a missing Current could revoke |
| RemovalPlan.AuthorityExactly | cli/cloud_device_revoke.go:80-226 | A planned target passes the local checks exactly unless it needs Current's grant after the promotion; the grant it uses is stored and was never revoked by a removal |
| RemovalPlan.DryRunMissesExactly | cli/cloud_device_revoke_flow.go:242-291 | What the dry run accepts and the real run refuses locally, exactly |
| Removal.RevokeTarget | cli/cloud_device_revoke.go:80-287 | Ok: the device is no longer accepted and its grant was live; reached whenever the grant is live and nothing fails |
| Removal.RevokeTargets | cli/cloud_device_revoke_flow.go:70-88 | All targets, in order, with nothing durable changed |
| Removal.DeleteCheckpointedDevices | cli/cloud_device_revoke_checkpoint_retry.go:109-141 | Only what the checkpoint names is deleted; taken up again from any prefix; it fails only with a keyring error |
| Removal.RevokeDevices | cli/cloud_device_revoke_flow.go:23-111 | The device phase: revoked, checkpointed, deleted, with slots and grants untouched |
| Removal.AlreadyRevoked | cli/cloud_authorization_cleanup_plan.go:320-332 | True exactly when a grant with the same origin, client and token was sent |
| Removal.RevokeGrants | cli/cloud_authorization_cleanup_plan.go:256-280 | Each distinct grant of the three slots is revoked exactly once, and a refresh with each is refused |
| Removal.CheckpointGrants | cli/cloud_authorization_revocation_checkpoint_persist.go:13-112 | Proof is saved before the first deletion unless there is no slot |
| Removal.DeleteExact | cli/cloud_oauth_secret_exact_delete.go:138-241 | Only the very envelope expected is deleted |
| Removal.DeleteGrants | cli/cloud_authorization_cleanup_plan.go:334-371 | Retiring, pending, current, until the slots are empty |
| Removal.DropPendingCloudDevice | cli/command_cloud_remove_document.go:11-34 | A pending Cloud credential goes, a local one stays; it fails only with a keyring error |
| Removal.DropRecord | cli/command_cloud_remove.go:113-143 | The record goes; the local pairing stays exactly when complete and no checkpoint names the current device, and the Relay exactly with it |
| Removal.RemoveGrants | cli/command_cloud_remove.go:303-322 | Revoke, checkpoint, delete, from whatever an earlier run left |
| Removal.RemovePlanned | cli/command_cloud_remove.go:214-354 | Both phases and the commit: nothing of Link is left; cut off anywhere, a removable profile stays removable |
| Removal.RemoveSettled | cli/command_cloud_remove.go:303-354 | The grant phase and the commit, with the same promise |
| Removal.HoldKeepsRemovable | cli/cloud_authorization_cleanup_plan.go:165-224 | A hold blocks a removal exactly as an unknown outcome on a record that names no grant |
| Removal.NamelessHasNothing | cli/command_cloud_remove.go:195-353 | A removable record that names no grant leaves a removal nothing to revoke |
| Removal.RemoveChecked | cli/command_cloud_remove.go:151-354 | Every check before the first revocation; a refused run changes nothing |
| Removal.RemoveLink | cli/command_cloud_remove.go:72-355 | A completed removal leaves no record, empty slots, no stored grant alive and no accepted device but a local pairing; the pairing stays exactly when no checkpoint names its device, and the Relay exactly with it; it completes on a removable profile when nothing fails; one that fails, at whatever step, leaves a removable profile removable and its stop held; a blocked one changes at most the hold |
| Removal.RemoveUntilDone | cli/command_cloud_remove.go:72-355 | After any number of removals cut off anywhere, the first uninterrupted one completes on every removable profile, leaves nothing of what was there before the first, and keeps of the local pairing and the Relay exactly what was to be kept then |
| Holds.CheckpointReplacing | cli/cloud_recovery_checkpoint.go:91-171 | A hold is placed exactly at the observed record, over nothing, over its verified self, or over the storage hold named; always when nothing fails |
| Holds.TransitionAtSnapshot | cli/cloud_recovery_hold_transition.go:50-129 | Only a storage hold moves, only at the exact record, and to none only when ready |
| Holds.MarkStorageVerified | cli/cloud_recovery_hold_transition.go:10-34 | Exactly the unverified storage hold becomes verified |
| Holds.ClearHold | cli/cloud_recovery_hold_transition.go:36-48 | A storage hold, verified or not, is cleared exactly on a ready record |
| Holds.VerifyHealth | cli/cloud_health_checkpoint.go:119-207 | Healthy only for the unchanged record; when nothing fails, a safety stop is saved on an unheld record or over the storage hold named, a locked keyring sends a verified storage hold back to unverified, and nothing else changes |
| Holds.SettleHold | cli/command_cloud.go:202-233 | A healthy ready record loses the storage hold it was checked for |
| Holds.SafetyHoldsStay | cli/cloud_recovery_hold.go:179-259 | Once a safety stop or an uncertain request is saved, every later record of the run keeps it until the record is dropped |
| Holds.StorageHoldLeaves | cli/cloud_recovery_hold.go:222-259 | Over whole histories a hold stays until the record is dropped or until the one step that replaces a storage hold at a snapshot or clears it on a ready record |
| SecretStore.KeyringStore.Load | cli/cloud_oauth_secret_store.go:326-360 | A value loads exactly as a well-formed envelope of its slot and account |
| SecretStore.KeyringStore.CreatePending | cli/cloud_oauth_secret_store.go:120-160 | A new pending grant, with the generation given or made up, never over a pending or retiring one |
| SecretStore.KeyringStore.UpdatePending | cli/cloud_oauth_secret_store.go:162-183 | The pending envelope of this generation is replaced, creation time kept |
| SecretStore.KeyringStore.UpdateCurrent | cli/cloud_oauth_secret_store.go:185-221 | Only expiry and write time of current can change |
| SecretStore.KeyringStore.PromotePending | cli/cloud_oauth_secret_store.go:223-278 | A completed promotion answers with the grant now in current, of the generation asked for, with pending empty; Missing, InUse, Corrupt and Invalid answer exactly the slots that call for them; cut off, as many of the planned writes as reach the keyring |
| SecretStore.KeyringStore.Rotate | cli/cloud_oauth_secret_store.go:252-277 | The writes of a rotation in order, as far as the keyring goes |
| SecretStore.KeyringStore.RevokeRetiring | cli/cloud_oauth_secret_store.go:280-306 | Retiring is emptied only after its revocation |
| SecretStore.KeyringStore.DeletePending | cli/cloud_oauth_secret_store.go:312-324 | Only the pending slot of this generation |
| SecretStore.PromotionConverges | cli/cloud_oauth_secret_store.go:223-278 | Any number of interrupted promotions and one completed equal one atomic promotion; both grants stay stored, and a present current slot is never empty |
| SecretStore.ConflictExactly | cli/cloud_oauth_secret_store.go:242-251 | A promotion is refused for the slots' sake exactly when the rotation is inconsistent |
| MutationSession.Session.ReleaseIfHeld | cli/client_mutation_session.go:139-149 | Releases a held lock once, otherwise nothing |
| MutationSession.Session.Save | cli/command_cloud_connect.go:257-262 | Refused without the lock; a session in step never overwrites unseen bytes |
| MutationSession.Session.Pause | cli/client_mutation_session.go:75-98 | The snapshot is the file as it is given up |
| MutationSession.Session.Resume | cli/client_mutation_session.go:100-130 | Ok exactly back in step on the unchanged file; on failure nothing is written |
| MutationSession.WithPausableLock | cli/client_mutation_session.go:19-34 | Over whole runs with other writers in every wait, who all get their turn: no lost update, each acquisition released once, and on success the file a run alone would leave |
| SecretAccess.SecretStack.Get | cli/cloud_secret_access_session.go:121-153 | What the keyring holds; the keyring is asked exactly when no caching layer remembers the key, and the answer is remembered |
| SecretAccess.GetTwice | cli/cloud_secret_access_session.go:121-153 | What was read once through a caching layer is answered without the keyring from then on |
| SecretAccess.SecretStack.Set | cli/cloud_secret_access_session.go:155-173 | The write and every layer from here inward, or nothing |
| SecretAccess.SecretStack.Delete | cli/cloud_secret_access_session.go:175-190 | The deletion and every layer from here inward, or nothing |
| SecretAccess.SecretStack.DeleteExact | cli/cloud_oauth_secret_exact_delete.go:243-278 | Past every cache, only the very value; every layer forgets it |
| SecretAccess.SecretStack.MarkDeleted | cli/cloud_oauth_secret_exact_delete.go:55-69 | Every layer from here inward remembers the absence, and unwrapping ends |
| SecretAccess.RunAll | cli/cloud_secret_access_session.go:95-190 | Any sequence of operations, stagings and cache switches answers and does what the bare keyring would |
| SecretAccess.InnerWriteExactly | cli/cloud_secret_access_session.go:155-173 | A write through an inner handle keeps the outer caches right exactly when they remember nothing else |
| SettingsEdit.UndoRestores | cli/claude_settings_edit.go:22-107 | Removing what an add changed, pruning the key it created, restores keys, order and values |
| SettingsEdit.AddIsIdempotent | cli/claude_settings_edit.go:22-107 | Adding twice is adding once |
| SettingsEdit.OtherKeysSurvive | cli/claude_settings_edit.go:22-107 | All other keys keep value and order through add and remove |
| SettingsEdit.AddAppends | cli/claude_settings_edit.go:50-71 | An add appends the missing rules, each once |
| SettingsEdit.RemoveRestores | cli/claude_settings_edit.go:50-71 | Removing appended rules leaves the list as it was |
| SettingsEdit.AddChangesExactly | cli/claude_settings_edit.go:50-71 | An add reports exactly the rules no entry read as |
| SettingsEdit.RemoveExactly | cli/claude_settings_edit.go:50-71 | A remove takes one copy out for each rule as long as there is one, reports exactly the copies taken, and leaves every other entry in its order |
| SettingsEdit.RemoveKeepsOrder | cli/claude_settings_edit.go:50-71 | What is left is the old list less one entry for each reported rule, in its order |
| SettingsEdit.RemoveOfAbsent | cli/claude_settings_edit.go:50-76 | Removing rules no entry reads as changes and reports nothing |
| SettingsEdit.RefusedExactly | cli/claude_settings_edit.go:22-49 | Refused exactly for a permissions value or an allow value of another shape, or a repeated key |
| SettingsEdit.FirstMatch | cli/claude_settings_edit.go:52-55 | The first entry that reads as the rule, or the length |
| OrderedObjects.OrderedObject.Parse | cli/claude_settings_edit.go:115-140 | An object exactly when no key repeats, with its order kept |
| OrderedObjects.OrderedObject.Set | cli/claude_settings_edit.go:142-147 | Replaces in place or adds at the end |
| OrderedObjects.OrderedObject.Remove | cli/claude_settings_edit.go:149-154 | Removes the key, order of the rest kept |
| OrderedObjects.EditClaudeAllow | cli/claude_settings_edit.go:22-107 | The in-place edit computes the edit the laws are proved about, shape errors included |
| RepairLock.Site.Claim | cli/auto_repair_lock.go:63-76 | The owned path, or one the next owner recovers |
| RepairLock.Site.ClearStale | cli/auto_repair_lock.go:92-153 | Clears exactly a recoverable path; an unknown one stays |
| RepairLock.Site.Enter | cli/auto_repair_lock.go:27-60 | Past both locks with the configuration directory in place, or back where it began |
| RepairLock.Site.Settle | cli/auto_repair_lock.go:61-154 | Past the platform lock it owns the path within two rounds, exactly when it is recoverable and nothing fails, whatever all other calls do |
| RepairLock.Site.Acquire | cli/auto_repair_lock.go:26-159 | With all other calls moving between any two operations: owner of a whole path, or both locks given back; uncontended it succeeds exactly on a recoverable path |
| RepairLock.Site.Release | cli/auto_repair_lock.go:75-84 | Both locks free, and a path the next owner recovers |
| RepairLock.NextAfter | cli/auto_repair_lock.go:26-159 | Whether a holder released or crashed, the next acquisition succeeds |
| RepairLock.PlatformIsFree | cli/auto_repair_lock_windows.go:16-48 | Even a platform lock its thread may take again goes to nobody while somebody has it, because of the process token |
| RepairLock.OthersKeepOut | cli/auto_repair_lock.go:34-56 | Nobody else's operation touches the paths of a call past the platform lock |
| RepairLock.AtMostOneOwner | cli/auto_repair_lock.go:26-159 | Over all interleavings of the single operations `Site` makes, and crashes: one call at most past the platform lock, an owner's path whole, a path that is not ours never touched |
| InstallSwap.Roots.Replace | cli/bundle_apply.go:270-304 | The new tree installed and the old one aside, or the old one back, still aside only when the rename back was refused; the old tree whole at every point |
| InstallSwap.Roots.Commit | cli/bundle_apply.go:306-311 | The old tree is gone |
| InstallSwap.Roots.Rollback | cli/bundle_apply.go:313-337 | The old tree is installed again and the public binary links to it; a failure leaves one of the two installed unless the rename back was refused |
| InstallSwap.Roots.EnsurePublicBinary | cli/path_manage.go:20-29 | Ok: the link is there; a failure may leave none |
| InstallSwap.SwapAndRollback | cli/bundle_apply.go:270-337 | Swap and back is the identity, with the old tree whole all along |
| InstallSwap.SwapAndCommit | cli/bundle_apply.go:270-311 | Swap and keep leaves only the new tree |
## Left out

- The manual `--confirm-remote-access-revoked` branch: an Owner's statement in place of a revocation, mostly direct checks.
- Waiting for an Owner's pairing code gives up the lock like the browser step; only the browser step lets other processes run in the connection model. `MutationSession` covers both waits.
- Editors that write `config.json` without the lock: the snapshot comparison before a removal's last write is not modelled there.
- Loss of a grant by a kill between the exchange and its storage: such a grant is kept apart as unstored, and no theorem covers it.
- Error codes and texts: an error is reduced to the hold it leaves behind, if any.
- Route policy, profile and install identities, device-credential retirement, command-line parsing, prompts, pages and message texts.
- HTTP, WebSocket and OAuth message formats, JSON encoding, size limits and native keyring calls.
- Downloading, unpacking and validating bundles.
- Layers of the memoizing backend are one list in nesting order, not linked objects; aliasing between two handles is covered only by `InnerWriteExactly`.
- RepairLock.Site.Acquire: a read of the lock path (its kind, its entries, the marker) is one step with the decision it leads to; the waiting retries around it are left out.
- Outside.World.BindDevice: does not report a conflict after the promotion, because the rollback from there leaves the invariant (finding 1).
- SettingsEdit: white space and number spelling are left out; values are compared as trees.
- A half-written lock marker, which the next owner refuses to touch, cannot arise here because the marker write is taken to be atomic.
