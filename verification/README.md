# Mood lamp protocols

A Dafny model of the mood lamp system's protocols: claiming and binding a device, commands and their acknowledgement, state
ingest, schedules, enrolment of the device with AWS IoT, and the secure session of the phone. Each protocol is guarded by a
small durable record. Each is written as a state and its atomic steps, an inductive invariant is proved for any number of
workers, and the claims over whole runs follow from it. Where the program changes things in place, a class does the same and
is proved against the step function.

| files | what they model |
|---|---|
| `Claims`, `ClaimProofs`, `ClaimRuns`, `ClaimProgress` | the four rows of a serial and their conditional transactions; coupling, phases, leases; what can always be done next |
| `Registration` | `createClaim`: one transaction that consumes the code, and recovery |
| `Finalize`, `FinalizeProofs` | finalize workers with AWS IoT, the registration hook and releases |
| `Convergence`, `ClaimBackend`, `FirstBinding` | crash convergence and first binding, as runs of the machine and as the methods themselves |
| `Led`, `Lamp`, `LampRuntime` | LED controller, command handling, NVS record, boot |
| `Device`, `Reservation`, `ReservationProofs`, `DynamoCommands`, `InMemory` | command reservation, its loop and its atomic form |
| `Ingest` | state uplinks and the stream position |
| `EndToEnd` | callers, network, lamp and ingest together |
| `Schedules`, `ScheduleRaces`, `ScheduleService`, `ScheduleCleanup`, `Execution` | schedule synchronisation with an atomic adapter and with the adapter as it is, cleanup, execution |
| `Fleet`, `FleetTask` | enrolment of the device |
| `SecureSession`, `SessionRuns`, `SecureSessionModule` | the Android provisioning session |

`dafny verify dfyconfig.toml` checks everything.

## Assumptions

- One DynamoDB transaction, conditional write or consistent read is one step. Any of them may fail or lose its answer; clocks are
  arbitrary per call, also against each other.
- Claim ids, lease ids, command ids and registration codes are drawn fresh. Digests are injective. The Thing name is a fixed prefix
  and the serial. A reissue by the administrator, which the repository does not contain, replaces the manufacturing row and brings a
  new code.
- A RegisterThing request runs its hook and its template as one step, and registers a certificate for one claim only. AWS IoT does not
  delete a Thing that still has a principal.
- `upsert` and `remove` of the scheduler compare and write in one step, as the port says. The adapter reads and then writes; module
  `ScheduleRaces` shows what still holds then, and exactly which steps lose the rest.
- One NVS commit of a command record is atomic, and a failed one leaves the old record. For the enrolment keys the model does not need
  that: it writes them one by one, and shows which single cut does harm and exactly when a later run repeats the request.
- Command claims hold for one certificate generation. A new Device row starts its sequence again while the lamp keeps its record, so a
  lamp may stay silent; `EndToEnd.LastCommandConverges` says exactly when.
- For the end-to-end theorem commands carry the complete state, as the backend sends them; boot times increase and boot ids are fresh; a
  rollback of the LED succeeds; and no one uses the serial console.
- The handlers of the Android module run one after another on the main thread, and promises and device objects are new ones.
- A request id of a schedule is not used by any other caller.

Where comments and code part, the model follows the code. `convergeLatestSchedule` is returned without being awaited inside the `try`
of `syncSchedule`, so its errors do not mark the row as failed.

## Model

| member | source | states |
|---|---|---|
| ClaimRuns.RowsAreCoupled | backend/src/dynamodb.ts:344-641 | For every reachable state of the tables: by the stage of the registry row, either no device is live, or registry, claim, lock and device name one claim, thing and certificate and stand at matching stages; a device is live if and only if its registry row is BOOTSTRAPPED or RUNTIME_AUTHORIZED |
| ClaimRuns.TtlSparesTheBound | backend/src/dynamodb.ts:409-434 | While a device is live, deleting by `expiresAt` can take neither its claim nor its lock |
| ClaimRuns.OneLateClaim | backend/src/dynamodb.ts:409-464 | At most one claim of a serial is BOOTSTRAPPED, RUNTIME_AUTHORIZED or ONLINE |
| ClaimRuns.WriteMovesPhase | backend/src/dynamodb.ts:212-464 | Every single transaction makes only the allowed move of the durable phase, keeps owner, serial and nonce, removes a claim only before it bound a device; the lease transactions leave the phase and all other rows alone |
| ClaimRuns.PhaseMovesForward | backend/src/dynamodb.ts:212-464 | Over any run the durable phase only moves forward, owner, serial and nonce stay, and a claim that bound a device never disappears |
| ClaimRuns.LostLeaseIsInert | backend/src/dynamodb.ts:323-403 | Once a lease is not the claim's any more, its holder's bootstrap, resume and release change nothing, in every later state |
| ClaimRuns.TakeoverLosesLease | backend/src/dynamodb.ts:285-307 | Taking an expired lease over is such a loss for the former holder |
| ClaimRuns.LeaseRunsUntil | backend/src/dynamodb.ts:247-307 | A granted lease keeps every other worker out until it ends by that worker's clock, and lets its holder bind only before it ends by the holder's |
| ClaimRuns.BindingStays | backend/src/dynamodb.ts:466-640 | A bound device keeps its claim and certificate until that claim is REVOKED |
| ClaimProofs.ApplyKeepsInv | backend/src/dynamodb.ts:212-641 | Every transaction, enabled or not, keeps the invariant of the four tables |
| ClaimProofs.MoveKeepsOthers | backend/src/dynamodb.ts:344-641 | Binding, authorizing, going online and releasing keep every other claim of the serial consistent as well |
| ClaimProgress.CanBeClaimed | backend/src/dynamodb-claim-registrar.ts:34-137 | From every consistent state a registration with a fresh id takes effect if and only if its code is there and no lock is in the way, and claim, lock and reservation then read as written out |
| ClaimProgress.PinsExactly | backend/src/fleet-registration-hook.ts:38-86 | The hook accepts a certificate if and only if the reservation is this claim's, lasts at its clock, and pins no other certificate |
| ClaimProgress.AuthorizesExactly | backend/src/dynamodb.ts:466-516 | A bound claim is resumed under its own lease, and authorized, with the certificate of its device and with no other |
| ClaimProgress.OnlineExactly | backend/src/dynamodb.ts:779-803 | A claim goes online exactly from RUNTIME_AUTHORIZED |
| ClaimProgress.ReleasesExactly | backend/src/dynamodb.ts:518-641 | A release takes effect if and only if the device is live and authorized and has this binding and this claim |
| ClaimProgress.GoesOnline | backend/src/dynamodb.ts:779-803 | In every reachable state the first state of an authorized device finds its claim ready, and brings claim and device online |
| ClaimProgress.CanBeReleased | backend/src/dynamodb.ts:517-641 | In every reachable state a live, authorized device can be released, and the four rows then read as written out: revoked claim and device, no lock, a manufacturing row that waits for a reissue |
| ClaimProgress.EndedReservationReopens | backend/src/dynamodb-claim-registrar.ts:194-220 | A reservation is given up if and only if its own proof names it and it has ended at the caller's clock |
| ClaimProgress.ComesRound | backend/src/dynamodb.ts:517-641 | From every reachable state with a live device: release, reissue and registration with the new code, by anyone, succeed one after the other |
| Registration.RegistrationIsSingleUse | backend/src/dynamodb-claim-registrar.ts:34-192 | All successful `createClaim` returns for one serial and code have one claim id, nonce, owner, tenant and pool, whatever answers are lost and whoever calls |
| Registration.SerialIsClaimedOnce | backend/src/dynamodb-claim-registrar.ts:34-192 | Per serial and whatever codes the callers try: while only one code of the serial was ever issued, all successful returns used that code and have one owner, tenant and pool, claim id and nonce |
| Registration.SerialIsRegisteredOnce | backend/src/dynamodb-claim-registrar.ts:34-192 | Over every run in which no manufacturing row is put where there is one, which is all the repository does, at most one registration of a serial succeeds: all its successful returns agree on code, owner, tenant, pool, claim id and nonce |
| Registration.ConsumedCodeStaysConsumed | backend/src/dynamodb-claim-registrar.ts:55-67 | A consumed code is never again the code of a manufacturing row |
| Registration.RetryFindsClaim | backend/src/dynamodb-claim-registrar.ts:139-192 | A retry after the code was consumed returns the first claim if and only if the reservation is its own user's, has not ended at its clock by the time set in the first call, and the claim is still pending |
| Registration.RetryRuns | backend/src/dynamodb-claim-registrar.ts:55-137 | The same for a caller of the machine whose transaction was refused, cancelled by a conflict, or retried after its answer was lost: recovery follows and returns the first claim exactly then |
| Registration.LostAnswerIsFound | backend/src/dynamodb-claim-registrar.ts:101-137 | A caller whose transaction took effect while its answer was lost gets its own claim through recovery |
| Registration.Registrar.CreateClaim | backend/src/dynamodb-claim-registrar.ts:34-137 | The adapter's transaction and recovery, run alone, answer and leave the tables as the specification says; a code that can be claimed yields the pending claim, its lock and its reservation as written out |
| Registration.Registrar.RecoverClaim | backend/src/dynamodb-claim-registrar.ts:139-192 | Recovery returns the pending claim of a matching reservation, and otherwise nothing; an own reservation that has ended leaves the manufacturing row waiting for a reissue |
| FinalizeProofs.NeverWithoutPolicy | backend/src/aws-provisioning.ts:104-131 | Under any interleaving of finalize workers, registrations and releases, a registered certificate has the bootstrap or the runtime policy and nothing else, until a decommissioning of it begins |
| FinalizeProofs.RuntimeOnlyAfterBootstrap | backend/src/service.ts:164-168 | The runtime policy is only ever attached to the certificate of a claim whose durable phase reached BOOTSTRAPPED; only an authorized claim's certificate is ever decommissioned |
| FinalizeProofs.LiveCertificateIsItsClaims | backend/src/dynamodb.ts:435-441 | A live device's certificate was registered for that device's claim, which is not revoked, so a released certificate never comes back |
| FinalizeProofs.MachineIsCoupled | backend/src/service.ts:125-174 | The coupling of the four rows holds in every state of the finalize workers, with crashes, lost answers and takeovers |
| FinalizeProofs.EnrolKeepsGood | backend/src/fleet-registration-hook.ts:38-86 | The hook pins the first certificate of a reservation; pinning it and running the template in the same step keep everything that workers rely on |
| FinalizeProofs.FirstCertificateStays | backend/src/fleet-registration-hook.ts:46-54 | The certificate pinned first stays the pinned one for as long as the registry row is about that claim, over any run |
| FinalizeProofs.StripKeepsGood | backend/src/aws-iot.ts:64-117 | Any part of a decommissioning, in any order, touches no certificate that a reservation has pinned or a bootstrapped row holds |
| Convergence.ReachableIsReady | backend/src/aws-provisioning.ts:52-102 | In every reachable state a durably bootstrapped claim has its four rows, Thing, principal, certificate and policies as `verifyBootstrap` demands them |
| Convergence.CrashConverges | backend/src/service.ts:125-174 | From every reachable state with a durably bootstrapped claim and a free lease, one undisturbed run authorizes claim, device and registry row with the same certificate, whose policies are then exactly the runtime policy |
| FirstBinding.EnrolmentVerifies | backend/src/fleet-registration-hook.ts:38-86 | While a reservation lasts and pins no other certificate, registering one with the claim's nonce, at first or again, pins it, and everything that finalize checks then fits |
| FirstBinding.EnrolmentRefused | backend/src/fleet-registration-hook.ts:38-86 | A request outside the reservation's time, for another claim or nonce, or with another certificate than the pinned one changes nothing |
| FirstBinding.VerifiedExactly | backend/src/aws-provisioning.ts:52-102 | The five checks of a worker with nobody in between verify a certificate if and only if registry, Thing, principals, certificate status and policies all fit it |
| FirstBinding.FirstRunCompletes | backend/src/service.ts:125-174 | From every reachable state in which a claim waits for its first binding and everything fits, one undisturbed run binds the device with the pinned certificate, authorizes claim, device and registry row, and leaves exactly the runtime policy |
| FirstBinding.ConfirmsExactly | backend/src/aws-provisioning.ts:104-122 | The transition is confirmed if and only if the certificate then has the runtime policy and no other |
| FirstBinding.FailureReleases | backend/src/service.ts:170-173 | A worker that fails before the binding gives its claim back as it was before the lease |
| FirstBinding.ReleaseRuns | backend/src/service.ts:182-212 | In every reachable state a live, authorized device can be taken into a release and released |
| ClaimBackend.Backend.PolicyNames | backend/src/aws-provisioning.ts:133-144 | The paged listing, with pages of any size and any number of empty ones, yields exactly the attached policies |
| ClaimBackend.Backend.ThingPrincipals | backend/src/aws-provisioning.ts:146-157 | The paged listing yields each principal of the Thing exactly once, in any order |
| ClaimBackend.Backend.VerifyBootstrap | backend/src/aws-provisioning.ts:52-102 | Returns the pinned certificate if and only if registry, Thing, principal, certificate and policies all fit |
| ClaimBackend.Backend.AuthorizeRuntime | backend/src/aws-provisioning.ts:104-122 | Whatever happens to attach and detach, a certificate in transition stays in transition and no other certificate is touched; it succeeds if and only if the calls it needed were answered, and then exactly the runtime policy is left; a certificate not in transition is left alone |
| ClaimBackend.Backend.AcquireFinalizeLease | backend/src/dynamodb.ts:247-321 | Starts or takes over the lease if and only if the claim row allows it, and otherwise says why not, changing nothing |
| ClaimBackend.Backend.ReleaseFinalizeLease | backend/src/dynamodb.ts:323-342 | Gives the claim back if and only if this lease still holds it |
| ClaimBackend.Backend.BootstrapClaim | backend/src/dynamodb.ts:344-464 | Binds, or resumes, if and only if the whole transaction's conditions hold; otherwise changes nothing |
| ClaimBackend.BindsExactly | backend/src/dynamodb.ts:344-464 | In every consistent state the binding takes place if and only if the claim's own lease is named, lease and reservation last at the clock, and lock, device and registry row are as written out |
| ClaimBackend.Backend.AuthorizeRuntimeClaim | backend/src/dynamodb.ts:466-516 | Authorizes the three rows together, or answers a claim that is already done |
| ClaimBackend.Backend.ExpireClaim | backend/src/dynamodb.ts:212-245 | Expires a claim that ended before it was bound, and only by the transaction's guard; never hands out a lease |
| ClaimBackend.Backend.FinalizeClaim | backend/src/service.ts:125-174 | A claim that was never bound, with rows, clocks and AWS IoT in order, comes out bound to the pinned certificate and authorized with exactly the runtime policy, all four rows written out; a durably bootstrapped one with a free lease comes out authorized; when attach or detach failed, either is ready for the next call. It is answered as expired if and only if it ended before it was bound; the other refusals have their exact or necessary conditions, and no lease of the call's own is left behind |
| ReservationProofs.NextKeepsInv | backend/src/dynamodb.ts:643-712 | Every step of any reservation caller, uplink or release keeps sequences gap-free, the ledger equal to the log, and the row equal to the last entry |
| ReservationProofs.SequencesAreUnique | backend/src/dynamodb.ts:643-712 | Sequences are 1..n in commit order, and no two entries share a request id or a command id |
| ReservationProofs.DesiredIsFold | backend/src/dynamodb.ts:643-712 | The stored desired state is the fold of all reserved patches in sequence order from the state that the first reservation read: each field is that of the last reservation whose patch carries it, or the one first read when none does |
| ReservationProofs.RequestIdIsForever | backend/src/dynamodb.ts:643-712 | What a request id maps to never changes |
| ReservationProofs.AnswersAgree | backend/src/dynamodb.ts:643-712 | All answers for one request id are one entry of the log; REQUEST_ID_REUSED is only said when a different patch holds the id, and COMMAND_RESERVATION_BUSY only after sixteen rounds |
| ReservationProofs.WriteRefinesAtomic | backend/src/in-memory.ts:271-301 | A committing transaction does to row, ledger and answer what the atomic in-memory form does at that instant |
| ReservationProofs.OtherStepsKeepTables | backend/src/dynamodb.ts:643-712 | Every other step leaves row, ledger and log alone |
| ReservationProofs.ReplayRefinesAtomic | backend/src/in-memory.ts:274-279 | A repeated request is answered as the atomic form answers it |
| ReservationProofs.LostAnswerIsFound | backend/src/dynamodb.ts:685-707 | A caller whose transaction took effect while its answer was lost gets its own entry from the ledger |
| DynamoCommands.CommandTable.ReserveCommand | backend/src/dynamodb.ts:643-712 | The 16-round loop against arbitrary interference answers only with the ledger's entry and loses nobody's entry; undisturbed it leaves the tables as the atomic form does, and gives its answer if and only if the request is new or the row is usable and below the last sequence; otherwise it refuses what the ledger would answer |
| DynamoCommands.CommandTable.Attempt | backend/src/dynamodb.ts:646-709 | One round decides when nobody interferes: it refuses a row that is not usable or exhausted, commits, or the ledger answers |
| InMemory.DeviceRecord.ReserveCommand | backend/src/in-memory.ts:271-301 | The in-memory repository's update in place is exactly the atomic form on the ledger of this certificate generation, and leaves the ledgers of all others alone |
| InMemory.DeviceRecord.ApplyState | backend/src/in-memory.ts:303-343 | The in-memory repository's update in place is exactly the atomic ingest step, with its claim check |
| Ingest.OrderIndependent | backend/src/dynamodb.ts:714-820 | Any two interleavings that took the same messages, with duplicates and conflicts, leave the same position and LED fields, those of the latest message |
| Ingest.PermutationIndependent | backend/src/dynamodb.ts:1098-1112 | The atomic form: any permutation with duplicates of the same messages leaves the same position and LED fields |
| Ingest.AnswerMeansNotNewer | backend/src/dynamodb.ts:714-820 | A message that was answered, as APPLIED, DUPLICATE or STALE, is never above the stored position afterwards |
| Ingest.AnswersExactly | backend/src/dynamodb.ts:1098-1112 | Over every run a worker that reads a live row, at first or after a conflict, answers DUPLICATE if and only if its message is the latest taken, STALE if and only if a later one was taken, and goes on to write, or leaves it to the next delivery, if and only if it is after all of them |
| Ingest.ReadAgreesWithWrite | backend/src/dynamodb.ts:1098-1112 | On every row the classification of the read and the condition of the write agree, but for the stored message itself, which is a duplicate |
| Ingest.WritesExactly | backend/src/dynamodb.ts:765-812 | Over every run a write succeeds if and only if the row has the lifecycle that was read, all messages taken are before this one, and the claim of a first state is ready; the row is then ACTIVE at this message, field by field |
| Ingest.FirstStateActivates | backend/src/dynamodb.ts:714-820 | Over every run a device is RUNTIME_AUTHORIZED only before its first state and ACTIVE only after it |
| Ingest.WorkersRefineAtomic | backend/src/dynamodb.ts:714-820 | A worker's step leaves the row alone or does the atomic form's step |
| Ingest.AppliedIdOrder | backend/src/dynamodb.ts:765-767 | Over runs with any workers, any set of messages, duplicates and conflicts: all runs that took the same messages leave the same applied command id if and only if the latest message carries an id or no message does |
| Ingest.RunSettles | backend/src/dynamodb.ts:714-820 | In every run of the workers, if the latest message carries an id that id is the applied one, and if none carries one there is none |
| Ingest.SequentialIsAtomic | backend/src/dynamodb.ts:714-820 | Every sequence of messages has a run of the workers that ends exactly where the atomic form does |
| Led.Controller.Apply | firmware/main/led_controller.c:174-216 | Each masked field takes its value and each other field keeps its own, and only when the argument is accepted and the hardware write succeeds; otherwise nothing changes |
| Lamp.PowerLossSafety | firmware/main/mqtt_runtime.c:444-606 | Over every run with power loss anywhere, RAM sequence and id are those of the one committed record; and the LED is the record's unless a rollback failed |
| Lamp.HandleKeeps | firmware/main/mqtt_runtime.c:517-606 | One command, however its primitives end, keeps that, and restore accepts what was written |
| Lamp.PartsExactlyOnFailedRollback | firmware/main/mqtt_runtime.c:556-600 | LED and record part if and only if the LED was changed, the record was not stored, and the rollback failed |
| Lamp.CommittedSequenceGrows | firmware/main/mqtt_runtime.c:530-600 | The committed records only grow, with strictly increasing sequences, across reboots |
| Lamp.OldCommandIsInert | firmware/main/mqtt_runtime.c:530-551 | A command not newer than the record changes neither record nor LED, and is answered only if it is the recorded one |
| Lamp.MessageReports | firmware/main/mqtt_runtime.c:201-239 | Every state message reports the state the lamp is left in, under the next number of this boot |
| Lamp.StartsExactly | firmware/main/mqtt_runtime.c:464-506 | A lamp that is off starts if and only if the counter has not run out and is stored and no later step fails, whatever its record; RAM and LED are then those of the record |
| Lamp.AppliesExactly | firmware/main/mqtt_runtime.c:530-600 | The record changes if and only if a well-formed command newer than the last was applied and stored, and is then that command's, field by field |
| Lamp.AnswersExactly | firmware/main/mqtt_runtime.c:530-571 | With no fault a command is answered if and only if it is newer than the record or is the recorded one |
| Lamp.ReconnectionReports | firmware/main/mqtt_runtime.c:201-239 | A reconnection reports the LED with the id of the recorded command under the next number |
| Lamp.BootsAreCounted | firmware/main/mqtt_runtime.c:682-713 | The boot counter never goes back, and every start of the runtime gets the next number and starts its state sequence at zero |
| LampRuntime.Runtime.PersistAppliedCommand | firmware/main/mqtt_runtime.c:444-462 | The record on flash is the old one or the new one |
| LampRuntime.Runtime.PublishState | firmware/main/mqtt_runtime.c:201-239 | The number is consumed whether or not the message leaves, unless the LED cannot be read or the numbers are exhausted; then nothing is sent or consumed |
| LampRuntime.Runtime.HandleCommand | firmware/main/mqtt_runtime.c:517-606 | The handler over the static variables does exactly what the transition function says, and keeps the invariant |
| LampRuntime.Runtime.PowerOn | firmware/main/mqtt_runtime.c:464-506 | Boot counts, restores the record into RAM and LED, or leaves the runtime stopped |
| EndToEnd.HiddenOnlyWhenReported | backend/src/handlers.ts:164-166 | Over every run of callers, network, lamp and ingest: when the last command is the applied one, the five observed fields are the reserved ones and the lamp did report that command with them |
| EndToEnd.LastCommandConverges | backend/src/dynamodb.ts:643-820 | From every reachable state one undisturbed delivery and ingest of the last command's answer hide the pending state, if and only if the lamp holds no record of an earlier generation that is not older |
| EndToEnd.NextKeepsInv | firmware/main/mqtt_runtime.c:517-606 | Every step of the whole system keeps records, messages and row truthful about what was reserved |
| Schedules.ActiveIsRemote | backend/src/service.ts:463-492 | With any number of workers, stale or not, a row that is ACTIVE at revision r has a remote schedule at exactly r with the content saved at r |
| Schedules.ReturnsAreCurrent | backend/src/service.ts:463-492 | A normal return is an ACTIVE snapshot of the requested revision or later, or nothing once a row of such a revision was deleted |
| Schedules.UndisturbedServes | backend/src/service.ts:463-492 | From every reachable state a worker that serves the current row, pending, failed or newer than its own, brings it to the scheduler in at most four undisturbed steps: an upsert ends ACTIVE with the remote schedule at it, a deletion with both gone |
| Schedules.FailureMarks | backend/src/service.ts:474-479 | A scheduler call that fails, before or after it took effect, leaves the current pending row marked for a retry |
| Schedules.RefreshRestores | backend/src/service.ts:485-492 | A refresh writes the ACTIVE row to the scheduler again, whatever that had, unless it holds a newer schedule |
| ScheduleRaces.ReturnsAreStillCurrent | backend/src/aws-scheduler.ts:37-76 | The same with the adapter as it is, which reads and then writes: it still holds |
| ScheduleRaces.LateStepsPart | backend/src/aws-scheduler.ts:37-76 | With the adapter as it is, over every worker's step, save and reply: an ACTIVE row and its remote schedule are parted if and only if the second half of a scheduler call takes effect and is a removal, or a write or refresh of a revision older than the row's |
| ScheduleRaces.KeptExactly | backend/src/aws-scheduler.ts:37-76 | Whenever the newest revision is ACTIVE or about to be marked, the remote schedule is it; one step loses that if and only if such a late step lands then |
| ScheduleRaces.KeptThroughout | backend/src/aws-scheduler.ts:37-76 | Over every run it holds throughout if and only if no late step lands on a revision that is ACTIVE or about to be marked |
| ScheduleRaces.CoupledThroughout | backend/src/aws-scheduler.ts:37-76 | Over every run an ACTIVE row has the remote schedule at its revision and content throughout, if and only if no late step hits an ACTIVE row and no row is marked ACTIVE after a late step has hit it |
| ScheduleRaces.LateMarkIsPreceded | backend/src/service.ts:463-492 | Such a mark has a late step before it that landed on a revision about to be marked |
| ScheduleRaces.AdapterCanFallBehind | backend/src/aws-scheduler.ts:37-61 | A run exists in which revision 3 is ACTIVE while the scheduler holds revision 2 |
| ScheduleRaces.AdapterCanErase | backend/src/aws-scheduler.ts:63-76 | A run exists in which a deletion, saved over by revision 3, removes the remote schedule of that ACTIVE revision |
| ScheduleRaces.LandingBeforeTheMark | backend/src/aws-scheduler.ts:37-61 | A run exists in which the late step comes just before the mark, so that no step lands on an ACTIVE row and row and scheduler are parted all the same |
| ScheduleService.Service.SyncSchedule | backend/src/service.ts:463-483 | Terminates under any finite number of concurrent saves and returns only current results; undisturbed it brings a pending row to the scheduler, or the newest row when its own is stale, and a failing scheduler call marks the row for a retry |
| ScheduleService.Service.ConvergeLatestSchedule | backend/src/service.ts:485-492 | Works on a strictly higher revision or throws; undisturbed a newer row of any status ends ACTIVE with the scheduler at it, or gone with it, and without one nothing changes; when the refresh of an ACTIVE row fails it throws |
| ScheduleService.Service.RedriveSchedule | backend/src/service.ts:392-401 | Undisturbed a failed row ends ACTIVE with the scheduler at its revision and content, or, for a deletion, gone with its schedule; anything else is a conflict that changes nothing |
| ScheduleService.Service.SaveAndSync | backend/src/service.ts:403-416 | Saves the next revision and syncs it; undisturbed the new revision is ACTIVE with the scheduler at it, or row and schedule are gone |
| ScheduleService.Service.MarkActive | backend/src/dynamodb-schedules.ts:77-87 | Only the current pending revision becomes ACTIVE, and only while the scheduler is at it |
| ScheduleService.Service.DeleteRow | backend/src/dynamodb-schedules.ts:119-133 | Only the current revision that is pending deletion is deleted |
| ScheduleCleanup.Repository.SaveSchedule | backend/src/schedules.ts:116-123 | Creates only what is absent and replaces only the expected revision |
| ScheduleCleanup.Repository.MarkScheduleActive | backend/src/schedules.ts:125-133 | Succeeds exactly for the current pending upsert of that revision |
| ScheduleCleanup.Repository.MarkSchedulePending | backend/src/schedules.ts:135-142 | Succeeds exactly for a failed row of that revision and operation |
| ScheduleCleanup.Repository.MarkScheduleError | backend/src/schedules.ts:144-151 | Succeeds exactly for a pending row of that revision |
| ScheduleCleanup.Repository.DeleteSchedule | backend/src/schedules.ts:153-158 | Deletes exactly a pending deletion of that revision |
| ScheduleCleanup.Cleanup.CleanupReleasedDeviceSchedules | backend/src/service.ts:418-461 | Removes exactly the rows of the tenant, target and certificate whose removal does not fail, marks the others as failed deletions at the revision of a deletion begun before or at a new one, leaves exactly the remote schedules whose removal failed without taking effect, touches nothing else, and fails if and only if one failed |
| ScheduleCleanup.Cleanup.CleanupTwice | backend/src/service.ts:418-461 | A second call with a working scheduler leaves no row and no remote schedule of the released device and certificate |
| Execution.DeliveriesAgree | backend/src/service.ts:348-390 | Over every run two calls have one request id, and two answers are one log entry, if and only if their deliveries are of one firing: one revision and one time; none is refused as a reuse of its request id |
| Execution.FiringsAreTold | backend/src/service.ts:379-387 | When no time reads like a command id, two calls have one request id if and only if revision and time are equal, and a delivery without a time shares its id with no other |
| Execution.FiredIsDelivered | backend/src/service.ts:348-387 | Every call recorded for a firing was made for a delivery of the run with this revision, time and command id |
| Execution.ExecutesExactly | backend/src/service.ts:354-378 | A delivery becomes a reservation call, for the patch of the schedule, if and only if the row is ACTIVE at its revision with an enabled upsert, member, device lifecycle and certificate fit, and a time is not too late |
| Execution.OnlyDueFirings | backend/src/service.ts:354-371 | A reservation is only ever made for a saved, enabled upsert that targets this certificate generation of the device |
| Execution.RedeliveryOverridesNothing | firmware/main/mqtt_runtime.c:530-551 | After the lamp committed a command of this sequence or later, a redelivery changes neither record nor LED, whatever happened in between |
| Fleet.AtMostOneCertificate | firmware/main/fleet_provisioning.c:366-552 | Over all attempts, reconnects and reboots in which no store is cut between the erasure of the guard and the issue flag, at most one certificate request is published; an issued identity holds certificate and key of one create response, whose id was sent in RegisterThing |
| Fleet.NextKeepsInv | firmware/main/fleet_provisioning.c:366-552 | One step loses the invariant behind that if and only if it is a store cut in that one place while the identity is not issued |
| Fleet.AskedOnceExactly | firmware/main/fleet_provisioning.c:366-552 | After any run, wherever its stores were cut: no later run of whole stores leads beyond one certificate request if and only if none or one was published and, after one, flash has the guard or the issue flag and a running enrolment knows of the request or the identity is issued |
| Fleet.GuardSurvivesStore | firmware/main/fleet_identity.c:166-175 | The durable guard survives storing the identity if and only if the six key writes are not cut between the erasure and the issue flag, or the identity was issued before |
| Fleet.CutStoreAsksAgain | firmware/main/fleet_identity.c:166-175 | Cut exactly there, a reboot asks for a second certificate |
| Fleet.StartsExactly | firmware/main/fleet_provisioning.c:493-520 | Enrolment starts if and only if the issue flag is not read as set, the guard could be read and is clear, and the device is ready |
| Fleet.TriesAgainExactly | firmware/main/fleet_provisioning.c:521-552 | Another attempt follows if and only if fewer than three were made, the device was not seen enrolled, and the answer to the request is not lost; it keeps the pending identity |
| Fleet.ResumesPending | firmware/main/fleet_provisioning.c:366-415 | A later attempt with a pending identity registers and stores that one and asks for no other |
| Fleet.SmoothEnrolment | firmware/main/fleet_provisioning.c:366-552 | With no failure one attempt stores the accepted identity, thing and topic, erases the guard and ends enrolment |
| Fleet.RefusalFails | firmware/main/fleet_provisioning.c:316-330 | A rejection, an unreadable answer or a dropped connection fails the attempt and changes nothing else |
| Fleet.FailureFails | firmware/main/fleet_provisioning.c:366-415 | A failing subscription, mark, publication or store of its own fails the attempt |
| FleetTask.Enroller.HandleSubscribed | firmware/main/fleet_provisioning.c:387-415 | The handler over the static variables does what the transition function says |
| FleetTask.Enroller.HandleCreateAccepted | firmware/main/fleet_provisioning.c:234-274 | Takes a valid create response only while waiting for one |
| FleetTask.Enroller.HandleRegisterAccepted | firmware/main/fleet_provisioning.c:276-314 | Stores the pending identity only while waiting for the registration |
| FleetTask.Enroller.StoreIssued | firmware/main/fleet_identity.c:144-176 | The six key writes in order, as far as they reach flash |
| FleetTask.Enroller.Task | firmware/main/fleet_provisioning.c:493-552 | The whole enrolment is a run of the machine in which at most three attempts end, and fewer only when the device is enrolled or the answer to the request is lost; and the device publishes at most one certificate request in its life |
| FleetTask.ResponseBuffer.Receive | firmware/main/fleet_provisioning.c:332-364 | Each fragment lands at its own offset and nowhere else; only a first fragment or one of the same total is taken, and the one that reaches the end completes the response |
| SecureSession.OneAtATime | mobile/modules/moodlight-secure-provisioning/android/src/main/java/com/openiot/moodlight/provisioning/MoodlightSecureProvisioningModule.kt:272-300 | At most one of the four operation promises is outstanding, and every promise is either outstanding and unsettled or was settled exactly once |
| SecureSession.StaleCallbacksAreInert | mobile/modules/moodlight-secure-provisioning/android/src/main/java/com/openiot/moodlight/provisioning/MoodlightSecureProvisioningModule.kt:580-590 | A callback or timeout of a promise that is not outstanding, or of an earlier generation, changes nothing |
| SecureSession.TimeoutSettles | mobile/modules/moodlight-secure-provisioning/android/src/main/java/com/openiot/moodlight/provisioning/MoodlightSecureProvisioningModule.kt:244-248 | The timeout of an outstanding promise rejects it and ends the session with nothing outstanding |
| SessionRuns.StartsExactly | mobile/modules/moodlight-secure-provisioning/android/src/main/java/com/openiot/moodlight/provisioning/MoodlightSecureProvisioningModule.kt:272-312 | A promise handed in becomes outstanding if and only if the session, the binding and the other operations allow its call |
| SessionRuns.ResolvesExactly | mobile/modules/moodlight-secure-provisioning/android/src/main/java/com/openiot/moodlight/provisioning/MoodlightSecureProvisioningModule.kt:316-329 | A promise is resolved if and only if its own outstanding callback reports success, or it asks for the claim that is bound already; every other settlement is a rejection |
| SessionRuns.SuccessLeaves | mobile/modules/moodlight-secure-provisioning/android/src/main/java/com/openiot/moodlight/provisioning/MoodlightSecureProvisioningModule.kt:487-505 | A success leaves link and binding as they are, a matching acknowledgement binds its claim, and provisioning ends the session |
| SessionRuns.LinkOpens | mobile/modules/moodlight-secure-provisioning/android/src/main/java/com/openiot/moodlight/provisioning/MoodlightSecureProvisioningModule.kt:189-242 | A usable QR opens the link and requires a binding exactly for a product; an unusable one or a wrong ping answer ends like a timeout |
| SessionRuns.DisconnectEnds | mobile/modules/moodlight-secure-provisioning/android/src/main/java/com/openiot/moodlight/provisioning/MoodlightSecureProvisioningModule.kt:547-550 | A disconnection rejects exactly what is outstanding and ends the session |
| SessionRuns.BoundNeedsAck | mobile/modules/moodlight-secure-provisioning/android/src/main/java/com/openiot/moodlight/provisioning/MoodlightSecureProvisioningModule.kt:316-329 | Over every run a claim is bound only if the run holds the call that asked this device to bind exactly this claim and the matching answer to it, both in this session |
| SessionRuns.AckDecides | mobile/modules/moodlight-secure-provisioning/android/src/main/java/com/openiot/moodlight/provisioning/MoodlightSecureProvisioningModule.kt:316-329 | While that call is outstanding, a matching answer binds exactly the claim it named over the same link and resolves it; any other answer rejects it, with nothing bound and the link gone |
| SessionRuns.ProductNeedsAck | mobile/modules/moodlight-secure-provisioning/android/src/main/java/com/openiot/moodlight/provisioning/MoodlightSecureProvisioningModule.kt:424-452 | Over every run, Wi-Fi credentials went to a device that a product QR opened only after such an acknowledgement by that device in the same session |
| SecureSessionModule.Session.CleanUp | mobile/modules/moodlight-secure-provisioning/android/src/main/java/com/openiot/moodlight/provisioning/MoodlightSecureProvisioningModule.kt:592-626 | Settles every outstanding operation and clears the session |
| SecureSessionModule.Session.BindDeviceClaim | mobile/modules/moodlight-secure-provisioning/android/src/main/java/com/openiot/moodlight/provisioning/MoodlightSecureProvisioningModule.kt:272-312 | Refuses at once, or captures the session and becomes the one outstanding operation |
| SecureSessionModule.Session.OnClaimAck | mobile/modules/moodlight-secure-provisioning/android/src/main/java/com/openiot/moodlight/provisioning/MoodlightSecureProvisioningModule.kt:316-329 | Only a matching acknowledgement of the outstanding bind binds the claim; a wrong one ends the session |
| SecureSessionModule.Session.Provision | mobile/modules/moodlight-secure-provisioning/android/src/main/java/com/openiot/moodlight/provisioning/MoodlightSecureProvisioningModule.kt:424-449 | Sends credentials only in the current session, with the claim bound where it is required |
| SecureSessionModule.Session.EndProvision | mobile/modules/moodlight-secure-provisioning/android/src/main/java/com/openiot/moodlight/provisioning/MoodlightSecureProvisioningModule.kt:487-517 | Success and failure both settle the promise and end the session |
| SecureSessionModule.Session.ConnectAndPing | mobile/modules/moodlight-secure-provisioning/android/src/main/java/com/openiot/moodlight/provisioning/MoodlightSecureProvisioningModule.kt:189-242 | The QR result opens a new device link only for the pending call of this generation |

## Left out

- FinalizeProofs.EnrolKeepsGood: the hook and the template of one RegisterThing request are one step, and a certificate is only ever registered for one claim, because AWS IoT runs them and issues the certificate.
- ClaimBackend.Backend.FinalizeClaim: other workers and failing database calls are in module FinalizeProofs, not between the statements of this method; here the calls that attach and detach policies may fail.
- FleetTask.Enroller.Task: it is given events in which no store is cut in that one place; module Fleet has the runs in which one is.
- Finalize.WorkStep: the four reads of AWS IoT in `verifyBootstrap` are four steps, but reads of rows that only choose an error code, or that repeat a condition of the transaction that follows, are not steps of their own.
- Finalize.Stripped: a decommissioning is any portion of its effects in any order; its own checks, and the fact that it cannot be retried after the principal is detached, are not modelled.
- Claims: `DynamoRepository.createClaim` without the registry, and the in-memory repository's claim methods; `expireClaim` there is unguarded and its leases can outlive an expired claim.
- Ingest: telemetry and event streams, which use the same stream position with other fields.
- Reservation: the ledger's 30-day TTL; `version` counters and `lastSeenAt`.
- Schedules: `completeScheduleSync` and `completeScheduleDelete`, which only tests use; a remote schedule that a stale upsert leaves behind after its row was deleted, which only the execution guard makes harmless; retry times.
- ScheduleCleanup: concurrent workers; cleanup is proved for one caller at a time with arbitrary scheduler failures.
- Execution: the age limit of a delivery and the membership and ownership checks are inputs; publishing over MQTT is the delivery of module EndToEnd.
- Lamp: JSON parsing is the check on parsed fields; telemetry and events; the network and SNTP tasks.
- Fleet: topics, client identifiers, SNTP and the JSON of requests; the checks on the stored strings are one input.
- SecureSession: event bus registration, the QR session object and the Bluetooth stack; their outcomes are inputs.
- HTTP handlers, Lambda wiring, authentication, input validators, cron text and time zones: one-branch conditions and plumbing.
- The web and mobile user interface, Terraform, key generators and QR tools: configuration and file handling.
