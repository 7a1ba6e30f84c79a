# A verified model of zfs-evacuation-controller

The controller moves zfs-localpv volumes between Kubernetes nodes: it locks a
claim, copies the dataset through a relay, adopts the copy, and replaces the PV
under its name. This project models that in Dafny and proves what survives
every interleaving of its API calls with crashes, lost answers, node agents,
the PV controller, the scheduler and users.

`dafny verify dfyconfig.toml` verifies everything.

## How it is built

- **State.** `Manifests`, `Pods`, `Status` and `AttachLock` hold the objects;
  `World` is one evacuation's part of the cluster (its CR and status, PV and
  PVC, source and target volume and dataset, transfer CRs, lock, pods, source
  node) with every event other parties may cause and every call the
  controller may make.
- **Protocol.** `Protocol.Permitted` says, call by call, what must hold at the
  instant a call takes effect; `Protocol.Inv` is the invariant. `Safety`
  proves that permitted calls and all events keep it, `Stability` what a
  handler may still rely on after others have run, `Runs` the theorems over
  every run.
- **Handlers.** `Client.Cluster` is the API as a handler sees it: each read and
  each mutation is one step, and a script decides after each what others do,
  whether the answer is lost, and whether the process dies (losing locals and
  relay); part of it may wait for the next mutation. `Phases`, `Transfer`,
  `PvSwap`, `Cleanup`, `Abort` and `Reconciler` are the handlers, branch by
  branch, updating that object in place. Every call they make is proved
  permitted when it takes effect, so whatever they do is a run; their contracts
  also say exactly what an undisturbed visit makes of the cluster and of the
  relay.
- **Whole executions.** `Completion` takes an idle volume all the way with the
  handlers, `Endings` to the two failures that are not unwound and to the abort
  that never ends, `Losses` to evacuations that complete without the last bytes
  written, `Settling` follows the settle period over any number of visits,
  `Standstill` the states of the copy phase no visit moves on from. `Fidelity`
  says who can still write during a copy. `Visits` says, phase by phase, what
  one undisturbed visit decides in terms of cluster and record alone.
- **Other systems.** `ParamsUpdate` (compare-and-swap loops on the lock
  lists; the handlers lock and unlock in one step, which is what it shows such
  a loop to amount to), `Admission` (the policy), `TransferVerdict`, `Relay`,
  `Naming`, `Selection` with `Ledger` (targets and reservations), `Colocation`;
  `Systems` shows one evacuation's protocol to be a part of the last two.

## Assumptions

- A reconcile is handed the status last written, except for the stale views of
  `Transfer.InTransferring`; reconciles of one evacuation do not overlap.
- An API call takes effect before its answer or not at all; none is still in
  flight when the next starts.
- Restore `Done` means the whole snapshot stream of its attempt landed. The
  agent destroys a dataset only once its ZFSVolume is being deleted and the
  guard is off.
- Only pods on the source node write to the source volume, and a writer outlives
  its pod object by at most `unmountMs`.
- Where a theorem asks for it, a lock write is enforced everywhere
  (`World.LockTimely`) and a writer is unmounted (`World.UnmountTimely`) within
  the grace the controller waits for it less the 999 ms its timestamps may lose.
  Both bounds are needed (see the results below).
- Nobody else edits this claim's key, our finalizers or the status; from
  Committing on nobody else creates or edits a PV of this name; the
  replacement's volume is not reclaimed before it was Bound once. Users may
  delete transfer CRs, the claim, the PV, its replacement and the evacuation at
  any time. On ZFSVolumes and transfer CRs there are no finalizers but ours and
  the node agent's.
- The claim, PV name and volume handle of an evacuation are fixed
  (`World.Config`); a node id resolves to one node name; handles and snapshot
  names are fresh.
- For pools: capacities per PV are fixed, no CR is deleted, and a pool's
  report already lacks what completed moves put there. For groups: one
  never-scheduled consumer, no explicit target, no node named like another's
  id, one source, and a claim that comes back is bound to the PV it was.

## Results about the code itself

- Timestamps are cut to the second, so the 5 s lock grace and the settle
  period guarantee up to 999 ms less (`Status.GraceGuarantee`,
  `Status.GraceIsShortByUpToASecond`). Enforcement that takes longer than
  4001 ms lets a consumer in once quiet is recorded (`Losses.QuietBreaks`); if
  it also outlasts the settle period, or unmounting outlasts what the settle
  period guarantees, an evacuation completes without the last bytes written
  (`Losses.LocksTooLate`, `Losses.UnmountsTooLate`).
- WhenClaimed copies are faithful if the source stays shut and nobody gets onto
  it in a pod from before the lock was enforced (`Fidelity.FaithfulWhenShut`).
  `Fidelity.SpoilableIff` says exactly when others can still change the bytes;
  one case is a source tainted NoExecute only, and `Losses.OpenSourceLoses` is
  an evacuation off such a node that completes without the last bytes written.
- An evacuation that fails in TargetSelecting or Committing stays locked and
  guarded; only failures in Pending and through the abort path are unwound
  (`Runs.FailedMeansUnwound`, both directions). Both are reached by ordinary
  evacuations whose PV is deleted or replaced at the wrong moment
  (`Endings.FailsSelecting`, `Endings.FailsCommitting`).
- The abort path never ends while the restore is Done, not being deleted, and
  the source volume exists; in every other case it does
  (`Abort.DoneRestoreNeverEnds`, `Abort.AbortToTheEnd`). Withdrawing the
  trigger, annotation or taint, when the copy has landed leads there (`Endings.AbortsForever`).
- If the status write that records an attempt is lost after its relay was
  registered, and the record names no failure, the evacuation is stranded: no
  visit changes anything, whatever time, returning nodes, agents and relay do,
  until it is called off or the process restarts. `Standstill.StrandedIff` says
  exactly which states these are, `Standstill.StandsStill` and
  `Standstill.CallingOffEndsIt` how long it lasts, and
  `Standstill.FirstRecordLost` and `Standstill.SecondRecordLost` reach it.
- A repeated blocker message is not written, and with it not the cleared
  `quiesced_at`, so a settle period is broken off exactly by a blocker whose
  message differs from the one on record when it began
  (`Settling.UnbrokenIff`, `Settling.PeriodEndsIff`). A period that no blocker
  came before is never cut short (`Settling.FirstPeriodIsClear`); one that
  follows a blocker may be over in the same instant in which the source was
  seen open to every consumer (`Settling.EndsEarly`).
- The pods the policy admits to a claimable volume are kept off a node if and
  only if it is cordoned or carries effect NoSchedule under one of three keys
  (`Admission.AdmittedPodsStayOffIff`); whenever the source is not, two events
  put such a pod on it (`Runs.OpenSourceLetsIn`). A NoExecute-only evacuate
  taint counts as repelling for the controller and is not among them
  (`Admission.NoExecuteAloneIsNotEnough`), although the documentation presents
  both hard effects as enough. The code's policy is modelled.
- `resolve` passes over a sibling off the source exactly when its claim, PV or
  volume is not there at that lookup, as in mid-swap, or when its evacuation ends
  between the lookups of its volume and of itself (`Colocation.MissedIff`). A
  choice made with every sibling passed over may split the group, and no other
  choice can (`Colocation.BlindSplitsIff`); a sibling in mid-swap is enough
  (`Colocation.MidSwapSplits`).
- When the CR is deleted before the commit point and the write of the phase
  Aborting fails, the relay goes on running (`Abort.RunAbort`).
- The message "evacuation complete" is overwritten by the phase change that
  follows it; the model does the same.

## Model

| member | source | states |
|---|---|---|
| Runs.RunsKeepInv | src/controller/state_machine.rs:1-3 | every run of permitted calls and foreign events, broken off anywhere, satisfies the invariant |
| Runs.NoDataLoss | src/controller/state_machine.rs:676-715 | once guarded, the source dataset is destroyed only after the replacement was Bound with a whole copy, or after an abort released it and somebody outside asked for the deletion |
| Runs.FaithfulCopy | src/controller/state_machine.rs:424-489 | the bytes handed over are the source's at that moment, whatever attempts failed: WhenIdle if lock and unmount are timely, in either mode if the unmount is and no user of the claim got onto the source since the lock |
| Fidelity.FaithfulWhenShut | src/controller/state_machine.rs:458-489 | WhenClaimed: so they are if the source stayed shut since the lock and nobody slipped in |
| Fidelity.EnteredBySlipping | deploy/admission.yaml:52-67 | on a source that stayed shut, somebody got on only by a step of the run that created a pod with its node before the lock was enforced, or bound an older pod with a bypassing toleration |
| Fidelity.SpoilableIff | deploy/admission.yaml:52-67 | under the enforced lock, with the source's node object left alone, others can change the source's bytes before the hand-over if and only if somebody uses it or may still be unmounting, or a waiting pod or one the policy admits can be bound to it |
| Losses.QuietBreaks | src/controller/state_machine.rs:464-472 | for every enforcement longer than 4001 ms a run in which quiet is recorded and a consumer is on the source, so the bound in LockTimely is exact |
| Losses.LocksTooLate | src/controller/state_machine.rs:464-472 | when enforcement outlasts the settle period as well, an evacuation that completes without the last write |
| Losses.UnmountsTooLate | src/controller/state_machine.rs:473-488 | for every unmount longer than UnmountTimely allows, another one, in either mode |
| Losses.OpenSourceLoses | src/controller/mod.rs:246-260 | WhenClaimed, off any source that repels pods for the controller but is not shut to admitted ones, another one |
| Runs.QuietUntilUnlocked | src/controller/state_machine.rs:458-489 | WhenIdle, with a timely lock: from the moment quiesced_at is recorded until the unlock, in whatever phase, no pod references the claim and none can be created; with a timely unmount, once the settle period has run and in every phase after it, no writer is left |
| Runs.NoLateComerOnSource | deploy/admission.yaml:52-67 | WhenClaimed: while the source has stayed shut to admitted pods ever since the lock, no pod created under the enforced lock that references the claim is on the source |
| Runs.OpenSourceLetsIn | deploy/admission.yaml:52-67 | and only then: under the enforced lock, from any run whose source is not shut two more events put such a pod on it |
| Runs.SwapIsAtomic | src/controller/pv_swap.rs:154-241 | in Swapping the name holds the old PV, nothing, or exactly the rendering of the stored old manifest |
| Runs.CleanupFollowsHandover | src/controller/pv_swap.rs:211-240 | reaching CleaningUp means Bound; the PV is the same volume at the target with its original policy |
| Runs.LockIsHeld | src/controller/state_machine.rs:441-455 | from Quiescing to Swapping the key is in exactly its mode's list |
| Runs.HandshakeBeforeDelete | src/controller/transfer.rs:345-356 | when cleanup deletes the source volume the received snapshot is destroyed, or its node was lost, or the new volume is gone; no transfer CR is left |
| Runs.AttemptDiscipline | src/controller/transfer.rs:475-503 | every transfer CR carries the recorded attempt, at most max(1, maxAttempts) attempts exist, none is left at Completed |
| Runs.RecordIsTrue | src/controller/state_machine.rs:370-383 | in every run the recorded source node, node id, pool, handle and capacity are the source volume's, and the new volume has the recorded target's node id and pool |
| Runs.AttemptsDoNotOverlap | src/controller/transfer.rs:232-263 | in any run that got to attempt k some instant parts it from the earlier ones: k - 1 on record before and k after, no transfer CR exists then, none of k or later existed before, none of an attempt before k ever exists again |
| Runs.FewPhaseChanges | src/controller/state_machine.rs:117-142 | a run makes at most as many phase changes as its phase ranks, never more than thirteen |
| Runs.CommitIsForGood | src/controller/pv_swap.rs:82-89 | no continuation of a committed run leaves Swapping, CleaningUp and Completed |
| Runs.AbortedRunsAreUnwound | src/controller/abort.rs:25-160 | every run that failed through the abort path stays unwound |
| Runs.FailedMeansUnwound | src/controller/state_machine.rs:573 | a Failed run is unwound if and only if it failed in Pending or Aborting |
| Endings.FailsSelecting | src/controller/state_machine.rs:573-575 | an ordinary evacuation fails in TargetSelecting, locked, when its PV goes right after the cancel check |
| Endings.FailsCommitting | src/controller/pv_swap.rs:71-78 | another fails in Committing, locked, when its PV is replaced during adoption |
| Safety.ActKeepsInv | src/controller/state_machine.rs:1-3 | every permitted call keeps the invariant |
| Safety.EnvKeepsInv | src/crd/zfs_evacuation.rs:12-14 | every event of every other party keeps the invariant |
| Safety.ChangeClimbs | src/controller/state_machine.rs:117-142 | every phase change goes up in rank and never leaves the committed phases |
| Safety.AdmissionKeepsQuiet | deploy/admission.yaml:61 | a pod the enforced policy admits neither disturbs a quiet claim nor can bypass the cordon |
| Manifests.RenderIsTheReplacement | src/controller/pv_swap.rs:96-152 | rendering succeeds exactly for CSI volumes, and the result is the one manifest that is the same volume, points at the target and is Retain |
| Manifests.RenderForgetsEarlierMoves | src/controller/pv_swap.rs:96-152 | rendering a rendering is rendering the original |
| Status.GraceGuarantee | src/controller/mod.rs:381-388 | what a grace measured against a truncated stamp guarantees, both directions |
| Status.GraceIsShortByUpToASecond | src/controller/mod.rs:381-388 | a grace of 5 s may end after 4.001 s |
| AttachLock.LockMembership | src/crd/zfs_evacuation.rs:282-306 | locking puts a key in its mode's list and nowhere else, unlocking in neither; both idempotent, every other key untouched |
| AttachLock.EvacuationParams.Lock | src/crd/zfs_evacuation.rs:285-298 | the lists in place, and changed exactly when they differ |
| AttachLock.EvacuationParams.Unlock | src/crd/zfs_evacuation.rs:301-306 | the lists in place, and changed exactly when they differ |
| ParamsUpdate.UpdateParams | src/controller/mod.rs:159-194 | Ok if and only if one of eight tries reads that nothing is to do or writes undisturbed, with rivals having written between read and write of all before it; a conflict if and only if they did in all eight; any other error only if a call or its answer was lost; so left alone it is Ok. After Ok the operation has taken effect exactly once, last of all that have, and its key is in its list or, unlocked, in neither; after a conflict it has not; otherwise at most once |
| ParamsUpdate.CallsLinearize | src/controller/mod.rs:161-194 | any interleaving of loops equals a sequential order of the calls that returned Ok and of those whose answer was lost after they took effect |
| ParamsUpdate.LeftAloneSucceeds | src/controller/mod.rs:161-194 | in any such interleaving a caller that nobody interrupts returns Ok with its operation done |
| ParamsUpdate.NoKeyTwice | src/crd/zfs_evacuation.rs:282-306 | in every interleaving a key occurs at most once across both lists |
| ParamsUpdate.KeysStayUnique | src/crd/zfs_evacuation.rs:285-306 | from empty lists a key occurs at most once across both |
| ParamsUpdate.LastOpDecides | src/crd/zfs_evacuation.rs:285-306 | the last operation on a key decides which list it is in |
| Admission.PolicySeesWhatTheControllerSees | deploy/admission.yaml:39-45 | the policy's referenced keys are exactly the claims the controller's pod listing sees |
| Pods.ReferencesIff | src/controller/mod.rs:264-290 | a pod references the claims its volumes name and those its ephemeral volumes stand for |
| Admission.LockedClaimAdmitsNobody | deploy/admission.yaml:60-66 | a key in pvcKeys denies every pod that references the claim |
| Admission.DeniesIff | deploy/admission.yaml:52-67 | exactly which pods are denied: those that reference a key in pvcKeys, and those that reference one in claimableKeys and have a node already or a toleration that could match the cordon's taint or an evacuate taint with a hard effect, by key and effect |
| Admission.OthersAreAdmitted | deploy/admission.yaml:52-67 | so a pod without a node whose tolerations, if any, all name other keys is admitted to a claimable volume |
| Admission.AdmittedPodsStayOffIff | deploy/admission.yaml:52-67 | every pod the policy admits to a claimable volume stays off a node if and only if the node is cordoned or carries NoSchedule under the evacuate key, the cordon key or an empty key |
| Admission.NoBypassNoBinding | src/controller/placement.rs:104-120 | a pod that bypasses nothing is not scheduled to such a node |
| Admission.NoExecuteAloneIsNotEnough | src/controller/mod.rs:246-260 | a source tainted NoExecute only counts as repelling, and a concrete pod passes the policy and may be scheduled to it |
| TransferVerdict.ReasonIsKept | src/controller/transfer.rs:170-175 | over any number of visits to an attempt, whatever they find and whichever writes are lost, a recorded reason is never replaced; only a success outruns it |
| TransferVerdict.ReasonNamesTheEnd | src/controller/transfer.rs:176-222 | each failure reason if and only if what it says has happened, in the source's order |
| TransferVerdict.DialedWhenConnected | src/controller/transfer.rs:205-215 | the restore is created, or its source waited for, if and only if the attempt is live and has none, and its source is connected, or not |
| Steps.Advance | src/controller/state_machine.rs:117-128 | phase and cleared message written, nothing else |
| Steps.Wait | src/controller/state_machine.rs:144-157 | writes only a new message |
| Steps.SetGuard | src/controller/state_machine.rs:394-403 | Ok means the volume, if there, is guarded |
| Steps.ClearGuard | src/controller/state_machine.rs:707-710 | Ok means no guard is left, and nothing else comes back |
| Steps.StripIfNodeGone | src/controller/transfer.rs:300-321 | touches nothing while the node that should process the finalizer is there; undisturbed the finalizer goes exactly when it is not |
| Steps.RemoveEvacFinalizer | src/controller/state_machine.rs:175-192 | a CR being deleted disappears, another loses our finalizer |
| Phases.InPending | src/controller/state_machine.rs:270-385 | undisturbed it starts if and only if the volume is evacuable and fails otherwise; it never starts without recording identities read from the cluster |
| Phases.InGuarding | src/controller/state_machine.rs:387-405 | moves on only with the guard on the volume if it exists, whatever others do meanwhile |
| Phases.InRetaining | src/controller/state_machine.rs:407-422 | moves on only with the original PV, if it is there, set to Retain |
| Phases.InLocking | src/controller/state_machine.rs:424-456 | the lock is taken before, and no later than, the time recorded for it |
| Phases.BlockingReason | src/controller/state_machine.rs:507-542 | None if and only if the mode lets the copy proceed |
| Phases.InQuiescing | src/controller/state_machine.rs:458-489 | moves on only when the settle period has run against the recorded time; WhenIdle that time is recorded only once nobody can come back; undisturbed it waits out the grace and every blocker |
| Phases.GraceMakesQuiet | src/controller/state_machine.rs:464-472 | past the grace, what is found clear stays clear: WhenIdle nobody references the claim under the enforced lock, and in either mode nobody uses the source unless somebody gets onto it |
| Phases.InTargetSelecting | src/controller/state_machine.rs:544-638 | waits while the source is busy or nothing fits, fails when the PV vanished, otherwise records target and handle |
| Phases.InAdopting | src/controller/state_machine.rs:640-674 | creates the addressed ZFSVolume, goes to commit only with one that is Ready and stays so, undisturbed aborts on a Failed one |
| Phases.Cancelled | src/controller/state_machine.rs:195-240 | looks in the source's order for the withdrawn trigger, PV or claim that calls an evacuation off; changes nothing |
| Settling.UnbrokenIff | src/controller/state_machine.rs:473-476 | over any number of visits a settle period is still on if and only if every blocker seen since repeated the message on record when it began |
| Settling.PeriodEndsIff | src/controller/state_machine.rs:470-488 | it ends at a visit if and only if nobody is in the way there, it has run its length since the recorded time, and no visit before broke it off |
| Settling.FirstPeriodIsClear | src/controller/state_machine.rs:473-488 | a finished period with no message on record at its start was clear at every visit of its whole length |
| Settling.Watch | src/controller/state_machine.rs:458-489 | those visits are what the handler does, with any pods, nodes and locks changing in between |
| Settling.EndsEarly | src/controller/state_machine.rs:473-476 | an ordinary WhenClaimed evacuation, of either trigger, whose settle period ends in the instant in which the source was seen schedulable |
| Transfer.CleanupTransferCrs | src/controller/transfer.rs:265-298 | true exactly when no transfer CR of any attempt is left |
| Transfer.StartAttempt | src/controller/transfer.rs:427-505 | never over a running relay; the record is written before the CR exists, and after the relay is registered; a lost record leaves the relay and nothing else |
| Transfer.RetryOrFail | src/controller/transfer.rs:232-263 | gives up only with maxAttempts used and no transfer CR left; otherwise the next attempt is within the limit, with its own relay, or the relay is gone and nothing started |
| Transfer.Observe | src/controller/transfer.rs:49-86 | an observed Done restore of the recorded attempt means its copy has landed |
| Transfer.InTransferring | src/controller/transfer.rs:33-121 | does what the verdict says; a stale view changes neither relay, CRs nor status; whatever happens meanwhile, a restore is there only of an attempt whose source has connected |
| Standstill.StrandedIff | src/controller/transfer.rs:33-121 | exactly the states of the copy phase that no passing of time, no node's return, no agent's and no relay's progress gets a visit to move on from, nodes up or not: the relay ahead of a record without a failure, no CR left to report an end, not called off |
| Standstill.StandsStill | src/controller/transfer.rs:186-192 | any number of visits leaves such a state as it is whatever anybody does in between, up to the first that finds the evacuation called off, which aborts |
| Standstill.CallingOffEndsIt | src/controller/state_machine.rs:60-69 | calling it off does end it: two visits later there is no relay |
| Standstill.LosesTheRecord | src/controller/transfer.rs:449-486 | a start whose record is lost strands the evacuation if and only if the record before names no failure |
| Standstill.FirstRecordLost | src/controller/transfer.rs:437-445 | an ordinary evacuation stranded before its first attempt is on record |
| Standstill.SecondRecordLost | src/controller/transfer.rs:186-192 | one stranded between its first and its second attempt |
| Transfer.DeleteAndMark | src/controller/transfer.rs:396-425 | only a CR its agent took on, or whose node is lost, is deleted, and then marked |
| Transfer.DestroyTargetSnapshot | src/controller/transfer.rs:345-414 | None means the handshake is over; a CR that is gone is never registered again |
| PvSwap.InCommitting | src/controller/pv_swap.rs:23-90 | a commit records the rendering of the manifest it records as old, and then the name holds the old PV or nothing; undisturbed it commits if and only if the recorded claim is there, no pod is in the way and the PV is the original |
| PvSwap.RemoveOldPv | src/controller/pv_swap.rs:165-194 | the old PV alone is deleted and stripped, after a last look at the pods |
| PvSwap.FinishSwap | src/controller/pv_swap.rs:211-237 | the policy goes back before the phase moves on |
| PvSwap.InSwapping | src/controller/pv_swap.rs:154-242 | old PV away, nothing to replacement, rebound replacement to CleaningUp, else wait |
| Cleanup.RemoveSource | src/controller/state_machine.rs:698-715 | deletes the source and drops the guard only with CRs and received snapshot settled |
| Cleanup.Finish | src/controller/state_machine.rs:717-751 | unlocks, clears the trigger, completes, and only then lets go of the CR |
| Cleanup.InCleaningUp | src/controller/state_machine.rs:676-752 | one step of: transfer CRs, received snapshot, source volume, lock |
| Abort.UnwindTarget | src/controller/abort.rs:41-96 | None means no target volume and no transfer CR is left |
| Abort.RestorePolicy | src/controller/abort.rs:98-112 | the original PV, if still there, has its policy back |
| Abort.Unlock | src/controller/abort.rs:114-127 | the key is in neither list |
| Abort.HonorDeletion | src/controller/abort.rs:129-147 | asks the source to go only if claim and PV were both gone and the policy is Delete (exactly then: Visits.LastVisitIs) |
| Abort.ReleaseSource | src/controller/abort.rs:129-156 | the guard goes last |
| Abort.RunAbort | src/controller/abort.rs:25-173 | ends in Failed, unwound, or with the CR released; the relay is stopped once the phase is known to be recorded, and if that fails only the process's death stops it |
| Abort.DoneRestoreNeverEnds | src/controller/abort.rs:72-86 | while a Done restore and the source stand, every other visit puts the target volume back |
| Abort.StandsOn | src/controller/abort.rs:72-86 | so no number of visits ends it |
| Endings.AbortsForever | src/controller/abort.rs:72-86 | an ordinary evacuation whose trigger, of either kind, is withdrawn when its copy has landed gets there and stays, however many visits follow |
| Endings.WithdrawnStops | src/controller/state_machine.rs:195-240 | an ordinary evacuation of either trigger is called off at the next visit when the annotation or the taint is withdrawn while it waits for the claim |
| Endings.VanishedGoesOn | src/controller/state_machine.rs:213-222 | one whose source node vanishes, and its taint with it, goes on to the copy |
| Abort.AbortToTheEnd | src/controller/abort.rs:25-160 | otherwise four undisturbed visits end it, unwound |
| Reconciler.CalledOffIff | src/controller/state_machine.rs:195-240 | an undisturbed visit to an evacuation that has started, not committed and is not deleted calls it off if and only if there is no PV, or the Annotation trigger's annotation is not "true", or the NodeTaint trigger's taint is off a source node that is there, or the recorded claim is gone or another one; otherwise it is its phase's visit |
| Visits.VisitIs | src/controller/state_machine.rs:31-58 | otherwise: finished ones are left alone, aborting ones go on aborting, those not started or committed get their phase's visit |
| Visits.DeletionAborts | src/controller/state_machine.rs:38-50 | with the CR being deleted: before the commit it aborts, relay stopped, and lets go exactly once nothing of the copy is left; after it, it goes on; finished, it lets go |
| Visits.StartsIff | src/controller/state_machine.rs:270-385 | exactly which volumes start, in terms of PV, claim, source volume and node, and the record that is made of them |
| Visits.LabelIff | src/controller/state_machine.rs:102-115 | which handles fit a label, character by character |
| Visits.GuardsIff | src/controller/state_machine.rs:387-405 | the guard goes on and the phase on, unless the volume is being deleted without it |
| Visits.RetainsIff | src/controller/state_machine.rs:407-422 | the PV is set to Retain if and only if it is there, and nothing else of it changes |
| Visits.LocksIff | src/controller/state_machine.rs:424-456 | the key is in the list of its mode and no other, the claim marked, the second recorded |
| Visits.IdleIff | src/controller/state_machine.rs:493-542 | what lets a copy proceed: no pod that references the claim; or none on a node, and a source that is away, cordoned, or tainted by the key with a hard effect |
| Visits.BlockersNamed | src/controller/mod.rs:327-344 | the pods a blocker message names, those on a node apart from those waiting |
| Visits.QuiescesIff | src/controller/state_machine.rs:458-489 | grace, blocker, start, length and end of the settle period, each exactly when |
| Visits.SelectsIff | src/controller/state_machine.rs:544-638 | a target is recorded, or the evacuation fails, exactly when |
| Visits.FirstAttemptIff | src/controller/transfer.rs:427-505 | the first attempt starts exactly when both nodes are there with addresses and no relay is live; relay, record and backup are all there is of it |
| Visits.AttemptEndsIff | src/controller/transfer.rs:163-263 | an attempt is won, followed by the next or the last one exactly when, in terms of jobs, record, relay and clocks |
| Visits.LostIsTornDown | src/controller/transfer.rs:234-263 | a lost attempt's relay stops and its CRs are asked to go, both in one visit |
| Visits.RestoreAppearsIff | src/controller/transfer.rs:205-215 | a restore appears if and only if the attempt is neither won nor lost, has none, its own relay's source is connected and the source volume is there |
| Visits.WaitsForSource | src/controller/transfer.rs:205-215 | without the source connected only the message changes |
| Visits.CountsBytes | src/controller/transfer.rs:108-121 | with the receiver at work the relay's bytes go on record |
| Visits.OtherRelay | src/controller/transfer.rs:186-195 | a later attempt's relay is left alone, an earlier one's dropped |
| Visits.AdoptsIff | src/controller/state_machine.rs:640-674 | the target volume is the source's, addressed to the target; Ready commits, Failed aborts, nothing else does |
| Visits.CommitsIff | src/controller/pv_swap.rs:23-90 | it commits if and only if the recorded claim is there, pods and source are as the mode asks, and the original PV, a CSI one, is there |
| Visits.BacksOutIff | src/controller/pv_swap.rs:31-78 | another claim or a pod in the way aborts, another PV fails, exactly then |
| Visits.CommitsTheReplacement | src/controller/pv_swap.rs:80-90 | the commit records the PV as it is and its one replacement |
| Visits.SwapEndsIff | src/controller/pv_swap.rs:211-240 | the swap ends exactly with another PV bound to the recorded claim, which gets the old policy |
| Visits.SwapsThePv | src/controller/pv_swap.rs:154-210 | until then: the old PV goes, with our and the usual finalizers off, unless a pod is in the way; nothing becomes the replacement |
| Visits.CrsGoFirst | src/controller/state_machine.rs:676-690 | cleanup does nothing else while transfer CRs are left |
| Visits.HandshakeGoesNext | src/controller/transfer.rs:357-425 | each step of the snapshot handshake, exactly when |
| Visits.SourceGoesThen | src/controller/state_machine.rs:698-715 | then the source is asked to go, unguarded, and stripped if its node is away |
| Visits.CompletesIff | src/controller/state_machine.rs:676-752 | it completes if and only if CRs, received snapshot and source volume are gone; then key, marker, trigger and finalizer are, too |
| Visits.AbortEndsIff | src/controller/abort.rs:41-96 | an abort ends if and only if no target volume and no transfer CR is left; before that: volume, orphan, CRs, in this order, and nothing of claim, lock or source |
| Visits.LastVisitIs | src/controller/abort.rs:98-160 | its last visit gives back the policy, unlocks and unguards; the source is asked to go if and only if claim and PV are gone and the policy was Delete |
| Visits.CrGoesIff | src/controller/transfer.rs:267-321 | a CR asked to go goes at once without an agent's finalizer, and otherwise when the agent is done or its node is away |
| Visits.TargetGoesIff | src/controller/abort.rs:52-66 | so does the target volume |
| Reconciler.Reconcile | src/controller/state_machine.rs:31-85 | which handler runs, and what an undisturbed visit makes of the cluster; a finished evacuation is left alone; no visit that answers without asking for another leaves an evacuation neither finished nor unwound |
| Reconciler.Control | src/controller/state_machine.rs:31-85 | any number of visits among any faults is a run: no data loss, at most thirteen phase changes, no way back from a commit, no restore of an attempt whose source has not connected |
| Completion.Evacuate | src/controller/state_machine.rs:31-85 | in either mode and by either trigger an idle evacuable volume with agents doing their part reaches Completed: bytes at the target, source gone, claim's PV pointing there, lock free |
| Relay.Conservation | src/transfer/relay.rs:109-144 | in every interleaving delivered, in hand, queued, held back and unread bytes are the stream in order; the counter never runs ahead |
| Relay.OkMeansAll | src/transfer/relay.rs:145-152 | Ok means a non-empty stream delivered whole up to a clean end |
| Relay.ConnectedIff | src/transfer/relay.rs:109-112 | the source counts as connected exactly from its acceptance on, and before that not a byte has moved |
| Relay.BoundedMemory | src/transfer/relay.rs:78-86 | never more than (BUFFER_CHUNKS + 2) chunks between reading and delivery |
| Relay.FewRefreshes | src/transfer/relay.rs:118-135 | with the writer stuck the reader moves last_activity at most BUFFER_CHUNKS + 1 times |
| Relay.SomeWindowIsSilent | src/transfer/relay.rs:118-144 | among more windows than there is room, one has no refresh |
| Relay.StandstillEndsTheAttempt | src/controller/transfer.rs:196-223 | so a target that stops taking bytes is found out within BUFFER_CHUNKS + 2 stall windows, once the timeout has passed |
| Relay.ActivityIsLastMove | src/transfer/relay.rs:109-144 | last_activity is the time of the last connection, read or wholly written chunk |
| Relay.MovingIsNotStalled | src/controller/transfer.rs:216-222 | and no false alarm: within the stall limit of such a move no visit takes the stream for stalled |
| Relay.AcceptFrom | src/transfer/relay.rs:185-203 | the first allowed peer and nobody else; an empty list accepts nobody |
| Relay.Splice.ReaderTurn | src/transfer/relay.rs:123-135 | one turn of the reader in place is its steps of the machine |
| Relay.Splice.WriteAll | src/transfer/relay.rs:139-144 | a chunk's partial writes are those steps of the machine, and it counts only once all of it is delivered |
| Relay.Splice.Finish | src/transfer/relay.rs:145-152 | Ok if and only if the stream was non-empty, whole and cleanly ended |
| Relay.Splice.Serve | src/transfer/relay.rs:109-144 | the two loops by whole turns, in any order, are runs of the machine (TurnsAreSteps) |
| Relay.Splice.Drive | src/transfer/relay.rs:109-155 | any schedule of the tasks' turns on the shared variables is that run of the machine, so they hold a prefix of the stream, and all of it when finished |
| Naming.NamesAreDistinct | src/controller/transfer.rs:26-31 | names of one kind are equal if and only if evacuation and attempt are, names of the two kinds never |
| Selection.PoolComponent | src/controller/target.rs:35-41 | the part before the first slash |
| Selection.BuildLedger | src/controller/target.rs:92-140 | each pool's entry is exactly what is on its way there for others plus what the groups there list of volumes that have no target and are not their holder's or one's own; busy are exactly the nodes others are on their way to |
| Selection.ReservedIs | src/controller/target.rs:92-140 | what is reserved against an evacuation on a pool, exactly: others' bytes on their way, and the groups' bytes not placed yet |
| Selection.GrouplessReserve | src/controller/target.rs:92-140 | without groups it is what is on its way for others |
| Selection.CompletedReservesNothing | src/controller/target.rs:110-120 | and a completed evacuation outside a group reserves nothing |
| Selection.HostIs | src/controller/target.rs:171-174 | the host of a pool is the first node whose label, or name without one, is its identity |
| Selection.ExplicitIff | src/controller/target.rs:145-164 | an explicit target matches an identity, or the first node of that name |
| Selection.CollectPools | src/controller/target.rs:193-218 | exactly the pools that fit, and no subtraction below zero |
| Selection.NeedIs | src/controller/target.rs:85-90 | what has to fit: the volume's bytes, its group's, and the headroom percentage of both, rounded down |
| Selection.MostSpare | src/controller/target.rs:224-226 | the first candidate with the most to spare |
| Selection.SelectTarget | src/controller/target.rs:66-250 | a target if and only if some pool's free space covers the bytes and headroom beside exactly those entries, on an allowed node that is ready, neither cordoned nor being evacuated, and not receiving; one with the most to spare, and the pool asked for first by the evacuation, then by the storage class, then the source's |
| Ledger.LedgerCovers | src/controller/target.rs:85-140 | the ledger covers all bytes in flight and all owed to distinct group members |
| Ledger.ChoiceFits | src/controller/target.rs:193-218 | a choice made on a listing still fits, whatever completed or failed since |
| Ledger.NeverOversold | src/controller/target.rs:121-138 | on every pool landed, in-flight and owed bytes stay within its size in every interleaving |
| Ledger.CapsHold | src/controller/state_machine.rs:553-571 | at most one evacuation copies off a node and at most one is on its way to a node |
| Ledger.AnswersMayBeChosen | src/controller/state_machine.rs:605-631 | what SelectTarget answers under the lock is a step of that system |
| Colocation.PickAnchor | src/controller/colocation.rs:118-138 | most votes, smallest name on ties, an anchor of the input, None exactly on no input |
| Colocation.WinnerIsUnique | src/controller/colocation.rs:133-136 | the winning node is determined |
| Colocation.WinnerIgnoresOrder | src/controller/colocation.rs:118-138 | the order of the anchors does not matter |
| Colocation.FirstUnscheduled | src/controller/mod.rs:312-318 | the never-scheduled pod first by name |
| Colocation.Resolve | src/controller/colocation.rs:41-116 | members and anchors of the consumer's claims as found by one lookup after the other, each of the cluster as it is by then, and the winning anchor |
| Colocation.StillLook | src/controller/colocation.rs:56-107 | while nothing changes the lookups find, claim by claim and in order, the volumes of our PVs that are all there, and nothing twice |
| Colocation.JudgedIff | src/controller/colocation.rs:87-107 | a sibling counts where its evacuation is ordered to, or has its target, while that may still deliver; failing both where its volume is; it joins exactly when that is the source |
| Colocation.LookKeepsFound | src/controller/colocation.rs:83-107 | whatever a resolve has found so far is where every volume of the group off the source is |
| Colocation.MissedIff | src/controller/colocation.rs:56-94 | exactly when a lookup passes over a sibling that is off the source |
| Colocation.AnchorMatchesItself | src/controller/target.rs:153-164 | without name clashes an anchor matches its own node alone |
| Colocation.GroupNeverSplits | src/controller/state_machine.rs:576-631 | all live targets and landed volumes of a group share one node in every interleaving of evacuations and single lookups in which nobody chooses with every sibling passed over |
| Colocation.UnmovedNeverSplits | src/controller/state_machine.rs:576-631 | so does a group nobody has moved yet, whose volumes are all on the source |
| Colocation.BlindSplitsIff | src/controller/state_machine.rs:576-631 | some admissible choice splits the group if and only if it is such a choice and there is another node to take |
| Colocation.AttentiveNeverSplits | src/controller/colocation.rs:56-94 | a resolve that passes over no sibling off the source never makes such a choice |
| Colocation.MidSwapSplits | src/controller/colocation.rs:63-65 | a run from two volumes at home to a split group, with one in mid-swap when the other is resolved |
| Colocation.AnswersFollow | src/controller/target.rs:145-164 | a target selected with the resolved anchor follows the group |
| Systems.ChangeIsMove | src/controller/state_machine.rs:117-142 | every permitted phase change is a move of the system of listings and keeps the target, but for the start of the copy, which sets the first one in TargetSelecting |
| Systems.WriteIsListed | src/controller/target.rs:92-140 | so whatever an evacuation that is not selecting writes, the system of listings takes it and still shows the record |
| Systems.ChangeIsGroupMove | src/controller/colocation.rs:56-94 | and the group's system takes it and still shows record, PV and volumes |
| Systems.ReplacementIsGroupStep | src/controller/pv_swap.rs:154-241 | the creation of the replacement is the step there that puts the PV onto the target's volume |

Smaller contracts behind these: `TransferVerdict.SuccessNeedsBothAgents`,
`LiveAttemptFailsIff` and `StaleViewHarmlessIff` say when the verdict completes,
fails a live attempt and leaves an older view alone;
`Manifests.AdaptedIsAddressed` that the target's spec is the source's but for
its address.

## Left out

- `trigger.rs`, `leader.rs`, `main.rs`, serde, logging, CRD generation and message texts: input and output only; triggers and cancellations are inputs.
- `parse_quantity`: floating point; capacities and free space are naturals.
- `IpNet`, ports and sockets: peers are opaque values, connections arrive in some order.
- Node selectors and affinity terms of `Placement::admits`: boolean lookups that would only add easy members; selection takes the whole predicate as a parameter, the toleration rule is modelled.
- StorageClass lookups: their results are inputs of selection.
- Phases.InTargetSelecting: the listing, resolving and selecting done inside it are `Selection` and `Colocation`, whose answer it takes as a parameter; `status.colocation` is kept in `Ledger` instead of the status.
- Phases.InPending: only the claim and the volume named in the configuration exist, so a PV re-created in Pending with other names fails instead of being followed.
- Client.Cluster.Do: no call is still in flight after its caller went on, and a lost answer is seen by the caller at once.
- Transfer.StartAttempt: snapshot name and ports are not recorded, so two evacuations whose 16-bit suffixes collide on one snapshot name are outside the model.
- Transfer.InTransferring: stale views with a recorded failure reason are not claimed harmless, since the code acts on the reason first.
- Ledger.NeverOversold: says nothing once a CR is deleted or a pool's report is older than a completed move.
- Orphan datasets after an abort: a restore may turn Done after the abort path has read it; the model allows that, and nothing is claimed against it.
