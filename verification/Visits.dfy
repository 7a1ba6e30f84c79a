// What one undisturbed visit decides, phase by phase, in terms of what is in
// the cluster and the record alone: the handlers of the phases against the
// conditions they are there to check.
module Visits {
  import opened Common
  import opened Manifests
  import opened Pods
  import opened AttachLock
  import opened Status
  import opened World
  import opened Protocol
  import opened Runs
  import opened TransferVerdict
  import opened Steps
  import opened Phases
  import opened Transfer
  import opened PvSwap
  import opened Cleanup
  import opened Abort
  import opened Reconciler

  // ------------------------------------------------------ whose visit it is

  // With the CR not being deleted: a finished evacuation is left alone; an
  // aborting one goes on aborting, its relay stopped; one that has not started,
  // or has committed, is not called off, and gets its phase's visit. (For the
  // rest see Reconciler.CalledOffIff.)
  lemma VisitIs(cfg: Config, w: World, relay: Option<RelayObs>, pick: Choice)
    requires Inv(cfg, w) && w.cr.Some? && !w.cr.value.deleting
    ensures var (t, held) := (ReconcileStep(cfg, w, relay, pick), w.(cr := Some(Cr(false, true))));
            && (w.st.phase.Completed? || w.st.phase.Failed? ==> t == w && RelayLeft(cfg, w, relay) == relay)
            && (w.st.phase.Aborting? ==>
                  t == AbortStep(cfg, held, w.st, false) && RelayLeft(cfg, w, relay) == None)
            && (w.st.phase.Pending? || w.st.phase.Swapping? || w.st.phase.CleaningUp? ==>
                  t == PhaseStep(cfg, held, relay, pick))
  {
    CommitFlag(cfg, w);
    hide Inv, PhaseStep, AbortStep;
  }

  // A finished evacuation only lets go of a CR being deleted; one being deleted
  // before it commits aborts, whatever its phase, and stops its relay, and lets
  // go once nothing of the copy is left; a committed one goes on though it is
  // being deleted.
  lemma DeletionAborts(cfg: Config, w: World, relay: Option<RelayObs>, pick: Choice)
    requires Inv(cfg, w) && w.cr.Some? && w.cr.value.deleting
    ensures var t := ReconcileStep(cfg, w, relay, pick);
            && (w.st.phase.Completed? || w.st.phase.Failed? ==> t == w.(cr := None))
            && (w.st.phase.Swapping? || w.st.phase.CleaningUp? ==> t == PhaseStep(cfg, w, relay, pick))
            && (!w.st.committed && !w.st.phase.Failed? ==>
                  && t.st.phase.Aborting? && RelayLeft(cfg, w, relay) == None
                  && (t.cr.None? <==> w.copy.zv.None? && w.copy.bkps == map[] && w.copy.rsts == map[]))
  {
    CommitFlag(cfg, w);
    if !w.st.committed && !w.st.phase.Failed? { AbortReleases(cfg, w); }
    var st := w.st.(message := Some(DeletedBeforeCommit));
    AbortingOrOver(cfg, w, st, true);
    hide Inv, PhaseStep, AbortStep;
  }

  lemma AbortReleases(cfg: Config, w: World)
    requires w.cr.Some? && w.cr.value.deleting && Inv(cfg, w) && !w.st.committed && !w.st.phase.Failed?
    ensures var t := AbortStep(cfg, w, w.st.(message := Some(DeletedBeforeCommit)), true);
            t.cr.None? <==> w.copy.zv.None? && w.copy.bkps == map[] && w.copy.rsts == map[]
  {
    var st := w.st.(message := Some(DeletedBeforeCommit));
    var u := if st.phase.Aborting? then w else Written(w, st.(phase := Aborting));
    SourceUnwoundKeepsCr(cfg, u);
    OnlyCrsCleaned(cfg, u, Attempt(u.st));
    DeletingTarget(cfg, u);
    NothingWithoutTransfer(cfg, w);
    hide Inv, SourceUnwound, CrsCleaned, TargetDeleted, TargetZv;
  }

  lemma NothingWithoutTransfer(cfg: Config, w: World)
    requires Inv(cfg, w)
    ensures w.st.transfer.None? ==> w.copy.zv.None? && w.copy.bkps == map[] && w.copy.rsts == map[]
  {
    hide InvAccess;
    if w.st.transfer.None? { assert w.copy.bkps.Keys == {} && w.copy.rsts.Keys == {}; }
  }

  lemma AbortingOrOver(cfg: Config, w: World, st: Status, deleting: bool)
    requires w.st == st.(message := w.st.message)
    ensures var t := AbortStep(cfg, w, st, deleting);
            t.st.phase.Aborting? || (t.st.phase.Failed? && !deleting)
  {
    var u := if st.phase.Aborting? then w else Written(w, st.(phase := Aborting));
    SourceUnwoundKeepsCr(cfg, u);
    OnlyCrsCleaned(cfg, u, Attempt(u.st));
    DeletingTarget(cfg, u);
    hide SourceUnwound, CrsCleaned, TargetDeleted, TargetZv;
  }

  // ------------------------------------------------------- up to the lock

  // source_handle_fits_snapshot_label, character by character.
  predicate IsLabel(s: string) {
    && 0 < |s| <= 63
    && forall k | 0 <= k < |s| ::
         || 'a' <= s[k] <= 'z' || 'A' <= s[k] <= 'Z' || '0' <= s[k] <= '9'
         || (0 < k < |s| - 1 && (s[k] == '-' || s[k] == '_' || s[k] == '.'))
  }

  lemma LabelIff(s: string)
    ensures FitsLabel(s) <==> IsLabel(s)
  {
    if IsLabel(s) {
      forall ch <- s ensures Alphanumeric(ch) || ch == '-' || ch == '_' || ch == '.' {}
    }
    if FitsLabel(s) {
      forall k | 0 <= k < |s| ensures Alphanumeric(s[k]) || (0 < k < |s| - 1 && !Alphanumeric(s[k])) {}
      assert forall k | 0 <= k < |s| :: s[k] in s;
    }
  }

  // It starts exactly for a volume of our driver with a handle that fits, bound
  // to the claim it names, whose source is neither a clone nor marked nor has
  // snapshots, on a node that is there; and then says in the record whose claim
  // it is, where the volume is, and what its policy was.
  lemma StartsIff(cfg: Config, w: World, relay: Option<RelayObs>, pick: Choice)
    requires w.st.phase.Pending?
    ensures var t := PhaseStep(cfg, w, relay, pick);
            t.st.phase.Guarding? <==>
              && w.claim.pv.Some? && w.claim.pv.value.body.csi.Some?
              && w.claim.pv.value.body.csi.value.driver == "zfs.csi.openebs.io"
              && w.claim.pv.value.body.csi.value.volumeHandle == cfg.handle && IsLabel(cfg.handle)
              && w.claim.pv.value.body.claimRef.Some?
              && w.claim.pv.value.body.claimRef.value.ns == Some(cfg.ns)
              && w.claim.pv.value.body.claimRef.value.name == Some(cfg.pvcName)
              && w.claim.pvc.Some? && w.claim.pvc.value.volumeName == Some(cfg.pvName) && !w.claim.pvc.value.resizing
              && w.src.zv.Some? && !w.src.zv.value.marked && w.src.zv.value.info.capacity > 0
              && (w.src.zv.value.info.snapname == None || w.src.zv.value.info.snapname == Some(""))
              && !w.src.snapshots && w.gate.srcNode.Some?
    ensures var t := PhaseStep(cfg, w, relay, pick);
            if t.st.phase.Guarding?
            then t == w.(st := w.st.(
                           phase := Guarding, message := None,
                           pvcRef := Some(PvcRef(cfg.ns, cfg.pvcName, w.claim.pvc.value.uid)),
                           source := Some(SourceInfo(
                             node := w.gate.srcNode.value.name, nodeId := w.src.zv.value.info.ownerNodeId,
                             pool := w.src.zv.value.info.poolName, volumeHandle := cfg.handle,
                             pvUid := w.claim.pv.value.uid, capacityBytes := w.src.zv.value.info.capacity)),
                           originalPolicy := w.claim.pv.value.body.reclaimPolicy))
            else t.st == w.st.(phase := Failed, message := Some(NotEvacuable)) && t.failedFrom == Some(Pending)
  {
    LabelIff(cfg.handle);
    hide FitsLabel, IsLabel;
  }

  // The guard goes on, unless the volume is being deleted without it.
  lemma GuardsIff(cfg: Config, w: World, relay: Option<RelayObs>, pick: Choice)
    requires w.st.phase.Guarding?
    ensures var t := PhaseStep(cfg, w, relay, pick);
            if w.src.zv.None? || w.src.zv.value.guard || !w.src.zv.value.deleting
            then && t.st == w.st.(phase := Retaining, message := None) && t.claim == w.claim && t.gate == w.gate
                 && t.src.zv == (if w.src.zv.Some? then Some(w.src.zv.value.(guard := true)) else None)
            else t == w
  {
  }

  // The PV, if there is one, is set to Retain.
  lemma RetainsIff(cfg: Config, w: World, relay: Option<RelayObs>, pick: Choice)
    requires w.st.phase.Retaining?
    ensures var t := PhaseStep(cfg, w, relay, pick);
            if w.claim.pv.Some?
            then && t.st == w.st.(phase := Locking, message := None) && t.src == w.src && t.gate == w.gate
                 && t.claim == w.claim.(pv := Some(w.claim.pv.value.(
                                                     body := w.claim.pv.value.body.(reclaimPolicy := Some("Retain")))))
            else t == w
  {
  }

  // The key is locked in the list of its mode alone; with the claim there, it
  // is marked, and the second of the lock goes on record.
  lemma LocksIff(cfg: Config, w: World, relay: Option<RelayObs>, pick: Choice)
    requires w.st.phase.Locking?
    ensures var t := PhaseStep(cfg, w, relay, pick);
            && (Key(cfg) in t.gate.params.pvcKeys <==> cfg.mode == WhenIdle)
            && (Key(cfg) in t.gate.params.claimableKeys <==> cfg.mode == WhenClaimed)
            && if w.claim.pvc.Some?
               then && t.claim == w.claim.(pvc := Some(w.claim.pvc.value.(marked := true)))
                    && t.st == w.st.(phase := Quiescing, message := None, lockedAt := Some(w.gate.now / 1000))
               else t.st == w.st && t.claim == w.claim
  {
    LockMembership(w.gate.params, Key(cfg), cfg.mode, Key(cfg) + "x");
    hide Locked;
  }

  // ------------------------------------------------------------- quiescing

  // The pods and the node are as the mode asks: no pod that references the
  // claim; or none that is scheduled, and a source that is away, cordoned, or
  // keeps pods off by the evacuate taint with a hard effect.
  predicate Idle(cfg: Config, g: Gate) {
    if cfg.mode == WhenIdle then forall n <- g.pods :: !ReferencesPvc(g.pods[n], cfg.pvcName)
    else
      && (forall n <- g.pods :: ReferencesPvc(g.pods[n], cfg.pvcName) ==> g.pods[n].nodeName == "")
      && (|| g.srcNode.None? || g.srcNode.value.unschedulable
          || exists t <- g.srcNode.value.taints ::
               t.key == cfg.taintKey && (t.effect == "NoSchedule" || t.effect == "NoExecute"))
  }

  lemma IdleIff(cfg: Config, g: Gate)
    ensures MayProceed(cfg, RefPods(cfg, g.pods), g.srcNode) <==> Idle(cfg, g)
  {
    var refs := RefPods(cfg, g.pods);
    assert forall n <- g.pods :: ReferencesPvc(g.pods[n], cfg.pvcName) ==> n in refs;
    hide ReferencesPvc;
  }

  lemma LockedAlready(cfg: Config, w: World)
    requires Inv(cfg, w) && w.st.phase.Quiescing?
    ensures w.st.lockedAt.Some? && w.st.lockedAt.value * 1000 <= w.gate.now
  {
    hide InvObjects, InvHandover, InvLate, InvQuiet, InvFidelity, InvSnapshot, InvNodes;
  }

  // The pods the message names, those on a node apart from those waiting.
  lemma BlockersNamed(cfg: Config, pods: map<string, Pod>)
    ensures var on := set n | n in pods && ReferencesPvc(pods[n], cfg.pvcName) && pods[n].nodeName != "";
            var off := set n | n in pods && ReferencesPvc(pods[n], cfg.pvcName) && pods[n].nodeName == "";
            BlockedBy(cfg, RefPods(cfg, pods)) ==
            if cfg.mode == WhenIdle then BlockedByPods(on, off)
            else if on != {} then BlockedByPods(on, {})
            else SourceSchedulable(off)
  {
    hide ReferencesPvc;
    var refs := RefPods(cfg, pods);
    var on := set n | n in pods && ReferencesPvc(pods[n], cfg.pvcName) && pods[n].nodeName != "";
    var off := set n | n in pods && ReferencesPvc(pods[n], cfg.pvcName) && pods[n].nodeName == "";
    assert NamesOf(refs, true) == on && NamesOf(refs, false) == off;
  }

  // Within five seconds of the lock's recorded second nothing happens. After
  // that an idle claim starts the settle period, or ends it once the period has
  // run against its recorded second; a claim in use ends the period too, unless
  // that is no news.
  lemma QuiescesIff(cfg: Config, w: World, relay: Option<RelayObs>, pick: Choice)
    requires Inv(cfg, w) && w.st.phase.Quiescing?
    ensures w.st.lockedAt.Some?
    ensures var (t, q) := (PhaseStep(cfg, w, relay, pick), w.st.quiescedAt);
            if w.gate.now < (w.st.lockedAt.value + 5) * 1000 then t == w
            else if !Idle(cfg, w.gate) then
              && t.st.message == Some(BlockedBy(cfg, RefPods(cfg, w.gate.pods)))
              && t == if t.st.message == w.st.message then w
                      else w.(st := w.st.(quiescedAt := None, message := t.st.message))
            else if q.None? || w.gate.now < q.value * 1000 then
              t == w.(st := w.st.(quiescedAt := Some(w.gate.now / 1000)))
            else if w.gate.now < (q.value + cfg.settleSeconds) * 1000 then t == w
            else t == w.(st := w.st.(phase := TargetSelecting, message := None))
  {
    IdleIff(cfg, w.gate);
    hide Idle, MayProceed, RefPods, BlockedBy;
    LockedAlready(cfg, w);
    hide Inv;
  }

  // ------------------------------------------------------------ the target

  // A target goes on record, with the handle drawn for it, exactly when no other
  // evacuation is copying off the node, the PV is there and there is a choice;
  // without the PV the evacuation fails.
  lemma SelectsIff(cfg: Config, w: World, relay: Option<RelayObs>, pick: Choice)
    requires w.st.phase.TargetSelecting?
    ensures var t := PhaseStep(cfg, w, relay, pick);
            && t == w.(st := t.st, failedFrom := t.failedFrom)
            && (t.st.phase.Transferring? <==> !pick.busy && w.claim.pv.Some? && pick.target.Some?)
            && (t.st.phase.Transferring? ==>
                  t.st == w.st.(phase := Transferring, message := None,
                                target := Some(TargetInfo(pick.target.value.node, pick.target.value.nodeId,
                                                          pick.target.value.pool, pick.handle))))
            && (t.st.phase.Failed? <==> !pick.busy && w.claim.pv.None?)
            && (!t.st.phase.Transferring? && !t.st.phase.Failed? ==> t.st == w.st.(message := t.st.message))
  {
  }

  // -------------------------------------------------------------- the copy

  // Both nodes are there and have addresses to let in.
  predicate Reachable(w: World) {
    w.gate.srcNode.Some? && w.nodes.srcPeers && w.nodes.tgtUp && w.nodes.tgtPeers
  }

  // The first attempt starts exactly when the nodes are reachable and no relay
  // is live: a relay of its own, the record, the sending CR, and nothing yet for
  // the receiving side.
  lemma FirstAttemptIff(cfg: Config, w: World, relay: Option<RelayObs>)
    requires w.st.phase.Transferring? && w.st.transfer.None?
    ensures var t := TransferStep(cfg, w, relay);
            if Reachable(w) && !(relay.Some? && relay.value.attempt >= 1)
            then && TransferRelay(cfg, w, relay) == Some(RelayObs(1, 0, w.gate.now / 1000, false, false))
                 && t == w.(st := w.st.(transfer := Some(TransferStatus(1, None, w.gate.now / 1000, None, false)),
                                        message := Some(AttemptStarting(1))),
                            copy := w.copy.(bkps := w.copy.bkps[1 := Job(JobInit, false, false)]))
            else t == w && TransferRelay(cfg, w, relay) == relay
  {
  }

  // Its agents' jobs, and the clocks it is held against.
  predicate BothDone(x: CopyVol, n: nat) {
    n in x.bkps && x.bkps[n].status == JobDone && n in x.rsts && x.rsts[n].status == JobDone
  }

  predicate OneEnded(x: CopyVol, n: nat) {
    || (n in x.bkps && (x.bkps[n].status == JobFailed || x.bkps[n].status == JobInvalid))
    || (n in x.rsts && (x.rsts[n].status == JobFailed || x.rsts[n].status == JobInvalid))
  }

  predicate Overdue(cfg: Config, now: nat, startedAt: nat) {
    now >= (startedAt + cfg.timeoutSeconds + 1) * 1000
  }

  predicate StandsStill(cfg: Config, now: nat, m: RelayObs) {
    now >= (m.lastActivity + cfg.stallSeconds + 1) * 1000
  }

  predicate Streams(m: RelayObs) {
    m.bytes > 0 && !m.taskFinished
  }

  // The recorded attempt is over: not won, and either already lost by the
  // record, or by an agent's word, or with its relay, or it takes too long: to
  // begin to flow, or, once the receiver is at work, to go on.
  predicate Lost(cfg: Config, w: World, relay: Option<RelayObs>)
    requires w.st.transfer.Some?
  {
    var tr := w.st.transfer.value;
    && !BothDone(w.copy, tr.attempt)
    && (|| tr.failureReason.Some? || OneEnded(w.copy, tr.attempt) || relay.None?
        || (relay.value.attempt == tr.attempt &&
            if Streams(relay.value) then tr.attempt in w.copy.rsts && StandsStill(cfg, w.gate.now, relay.value)
            else Overdue(cfg, w.gate.now, tr.startedAt)))
  }

  lemma LostIff(cfg: Config, w: World, relay: Option<RelayObs>)
    requires w.st.transfer.Some?
    ensures var v := Verdict(ObservedAt(cfg, w, relay, w.st.transfer.value));
            && (v.FailAttempt? <==> Lost(cfg, w, relay))
            && (v.Complete? <==> BothDone(w.copy, w.st.transfer.value.attempt))
  {
    var o := ObservedAt(cfg, w, relay, w.st.transfer.value);
    SuccessNeedsBothAgents(o);
    if Live(o) {
      LiveAttemptFailsIff(o);
      assert TimeoutPassed(o) <==> Overdue(cfg, w.gate.now, w.st.transfer.value.startedAt);
      assert StallPassed(o) <==> StandsStill(cfg, w.gate.now, relay.value);
    }
  }

  // A recorded attempt is won exactly when both agents are done, and then the
  // bytes counted go on record. A lost one starts the next exactly when nothing
  // is left of it, there are attempts left and the nodes are reachable; and gives
  // up exactly when nothing is left of it and there are none.
  lemma AttemptEndsIff(cfg: Config, w: World, relay: Option<RelayObs>)
    requires w.st.phase.Transferring? && w.st.transfer.Some?
    ensures var (t, tr) := (TransferStep(cfg, w, relay), w.st.transfer.value);
            var over := Lost(cfg, w, relay) && w.copy.bkps == map[] && w.copy.rsts == map[];
            && (t.st.phase.Adopting? <==> BothDone(w.copy, tr.attempt))
            && (t.st.phase.Adopting? ==>
                  t == w.(st := w.st.(
                            phase := Adopting, message := None,
                            transfer := Some(tr.(bytesRelayed := if relay.Some? then Some(relay.value.bytes)
                                                                 else tr.bytesRelayed)))))
            && (t.st.phase.Aborting? <==> over && tr.attempt >= cfg.maxAttempts)
            && (t.st.transfer.Some? && t.st.transfer.value.attempt != tr.attempt <==>
                  over && tr.attempt < cfg.maxAttempts && Reachable(w))
            && (t.st.transfer.Some? && t.st.transfer.value.attempt != tr.attempt ==>
                  && t.st == w.st.(transfer := Some(TransferStatus(tr.attempt + 1, None, w.gate.now / 1000, None,
                                                                   false)),
                                   message := Some(AttemptStarting(tr.attempt + 1)))
                  && t.copy == w.copy.(bkps := map[tr.attempt + 1 := Job(JobInit, false, false)])
                  && TransferRelay(cfg, w, relay) ==
                     Some(RelayObs(tr.attempt + 1, 0, w.gate.now / 1000, false, false)))
  {
    LostIff(cfg, w, relay);
    OnlyCrsCleaned(cfg, w, w.st.transfer.value.attempt);
    hide Lost, BothDone, Verdict, ObservedAt, CrsCleaned;
  }

  // A lost attempt's relay stops at once; whatever is left of its CRs is asked to
  // go, both in one visit, and why it failed is on record unless it was already.
  lemma LostIsTornDown(cfg: Config, w: World, relay: Option<RelayObs>)
    requires Inv(cfg, w) && w.st.phase.Transferring? && w.st.transfer.Some? && Lost(cfg, w, relay)
    requires w.copy.bkps != map[] || w.copy.rsts != map[]
    ensures var t := TransferStep(cfg, w, relay);
            && TransferRelay(cfg, w, relay) == None
            && (forall n <- t.copy.bkps :: t.copy.bkps[n].deleting)
            && (forall n <- t.copy.rsts :: t.copy.rsts[n].deleting)
            && t == w.(st := t.st, copy := w.copy.(bkps := t.copy.bkps, rsts := t.copy.rsts))
            && t.st.transfer.Some? && t.st.transfer.value.attempt == w.st.transfer.value.attempt
            && (t.st.message != w.st.message ==> t.st.transfer.value.failureReason.Some?)
  {
    LostIff(cfg, w, relay);
    CleaningCrs(cfg, w, w.st.transfer.value.attempt);
    hide Lost, BothDone, Verdict, ObservedAt, CrsCleaned, Inv;
  }

  // A restore appears exactly when the attempt is neither won nor lost, has none
  // yet, its own relay is live with the source connected, and the source volume
  // is there to copy its description from; nothing else changes then.
  lemma RestoreAppearsIff(cfg: Config, w: World, relay: Option<RelayObs>)
    requires w.st.phase.Transferring? && w.st.transfer.Some? && w.st.transfer.value.attempt !in w.copy.rsts
    ensures var (t, n) := (TransferStep(cfg, w, relay), w.st.transfer.value.attempt);
            && (n in t.copy.rsts <==>
                  && w.st.transfer.value.failureReason.None? && !OneEnded(w.copy, n)
                  && relay.Some? && relay.value.attempt == n && relay.value.sourceConnected
                  && (Streams(relay.value) || !Overdue(cfg, w.gate.now, w.st.transfer.value.startedAt))
                  && w.src.zv.Some?)
            && (n in t.copy.rsts ==>
                  t == w.(copy := w.copy.(rsts := w.copy.rsts[n := Job(JobInit, false, false)])))
  {
    var n := w.st.transfer.value.attempt;
    LostIff(cfg, w, relay);
    NoRestoreBack(cfg, w, n);
    DialedWhenConnected(ObservedAt(cfg, w, relay, w.st.transfer.value));
    hide CrsCleaned, Verdict;
  }

  lemma NoRestoreBack(cfg: Config, w: World, n: nat)
    requires n !in w.copy.rsts
    ensures n !in CrsCleaned(cfg, w, n).copy.rsts
  {
    CleaningJob(cfg, w, Backup, n);
    CleaningJob(cfg, JobCleaned(cfg, w, Backup, n), Restore, n);
    hide JobCleaned;
  }

  // Without the source connected it waits, and the target is told nothing.
  lemma WaitsForSource(cfg: Config, w: World, relay: Option<RelayObs>)
    requires w.st.phase.Transferring? && w.st.transfer.Some? && w.st.transfer.value.attempt !in w.copy.rsts
    requires !Lost(cfg, w, relay) && relay.value.attempt == w.st.transfer.value.attempt && !relay.value.sourceConnected
    ensures var t := TransferStep(cfg, w, relay);
            && t == w.(st := w.st.(message := Some(AttemptWaiting(w.st.transfer.value.attempt))))
            && TransferRelay(cfg, w, relay) == relay
  {
    LostIff(cfg, w, relay);
    DialedWhenConnected(ObservedAt(cfg, w, relay, w.st.transfer.value));
    hide CrsCleaned, Verdict;
  }

  // With the receiver at work, a live attempt counts its bytes.
  lemma CountsBytes(cfg: Config, w: World, relay: Option<RelayObs>)
    requires w.st.phase.Transferring? && w.st.transfer.Some? && w.st.transfer.value.attempt in w.copy.rsts
    requires !Lost(cfg, w, relay) && !BothDone(w.copy, w.st.transfer.value.attempt)
    requires relay.value.attempt == w.st.transfer.value.attempt
    ensures TransferStep(cfg, w, relay) ==
            w.(st := w.st.(transfer := Some(w.st.transfer.value.(bytesRelayed := Some(relay.value.bytes)))))
    ensures TransferRelay(cfg, w, relay) == relay
  {
    LostIff(cfg, w, relay);
    hide CrsCleaned;
  }

  // A relay of another attempt: a later one means that the record was lost, and
  // nothing is touched; an earlier one is dropped.
  lemma OtherRelay(cfg: Config, w: World, relay: Option<RelayObs>)
    requires w.st.phase.Transferring? && w.st.transfer.Some? && !Lost(cfg, w, relay)
    requires !BothDone(w.copy, w.st.transfer.value.attempt) && relay.value.attempt != w.st.transfer.value.attempt
    ensures TransferStep(cfg, w, relay) == w
    ensures TransferRelay(cfg, w, relay) == if relay.value.attempt > w.st.transfer.value.attempt then relay else None
  {
    LostIff(cfg, w, relay);
    hide CrsCleaned;
  }

  // ------------------------------------------------ adopting and committing

  // The target volume is the source's, addressed to the target, for its agent
  // to find the dataset for. Its state decides: Ready commits, Failed aborts.
  lemma AdoptsIff(cfg: Config, w: World, relay: Option<RelayObs>, pick: Choice)
    requires Inv(cfg, w) && w.st.phase.Adopting?
    ensures w.st.target.Some?
    ensures var (t, target) := (PhaseStep(cfg, w, relay, pick), w.st.target.value);
            && (t.st.phase.Committing? <==> w.copy.zv.Some? && w.copy.zv.value.state == ZvReady)
            && (t.st.phase.Aborting? <==> w.copy.zv.Some? && w.copy.zv.value.state == ZvFailed)
            && (w.copy.zv.Some? ==>
                  t == w.(st := w.st.(phase := t.st.phase, message := t.st.message)) &&
                  (t.st.phase.Adopting? || t.st.phase.Committing? || t.st.phase.Aborting?))
            && (w.copy.zv.None? ==>
                  t == w.(copy := w.copy.(
                            zv := if w.src.zv.None? then None
                                  else
                                    Some(Zv(w.src.zv.value.info.(ownerNodeId := target.nodeId, poolName := target.pool,
                                                                 snapname := None),
                                            false, ZvPending, false, false, false)))))
  {
    SourceIsRecorded(cfg, w);
    hide Inv;
  }

  // The recorded claim is there.
  predicate SameClaim(w: World) {
    w.claim.pvc.Some? && w.st.pvcRef.Some? && w.claim.pvc.value.uid == w.st.pvcRef.value.uid
  }

  // A pod has come that must not be there: any, or under WhenClaimed one that
  // is on a node.
  predicate PodInTheWay(cfg: Config, g: Gate) {
    exists n <- g.pods ::
      ReferencesPvc(g.pods[n], cfg.pvcName) && (cfg.mode == WhenClaimed ==> g.pods[n].nodeName != "")
  }

  lemma InTheWayIff(cfg: Config, g: Gate)
    ensures Unexpected(cfg, RefPods(cfg, g.pods)) <==> PodInTheWay(cfg, g)
    ensures PodInTheWay(cfg, g) ==> !Idle(cfg, g)
  {
    var refs := RefPods(cfg, g.pods);
    assert forall n <- g.pods :: ReferencesPvc(g.pods[n], cfg.pvcName) ==> n in refs;
    assert refs != map[] ==> exists n :: n in refs;
    hide ReferencesPvc;
  }

  // It commits exactly with the recorded claim there, nobody in the way, the
  // source still keeping pods off, and the original PV, which has a CSI source,
  // under the name.
  lemma CommitsIff(cfg: Config, w: World)
    requires w.st.phase.Committing? && w.st.source.Some? && w.st.target.Some?
    ensures var pv := w.claim.pv;
            CommitStep(cfg, w).st.phase.Swapping? <==>
              && SameClaim(w) && Idle(cfg, w.gate)
              && pv.Some? && pv.value.uid == w.st.source.value.pvUid && pv.value.body.csi.Some?
  {
    IdleIff(cfg, w.gate);
    InTheWayIff(cfg, w.gate);
    hide Idle, PodInTheWay, MayProceed, Unexpected, RefPods, BlockedBy, Render;
  }

  // Another claim or a pod in the way aborts; another PV fails; and nothing but
  // the phase and the message is written.
  lemma BacksOutIff(cfg: Config, w: World)
    requires w.st.phase.Committing? && w.st.source.Some? && w.st.pvcRef.Some? && w.st.target.Some?
    ensures var (t, pv) := (CommitStep(cfg, w), w.claim.pv);
            && (t.st.phase.Aborting? <==> w.claim.pvc.Some? && (!SameClaim(w) || PodInTheWay(cfg, w.gate)))
            && (t.st.phase.Failed? <==>
                  SameClaim(w) && Idle(cfg, w.gate) && pv.Some? && pv.value.uid != w.st.source.value.pvUid)
            && (!t.st.phase.Swapping? ==>
                  t == w.(st := w.st.(phase := t.st.phase, message := t.st.message), failedFrom := t.failedFrom))
  {
    IdleIff(cfg, w.gate);
    InTheWayIff(cfg, w.gate);
    hide Idle, PodInTheWay, MayProceed, Unexpected, RefPods, BlockedBy, Render;
  }

  // And then it records the PV as it was, and its one replacement.
  lemma CommitsTheReplacement(cfg: Config, w: World)
    requires w.st.phase.Committing? && w.st.source.Some? && w.st.target.Some?
    requires CommitStep(cfg, w).st.phase.Swapping?
    ensures w.claim.pv.Some? && w.st.pvcRef.Some?
    ensures var t := CommitStep(cfg, w).st;
            && CommitStep(cfg, w) == w.(st := t)
            && t == w.st.(phase := Swapping, message := None, committed := true, oldPv := t.oldPv, newPv := t.newPv)
            && t.oldPv == Some(w.claim.pv.value.body) && t.newPv.Some?
            && SameVolume(w.claim.pv.value.body, t.newPv.value)
            && PointsAt(t.newPv.value, w.st.pvcRef.value, w.st.target.value)
            && t.newPv.value.reclaimPolicy == Some("Retain")
  {
    CommitsIff(cfg, w);
    var r := Render(w.claim.pv.value.body, w.st.pvcRef.value, w.st.target.value);
    RenderIsTheReplacement(w.claim.pv.value.body, w.st.pvcRef.value, w.st.target.value, r.value);
    hide Idle, PodInTheWay, MayProceed, Unexpected, RefPods, BlockedBy, Render, SameVolume, PointsAt;
  }

  // -------------------------------------------------------------- swapping

  // The swap ends exactly with a PV of another uid under the name that is bound
  // to the recorded claim; it gets the old policy.
  lemma SwapEndsIff(cfg: Config, w: World)
    requires w.st.phase.Swapping? && w.st.source.Some? && w.st.pvcRef.Some?
    ensures var (t, pv) := (SwapStep(cfg, w), w.claim.pv);
            && (t.st.phase.CleaningUp? <==>
                  && pv.Some? && pv.value.uid != w.st.source.value.pvUid
                  && pv.value.bound && pv.value.body.claimRef.Some?
                  && pv.value.body.claimRef.value.uid == Some(w.st.pvcRef.value.uid))
            && (t.st.phase.CleaningUp? ==>
                  t == w.(st := w.st.(phase := CleaningUp, message := None),
                          claim := w.claim.(pv := Some(pv.value.(body := WithPolicy(pv.value.body,
                                                                                   w.st.originalPolicy))))))
  {
    if w.claim.pv.Some? { GoingTouchesNoRecord(cfg, w); }
    hide RefPods, PvDeleted, PvStripped;
  }

  lemma GoingTouchesNoRecord(cfg: Config, w: World)
    requires w.claim.pv.Some? && w.st.phase.Swapping?
    ensures PvStripped(w).st == w.st && PvDeleted(cfg, w).st == w.st.(message := PvDeleted(cfg, w).st.message)
  {
    hide RefPods, MayProceed, BlockedBy;
  }

  lemma Stripping(fins: set<PvFinalizer>)
    ensures fins - {PvProtection, Provisioner} == if ForeignFinalizer in fins then {ForeignFinalizer} else {}
  {
    assert forall f <- fins :: f == PvProtection || f == Provisioner || f == ForeignFinalizer;
  }

  // A PV that is being deleted keeps other parties' finalizers, or is gone.
  lemma StripsThePv(w: World)
    requires w.claim.pv.Some? && w.claim.pv.value.deleting && w.claim.pv.value.finalizers != {}
    ensures var pv := w.claim.pv.value;
            PvStripped(w) ==
            w.(claim := w.claim.(pv := if ForeignFinalizer in pv.finalizers
                                       then Some(pv.(finalizers := {ForeignFinalizer})) else None))
  {
    Stripping(w.claim.pv.value.finalizers);
  }

  lemma DeletesThePv(w: World)
    requires w.claim.pv.Some?
    ensures var pv := w.claim.pv.value;
            PvStripped(w.(claim := ClaimAfter(w.claim, DeletePv))) ==
            w.(claim := w.claim.(pv := if ForeignFinalizer in pv.finalizers
                                       then Some(pv.(deleting := true, finalizers := {ForeignFinalizer})) else None))
  {
    var u := w.(claim := ClaimAfter(w.claim, DeletePv));
    if u.claim.pv.Some? { StripsThePv(u); }
    hide PvStripped;
    assert w.claim.pv.value.finalizers == {} ==> PvStripped(u) == u by { StripsNothing(u); }
  }

  lemma StripsNothing(w: World)
    ensures w.claim.pv.None? ==> PvStripped(w) == w
  {
  }

  lemma SwapStepIs(cfg: Config, w: World)
    requires w.st.phase.Swapping? && SwapStep(cfg, w).st.phase.Swapping? && w.st.newPv.Some? && w.st.source.Some?
    ensures SwapStep(cfg, w) ==
            if w.claim.pv.None? then
              w.(claim := w.claim.(pv := Some(Pv(w.claim.nextUid, w.st.newPv.value, false, false, {PvProtection})),
                                   nextUid := w.claim.nextUid + 1))
            else if w.claim.pv.value.uid != w.st.source.value.pvUid then w
            else if w.claim.pv.value.deleting then PvStripped(w)
            else PvDeleted(cfg, w)
  {
    hide PvStripped, PvDeleted, PolicyRestored, Rebound;
  }

  lemma DeletingIsHeld(cfg: Config, w: World)
    requires Inv(cfg, w) && w.st.phase.Swapping?
    ensures w.st.newPv.Some? && w.st.source.Some? && w.st.pvcRef.Some?
    ensures w.claim.pv.Some? && w.claim.pv.value.deleting ==> w.claim.pv.value.finalizers != {}
  {
    hide InvAccess;
  }

  // Until then: the old PV is asked to go, unless a pod is in the way of that,
  // and loses all finalizers but other parties'; nothing becomes the stored
  // replacement; anything else is left alone.
  lemma SwapsThePv(cfg: Config, w: World)
    requires Inv(cfg, w) && w.st.phase.Swapping? && SwapStep(cfg, w).st.phase.Swapping?
    ensures w.st.newPv.Some? && w.st.source.Some?
    ensures var (t, pv) := (SwapStep(cfg, w), w.claim.pv);
            && t == w.(st := w.st.(message := t.st.message), claim := t.claim)
            && t.claim ==
               if pv.None? then
                 w.claim.(pv := Some(Pv(w.claim.nextUid, w.st.newPv.value, false, false, {PvProtection})),
                          nextUid := w.claim.nextUid + 1)
               else if pv.value.uid == w.st.source.value.pvUid && (pv.value.deleting || Idle(cfg, w.gate)) then
                 w.claim.(pv := if ForeignFinalizer in pv.value.finalizers
                                then Some(pv.value.(deleting := true, finalizers := {ForeignFinalizer}))
                                else None)
               else w.claim
  {
    DeletingIsHeld(cfg, w);
    IdleIff(cfg, w.gate);
    if w.claim.pv.Some? {
      DeletesThePv(w);
      if w.claim.pv.value.deleting { StripsThePv(w); }
    }
    SwapStepIs(cfg, w);
    hide Inv, Idle, MayProceed, RefPods, BlockedBy, PvStripped, SwapStep, ClaimAfter;
  }

  // ----------------------------------------------------------- cleaning up

  predicate CrsAreGone(x: CopyVol) {
    x.bkps == map[] && x.rsts == map[]
  }

  // Nothing stands for the received snapshot any more, after the controller has
  // asked for its destruction or the new volume is gone.
  predicate SnapshotIsGone(w: World) {
    && w.copy.snapCr.None?
    && ((w.st.transfer.Some? && w.st.transfer.value.targetSnapDeleteIssued) || w.copy.zv.None?)
  }

  // While transfer CRs are left, a visit asks those to go and does nothing else.
  lemma CrsGoFirst(cfg: Config, w: World)
    requires Inv(cfg, w) && w.st.phase.CleaningUp? && !CrsAreGone(w.copy)
    ensures var t := CleanupStep(cfg, w);
            && t == w.(st := w.st.(message := t.st.message), copy := w.copy.(bkps := t.copy.bkps, rsts := t.copy.rsts))
            && (forall n <- t.copy.bkps :: t.copy.bkps[n].deleting)
            && (forall n <- t.copy.rsts :: t.copy.rsts[n].deleting)
  {
    ReadyForSnapshot(cfg, w);
    CleaningCrs(cfg, w, Attempt(w.st));
    hide Inv, CrsCleaned, AfterCrs;
  }

  // Then the handshake: a CR that is to stand for the snapshot is made unless
  // the volume is gone or it has been before; once its agent has it, or the
  // node is away, it is deleted and that put on record; a lost node's finalizer
  // is taken off.
  lemma HandshakeGoesNext(cfg: Config, w: World)
    requires Inv(cfg, w) && w.st.phase.CleaningUp? && CrsAreGone(w.copy) && !SnapshotIsGone(w)
    ensures w.st.transfer.Some?
    ensures var (t, cr) := (CleanupStep(cfg, w), w.copy.snapCr);
            var issued := w.st.transfer.value.targetSnapDeleteIssued;
            var marks := cr.Some? && (issued || cr.value.deleting || cr.value.fin || !w.nodes.tgtUp);
            && t == w.(st := t.st, copy := w.copy.(snapCr := t.copy.snapCr))
            && t.st == w.st.(message := t.st.message,
                             transfer := Some(w.st.transfer.value.(targetSnapDeleteIssued := marks)))
            && t.copy.snapCr ==
               if cr.None? then Some(SnapCr(false, false))
               else if issued then
                 if w.nodes.tgtUp || !cr.value.fin then cr
                 else if cr.value.deleting then None else Some(SnapCr(false, false))
               else if cr.value.deleting then cr
               else if cr.value.fin then Some(SnapCr(true, true))
               else if w.nodes.tgtUp then cr
               else None
  {
    ReadyForSnapshot(cfg, w);
    IssuedIsDeleting(cfg, w);
    StripsSnapshot(cfg, w);
    IsSnapshotTurn(cfg, w);
    hide Inv, CleanupStep, Stripped;
  }

  lemma IsSnapshotTurn(cfg: Config, w: World)
    requires w.st.phase.CleaningUp? && CrsAreGone(w.copy) && !SnapshotIsGone(w)
    ensures var (t, u) := (CleanupStep(cfg, w), SnapshotStep(cfg, w)); t == u.(st := u.st.(message := t.st.message))
  {
    hide SnapshotStep, CrsCleaned, SourceRemoved, Finished;
  }

  lemma StripsSnapshot(cfg: Config, w: World)
    ensures Stripped(cfg, w, SnapFin) ==
            if w.nodes.tgtUp || w.copy.snapCr.None? || !w.copy.snapCr.value.fin then w
            else w.(copy := w.copy.(
                      snapCr := if w.copy.snapCr.value.deleting then None else Some(SnapCr(false, false))))
  {
  }

  lemma IssuedIsDeleting(cfg: Config, w: World)
    requires Inv(cfg, w)
    ensures w.st.transfer.Some? && w.st.transfer.value.targetSnapDeleteIssued && w.copy.snapCr.Some? ==>
              w.copy.snapCr.value.deleting
  {
    hide InvObjects, InvHandover, InvLock, InvLate, InvQuiet, InvFidelity, InvNodes;
  }

  // Without the guard, and without the agent's finalizer if its node is away;
  // a volume being deleted is gone when neither is left.
  lemma LetsGoOf(cfg: Config, w: World)
    requires w.src.zv.Some? && (w.src.zv.value.deleting ==> w.src.zv.value.guard || w.src.zv.value.fin)
    ensures var (t, zv) := (Stripped(cfg, WithoutGuard(w), SrcZvFin), w.src.zv.value);
            var fin := zv.fin && w.gate.srcNode.Some?;
            && t == w.(src := t.src) && t.src.disk == w.src.disk
            && t.src.zv == if zv.deleting && !fin then None else Some(zv.(guard := false, fin := fin))
  {
  }

  lemma IsDeletable(cfg: Config, w: World)
    requires Inv(cfg, w)
    ensures w.src.zv.Some? && w.src.zv.value.deleting ==> w.src.zv.value.guard || w.src.zv.value.fin
    ensures (w.st.pvcRef.Some? <==> w.st.source.Some?)
  {
    hide InvAccess;
  }

  // Then the source volume: asked to go, without our guard, and without its
  // agent's finalizer when its node is away.
  lemma SourceGoesThen(cfg: Config, w: World)
    requires Inv(cfg, w)
    requires w.st.phase.CleaningUp? && CrsAreGone(w.copy) && SnapshotIsGone(w) && w.src.zv.Some?
    ensures var (t, zv) := (CleanupStep(cfg, w), w.src.zv.value);
            && t == w.(st := w.st.(message := Some(WaitingForSourceDestroy)), src := t.src)
            && t.src.zv == (if zv.fin && w.gate.srcNode.Some?
                            then Some(zv.(deleting := true, guard := false)) else None)
            && t.src.disk == w.src.disk
  {
    IsDeletable(cfg, w);
    IsSourceTurn(cfg, w);
    var u := if w.src.zv.value.deleting then w else Effect(cfg, w, ToSource(DeleteSrcZv));
    if u.src.zv.Some? { LetsGoOf(cfg, u); }
    hide Inv, CleanupStep, Stripped;
  }

  lemma IsSourceTurn(cfg: Config, w: World)
    requires w.st.phase.CleaningUp? && CrsAreGone(w.copy) && SnapshotIsGone(w) && w.src.zv.Some?
    ensures CleanupStep(cfg, w) == SourceRemoved(cfg, w)
  {
    hide CrsCleaned, Finished, SourceRemoved, SnapshotStep;
  }

  // Then it is complete: the claim is unlocked and unmarked, its PV no longer
  // asks for anything, and our finalizer is off the CR.
  lemma CompletesIff(cfg: Config, w: World)
    requires Inv(cfg, w) && w.st.phase.CleaningUp?
    ensures var t := CleanupStep(cfg, w);
            t.st.phase.Completed? <==> CrsAreGone(w.copy) && SnapshotIsGone(w) && w.src.zv.None?
    ensures var t := CleanupStep(cfg, w);
            t.st.phase.Completed? ==>
              && t.st == w.st.(phase := Completed, message := None)
              && Key(cfg) !in t.gate.params.pvcKeys && Key(cfg) !in t.gate.params.claimableKeys
              && (w.claim.pvc.Some? ==> t.claim.pvc == Some(w.claim.pvc.value.(marked := false)))
              && (w.claim.pv.Some? ==>
                    && t.claim.pv.Some? && "zfsevac.alumino.us/evacuate" !in t.claim.pv.value.body.annotations
                    && t.claim.pv.value.uid == w.claim.pv.value.uid)
              && (t.cr.Some? ==> !t.cr.value.finalizer && !t.cr.value.deleting)
  {
    if !CrsAreGone(w.copy) {
      CrsGoFirst(cfg, w);
    } else if !SnapshotIsGone(w) {
      HandshakeGoesNext(cfg, w);
    } else if w.src.zv.Some? {
      SourceGoesThen(cfg, w);
    } else {
      FinishesNow(cfg, w);
    }
    hide Inv, CleanupStep;
  }

  lemma FinishesNow(cfg: Config, w: World)
    requires w.st.phase.CleaningUp? && CrsAreGone(w.copy) && SnapshotIsGone(w) && w.src.zv.None?
    ensures var t := CleanupStep(cfg, w);
            && t.st == w.st.(phase := Completed, message := None)
            && Key(cfg) !in t.gate.params.pvcKeys && Key(cfg) !in t.gate.params.claimableKeys
            && (w.claim.pvc.Some? ==> t.claim.pvc == Some(w.claim.pvc.value.(marked := false)))
            && (w.claim.pv.Some? ==>
                  && t.claim.pv.Some? && "zfsevac.alumino.us/evacuate" !in t.claim.pv.value.body.annotations
                  && t.claim.pv.value.uid == w.claim.pv.value.uid)
            && (t.cr.Some? ==> !t.cr.value.finalizer && !t.cr.value.deleting)
  {
    hide CrsCleaned, SourceRemoved, SnapshotStep;
  }

  // -------------------------------------------------------------- aborting

  // An abort ends exactly when no target volume and no transfer CR is left.
  // Before that a visit touches neither claim nor lock nor source: the target
  // volume goes first; while a finished restore stands with nothing for what it
  // left on disk, and the source is there, a volume is put in its place; then
  // the CRs go.
  lemma AbortEndsIff(cfg: Config, w: World)
    requires Inv(cfg, w) && w.st.phase.Aborting?
    ensures var t := AbortStep(cfg, w, w.st, false);
            t.st.phase.Failed? <==> w.copy.zv.None? && CrsAreGone(w.copy)
    ensures var t := AbortStep(cfg, w, w.st, false);
            !t.st.phase.Failed? ==>
              && w.st.transfer.Some? && w.st.target.Some?
              && t == w.(st := w.st.(message := t.st.message), copy := t.copy)
              && if w.copy.zv.Some? then
                   && t.copy == w.copy.(zv := t.copy.zv)
                   && (t.copy.zv.Some? ==> t.copy.zv.value.deleting)
                 else if w.src.zv.Some? && w.st.transfer.value.attempt in w.copy.rsts &&
                         w.copy.rsts[w.st.transfer.value.attempt].status == JobDone then
                   && t.copy == w.copy.(zv := t.copy.zv) && t.copy.zv.Some?
                   && AddressedTo(t.copy.zv.value.info, w.st.target.value)
                 else
                   && t.copy == w.copy.(bkps := t.copy.bkps, rsts := t.copy.rsts)
                   && (forall n <- t.copy.bkps :: t.copy.bkps[n].deleting)
                   && (forall n <- t.copy.rsts :: t.copy.rsts[n].deleting)
  {
    QuietlyClean(cfg, w, Attempt(w.st));
    if TargetIsClean(w) {
      SourceUnwoundKeepsCr(cfg, w);
      hide Inv, SourceUnwound, TargetUnwound;
    } else {
      TransferHasTarget(cfg, w);
      UnwindsTheTarget(cfg, w);
      hide Inv, SourceUnwound, TargetUnwound;
    }
  }

  lemma UnwindsTheTarget(cfg: Config, w: World)
    requires Inv(cfg, w) && w.st.phase.Aborting? && w.st.transfer.Some? && w.st.target.Some? && !TargetIsClean(w)
    ensures var (t, n) := (TargetUnwound(cfg, w, w.st), w.st.transfer.value.attempt);
            && t == w.(st := w.st.(message := t.st.message), copy := t.copy)
            && if w.copy.zv.Some? then
                 && t.copy == w.copy.(zv := t.copy.zv)
                 && (t.copy.zv.Some? ==> t.copy.zv.value.deleting)
               else if w.src.zv.Some? && n in w.copy.rsts && w.copy.rsts[n].status == JobDone then
                 && t.copy == w.copy.(zv := t.copy.zv) && t.copy.zv.Some?
                 && AddressedTo(t.copy.zv.value.info, w.st.target.value)
               else
                 && t.copy == w.copy.(bkps := t.copy.bkps, rsts := t.copy.rsts)
                 && (forall n <- t.copy.bkps :: t.copy.bkps[n].deleting)
                 && (forall n <- t.copy.rsts :: t.copy.rsts[n].deleting)
  {
    if w.copy.zv.Some? {
      VolumeGoesFirst(cfg, w);
    } else if RestoreDone(w) && w.src.zv.Some? {
      OrphanIsAdopted(cfg, w);
    } else {
      CrsGoLast(cfg, w);
    }
    hide Inv, TargetUnwound;
  }

  lemma VolumeGoesFirst(cfg: Config, w: World)
    requires w.copy.zv.Some? && w.st.transfer.Some?
    ensures var t := TargetUnwound(cfg, w, w.st);
            && t == w.(st := w.st.(message := t.st.message), copy := w.copy.(zv := t.copy.zv))
            && (t.copy.zv.Some? ==> t.copy.zv.value.deleting)
  {
    DeletingTarget(cfg, w);
    hide TargetDeleted, CrsCleaned, OrphanAdopted;
  }

  // Its agent's finalizer holds it back as long as the node is there.
  lemma TargetGoesIff(cfg: Config, w: World)
    requires w.copy.zv.Some? && !w.copy.zv.value.guard && (w.copy.zv.value.deleting ==> w.copy.zv.value.fin)
    ensures TargetDeleted(cfg, w).copy.zv ==
            if w.copy.zv.value.fin && w.nodes.tgtUp then Some(w.copy.zv.value.(deleting := true)) else None
  {
  }

  // So does a CR's: the sender's that of the source node, the receiver's that of
  // the target. One that is asked to go with no agent behind it goes at once.
  lemma CrGoesIff(cfg: Config, w: World, n: nat)
    requires n in w.copy.bkps && w.copy.bkps[n].deleting ==> w.copy.bkps[n].fin
    requires n in w.copy.rsts && w.copy.rsts[n].deleting ==> w.copy.rsts[n].fin
    ensures var (x, y) := (w.copy, CrsCleaned(cfg, w, n).copy);
            && y.bkps == (if n !in x.bkps then x.bkps
                          else if x.bkps[n].fin && (w.gate.srcNode.Some? || !x.bkps[n].deleting)
                          then x.bkps[n := x.bkps[n].(deleting := true)] else x.bkps - {n})
            && y.rsts == (if n !in x.rsts then x.rsts
                          else if x.rsts[n].fin && (w.nodes.tgtUp || !x.rsts[n].deleting)
                          then x.rsts[n := x.rsts[n].(deleting := true)] else x.rsts - {n})
  {
    JobGoesIff(cfg, w, Backup, n);
    JobGoesIff(cfg, JobCleaned(cfg, w, Backup, n), Restore, n);
    hide JobCleaned;
  }

  lemma JobGoesIff(cfg: Config, w: World, side: Side, n: nat)
    requires JobOf(w.copy, side, n).Some? && JobOf(w.copy, side, n).value.deleting ==> JobOf(w.copy, side, n).value.fin
    ensures var (x, t) := (w.copy, JobCleaned(cfg, w, side, n));
            && t == w.(copy := x.(bkps := t.copy.bkps, rsts := t.copy.rsts))
            && t.copy.bkps == (if n !in x.bkps || side.Restore? then x.bkps
                               else if x.bkps[n].fin && (w.gate.srcNode.Some? || !x.bkps[n].deleting)
                               then x.bkps[n := x.bkps[n].(deleting := true)] else x.bkps - {n})
            && t.copy.rsts == (if n !in x.rsts || side.Backup? then x.rsts
                               else if x.rsts[n].fin && (w.nodes.tgtUp || !x.rsts[n].deleting)
                               then x.rsts[n := x.rsts[n].(deleting := true)] else x.rsts - {n})
  {
    assert n in w.copy.bkps ==> w.copy.bkps[n := w.copy.bkps[n]] == w.copy.bkps;
    assert n in w.copy.rsts ==> w.copy.rsts[n := w.copy.rsts[n]] == w.copy.rsts;
  }

  lemma OrphanIsAdopted(cfg: Config, w: World)
    requires w.copy.zv.None? && RestoreDone(w) && w.src.zv.Some? && w.st.target.Some?
    ensures var t := TargetUnwound(cfg, w, w.st);
            && t == w.(st := w.st.(message := t.st.message), copy := w.copy.(zv := t.copy.zv))
            && t.copy.zv.Some? && AddressedTo(t.copy.zv.value.info, w.st.target.value)
  {
    hide TargetDeleted, CrsCleaned;
  }

  lemma CrsGoLast(cfg: Config, w: World)
    requires Inv(cfg, w) && w.st.transfer.Some? && w.copy.zv.None? && !TargetIsClean(w)
    requires !(RestoreDone(w) && w.src.zv.Some?)
    ensures var t := TargetUnwound(cfg, w, w.st);
            && t == w.(st := w.st.(message := t.st.message), copy := w.copy.(bkps := t.copy.bkps, rsts := t.copy.rsts))
            && (forall n <- t.copy.bkps :: t.copy.bkps[n].deleting)
            && (forall n <- t.copy.rsts :: t.copy.rsts[n].deleting)
  {
    CleaningCrs(cfg, w, Attempt(w.st));
    hide Inv, CrsCleaned, TargetDeleted, OrphanAdopted;
  }

  // The last visit gives the original PV its policy back, unlocks the claim,
  // and takes the guard off. The source volume, if nobody has asked for its
  // deletion yet, is asked to go exactly when the claim and the PV are both
  // gone and the volume would have been reclaimed with them.
  lemma LastVisitIs(cfg: Config, w: World)
    requires Inv(cfg, w) && w.st.phase.Aborting? && w.copy.zv.None? && CrsAreGone(w.copy) && w.st.source.Some?
    ensures var t := AbortStep(cfg, w, w.st, false);
            && (w.claim.pv.Some? ==>
                  t.claim.pv == Some(w.claim.pv.value.(
                                       body := if w.claim.pv.value.uid == w.st.source.value.pvUid
                                               then WithPolicy(w.claim.pv.value.body, w.st.originalPolicy)
                                               else w.claim.pv.value.body)))
            && Key(cfg) !in t.gate.params.pvcKeys && Key(cfg) !in t.gate.params.claimableKeys
            && (w.src.zv.None? ==> t.src.zv.None?)
            && (w.src.zv.Some? && !w.src.zv.value.deleting ==>
                  var (zv, fin) := (w.src.zv.value, w.src.zv.value.fin && w.gate.srcNode.Some?);
                  t.src.zv ==
                  if w.claim.pv.None? && w.claim.pvc.None? && w.st.originalPolicy == Some("Delete")
                  then if fin then Some(zv.(deleting := true, guard := false, fin := fin)) else None
                  else Some(zv.(guard := false, fin := fin)))
  {
    IsDeletable(cfg, w);
    var u := KeyReleased(cfg, PolicyReset(w));
    ClaimIsFreed(cfg, w);
    var v := DeletionHonored(cfg, u);
    if v.src.zv.Some? { LetsGoOf(cfg, v); }
    IsLastVisit(cfg, w);
    hide Inv, AbortStep, Stripped, KeyReleased, PolicyReset;
  }

  lemma ClaimIsFreed(cfg: Config, w: World)
    requires w.st.source.Some? && w.st.pvcRef.Some?
    ensures var u := KeyReleased(cfg, PolicyReset(w));
            && u == w.(claim := u.claim, gate := u.gate) && u.gate.srcNode == w.gate.srcNode
            && Key(cfg) !in u.gate.params.pvcKeys && Key(cfg) !in u.gate.params.claimableKeys
            && (u.claim.pvc.None? <==> w.claim.pvc.None?)
            && u.claim.pv == if w.claim.pv.None? then None
                             else Some(w.claim.pv.value.(
                                         body := if w.claim.pv.value.uid == w.st.source.value.pvUid
                                                 then WithPolicy(w.claim.pv.value.body, w.st.originalPolicy)
                                                 else w.claim.pv.value.body))
  {
  }

  lemma IsLastVisit(cfg: Config, w: World)
    requires w.st.phase.Aborting? && w.copy.zv.None? && CrsAreGone(w.copy) && w.st.source.Some?
    ensures var u := DeletionHonored(cfg, KeyReleased(cfg, PolicyReset(w)));
            var (t, v) := (AbortStep(cfg, w, w.st, false), Stripped(cfg, WithoutGuard(u), SrcZvFin));
            t.claim == v.claim && t.gate == v.gate && t.src == v.src
  {
    hide KeyReleased, PolicyReset, DeletionHonored, WithoutGuard, Stripped, TargetUnwound;
    KeepsRecord(cfg, w);
  }

  lemma KeepsRecord(cfg: Config, w: World)
    ensures KeyReleased(cfg, PolicyReset(w)).st == w.st
  {
  }
}
