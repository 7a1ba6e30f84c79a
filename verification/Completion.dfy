// One whole evacuation with nothing in its way: an idle, evacuable volume, a
// target that is up, agents that do their part. It completes, and the volume
// is at its target with the bytes it had. So what is proved of runs that get
// that far is not proved of nothing.
module Completion {
  import opened Common
  import opened Manifests
  import opened Pods
  import opened AttachLock
  import opened Status
  import opened World
  import opened Protocol
  import opened Runs
  import opened Client
  import opened TransferVerdict
  import opened Phases
  import opened Transfer
  import opened PvSwap
  import opened Cleanup
  import opened Reconciler

  // What stays the same throughout: identities, the manifest the volume had at
  // first, its bytes and those its snapshot froze, and where it goes.
  datatype Trip = Trip(
    pvUid: nat, pvcUid: nat, was: Manifest, fins: set<PvFinalizer>, info: VolumeInfo, content: nat, sent: nat,
    target: TargetInfo)

  // It was asked for in the way its trigger says: by the PV's annotation, or
  // (in Standing) by the source node's taint.
  predicate Asked(cfg: Config, t: Trip) {
    cfg.srcName != "" && (cfg.trigger.Annotation? ==> WantsEvacuation(t.was))
  }

  predicate Tainted(cfg: Config, g: Gate) {
    cfg.trigger.NodeTaint? ==> g.srcNode.Some? && HasEvacuateTaint(g.srcNode.value, cfg.taintKey)
  }

  // The source keeps pods away where the mode asks for it.
  predicate Clear(cfg: Config, g: Gate) {
    cfg.mode.WhenIdle? || (g.srcNode.Some? && NodeRepelsPods(g.srcNode.value, cfg.taintKey))
  }

  // Both nodes are there, and the claim.
  predicate Standing(cfg: Config, w: World, t: Trip) {
    && Clear(cfg, w.gate) && Tainted(cfg, w.gate)
    && w.cr == Some(Cr(false, true)) && BothUp(w)
    && w.claim.pvc.Some? && w.claim.pvc.value.uid == t.pvcUid
  }

  // And nobody uses it.
  predicate Calm(cfg: Config, w: World, t: Trip) {
    Standing(cfg, w, t) && !HasRefPods(cfg, w.gate.pods)
  }

  predicate OldPvIs(w: World, t: Trip, policy: Option<string>) {
    && w.claim.pv.Some? && w.claim.pv.value.uid == t.pvUid && !w.claim.pv.value.deleting
    && w.claim.pv.value.finalizers == t.fins && w.claim.pv.value.body == t.was.(reclaimPolicy := policy)
  }

  predicate SourceIs(w: World, t: Trip, guard: bool) {
    && w.src.disk == Whole(t.content)
    && w.src.zv.Some? && w.src.zv.value.info == t.info && !w.src.zv.value.deleting
    && w.src.zv.value.guard == guard && w.src.zv.value.fin
  }

  predicate RecordIs(cfg: Config, s: Status, t: Trip) {
    && s.source.Some? && s.source.value.pvUid == t.pvUid && s.source.value.volumeHandle == cfg.handle
    && s.pvcRef == Some(PvcRef(cfg.ns, cfg.pvcName, t.pvcUid)) && s.originalPolicy == t.was.reclaimPolicy
    && !s.committed
  }

  const UNTOUCHED := CopyVol(None, Absent, false, None, map[], map[], map[])

  // On the way to the copy, in phase p.
  predicate Preparing(cfg: Config, w: World, t: Trip, p: Phase) {
    PreparingFor(cfg, w, t, p) && !HasRefPods(cfg, w.gate.pods)
  }

  // The same, whatever pods there are.
  predicate PreparingFor(cfg: Config, w: World, t: Trip, p: Phase) {
    && Standing(cfg, w, t) && w.st.phase == p && RecordIs(cfg, w.st, t) && w.bound.None?
    && OldPvIs(w, t, if Rank(p) <= Rank(Retaining) then t.was.reclaimPolicy else Some(RETAIN))
    && SourceIs(w, t, !p.Guarding?) && t.sent == t.content
    && w.copy == UNTOUCHED && w.st.transfer.None?
    && (p.Quiescing? ==> w.st.lockedAt.Some? && w.st.lockedAt.value * 1000 <= w.gate.now)
    && (Rank(p) < Rank(Quiescing) ==> w.st.quiescedAt.None?)
    && (p.Transferring? ==> w.st.target == Some(t.target))
  }

  // Before the first visit.
  predicate Departing(cfg: Config, w: World, t: Trip) {
    && Asked(cfg, t) && Tainted(cfg, w.gate) && Init(cfg, w) && Evacuable(cfg, w)
    && w.cr.Some? && !w.cr.value.deleting && !HasRefPods(cfg, w.gate.pods) && BothUp(w) && Clear(cfg, w.gate)
    && OldPvIs(w, t, t.was.reclaimPolicy) && t.fins <= {PvProtection, Provisioner}
    && w.claim.pvc.Some? && w.claim.pvc.value.uid == t.pvcUid
    && SourceIs(w, t, false) && t.sent == t.content
  }

  function Visited(cfg: Config, w: World, relay: Option<RelayObs>, pick: Choice): World {
    ReconcileStep(cfg, w, relay, pick)
  }

  lemma Departs(cfg: Config, w: World, t: Trip, relay: Option<RelayObs>, pick: Choice)
    requires Departing(cfg, w, t)
    ensures var u := Visited(cfg, w, relay, pick); Preparing(cfg, u, t, Guarding) && u.gate == w.gate
  {
  }

  lemma Guards(cfg: Config, w: World, t: Trip, relay: Option<RelayObs>, pick: Choice)
    requires Asked(cfg, t) && Preparing(cfg, w, t, Guarding)
    ensures var u := Visited(cfg, w, relay, pick); Preparing(cfg, u, t, Retaining) && u.gate == w.gate
  {
  }

  lemma Retains(cfg: Config, w: World, t: Trip, relay: Option<RelayObs>, pick: Choice)
    requires Asked(cfg, t) && Preparing(cfg, w, t, Retaining)
    ensures var u := Visited(cfg, w, relay, pick); Preparing(cfg, u, t, Locking) && u.gate == w.gate
  {
  }

  // Taking the lock looks at no pods.
  lemma LocksAnyhow(cfg: Config, w: World, t: Trip, relay: Option<RelayObs>, pick: Choice)
    requires Asked(cfg, t) && PreparingFor(cfg, w, t, Locking)
    ensures var u := Visited(cfg, w, relay, pick);
            && PreparingFor(cfg, u, t, Quiescing) && u.st.quiescedAt.None? && u.st.lockedAt == Some(Stamp(u.gate.now))
            && u.gate == TakeLock(cfg, w.gate)
  {
    hide Locked, HeldIn;
  }

  lemma Locks(cfg: Config, w: World, t: Trip, relay: Option<RelayObs>, pick: Choice)
    requires Asked(cfg, t) && Preparing(cfg, w, t, Locking)
    ensures var u := Visited(cfg, w, relay, pick);
            && Preparing(cfg, u, t, Quiescing) && u.st.quiescedAt.None? && u.st.lockedAt == Some(Stamp(u.gate.now))
            && u.gate == TakeLock(cfg, w.gate)
  {
    LocksAnyhow(cfg, w, t, relay, pick);
    hide Visited, PreparingFor, Asked;
  }

  lemma TimeIsUp(cfg: Config, w: World, t: Trip, seconds: nat)
    requires Preparing(cfg, w, t, Quiescing)
    ensures var (u, s) := (EnvStep(cfg, w, OnGate(Tick((seconds + 1) * 1000))), Stamp(w.gate.now));
            && Preparing(cfg, u, t, Quiescing) && u.st == w.st && SamePlace(w.gate, u.gate)
            && SecsSince(u.gate.now, s).Some? && SecsSince(u.gate.now, s).value >= seconds
  {
  }

  lemma Anchors(cfg: Config, w: World, t: Trip, relay: Option<RelayObs>, pick: Choice)
    requires Asked(cfg, t) && Preparing(cfg, w, t, Quiescing)
    requires GraceOver(w.gate.now, w.st) && w.st.quiescedAt.None?
    ensures var u := Visited(cfg, w, relay, pick);
            && Preparing(cfg, u, t, Quiescing)
            && u.st.quiescedAt == Some(Stamp(u.gate.now)) && u.st.lockedAt == w.st.lockedAt
            && u.gate == w.gate
  {
  }

  lemma Settles(cfg: Config, w: World, t: Trip, relay: Option<RelayObs>, pick: Choice)
    requires Asked(cfg, t) && Preparing(cfg, w, t, Quiescing) && GraceOver(w.gate.now, w.st)
    requires Elapsed(w.gate.now, w.st.quiescedAt).Some?
    requires Elapsed(w.gate.now, w.st.quiescedAt).value >= cfg.settleSeconds
    ensures var u := Visited(cfg, w, relay, pick); Preparing(cfg, u, t, TargetSelecting) && u.gate == w.gate
  {
  }

  predicate Picks(pick: Choice, t: Trip) {
    !pick.busy && pick.target.Some? && pick.target.value.(newVolumeHandle := pick.handle) == t.target
  }

  lemma Selects(cfg: Config, w: World, t: Trip, relay: Option<RelayObs>, pick: Choice)
    requires Asked(cfg, t) && Preparing(cfg, w, t, TargetSelecting) && Picks(pick, t)
    ensures Preparing(cfg, Visited(cfg, w, relay, pick), t, Transferring)
  {
  }

  // ------------------------------------------------------------------ copying

  // From the first attempt to the commit: x is what there is of the copy.
  predicate Carrying(cfg: Config, w: World, t: Trip, p: Phase, x: CopyVol) {
    CarryingFor(cfg, w, t, p, x) && OldPvIs(w, t, Some(RETAIN))
  }

  // The same, whatever PV is under the name.
  predicate CarryingFor(cfg: Config, w: World, t: Trip, p: Phase, x: CopyVol) {
    && Calm(cfg, w, t) && w.st.phase == p && RecordIs(cfg, w.st, t) && w.bound.None?
    && SourceIs(w, t, true) && w.copy == x
    && w.st.target == Some(t.target)
    && w.st.transfer.Some? && w.st.transfer.value.attempt == 1 && w.st.transfer.value.failureReason.None?
    && !w.st.transfer.value.targetSnapDeleteIssued
    && (p.Transferring? ==> w.st.transfer.value.startedAt == Stamp(w.gate.now))
  }

  const NEW_JOB := Job(JobInit, false, false)
  const BUSY_JOB := Job(JobRunning, false, true)
  const DONE_JOB := Job(JobDone, false, true)

  const FIRST_BACKUP := CopyVol(None, Absent, false, None, map[1 := NEW_JOB], map[], map[])

  function Sending(t: Trip, rsts: map<nat, Job>): CopyVol {
    CopyVol(None, Absent, false, None, map[1 := BUSY_JOB], rsts, map[1 := t.sent])
  }

  function Landed(t: Trip, zv: Option<Zv>): CopyVol {
    CopyVol(zv, Whole(t.sent), true, None, map[1 := DONE_JOB], map[1 := DONE_JOB], map[1 := t.sent])
  }

  lemma Transfers(cfg: Config, w: World, relay: Option<RelayObs>, pick: Choice)
    requires w.cr == Some(Cr(false, true)) && w.st.phase.Transferring? && !w.st.committed
    requires CancelCondition(cfg, w).None?
    ensures Visited(cfg, w, relay, pick) == TransferStep(cfg, w, relay)
  {
    hide TransferStep, CancelCondition;
    assert w == w.(cr := Some(Cr(false, true)));
  }

  lemma Starts(cfg: Config, w: World, t: Trip, relay: Option<RelayObs>, pick: Choice)
    requires Asked(cfg, t) && Preparing(cfg, w, t, Transferring)
    requires !Running(relay, 1)
    ensures Carrying(cfg, Visited(cfg, w, relay, pick), t, Transferring, FIRST_BACKUP)
  {
    Transfers(cfg, w, relay, pick);
    hide Visited, CancelCondition, HasRefPods;
  }

  lemma Sends(cfg: Config, w: World, t: Trip)
    requires Carrying(cfg, w, t, Transferring, FIRST_BACKUP) && t.sent == t.content
    ensures Carrying(cfg, EnvStep(cfg, w, OnCopy(BkpRun(1))), t, Transferring, Sending(t, map[]))
  {
  }

  predicate Connected(relay: Option<RelayObs>) {
    relay.Some? && relay.value.attempt == 1 && relay.value.sourceConnected
  }

  lemma Dials(cfg: Config, w: World, t: Trip, relay: Option<RelayObs>, pick: Choice)
    requires Asked(cfg, t) && Carrying(cfg, w, t, Transferring, Sending(t, map[]))
    requires Connected(relay)
    ensures Carrying(cfg, Visited(cfg, w, relay, pick), t, Transferring, Sending(t, map[1 := NEW_JOB]))
  {
    Transfers(cfg, w, relay, pick);
    hide Visited, CancelCondition, HasRefPods;
  }

  function AllReceived(cfg: Config, w: World): World {
    var u := EnvStep(cfg, EnvStep(cfg, w, OnCopy(RstRun(1))), OnCopy(RstEnd(1, JobDone)));
    EnvStep(cfg, u, OnCopy(BkpEnd(1, JobDone)))
  }

  lemma Receives(cfg: Config, w: World, t: Trip)
    requires Carrying(cfg, w, t, Transferring, Sending(t, map[1 := NEW_JOB]))
    ensures Carrying(cfg, AllReceived(cfg, w), t, Transferring, Landed(t, None))
  {
    hide HasRefPods, RecordIs, Clear;
  }

  lemma Completes(cfg: Config, w: World, t: Trip, relay: Option<RelayObs>, pick: Choice)
    requires Asked(cfg, t) && Carrying(cfg, w, t, Transferring, Landed(t, None))
    ensures Carrying(cfg, Visited(cfg, w, relay, pick), t, Adopting, Landed(t, None))
  {
    Transfers(cfg, w, relay, pick);
    hide Visited, CancelCondition, HasRefPods;
  }

  function ReadyZv(t: Trip): Zv {
    TargetZv(t.info, t.target).(state := ZvReady, fin := true)
  }

  lemma Adopts(cfg: Config, w: World, t: Trip, relay: Option<RelayObs>, pick: Choice)
    requires Asked(cfg, t) && Carrying(cfg, w, t, Adopting, Landed(t, None))
    ensures Carrying(cfg, Visited(cfg, w, relay, pick), t, Adopting, Landed(t, Some(TargetZv(t.info, t.target))))
  {
  }

  lemma GetsReady(cfg: Config, w: World, t: Trip)
    requires Carrying(cfg, w, t, Adopting, Landed(t, Some(TargetZv(t.info, t.target))))
    ensures Carrying(cfg, EnvStep(cfg, w, OnCopy(TgtReady)), t, Adopting, Landed(t, Some(ReadyZv(t))))
  {
  }

  lemma Approves(cfg: Config, w: World, t: Trip, relay: Option<RelayObs>, pick: Choice)
    requires Asked(cfg, t) && Carrying(cfg, w, t, Adopting, Landed(t, Some(ReadyZv(t))))
    ensures Carrying(cfg, Visited(cfg, w, relay, pick), t, Committing, Landed(t, Some(ReadyZv(t))))
  {
  }

  // --------------------------------------------------------------- the swap

  function OldManifest(t: Trip): Manifest {
    t.was.(reclaimPolicy := Some(RETAIN))
  }

  function NewManifest(cfg: Config, t: Trip): Manifest {
    var r := Render(OldManifest(t), PvcRef(cfg.ns, cfg.pvcName, t.pvcUid), t.target);
    if r.Ok? then r.value else t.was
  }

  predicate Swapped(cfg: Config, w: World, t: Trip, p: Phase) {
    && Calm(cfg, w, t) && w.st.phase == p && w.st.committed && t.was.csi.Some?
    && w.st.source.Some? && w.st.source.value.pvUid == t.pvUid && w.st.source.value.volumeHandle == cfg.handle
    && w.st.target == Some(t.target)
    && w.st.pvcRef == Some(PvcRef(cfg.ns, cfg.pvcName, t.pvcUid)) && w.st.originalPolicy == t.was.reclaimPolicy
    && w.st.oldPv == Some(OldManifest(t)) && w.st.newPv == Some(NewManifest(cfg, t))
    && w.st.transfer.Some? && w.st.transfer.value.attempt == 1
  }

  predicate AtSwap(cfg: Config, w: World, t: Trip) {
    && Swapped(cfg, w, t, Swapping) && w.bound.None? && SourceIs(w, t, true)
    && w.copy == Landed(t, Some(ReadyZv(t))) && !w.st.transfer.value.targetSnapDeleteIssued
    && t.pvUid < w.claim.nextUid
  }

  lemma Commits(cfg: Config, w: World, t: Trip, relay: Option<RelayObs>, pick: Choice)
    requires Asked(cfg, t) && t.was.csi.Some? && t.pvUid < w.claim.nextUid
    requires Carrying(cfg, w, t, Committing, Landed(t, Some(ReadyZv(t))))
    ensures var u := Visited(cfg, w, relay, pick); AtSwap(cfg, u, t) && OldPvIs(u, t, Some(RETAIN))
  {
    IsCommitVisit(cfg, w, relay, pick);
    CommitsNow(cfg, w, t);
    hide Visited, GoesOn, Render, ReadyZv, Landed, WantsEvacuation, HasRefPods;
  }

  lemma IsCommitVisit(cfg: Config, w: World, relay: Option<RelayObs>, pick: Choice)
    requires w.cr == Some(Cr(false, true)) && w.st.phase.Committing? && !w.st.committed && CancelCondition(cfg, w).None?
    ensures Visited(cfg, w, relay, pick) == CommitStep(cfg, w)
  {
    hide CommitStep, CancelCondition;
    assert w == w.(cr := Some(Cr(false, true)));
  }

  lemma CommitsNow(cfg: Config, w: World, t: Trip)
    requires t.was.csi.Some? && Carrying(cfg, w, t, Committing, Landed(t, Some(ReadyZv(t))))
    ensures CommitStep(cfg, w) == Written(w, CommitRecord(w.st, OldManifest(t), NewManifest(cfg, t)))
  {
    RenderIsTheReplacement(OldManifest(t), PvcRef(cfg.ns, cfg.pvcName, t.pvcUid), t.target, t.was);
    hide Render, ReadyZv, Landed;
  }

  lemma Removes(cfg: Config, w: World, t: Trip, relay: Option<RelayObs>, pick: Choice)
    requires AtSwap(cfg, w, t) && OldPvIs(w, t, Some(RETAIN)) && t.fins <= {PvProtection, Provisioner}
    ensures var u := Visited(cfg, w, relay, pick); AtSwap(cfg, u, t) && u.claim.pv.None?
  {
    assert t.fins - {PvProtection, Provisioner} == {};
  }

  predicate NewPvIs(cfg: Config, w: World, t: Trip, bound: bool, policy: Option<string>) {
    && w.claim.pv.Some? && w.claim.pv.value.uid != t.pvUid
    && !w.claim.pv.value.deleting && w.claim.pv.value.bound == bound
    && w.claim.pv.value.body == WithPolicy(NewManifest(cfg, t), policy)
  }

  lemma Replaces(cfg: Config, w: World, t: Trip, relay: Option<RelayObs>, pick: Choice)
    requires AtSwap(cfg, w, t) && w.claim.pv.None?
    ensures var u := Visited(cfg, w, relay, pick); AtSwap(cfg, u, t) && NewPvIs(cfg, u, t, false, None)
  {
  }

  // Bound, with what was sent at the target.
  predicate HandedTo(w: World, t: Trip) {
    w.bound.Some? && w.bound.value.src == Whole(t.content) && w.bound.value.tgt == Whole(t.sent)
  }

  lemma Binds(cfg: Config, w: World, t: Trip)
    requires AtSwap(cfg, w, t) && NewPvIs(cfg, w, t, false, None)
    ensures var u := EnvStep(cfg, w, OnClaim(PvBind));
            && NewPvIs(cfg, u, t, true, None) && HandedTo(u, t)
            && u == w.(claim := u.claim, bound := u.bound) && u.claim.pvc == w.claim.pvc
  {
  }

  // ------------------------------------------------------------- cleaning up

  predicate Cleaning(cfg: Config, w: World, t: Trip, x: CopyVol, issued: bool) {
    && Swapped(cfg, w, t, CleaningUp) && HandedTo(w, t) && NewPvIs(cfg, w, t, true, t.was.reclaimPolicy)
    && SourceIs(w, t, true) && w.copy == x && w.st.transfer.value.targetSnapDeleteIssued == issued
  }

  lemma Rebinds(cfg: Config, w: World, t: Trip, relay: Option<RelayObs>, pick: Choice)
    requires Swapped(cfg, w, t, Swapping) && HandedTo(w, t) && NewPvIs(cfg, w, t, true, None)
    requires SourceIs(w, t, true) && w.copy == Landed(t, Some(ReadyZv(t)))
    requires !w.st.transfer.value.targetSnapDeleteIssued
    ensures Cleaning(cfg, Visited(cfg, w, relay, pick), t, Landed(t, Some(ReadyZv(t))), false)
  {
  }

  // The target with its snapshot, or without, and the CR standing in for it.
  function Moved(t: Trip, snap: bool, cr: Option<SnapCr>): CopyVol {
    CopyVol(Some(ReadyZv(t)), Whole(t.sent), snap, cr, map[], map[], map[1 := t.sent])
  }

  function CrsGone(cfg: Config, w: World): World {
    EnvStep(cfg, EnvStep(cfg, w, OnCopy(BkpGone(1))), OnCopy(RstGone(1)))
  }

  const LEAVING_JOB := DONE_JOB.(deleting := true)

  // Past the commit point a visit is its phase and nothing else.
  lemma CleansUp(cfg: Config, w: World, relay: Option<RelayObs>, pick: Choice)
    requires w.cr == Some(Cr(false, true)) && w.st.phase.CleaningUp? && w.st.committed
    ensures Visited(cfg, w, relay, pick) == CleanupStep(cfg, w)
  {
    hide CleanupStep;
    assert w == w.(cr := Some(Cr(false, true)));
  }

  lemma BothAsked(cfg: Config, w: World, x: CopyVol)
    requires w.copy == x && x.bkps == map[1 := DONE_JOB] && x.rsts == map[1 := DONE_JOB]
    ensures CrsCleaned(cfg, w, 1) == w.(copy := x.(bkps := map[1 := LEAVING_JOB], rsts := map[1 := LEAVING_JOB]))
  {
    assert map[1 := DONE_JOB][1 := LEAVING_JOB] == map[1 := LEAVING_JOB];
    var u := JobCleaned(cfg, w, Backup, 1);
    assert u == w.(copy := x.(bkps := map[1 := LEAVING_JOB]));
  }

  lemma AsksCrsToGo(cfg: Config, w: World, t: Trip, relay: Option<RelayObs>, pick: Choice)
    requires Cleaning(cfg, w, t, Landed(t, Some(ReadyZv(t))), false)
    ensures Cleaning(cfg, Visited(cfg, w, relay, pick), t,
                     Landed(t, Some(ReadyZv(t))).(bkps := map[1 := LEAVING_JOB], rsts := map[1 := LEAVING_JOB]), false)
  {
    CleansUp(cfg, w, relay, pick);
    BothAsked(cfg, w, w.copy);
    hide Visited, HasRefPods, AfterCrs, CrsCleaned;
  }

  lemma CrsGo(cfg: Config, w: World, t: Trip)
    requires Cleaning(cfg, w, t,
                      Landed(t, Some(ReadyZv(t))).(bkps := map[1 := LEAVING_JOB], rsts := map[1 := LEAVING_JOB]), false)
    ensures Cleaning(cfg, CrsGone(cfg, w), t, Moved(t, true, None), false)
  {
    hide HasRefPods, Render, TargetZv;
    assert map[1 := LEAVING_JOB] - {1} == map[];
  }

  lemma Registers(cfg: Config, w: World, t: Trip, relay: Option<RelayObs>, pick: Choice)
    requires Cleaning(cfg, w, t, Moved(t, true, None), false)
    ensures var u := EnvStep(cfg, Visited(cfg, w, relay, pick), OnCopy(SnapReady));
            Cleaning(cfg, u, t, Moved(t, true, Some(SnapCr(false, true))), false)
  {
    CleansUp(cfg, w, relay, pick);
    hide Visited, SourceRemoved, Finished, CrsCleaned, HasRefPods;
  }

  lemma Destroys(cfg: Config, w: World, t: Trip, relay: Option<RelayObs>, pick: Choice)
    requires Cleaning(cfg, w, t, Moved(t, true, Some(SnapCr(false, true))), false)
    ensures var u := EnvStep(cfg, Visited(cfg, w, relay, pick), OnCopy(SnapDestroy));
            Cleaning(cfg, u, t, Moved(t, false, None), true)
  {
    CleansUp(cfg, w, relay, pick);
    hide Visited, SourceRemoved, Finished, CrsCleaned, HasRefPods;
  }

  // The source volume is gone, its dataset with it.
  predicate SourceGone(cfg: Config, w: World, t: Trip) {
    && Swapped(cfg, w, t, CleaningUp) && HandedTo(w, t) && NewPvIs(cfg, w, t, true, t.was.reclaimPolicy)
    && w.src.zv.None? && w.src.disk == Absent
    && w.copy == Moved(t, false, None) && w.st.transfer.value.targetSnapDeleteIssued
  }

  // Deleted and unguarded; the agent's own finalizer is all that holds it.
  predicate SourceLeaving(cfg: Config, w: World, t: Trip) {
    && Swapped(cfg, w, t, CleaningUp) && HandedTo(w, t) && NewPvIs(cfg, w, t, true, t.was.reclaimPolicy)
    && w.src.zv.Some? && w.src.zv.value.deleting && !w.src.zv.value.guard && w.src.zv.value.fin
    && w.copy == Moved(t, false, None) && w.st.transfer.value.targetSnapDeleteIssued
  }

  lemma LetsGo(cfg: Config, w: World, t: Trip, relay: Option<RelayObs>, pick: Choice)
    requires Cleaning(cfg, w, t, Moved(t, false, None), true)
    ensures SourceLeaving(cfg, Visited(cfg, w, relay, pick), t)
  {
    CleansUp(cfg, w, relay, pick);
    SourceIsLetGo(cfg, w);
    hide Visited, Finished, CrsCleaned, SnapshotStep, SourceRemoved, HasRefPods, ReadyZv, NewManifest;
  }

  lemma SourceIsLetGo(cfg: Config, w: World)
    requires w.src.zv.Some? && !w.src.zv.value.deleting && w.src.zv.value.guard && w.src.zv.value.fin
    requires w.gate.srcNode.Some?
    ensures var u := SourceRemoved(cfg, w);
            && u == w.(st := u.st, src := u.src) && u.st == w.st.(message := u.st.message)
            && u.src.zv.Some? && u.src.zv.value.deleting && !u.src.zv.value.guard && u.src.zv.value.fin
  {
  }

  lemma SourceGoes(cfg: Config, w: World, t: Trip)
    requires SourceLeaving(cfg, w, t)
    ensures SourceGone(cfg, EnvStep(cfg, w, OnSource(SrcDestroy)), t)
  {
    hide HasRefPods, Render, TargetZv;
  }

  // Completed: the claim's PV points at the target, which holds the bytes.
  predicate Arrived(cfg: Config, w: World, t: Trip) {
    && w.st.phase.Completed? && HandedTo(w, t) && NewPvIs(cfg, w, t, true, t.was.reclaimPolicy)
    && w.copy == Moved(t, false, None) && w.src.zv.None? && w.src.disk == Absent
    && Free(w.gate.params, Key(cfg)) && w.cr == Some(Cr(false, false))
  }

  lemma Finishes(cfg: Config, w: World, t: Trip, relay: Option<RelayObs>, pick: Choice)
    requires SourceGone(cfg, w, t)
    ensures Arrived(cfg, Visited(cfg, w, relay, pick), t)
  {
    CleansUp(cfg, w, relay, pick);
    hide Visited, SourceRemoved, CrsCleaned, SnapshotStep, HasRefPods;
  }

  // ------------------------------------------------------------ the journey

  lemma PreparingForGoesOn(cfg: Config, w: World, t: Trip, p: Phase, pick: Choice)
    requires Asked(cfg, t) && PreparingFor(cfg, w, t, p) && !Terminal(p) && !p.Aborting?
    requires t.target.newVolumeHandle != cfg.handle && pick.handle == t.target.newVolumeHandle
    ensures w.cr.Some? && !Terminal(w.st.phase) && GoesOn(cfg, w) && Reconciler.Fresh(w.st, pick)
    ensures w.st.phase == p
  {
  }

  lemma PreparingGoesOn(cfg: Config, w: World, t: Trip, p: Phase, pick: Choice)
    requires Asked(cfg, t) && Preparing(cfg, w, t, p) && !Terminal(p) && !p.Aborting?
    requires t.target.newVolumeHandle != cfg.handle && pick.handle == t.target.newVolumeHandle
    ensures w.cr.Some? && !Terminal(w.st.phase) && GoesOn(cfg, w) && Reconciler.Fresh(w.st, pick)
    ensures w.st.phase == p
  {
    PreparingForGoesOn(cfg, w, t, p, pick);
  }

  lemma TransferKeepsGate(cfg: Config, w: World, relay: Option<RelayObs>)
    ensures TransferStep(cfg, w, relay).gate == w.gate
  {
    hide Verdict, ObservedAt;
  }

  lemma SwapKeepsGate(cfg: Config, w: World)
    ensures SwapStep(cfg, w).gate == w.gate && CommitStep(cfg, w).gate == w.gate && Adopted(w).gate == w.gate
  {
    hide Render, TargetZv, RefPods;
  }

  // From the choice of the target to the swap a visit leaves the pods, the lock
  // and the clock alone.
  lemma GateIsKept(cfg: Config, w: World, relay: Option<RelayObs>, pick: Choice)
    requires GoesOn(cfg, w)
    ensures w.st.phase.TargetSelecting? || Copying(w.st.phase) ==> Visited(cfg, w, relay, pick).gate == w.gate
  {
    TransferKeepsGate(cfg, Held(w), relay);
    SwapKeepsGate(cfg, Held(w));
    hide GoesOn, TransferStep, SwapStep, CommitStep, Adopted;
  }

  lemma CopyingGoesOn(cfg: Config, w: World, t: Trip, p: Phase, x: CopyVol, pick: Choice)
    requires Asked(cfg, t) && Carrying(cfg, w, t, p, x) && !Terminal(p) && !p.Aborting?
    requires t.target.newVolumeHandle != cfg.handle && pick.handle == t.target.newVolumeHandle
    ensures w.cr.Some? && !Terminal(w.st.phase) && GoesOn(cfg, w) && Reconciler.Fresh(w.st, pick)
    ensures w.st.phase == p
  {
  }

  lemma SwappedGoesOn(cfg: Config, w: World, t: Trip, p: Phase, pick: Choice)
    requires Swapped(cfg, w, t, p) && (p.Swapping? || p.CleaningUp?)
    requires t.target.newVolumeHandle != cfg.handle && pick.handle == t.target.newVolumeHandle
    ensures w.cr.Some? && !Terminal(w.st.phase) && GoesOn(cfg, w) && Reconciler.Fresh(w.st, pick)
    ensures w.st.phase == p
  {
  }

  // A plain visit to an evacuation that goes on.
  method Visit(c: Cluster, pick: Choice)
    requires c.Valid() && c.script == [] && c.w.cr.Some? && !Terminal(c.w.st.phase) && GoesOn(c.cfg, c.w)
    requires Reconciler.Fresh(c.w.st, pick)
    modifies c
    ensures c.Valid() && c.script == [] && old(c.log) <= c.log
    ensures c.w == Visited(c.cfg, old(c.w), old(c.relay), pick) && c.relay == RelayLeft(c.cfg, old(c.w), old(c.relay))
    ensures !old(c.w).st.phase.Transferring? ==> c.relay == old(c.relay)
    ensures old(c.w).st.phase.TargetSelecting? || Copying(old(c.w).st.phase) ==> c.w.gate == old(c.w).gate
  {
    hide Inv, Run, ReconcileStep, GoesOn, TransferRelay, Copying;
    GateIsKept(c.cfg, c.w, c.relay, pick);
    var _ := Reconcile(c, pick);
  }

  predicate SamePlace(g: Gate, h: Gate) {
    h.pods == g.pods && h.srcNode == g.srcNode
  }

  // What every leg of the journey needs.
  predicate Underway(c: Config, t: Trip, pick: Choice) {
    && Asked(c, t) && t.was.csi.Some? && t.fins <= {PvProtection, Provisioner}
    && Picks(pick, t) && t.target.newVolumeHandle != c.handle
  }

  // Set out: guard and retain.
  method Depart(cfg: Config, start: World, t: Trip, pick: Choice) returns (c: Cluster)
    requires Departing(cfg, start, t) && Picks(pick, t) && t.target.newVolumeHandle != cfg.handle
    ensures fresh(c) && c.cfg == cfg && c.start == start && c.Valid() && c.script == [] && c.relay.None?
    ensures Preparing(cfg, c.w, t, Locking) && c.w.gate == start.gate
    ensures Underway(cfg, t, pick) && start.src.disk == Whole(t.content)
  {
    hide Inv, Run, Visited, Preparing, EnvStep, GoesOn, Asked, Departing, Init;
    DepartureIsReady(cfg, start, t, pick);
    c := new Cluster(cfg, start, []);
    Departs(cfg, start, t, c.relay, pick);
    Visit(c, pick);
    hide Inv, Run, Visited, Preparing, EnvStep, GoesOn, Asked;
    PreparingGoesOn(c.cfg, c.w, t, Guarding, pick);
    Guards(c.cfg, c.w, t, c.relay, pick);
    Visit(c, pick);
    PreparingGoesOn(c.cfg, c.w, t, Retaining, pick);
    Retains(c.cfg, c.w, t, c.relay, pick);
    Visit(c, pick);
  }

  // Lock, and wait until that is enforced.
  method Lock(cfg: Config, start: World, t: Trip, pick: Choice) returns (c: Cluster)
    requires Departing(cfg, start, t) && Picks(pick, t) && t.target.newVolumeHandle != cfg.handle
    ensures fresh(c) && c.cfg == cfg && c.start == start && c.Valid() && c.script == [] && c.relay.None?
    ensures Preparing(cfg, c.w, t, Quiescing) && GraceOver(c.w.gate.now, c.w.st) && c.w.st.quiescedAt.None?
    ensures Underway(cfg, t, pick) && start.src.disk == Whole(t.content) && SamePlace(start.gate, c.w.gate)
  {
    hide Inv, Run, Visited, Preparing, EnvStep, GoesOn, Asked, Departing;
    c := Depart(cfg, start, t, pick);
    PreparingGoesOn(c.cfg, c.w, t, Locking, pick);
    Locks(c.cfg, c.w, t, c.relay, pick);
    Visit(c, pick);
    TimeIsUp(c.cfg, c.w, t, LOCK_PROPAGATION_SECONDS);
    c.Happen(OnGate(Tick((LOCK_PROPAGATION_SECONDS + 1) * 1000)));
  }

  method Select(c: Cluster, t: Trip, pick: Choice)
    requires c.Valid() && c.script == [] && c.relay.None? && Underway(c.cfg, t, pick)
    requires Preparing(c.cfg, c.w, t, TargetSelecting)
    modifies c
    ensures c.Valid() && c.script == [] && c.relay.None? && old(c.log) <= c.log
    ensures Preparing(c.cfg, c.w, t, Transferring) && c.w.gate == old(c.w).gate
  {
    hide Inv, Run, Visited, Preparing, GoesOn, Asked;
    PreparingGoesOn(c.cfg, c.w, t, TargetSelecting, pick);
    Selects(c.cfg, c.w, t, c.relay, pick);
    Visit(c, pick);
  }

  // Everything up to the copy.
  method Prepare(cfg: Config, start: World, t: Trip, pick: Choice) returns (c: Cluster)
    requires Departing(cfg, start, t) && Picks(pick, t) && t.target.newVolumeHandle != cfg.handle
    ensures fresh(c) && c.cfg == cfg && c.start == start && c.Valid() && c.script == [] && c.relay.None?
    ensures Preparing(cfg, c.w, t, Transferring) && SamePlace(start.gate, c.w.gate)
    ensures Underway(cfg, t, pick) && start.src.disk == Whole(t.content)
  {
    hide Inv, Run, Preparing, Departing;
    c := Lock(cfg, start, t, pick);
    Quiesce(c, t, pick);
    Select(c, t, pick);
  }

  method Quiesce(c: Cluster, t: Trip, pick: Choice)
    requires c.Valid() && c.script == [] && c.relay.None? && Underway(c.cfg, t, pick)
    requires Preparing(c.cfg, c.w, t, Quiescing) && GraceOver(c.w.gate.now, c.w.st) && c.w.st.quiescedAt.None?
    modifies c
    ensures c.Valid() && c.script == [] && c.relay.None? && old(c.log) <= c.log
    ensures Preparing(c.cfg, c.w, t, TargetSelecting) && SamePlace(old(c.w).gate, c.w.gate)
  {
    hide Inv, Run, Visited, Preparing, GoesOn, Asked;
    PreparingGoesOn(c.cfg, c.w, t, Quiescing, pick);
    Anchors(c.cfg, c.w, t, c.relay, pick);
    Visit(c, pick);
    TimeIsUp(c.cfg, c.w, t, c.cfg.settleSeconds);
    StillOver(c.cfg, c.w, t, c.cfg.settleSeconds);
    c.Happen(OnGate(Tick((c.cfg.settleSeconds + 1) * 1000)));
    PreparingGoesOn(c.cfg, c.w, t, Quiescing, pick);
    Settles(c.cfg, c.w, t, c.relay, pick);
    Visit(c, pick);
  }

  lemma StillOver(cfg: Config, w: World, t: Trip, seconds: nat)
    requires Preparing(cfg, w, t, Quiescing) && GraceOver(w.gate.now, w.st)
    ensures var u := EnvStep(cfg, w, OnGate(Tick((seconds + 1) * 1000))); GraceOver(u.gate.now, u.st)
  {
  }

  method Copy(c: Cluster, t: Trip, pick: Choice)
    requires c.Valid() && c.script == [] && c.relay.None? && Underway(c.cfg, t, pick)
    requires Preparing(c.cfg, c.w, t, Transferring)
    modifies c
    ensures c.Valid() && c.script == [] && old(c.log) <= c.log
    ensures Carrying(c.cfg, c.w, t, Transferring, Landed(t, None)) && c.w.gate == old(c.w).gate
  {
    hide Inv, Run, Visited, Preparing, Carrying, EnvStep, GoesOn, Asked;
    PreparingGoesOn(c.cfg, c.w, t, Transferring, pick);
    SendsAsIs(c.cfg, c.w, t, Transferring);
    Starts(c.cfg, c.w, t, c.relay, pick);
    RelayIsUp(c.cfg, c.w, t, pick);
    Visit(c, pick);
    Sends(c.cfg, c.w, t);
    c.Happen(OnCopy(BkpRun(1)));
    c.RelayRuns(RelayObs(1, 0, 0, false, true));
    CopyingGoesOn(c.cfg, c.w, t, Transferring, Sending(t, map[]), pick);
    Dials(c.cfg, c.w, t, c.relay, pick);
    Visit(c, pick);
    Receives(c.cfg, c.w, t);
    c.Happen(OnCopy(RstRun(1)));
    c.Happen(OnCopy(RstEnd(1, JobDone)));
    c.Happen(OnCopy(BkpEnd(1, JobDone)));
  }

  lemma RelayIsUp(cfg: Config, w: World, t: Trip, pick: Choice)
    requires Preparing(cfg, w, t, Transferring) && GoesOn(cfg, w)
    ensures RelayLeft(cfg, w, None) == Some(NewRelay(w, 1))
  {
  }

  // The target's agent takes the received dataset for its volume.
  method Adopt(c: Cluster, t: Trip, pick: Choice)
    requires c.Valid() && c.script == [] && Underway(c.cfg, t, pick)
    requires Carrying(c.cfg, c.w, t, Transferring, Landed(t, None))
    modifies c
    ensures c.Valid() && c.script == [] && old(c.log) <= c.log
    ensures Carrying(c.cfg, c.w, t, Adopting, Landed(t, Some(ReadyZv(t)))) && c.w.gate == old(c.w).gate
  {
    hide Inv, Run, Visited, Carrying, EnvStep, GoesOn, Asked;
    CopyingGoesOn(c.cfg, c.w, t, Transferring, Landed(t, None), pick);
    Completes(c.cfg, c.w, t, c.relay, pick);
    Visit(c, pick);
    CopyingGoesOn(c.cfg, c.w, t, Adopting, Landed(t, None), pick);
    Adopts(c.cfg, c.w, t, c.relay, pick);
    Visit(c, pick);
    GetsReady(c.cfg, c.w, t);
    c.Happen(OnCopy(TgtReady));
  }

  method Approve(c: Cluster, t: Trip, pick: Choice)
    requires c.Valid() && c.script == [] && Underway(c.cfg, t, pick)
    requires Carrying(c.cfg, c.w, t, Adopting, Landed(t, Some(ReadyZv(t))))
    modifies c
    ensures c.Valid() && c.script == [] && old(c.log) <= c.log
    ensures AtSwap(c.cfg, c.w, t) && OldPvIs(c.w, t, Some(RETAIN)) && c.w.gate == old(c.w).gate
  {
    hide Inv, Run, Visited, Carrying, EnvStep, GoesOn, Asked, AtSwap, OldPvIs;
    CopyingGoesOn(c.cfg, c.w, t, Adopting, Landed(t, Some(ReadyZv(t))), pick);
    Approves(c.cfg, c.w, t, c.relay, pick);
    Visit(c, pick);
    CopyingGoesOn(c.cfg, c.w, t, Committing, Landed(t, Some(ReadyZv(t))), pick);
    UidsAreOld(c.cfg, c.w, t);
    Commits(c.cfg, c.w, t, c.relay, pick);
    Visit(c, pick);
  }

  lemma UidsAreOld(cfg: Config, w: World, t: Trip)
    requires Inv(cfg, w) && Carrying(cfg, w, t, Committing, Landed(t, Some(ReadyZv(t))))
    ensures t.pvUid < w.claim.nextUid
  {
  }

  method Replace(c: Cluster, t: Trip, pick: Choice)
    requires c.Valid() && c.script == [] && Underway(c.cfg, t, pick)
    requires AtSwap(c.cfg, c.w, t) && OldPvIs(c.w, t, Some(RETAIN))
    modifies c
    ensures c.Valid() && c.script == [] && old(c.log) <= c.log
    ensures AtSwap(c.cfg, c.w, t) && NewPvIs(c.cfg, c.w, t, false, None) && c.w.gate == old(c.w).gate
  {
    hide Inv, Run, Visited, EnvStep, GoesOn, Asked, Swapped, OldPvIs, NewPvIs, SourceIs, Cleaning,
      ReadyZv, Landed;
    SwappedGoesOn(c.cfg, c.w, t, Swapping, pick);
    Removes(c.cfg, c.w, t, c.relay, pick);
    Visit(c, pick);
    SwappedGoesOn(c.cfg, c.w, t, Swapping, pick);
    Replaces(c.cfg, c.w, t, c.relay, pick);
    Visit(c, pick);
  }

  method Swap(c: Cluster, t: Trip, pick: Choice)
    requires c.Valid() && c.script == [] && Underway(c.cfg, t, pick)
    requires AtSwap(c.cfg, c.w, t) && OldPvIs(c.w, t, Some(RETAIN))
    modifies c
    ensures c.Valid() && c.script == [] && old(c.log) <= c.log
    ensures Cleaning(c.cfg, c.w, t, Landed(t, Some(ReadyZv(t))), false)
  {
    hide Inv, Run, Visited, EnvStep, GoesOn, Asked, Swapped, OldPvIs, NewPvIs, SourceIs, Cleaning,
      ReadyZv, Landed;
    Replace(c, t, pick);
    Binds(c.cfg, c.w, t);
    StaysSwapped(c.cfg, c.w, EnvStep(c.cfg, c.w, OnClaim(PvBind)), t);
    c.Happen(OnClaim(PvBind));
    SwappedGoesOn(c.cfg, c.w, t, Swapping, pick);
    Rebinds(c.cfg, c.w, t, c.relay, pick);
    Visit(c, pick);
  }

  lemma StaysSwapped(cfg: Config, w: World, u: World, t: Trip)
    requires Swapped(cfg, w, t, Swapping) && u == w.(claim := u.claim, bound := u.bound) && u.claim.pvc == w.claim.pvc
    ensures Swapped(cfg, u, t, Swapping) && (SourceIs(w, t, true) ==> SourceIs(u, t, true))
  {
  }

  method Clean(c: Cluster, t: Trip, pick: Choice)
    requires c.Valid() && c.script == [] && Underway(c.cfg, t, pick)
    requires Cleaning(c.cfg, c.w, t, Landed(t, Some(ReadyZv(t))), false)
    modifies c
    ensures c.Valid() && c.script == [] && old(c.log) <= c.log
    ensures SourceGone(c.cfg, c.w, t)
  {
    hide Inv, Run, Visited, EnvStep, GoesOn, Asked, Swapped, NewPvIs, SourceIs, SourceGone,
      ReadyZv, Landed, Moved, HandedTo, SourceLeaving;
    SwappedGoesOn(c.cfg, c.w, t, CleaningUp, pick);
    AsksCrsToGo(c.cfg, c.w, t, c.relay, pick);
    Visit(c, pick);
    CrsGo(c.cfg, c.w, t);
    c.Happen(OnCopy(BkpGone(1)));
    c.Happen(OnCopy(RstGone(1)));
    SwappedGoesOn(c.cfg, c.w, t, CleaningUp, pick);
    Registers(c.cfg, c.w, t, c.relay, pick);
    Visit(c, pick);
    c.Happen(OnCopy(SnapReady));
    SwappedGoesOn(c.cfg, c.w, t, CleaningUp, pick);
    Destroys(c.cfg, c.w, t, c.relay, pick);
    Visit(c, pick);
    c.Happen(OnCopy(SnapDestroy));
    SwappedGoesOn(c.cfg, c.w, t, CleaningUp, pick);
    LetsGo(c.cfg, c.w, t, c.relay, pick);
    Visit(c, pick);
    SourceGoes(c.cfg, c.w, t);
    c.Happen(OnSource(SrcDestroy));
  }

  // From the received copy to the end.
  method Arrive(c: Cluster, t: Trip, pick: Choice)
    requires c.Valid() && c.script == [] && Underway(c.cfg, t, pick)
    requires Carrying(c.cfg, c.w, t, Transferring, Landed(t, None))
    modifies c
    ensures c.Valid() && old(c.log) <= c.log && Arrived(c.cfg, c.w, t)
  {
    hide Visited, GoesOn, Carrying, AtSwap, OldPvIs, Cleaning, SourceGone, Inv, Run, Arrived, Asked;
    Adopt(c, t, pick);
    Approve(c, t, pick);
    Swap(c, t, pick);
    Clean(c, t, pick);
    SourceGoneGoesOn(c.cfg, c.w, t, pick);
    Finishes(c.cfg, c.w, t, c.relay, pick);
    Visit(c, pick);
  }

  // Every idle, evacuable volume gets to a target that is there: some
  // environment takes the controller all the way, and what it is then is a
  // run in the sense of Runs.
  method Evacuate(cfg: Config, start: World, t: Trip, pick: Choice) returns (c: Cluster)
    requires Departing(cfg, start, t) && Picks(pick, t) && t.target.newVolumeHandle != cfg.handle
    ensures fresh(c) && c.cfg == cfg && c.start == start && c.Valid() && Run(cfg, start, c.log, c.w)
    ensures Arrived(cfg, c.w, t)
    ensures c.w.claim.pv.value.body.csi.value.volumeHandle == t.target.newVolumeHandle
    ensures start.src.disk == c.w.copy.disk == Whole(t.content)
  {
    hide GoesOn, Departing, Preparing, Carrying, Inv, Legal, Init, After;
    c := Prepare(cfg, start, t, pick);
    SendsAsIs(c.cfg, c.w, t, Transferring);
    Copy(c, t, pick);
    Arrive(c, t, pick);
    RenderIsTheReplacement(OldManifest(t), PvcRef(cfg.ns, cfg.pvcName, t.pvcUid), t.target, NewManifest(cfg, t));
  }

  lemma SendsAsIs(cfg: Config, w: World, t: Trip, p: Phase)
    requires Preparing(cfg, w, t, p)
    ensures t.sent == t.content
  {
  }

  lemma DepartureIsReady(cfg: Config, w: World, t: Trip, pick: Choice)
    requires Departing(cfg, w, t) && Picks(pick, t) && t.target.newVolumeHandle != cfg.handle
    ensures Init(cfg, w) && Underway(cfg, t, pick) && w.src.disk == Whole(t.content)
    ensures w.cr.Some? && !Terminal(w.st.phase) && GoesOn(cfg, w) && Reconciler.Fresh(w.st, pick)
    ensures !w.st.phase.Transferring?
  {
  }

  lemma SourceGoneGoesOn(cfg: Config, w: World, t: Trip, pick: Choice)
    requires SourceGone(cfg, w, t) && t.target.newVolumeHandle != cfg.handle && pick.handle == t.target.newVolumeHandle
    ensures w.cr.Some? && !Terminal(w.st.phase) && GoesOn(cfg, w) && Reconciler.Fresh(w.st, pick)
  {
    SwappedGoesOn(cfg, w, t, CleaningUp, pick);
  }
}
