// What the controller may do and when: Permitted states, call by call, what
// must be so at the instant the call takes effect, and Inv what every
// reachable state satisfies.
module Protocol {
  import opened Common
  import opened Manifests
  import opened Pods
  import opened Admission
  import opened AttachLock
  import opened Status
  import opened World

  // ------------------------------------------------------------ shorthand

  function AttemptLimit(cfg: Config): nat {
    if cfg.maxAttempts == 0 then 1 else cfg.maxAttempts
  }

  predicate CurrentAttempt(s: Status, n: nat) {
    s.transfer.Some? && n == s.transfer.value.attempt
  }

  predicate SnapIssued(s: Status) {
    s.transfer.Some? && s.transfer.value.targetSnapDeleteIssued
  }

  predicate NoTransferCrs(x: CopyVol) {
    x.bkps == map[] && x.rsts == map[]
  }

  // The received copy of the transfer snapshot needs no more care.
  predicate SnapshotSettled(x: CopyVol, lost: bool) {
    !x.snap || lost || x.zv.None?
  }

  // What the controller knows by then: its delete of the snapshot CR went out
  // and the CR is gone, or the new volume itself is.
  predicate HandshakeDone(s: Status, x: CopyVol) {
    (SnapIssued(s) && x.snapCr.None?) || x.zv.None?
  }

  predicate TargetClean(x: CopyVol) {
    x.zv.None? && NoTransferCrs(x)
  }

  // The original PV, if it is still there, has its original reclaim policy.
  predicate PolicyBack(s: Status, pv: Option<Pv>) {
    IsOldPv(s, pv) && s.originalPolicy.Some? ==> pv.value.body.reclaimPolicy == s.originalPolicy
  }

  predicate Unguarded(zv: Option<Zv>) {
    zv.Some? ==> !zv.value.guard
  }

  // Everything the evacuation did before the commit point is undone.
  predicate Unwound(cfg: Config, w: World) {
    && TargetClean(w.copy)
    && Free(w.gate.params, Key(cfg))
    && Unguarded(w.src.zv)
    && PolicyBack(w.st, w.claim.pv)
  }

  // The PV under the name is our replacement, with policy Retain or restored.
  predicate Replacement(s: Status, pv: Pv) {
    && s.newPv.Some? && s.source.Some?
    && pv.uid != s.source.value.pvUid
    && (pv.body == s.newPv.value || pv.body == WithPolicy(s.newPv.value, s.originalPolicy))
  }

  predicate UserGone(c: Claim) {
    c.pvDeleted && c.pvcDeleted
  }

  // Why a source volume may be going away: it was handed over, or somebody
  // outside asked for it.
  predicate Doomed(w: World) {
    w.bound.Some? || w.src.outsideDelete || UserGone(w.claim)
  }

  predicate QuietLock(cfg: Config, g: Gate) {
    Enforced(cfg, g) && !HasRefPods(cfg, g.pods)
  }

  // Nobody uses the source, or has since the end of that second.
  predicate UnusedSince(cfg: Config, g: Gate, second: nat) {
    !InUse(cfg, g.pods) && g.lastUse <= second * 1000 + 999
  }

  // What keeps every writer away for good: idleness under an enforced lock, or
  // that nobody got onto the source since the lock.
  predicate Sealed(cfg: Config, entered: bool) {
    UnmountTimely(cfg) && ((cfg.mode.WhenIdle? && LockTimely(cfg)) || !entered)
  }

  // After the lock is taken and before it is released or abandoned.
  predicate UnderLock(p: Phase) {
    p.Quiescing? || p.TargetSelecting? || Copying(p)
  }

  predicate Received(p: Phase) {
    p.Adopting? || p.Committing? || p.Swapping?
  }

  predicate HandedOver(p: Phase) {
    p.CleaningUp? || p.Completed?
  }

  // -------------------------------------------------------- status writes

  predicate SamePlan(s: Status, t: Status) {
    && t.source == s.source && t.pvcRef == s.pvcRef && t.originalPolicy == s.originalPolicy
    && t.target == s.target && t.oldPv == s.oldPv && t.newPv == s.newPv && t.committed == s.committed
    && t.lockedAt == s.lockedAt
  }

  // The attempt record only moves forward, and to a new attempt only when
  // nothing of the old one is left.
  predicate TransferMove(cfg: Config, x: CopyVol, s: Option<TransferStatus>, t: Option<TransferStatus>) {
    || t == s
    || (t.Some? && !t.value.targetSnapDeleteIssued && NoTransferCrs(x) &&
        t.value.attempt == (if s.Some? then s.value.attempt else 0) + 1 && t.value.attempt <= AttemptLimit(cfg))
    || (t.Some? && s.Some? && t.value.attempt == s.value.attempt &&
        t.value.targetSnapDeleteIssued == s.value.targetSnapDeleteIssued)
  }

  predicate QuiescedMove(cfg: Config, g: Gate, s: Option<nat>, t: Option<nat>) {
    || t == s || t.None?
    || (t.value <= Stamp(g.now) &&
        (cfg.mode.WhenIdle? && LockTimely(cfg) ==> QuietLock(cfg, g) && UnusedSince(cfg, g, t.value)) &&
        (!g.entered ==> UnusedSince(cfg, g, t.value)))
  }

  predicate MayIssue(x: CopyVol, lost: bool) {
    NoTransferCrs(x) && if x.snapCr.Some? then x.snapCr.value.deleting else !x.snap || lost
  }

  predicate Stay(cfg: Config, w: World, t: Status) {
    var s := w.st;
    && t.phase == s.phase && SamePlan(s, t) && t.cancelled == s.cancelled
    && (if s.phase.Quiescing? then QuiescedMove(cfg, w.gate, s.quiescedAt, t.quiescedAt)
        else t.quiescedAt == s.quiescedAt)
    && (|| t.transfer == s.transfer
        || (s.phase.Transferring? && TransferMove(cfg, w.copy, s.transfer, t.transfer))
        || (s.phase.CleaningUp? && s.transfer.Some? && MayIssue(w.copy, w.nodes.tgtLost) &&
            t.transfer == Some(s.transfer.value.(targetSnapDeleteIssued := true))))
  }

  // The record says where the source volume is and how large.
  predicate Describes(source: Option<SourceInfo>, zv: Option<Zv>) {
    source.Some? && zv.Some? ==>
      && source.value.nodeId == zv.value.info.ownerNodeId && source.value.pool == zv.value.info.poolName
      && source.value.capacityBytes == zv.value.info.capacity
  }

  predicate MayStart(cfg: Config, w: World, t: Status) {
    && t.source.Some? && t.pvcRef.Some?
    && t == w.st.(phase := Guarding, message := t.message, source := t.source, pvcRef := t.pvcRef,
                  originalPolicy := t.originalPolicy)
    && t.pvcRef.value.ns == cfg.ns && t.pvcRef.value.name == cfg.pvcName
    && t.source.value.volumeHandle == cfg.handle && Describes(t.source, w.src.zv)
    && t.source.value.pvUid < w.claim.nextUid && t.source.value.capacityBytes > 0
    && t.source.value.node == cfg.srcName != ""
    && (!IsOldPv(t, w.claim.pv) ==> w.claim.pvDeleted)
    && ((w.claim.pvc.None? || w.claim.pvc.value.uid != t.pvcRef.value.uid) ==> w.claim.pvcDeleted)
  }

  // The whole snapshot of the recorded attempt is on the target.
  predicate CopyLanded(s: Status, x: CopyVol) {
    && s.transfer.Some? && s.transfer.value.attempt in x.shots
    && x.disk == Whole(x.shots[s.transfer.value.attempt])
    && forall n <- x.rsts :: x.rsts[n].status.JobDone?
  }

  predicate SameAttempt(s: Option<TransferStatus>, t: Option<TransferStatus>) {
    && s.Some? && t.Some? && t.value.attempt == s.value.attempt
    && t.value.targetSnapDeleteIssued == s.value.targetSnapDeleteIssued
  }

  predicate Change(cfg: Config, w: World, t: Status) {
    var s := w.st;
    match t.phase
    case Pending => false
    case Guarding => s.phase.Pending? && MayStart(cfg, w, t)
    case Retaining =>
      && s.phase.Guarding? && t == s.(phase := Retaining, message := t.message)
      && (w.src.zv.Some? ==> w.src.zv.value.guard)
    case Locking =>
      && s.phase.Retaining? && t == s.(phase := Locking, message := t.message)
      && (IsOldPv(s, w.claim.pv) ==> w.claim.pv.value.body.reclaimPolicy == Some(RETAIN))
    case Quiescing =>
      && s.phase.Locking? && t.lockedAt.Some?
      && t == s.(phase := Quiescing, message := t.message, lockedAt := t.lockedAt)
      && w.gate.lockSince.Some? && w.gate.lockSince.value <= t.lockedAt.value * 1000 + 999
      && t.lockedAt.value <= Stamp(w.gate.now)
    case TargetSelecting =>
      && s.phase.Quiescing? && t == s.(phase := TargetSelecting, message := t.message)
      && s.quiescedAt.Some? && w.gate.now >= (s.quiescedAt.value + cfg.settleSeconds) * 1000
    case Transferring =>
      && s.phase.TargetSelecting? && t.target.Some? && s.source.Some?
      && t == s.(phase := Transferring, message := t.message, target := t.target)
      && t.target.value.newVolumeHandle != s.source.value.volumeHandle
    case Adopting =>
      && s.phase.Transferring? && SameAttempt(s.transfer, t.transfer)
      && t == s.(phase := Adopting, message := t.message, transfer := t.transfer)
      && CopyLanded(s, w.copy)
    case Committing =>
      && s.phase.Adopting? && t == s.(phase := Committing, message := t.message)
      && w.copy.zv.Some? && w.copy.zv.value.state.ZvReady?
    case Swapping =>
      && s.phase.Committing? && t.oldPv.Some? && t.newPv.Some? && s.source.Some? && s.pvcRef.Some? && s.target.Some?
      && t == s.(phase := Swapping, message := t.message, oldPv := t.oldPv, newPv := t.newPv, committed := true)
      && Render(t.oldPv.value, s.pvcRef.value, s.target.value) == Ok(t.newPv.value)
      && (w.claim.pv.Some? ==> IsOldPv(s, w.claim.pv))
    case CleaningUp =>
      && s.phase.Swapping? && t == s.(phase := CleaningUp, message := t.message)
      && w.bound.Some? && s.newPv.Some?
      && (w.claim.pv.Some? ==>
            !IsOldPv(s, w.claim.pv) && w.claim.pv.value.body == WithPolicy(s.newPv.value, s.originalPolicy))
    case Completed =>
      && s.phase.CleaningUp? && t == s.(phase := Completed, message := t.message)
      && NoTransferCrs(w.copy) && w.src.zv.None? && Free(w.gate.params, Key(cfg))
    case Aborting =>
      && !s.committed && !Terminal(s.phase)
      && t == s.(phase := Aborting, message := t.message, cancelled := t.cancelled, transfer := t.transfer)
      && (t.transfer == s.transfer || (s.phase.Transferring? && SameAttempt(s.transfer, t.transfer)))
    case Failed =>
      && t == s.(phase := Failed, message := t.message)
      && (s.phase.Pending? || s.phase.TargetSelecting? || s.phase.Committing? || (s.phase.Aborting? && Unwound(cfg, w)))
  }

  predicate Move(cfg: Config, w: World, t: Status) {
    if t.phase == w.st.phase then Stay(cfg, w, t) else Change(cfg, w, t)
  }

  // ------------------------------------------------------ permitted calls

  predicate ClaimPermitted(w: World, a: ClaimAct) {
    var p, pv := w.st.phase, w.claim.pv;
    match a
    case SetPolicy(policy) =>
      || (p.Retaining? && policy == RETAIN)
      || (p.Swapping? && w.bound.Some? && w.st.originalPolicy == Some(policy))
      || (p.Aborting? && w.st.originalPolicy == Some(policy))
    case DeletePv => p.Swapping? && (pv.Some? ==> IsOldPv(w.st, pv))
    case StripPv(_) => p.Swapping? && (pv.Some? ==> IsOldPv(w.st, pv) && pv.value.deleting)
    case CreatePv(body) => p.Swapping? && w.st.newPv == Some(body)
    case ClearTrigger => p.CleaningUp?
    case LabelPvc(_) => true
  }

  predicate SameFin(zv: Option<Zv>, fin: bool) {
    zv.Some? ==> fin == zv.value.fin
  }

  predicate MayDropGuard(w: World) {
    (w.st.phase.CleaningUp? && HandshakeDone(w.st, w.copy)) || (w.st.phase.Aborting? && TargetClean(w.copy))
  }

  predicate SourcePermitted(w: World, a: SourceAct) {
    var p := w.st.phase;
    match a
    // A list that replaces the volume's differs from it in our finalizer alone.
    case PlaceGuard(fin) => p.Guarding? && SameFin(w.src.zv, fin)
    case DropGuard(fin) => MayDropGuard(w) && SameFin(w.src.zv, fin)
    case DeleteSrcZv =>
      || (p.CleaningUp? && NoTransferCrs(w.copy) && HandshakeDone(w.st, w.copy))
      || (p.Aborting? && TargetClean(w.copy) && UserGone(w.claim) && w.st.originalPolicy == Some(DELETE))
    case StripSrcZv(guard) =>
      (p.CleaningUp? || p.Aborting?) && w.nodes.srcLost && (w.src.zv.Some? ==> guard == w.src.zv.value.guard)
  }

  predicate CopyPermitted(w: World, a: CopyAct) {
    var p, s := w.st.phase, w.st;
    match a
    case CreateTgtZv(zv) =>
      && (p.Adopting? || p.Aborting?) && !zv.deleting && zv.state.ZvPending? && !zv.guard && !zv.fin
      && s.target.Some? && s.transfer.Some? && AddressedTo(zv.info, s.target.value)
    case DeleteTgtZv => p.Aborting?
    case StripTgtZv => p.Aborting? && w.nodes.tgtLost
    case CreateBkp(n) => p.Transferring? && CurrentAttempt(s, n)
    case DeleteBkp(n) => (p.Transferring? || p.CleaningUp? || p.Aborting?) && CurrentAttempt(s, n)
    case StripBkp(n) => w.nodes.srcLost
    case CreateRst(n) => p.Transferring? && CurrentAttempt(s, n)
    case DeleteRst(n) => (p.Transferring? || p.CleaningUp? || p.Aborting?) && CurrentAttempt(s, n)
    case StripRst(n) => w.nodes.tgtLost
    case CreateSnap => p.CleaningUp? && NoTransferCrs(w.copy) && !SnapIssued(s)
    case DeleteSnap => p.CleaningUp? && (w.copy.snapCr.Some? ==> w.copy.snapCr.value.fin || w.nodes.tgtLost)
    case StripSnap => p.CleaningUp? && w.nodes.tgtLost
  }

  predicate Permitted(cfg: Config, w: World, a: Act) {
    var p := w.st.phase;
    match a
    case WriteStatus(t) => Move(cfg, w, t)
    case AddFinalizer => true
    case RemoveFinalizer => Terminal(p) || (p.Aborting? && Unwound(cfg, w))
    case LockKey => p.Locking?
    case UnlockKey => (p.CleaningUp? && w.src.zv.None?) || (p.Aborting? && TargetClean(w.copy))
    case ToClaim(c) => ClaimPermitted(w, c)
    case ToSource(s) => SourcePermitted(w, s)
    case ToCopy(x) => CopyPermitted(w, x)
  }

  // ------------------------------------------------------------ invariant

  // The record: which fields each phase has, and the commit flag.
  predicate InvRecord(cfg: Config, s: Status) {
    && (s.committed <==> Committed(s.phase))
    && (s.source.Some? <==> s.pvcRef.Some?)
    && (!s.phase.Pending? && !s.phase.Aborting? && !s.phase.Failed? ==> s.source.Some?)
    && (s.phase.Pending? ==> s == INITIAL_STATUS.(message := s.message))
    && (s.cancelled ==> s.phase.Aborting? || s.phase.Failed?)
    && (s.source.Some? ==> s.source.value.volumeHandle == cfg.handle)
    && (s.pvcRef.Some? ==> s.pvcRef.value.ns == cfg.ns && s.pvcRef.value.name == cfg.pvcName)
    && (Rank(s.phase) < Rank(Quiescing) ==> s.quiescedAt.None?)
    && (s.source.Some? ==> s.source.value.node == cfg.srcName != "")
    && (s.target.Some? ==> s.source.Some?)
    && (s.transfer.Some? ==> s.target.Some?)
    && (s.target.Some? && s.source.Some? ==> s.target.value.newVolumeHandle != s.source.value.volumeHandle)
    && (Copying(s.phase) || HandedOver(s.phase) ==> s.target.Some?)
    && (Received(s.phase) || HandedOver(s.phase) ==> s.transfer.Some?)
    && (s.target.Some? ==> Copying(s.phase) || HandedOver(s.phase) || s.phase.Aborting? || s.phase.Failed?)
    && (s.committed ==> s.oldPv.Some? && s.newPv.Some? && s.source.Some? && s.pvcRef.Some? && s.target.Some? &&
                        Render(s.oldPv.value, s.pvcRef.value, s.target.value) == Ok(s.newPv.value))
  }

  // Identities: uids are handed out once, and who deleted what.
  predicate InvClaim(s: Status, c: Claim) {
    && (c.pv.Some? ==> c.pv.value.uid < c.nextUid)
    && (c.pvc.Some? ==> c.pvc.value.uid < c.nextUid)
    && (s.source.Some? ==> s.source.value.pvUid < c.nextUid)
    && (c.pv.Some? && c.pv.value.deleting ==> c.pv.value.finalizers != {} && (c.pvDeleted || s.committed))
    && (s.source.Some? && !s.committed && !IsOldPv(s, c.pv) ==> c.pvDeleted)
    && (s.pvcRef.Some? && (c.pvc.None? || c.pvc.value.uid != s.pvcRef.value.uid) ==> c.pvcDeleted)
  }

  // The source volume: a ZFSVolume has its dataset; from guard to release it
  // exists, guarded; it goes away only for a reason.
  predicate InvSource(s: Status, v: SourceVol, doomed: bool, failedFrom: Option<Phase>) {
    && (v.zv.Some? ==> v.disk.Whole?)
    && (v.zv.Some? && v.zv.value.guard ==> v.guardPlaced)
    && (v.guardPlaced && !v.guardReleased ==> v.zv.Some? && v.zv.value.guard)
    && (v.guardReleased ==>
          HandedOver(s.phase) || s.phase.Aborting? || (s.phase.Failed? && failedFrom == Some(Aborting)))
    && (v.zv.Some? && v.zv.value.deleting ==> doomed && (v.zv.value.guard || v.zv.value.fin))
    && (v.guardPlaced && !v.disk.Whole? ==> v.guardReleased && doomed)
    && (v.guardPlaced ==> s.source.Some?) && Describes(s.source, v.zv)
    && (s.phase.Retaining? || s.phase.Locking? || UnderLock(s.phase) ==> v.zv.Some? ==> v.zv.value.guard)
  }

  predicate InvEnds(s: Status, bound: Option<Handover>, failedFrom: Option<Phase>) {
    && (HandedOver(s.phase) ==> bound.Some?)
    && (bound.Some? ==> s.committed)
    && (failedFrom.Some? <==> s.phase.Failed?)
    && (failedFrom.Some? ==> failedFrom.value.Pending? || failedFrom.value.TargetSelecting? ||
                             failedFrom.value.Committing? || failedFrom.value.Aborting?)
  }

  // Attempts: every transfer CR carries the recorded attempt number.
  predicate InvAttempts(cfg: Config, s: Status, x: CopyVol) {
    && (forall n <- x.bkps :: CurrentAttempt(s, n))
    && (forall n <- x.rsts :: CurrentAttempt(s, n))
    && (s.transfer.Some? ==> 1 <= s.transfer.value.attempt <= AttemptLimit(cfg))
    && (forall n <- x.shots :: s.transfer.Some? && n <= s.transfer.value.attempt)
    && (s.phase.Completed? ==> NoTransferCrs(x))
  }

  // The target volume: nothing before Adopting; a finished restore left a whole
  // copy of its attempt's snapshot, and it is still there at hand-over.
  predicate InvTarget(s: Status, x: CopyVol, handed: bool) {
    && (Rank(s.phase) <= Rank(Transferring) || s.transfer.None? ==> x.zv.None?)
    && (s.phase.Adopting? ==> x.zv.Some? ==> !x.zv.value.deleting)
    && (x.zv.Some? && s.target.Some? ==> AddressedTo(x.zv.value.info, s.target.value))
    && ((s.phase.Committing? || s.phase.Swapping?) && !handed ==>
          x.zv.Some? && !x.zv.value.deleting && x.zv.value.state.ZvReady?)
    && (s.phase.Transferring? ==>
          forall n <- x.rsts :: x.rsts[n].status.JobDone? ==> n in x.shots && x.disk == Whole(x.shots[n]))
    && (Received(s.phase) ==> forall n <- x.rsts :: x.rsts[n].status.JobDone?)
    && (Received(s.phase) && !handed ==> CopyLanded(s, x))
  }

  // The swap: old PV, nothing, or exactly the stored replacement.
  predicate InvSwap(s: Status, pv: Option<Pv>, handed: bool) {
    && (s.phase.Swapping? && pv.Some? && !IsOldPv(s, pv) ==>
          && Replacement(s, pv.value)
          && (pv.value.bound ==> handed)
          && (!handed ==> pv.value.body == s.newPv.value))
    && (handed ==> !IsOldPv(s, pv))
    && (HandedOver(s.phase) && pv.Some? && s.newPv.Some? ==>
          pv.value.body == WithPolicy(s.newPv.value, s.originalPolicy))
    && ((s.phase.Locking? || UnderLock(s.phase)) && IsOldPv(s, pv) ==> pv.value.body.reclaimPolicy == Some(RETAIN))
  }

  // What both disks held when the replacement was first bound.
  predicate InvHandover(cfg: Config, bound: Option<Handover>, guardPlaced: bool, entered: bool) {
    bound.Some? ==>
      && bound.value.tgt.Whole?
      && (bound.value.entered ==> entered)
      && (guardPlaced ==> bound.value.src.Whole?)
      && (Sealed(cfg, bound.value.entered) && bound.value.src.Whole? ==> bound.value.src == bound.value.tgt)
  }

  // The attach lock.
  predicate InvLock(cfg: Config, s: Status, g: Gate, failedFrom: Option<Phase>) {
    && (g.lockSince.Some? <==> HeldIn(g.params, Key(cfg), cfg.mode))
    && (g.lockSince.None? ==> Free(g.params, Key(cfg)))
    && (g.lockSince.Some? ==> g.lockSince.value <= g.now && s.source.Some?)
    && (UnderLock(s.phase) ==>
          && g.lockSince.Some? && s.lockedAt.Some? && g.lockSince.value <= s.lockedAt.value * 1000 + 999
          && s.lockedAt.value * 1000 <= g.now)
    && (Rank(s.phase) < Rank(Locking) ==> g.lockSince.None?)
    && (s.phase.Failed? ==>
          (g.lockSince.Some? <==> failedFrom == Some(TargetSelecting) || failedFrom == Some(Committing)))
  }

  predicate TolerationsBypass(pod: Pod) {
    exists t <- pod.tolerations :: TolerationBypasses(t)
  }

  // WhenClaimed: pods created under the enforced lock stay off the source
  // while it stays shut.
  predicate InvLate(cfg: Config, s: Status, g: Gate) {
    && g.late <= g.pods.Keys
    && (Rank(s.phase) <= Rank(Locking) && g.lockSince.None? ==> g.late == {})
    && (forall n <- g.pods :: g.pods[n].ns == cfg.ns)
    && (g.lockSince.Some? && !SourceShut(g.srcNode) ==> g.wasOpen)
    && (cfg.mode.WhenClaimed? && g.lockSince.Some? && !g.wasOpen ==>
          forall n <- g.late :: n in g.pods ==>
            !TolerationsBypass(g.pods[n]) && g.pods[n].nodeName != cfg.srcName)
  }

  // The settle period is over.
  predicate PastSettling(p: Phase) {
    p.TargetSelecting? || Copying(p) || HandedOver(p)
  }

  // Quiet from quiesced_at on, as long as the lock is held.
  predicate InvQuiet(cfg: Config, s: Status, g: Gate) {
    && g.lastUse <= g.now
    && (PastSettling(s.phase) ==> s.quiescedAt.Some? && g.now >= (s.quiescedAt.value + cfg.settleSeconds) * 1000)
    && (g.lockSince.Some? && s.quiescedAt.Some? ==>
          && (cfg.mode.WhenIdle? && LockTimely(cfg) ==> QuietLock(cfg, g) && UnusedSince(cfg, g, s.quiescedAt.value))
          && (!g.entered ==> UnusedSince(cfg, g, s.quiescedAt.value)))
  }

  // Every snapshot taken is the sealed source's content as it still is.
  predicate InvFidelity(cfg: Config, s: Status, shots: map<nat, nat>, disk: Disk, handed: bool, entered: bool) {
    && (s.transfer.None? ==> shots == map[])
    && (Sealed(cfg, entered) && Copying(s.phase) && disk.Whole? && !handed ==>
          forall n <- shots :: shots[n] == disk.content)
  }

  // The target-snapshot handshake.
  predicate InvSnapshot(s: Status, x: CopyVol, lost: bool) {
    && (x.snapCr.Some? ==> HandedOver(s.phase) && NoTransferCrs(x))
    && (x.snapCr.Some? && x.snapCr.value.deleting ==> x.snapCr.value.fin)
    && (SnapIssued(s) ==> HandedOver(s.phase) && MayIssue(x, lost))
  }

  predicate InvNodes(cfg: Config, srcNode: Option<Node>, n: Nodes) {
    (!n.tgtUp ==> n.tgtLost) && (if srcNode.Some? then srcNode.value.name == cfg.srcName != "" else n.srcLost)
  }

  // The record and the objects it is about.
  predicate InvObjects(cfg: Config, w: World) {
    && InvRecord(cfg, w.st)
    && InvClaim(w.st, w.claim)
    && InvSource(w.st, w.src, Doomed(w), w.failedFrom)
    && InvEnds(w.st, w.bound, w.failedFrom)
    && InvAttempts(cfg, w.st, w.copy)
    && InvTarget(w.st, w.copy, w.bound.Some?)
    && InvSwap(w.st, w.claim.pv, w.bound.Some?)
  }

  // Who may use them, and what is true of the bytes.
  predicate InvAccess(cfg: Config, w: World) {
    && InvHandover(cfg, w.bound, w.src.guardPlaced, w.gate.entered)
    && InvLock(cfg, w.st, w.gate, w.failedFrom)
    && InvLate(cfg, w.st, w.gate)
    && InvQuiet(cfg, w.st, w.gate)
    && InvFidelity(cfg, w.st, w.copy.shots, w.src.disk, w.bound.Some?, w.gate.entered)
    && InvSnapshot(w.st, w.copy, w.nodes.tgtLost)
    && InvNodes(cfg, w.gate.srcNode, w.nodes)
  }

  predicate Inv(cfg: Config, w: World) {
    InvObjects(cfg, w) && InvAccess(cfg, w)
  }

  // Before the first reconcile.
  predicate Init(cfg: Config, w: World) {
    && w.st == INITIAL_STATUS && w.cr.Some? && w.bound.None? && w.failedFrom.None?
    && w.copy == CopyVol(None, Absent, false, None, map[], map[], map[])
    && (w.src.zv.Some? ==> w.src.disk.Whole? && !w.src.zv.value.guard && !w.src.zv.value.deleting)
    && !w.src.guardPlaced && !w.src.guardReleased && !w.src.outsideDelete
    && (w.claim.pv.Some? ==> w.claim.pv.value.uid < w.claim.nextUid && !w.claim.pv.value.deleting)
    && (w.claim.pvc.Some? ==> w.claim.pvc.value.uid < w.claim.nextUid)
    && Free(w.gate.params, Key(cfg)) && w.gate.lockSince.None? && w.gate.late == {}
    && w.gate.lastUse <= w.gate.now && !w.gate.entered
    && (forall n <- w.gate.pods :: w.gate.pods[n].ns == cfg.ns)
    && InvNodes(cfg, w.gate.srcNode, w.nodes)
  }

  lemma InitEstablishesInv(cfg: Config, w: World)
    requires Init(cfg, w)
    ensures Inv(cfg, w)
  {
  }
}
