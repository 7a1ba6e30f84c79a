// The phase handlers up to the copy (src/controller/state_machine.rs).
module Phases {
  import opened Common
  import opened Manifests
  import opened Pods
  import opened AttachLock
  import opened Status
  import opened World
  import opened Protocol
  import opened Stability
  import opened Runs
  import opened Client
  import opened Steps

  // ---------------------------------------------------------------- pending

  predicate Alphanumeric(ch: char) {
    'a' <= ch <= 'z' || 'A' <= ch <= 'Z' || '0' <= ch <= '9'
  }

  // source_handle_fits_snapshot_label.
  predicate FitsLabel(handle: string) {
    && 0 < |handle| <= 63
    && Alphanumeric(handle[0]) && Alphanumeric(handle[|handle| - 1])
    && forall ch <- handle :: Alphanumeric(ch) || ch == '-' || ch == '_' || ch == '.'
  }

  predicate NamesOurClaim(cfg: Config, body: Manifest) {
    body.claimRef.Some? && body.claimRef.value.ns == Some(cfg.ns) && body.claimRef.value.name == Some(cfg.pvcName)
  }

  // What makes a volume evacuable: a bound, settled claim on one of our CSI
  // volumes, and a reachable source volume that can be copied whole.
  predicate ClaimIsEvacuable(cfg: Config, c: Claim) {
    && c.pv.Some? && c.pv.value.body.csi.Some? && c.pv.value.body.csi.value.driver == ZFS_DRIVER
    && FitsLabel(c.pv.value.body.csi.value.volumeHandle) && NamesOurClaim(cfg, c.pv.value.body)
    && c.pvc.Some? && c.pvc.value.volumeName == Some(cfg.pvName) && !c.pvc.value.resizing
  }

  predicate SourceIsEvacuable(w: World) {
    && w.src.zv.Some? && !w.src.zv.value.marked && Blank(w.src.zv.value.info.snapname)
    && !w.src.snapshots && w.gate.srcNode.Some? && w.src.zv.value.info.capacity > 0
  }

  predicate Evacuable(cfg: Config, w: World) {
    ClaimIsEvacuable(cfg, w.claim) && w.claim.pv.value.body.csi.value.volumeHandle == cfg.handle && SourceIsEvacuable(w)
  }

  // The identities recorded before anything is touched.
  function Recorded(s: Status, cfg: Config, pv: Pv, pvc: Pvc, zv: Zv, host: Node): Status {
    s.(
      pvcRef := Some(PvcRef(cfg.ns, cfg.pvcName, pvc.uid)),
      source := Some(SourceInfo(host.name, zv.info.ownerNodeId, zv.info.poolName, cfg.handle, pv.uid,
                                zv.info.capacity)),
      originalPolicy := pv.body.reclaimPolicy)
  }

  // Only the claim and the volume named in cfg are part of the model.
  function PvcNamed(cfg: Config, c: Claim, ns: string, name: string): Option<Pvc> {
    if ns == cfg.ns && name == cfg.pvcName then c.pvc else None
  }

  function ZvNamed(cfg: Config, v: SourceVol, handle: string): Option<Zv> {
    if handle == cfg.handle then v.zv else None
  }

  // The PV and PVC read are still there, or were deleted by somebody since.
  predicate Identified(w: World, pv: Pv, pvc: Pvc) {
    && pv.uid < w.claim.nextUid
    && (w.claim.pv.None? || w.claim.pv.value.uid != pv.uid ==> w.claim.pvDeleted)
    && (w.claim.pvc.None? || w.claim.pvc.value.uid != pvc.uid ==> w.claim.pvcDeleted)
  }

  lemma Identification(cfg: Config, w1: World, w2: World, w: World)
    requires Inv(cfg, w1) && Inv(cfg, w2) && Stable(cfg, w1, w) && Stable(cfg, w2, w) && w.st.phase.Pending?
    requires w1.claim.pv.Some? && w2.claim.pvc.Some?
    ensures Identified(w, w1.claim.pv.value, w2.claim.pvc.value)
  {
  }

  lemma StaysIdentified(cfg: Config, w: World, t: World, pv: Pv, pvc: Pvc)
    requires Inv(cfg, w) && Stable(cfg, w, t) && w.st.phase.Pending? && Identified(w, pv, pvc)
    ensures Identified(t, pv, pvc)
  {
  }

  // First the PV and the claim it is bound to.
  method InspectClaim(c: Cluster) returns (r: Result<Option<(Pv, Pvc)>>)
    requires c.Valid() && c.w.st.phase.Pending?
    modifies c
    ensures c.Valid() && old(c.log) <= c.log && c.w.st == old(c.w).st
    ensures r.Ok? && r.value.Some? ==>
              var (pv, pvc) := r.value.value;
              Identified(c.w, pv, pvc) && NamesOurClaim(c.cfg, pv.body) && pv.body.csi.Some?
    ensures old(c.script) == [] ==>
              && c.Smoothly() && c.w == old(c.w) && r.Ok?
              && (r.value.Some? <==> ClaimIsEvacuable(c.cfg, c.w.claim))
              && (r.value.Some? ==> r.value.value == (c.w.claim.pv.value, c.w.claim.pvc.value))
  {
    hide Inv, Run, Stable, Onwards, FitsLabel;
    var cfg := c.cfg;
    ghost var w1 := c.w;
    var pv :- c.Get((w: World) => w.claim.pv);
    if pv.None? || pv.value.body.csi.None? { return Ok(None); }
    var csi, claim := pv.value.body.csi.value, pv.value.body.claimRef;
    if csi.driver != ZFS_DRIVER || !FitsLabel(csi.volumeHandle) { return Ok(None); }
    if claim.None? || claim.value.ns.None? || claim.value.name.None? { return Ok(None); }
    ghost var w2 := c.w;
    var pvc :- c.Get((w: World) => PvcNamed(cfg, w.claim, claim.value.ns.value, claim.value.name.value));
    if pvc.None? || pvc.value.volumeName != Some(cfg.pvName) || pvc.value.resizing { return Ok(None); }
    Identification(cfg, w1, w2, c.w);
    return Ok(Some((pv.value, pvc.value)));
  }

  // Then the volume on disk and the node it is on.
  method InspectSource(c: Cluster, handle: string) returns (r: Result<Option<(Zv, Node)>>)
    requires c.Valid()
    modifies c
    ensures c.Valid() && old(c.log) <= c.log && Carried(c.cfg, old(c.w), c.w)
    ensures r.Ok? && r.value.Some? ==>
              var (zv, host) := r.value.value;
              && zv.info.capacity > 0 && host.name == c.cfg.srcName != ""
              && (c.w.src.zv.Some? ==> c.w.src.zv.value.info == zv.info)
    ensures old(c.script) == [] ==>
              && c.Smoothly() && c.w == old(c.w) && r.Ok?
              && (r.value.Some? <==> handle == c.cfg.handle && SourceIsEvacuable(c.w))
              && (r.value.Some? ==> r.value.value == (c.w.src.zv.value, c.w.gate.srcNode.value))
  {
    hide Inv, Run, Stable, Onwards, Blank, Carried;
    ghost var w0 := c.w;
    var zv :- c.Get((w: World) => ZvNamed(c.cfg, w.src, handle));
    ghost var w1 := c.w;
    if zv.None? || zv.value.marked || !Blank(zv.value.info.snapname) { return Ok(None); }
    var snapshots := c.Get((w: World) => w.src.snapshots);
    CarriedTrans(c.cfg, w0, w1, c.w);
    if snapshots.IsFailure() { return snapshots.PropagateFailure(); }
    if snapshots.value { return Ok(None); }
    ghost var w2 := c.w;
    var host := c.Get((w: World) => w.gate.srcNode);
    CarriedTrans(c.cfg, w0, w2, c.w);
    if host.IsFailure() { return host.PropagateFailure(); }
    if host.value.None? || zv.value.info.capacity == 0 { return Ok(None); }
    HostIsNamed(c.cfg, w2);
    SameVolumeStill(c.cfg, w0, c.w);
    return Ok(Some((zv.value, host.value.value)));
  }

  lemma SameVolumeStill(cfg: Config, w: World, t: World)
    requires Carried(cfg, w, t)
    ensures w.src.zv.Some? && t.src.zv.Some? ==> t.src.zv.value.info == w.src.zv.value.info
  {
  }

  lemma HostIsNamed(cfg: Config, w: World)
    requires Inv(cfg, w) && w.gate.srcNode.Some?
    ensures w.gate.srcNode.value.name == cfg.srcName != ""
  {
  }

  lemma MayRecord(cfg: Config, w: World, pv: Pv, pvc: Pvc, zv: Zv, host: Node)
    requires w.st.phase.Pending? && Identified(w, pv, pvc) && zv.info.capacity > 0 && host.name == cfg.srcName != ""
    requires w.src.zv.Some? ==> w.src.zv.value.info == zv.info
    ensures Move(cfg, w, Recorded(w.st, cfg, pv, pvc, zv, host).(phase := Guarding, message := None))
  {
  }

  lemma MayRefuse(cfg: Config, w: World, t: Status)
    requires w.st.phase.Pending? && t == w.st.(phase := Failed, message := t.message)
    ensures Move(cfg, w, t)
  {
  }

  // The evacuation is on: everything read so far goes into the record.
  method RecordStart(c: Cluster, pv: Pv, pvc: Pvc, zv: Zv, host: Node) returns (r: Result<Action>)
    requires c.Valid() && c.w.st.phase.Pending? && Identified(c.w, pv, pvc)
    requires zv.info.capacity > 0 && host.name == c.cfg.srcName != ""
    requires c.w.src.zv.Some? ==> c.w.src.zv.value.info == zv.info
    modifies c
    ensures c.Valid() && old(c.log) <= c.log && (r.Ok? ==> c.w.st.phase.Guarding?)
    ensures ComesBack(r, c.w.st)
    ensures old(c.script) == [] && old(c.w).cr.Some? ==>
              && c.Smoothly() && r.Ok?
              && c.w == Written(old(c.w), Recorded(old(c.w).st, c.cfg, pv, pvc, zv, host)
                                          .(phase := Guarding, message := None))
  {
    hide Inv, Run, Move, Stable, Recorded, Identified, Onwards;
    var st := c.w.st;
    MayRecord(c.cfg, c.w, pv, pvc, zv, host);
    r := Advance(c, Recorded(st, c.cfg, pv, pvc, zv, host), Guarding);
  }

  method InPending(c: Cluster) returns (r: Result<Action>)
    requires c.Valid() && c.w.st.phase.Pending?
    modifies c
    ensures c.Valid() && old(c.log) <= c.log
    ensures ComesBack(r, c.w.st)
    ensures r.Ok? ==> c.w.st.phase.Guarding? || c.w.st.phase.Failed?
    ensures old(c.script) == [] && old(c.w).cr.Some? ==>
              && c.Smoothly() && r.Ok?
              && c.w == PendingStep(c.cfg, old(c.w))
  {
    hide Inv, Run, Move, Stable, ClaimIsEvacuable, SourceIsEvacuable, Recorded, NamesOurClaim, Identified, Onwards;
    var st := c.w.st;
    var claim :- InspectClaim(c);
    MayRefuse(c.cfg, c.w, st.(phase := Failed, message := Some(NotEvacuable)));
    if claim.None? { r := Fail(c, st, NotEvacuable); return; }
    var (pv, pvc) := claim.value;
    ghost var w1 := c.w;
    var source :- InspectSource(c, pv.body.csi.value.volumeHandle);
    MayRefuse(c.cfg, c.w, st.(phase := Failed, message := Some(NotEvacuable)));
    if source.None? { r := Fail(c, st, NotEvacuable); return; }
    var (zv, host) := source.value;
    StaysIdentified(c.cfg, w1, c.w, pv, pvc);
    r := RecordStart(c, pv, pvc, zv, host);
  }

  // It starts exactly when the volume is evacuable, and fails otherwise.
  function PendingStep(cfg: Config, w: World): World {
    Written(w,
            if Evacuable(cfg, w)
            then Recorded(w.st, cfg, w.claim.pv.value, w.claim.pvc.value, w.src.zv.value, w.gate.srcNode.value)
                 .(phase := Guarding, message := None)
            else w.st.(phase := Failed, message := Some(NotEvacuable)))
  }

  // ----------------------------------------------------- guarding to locking

  lemma MayStartRetaining(cfg: Config, w: World, t: Status)
    requires w.st.phase.Guarding? && Guarded(w.src.zv)
    requires t == w.st.(phase := Retaining, message := None)
    ensures Move(cfg, w, t)
  {
  }

  method InGuarding(c: Cluster) returns (r: Result<Action>)
    requires c.Valid() && c.w.st.phase.Guarding?
    modifies c
    ensures c.Valid() && old(c.log) <= c.log
    ensures ComesBack(r, c.w.st)
    ensures r.Ok? ==> c.w.st == old(c.w).st.(phase := Retaining, message := None) && Guarded(c.w.src.zv)
    ensures old(c.script) == [] && old(c.w).cr.Some? ==>
              c.Smoothly() && r.Ok? == MayGuard(old(c.w)) && c.w == GuardingStep(old(c.w))
  {
    hide Inv, Run, Move, Stable, Onwards;
    var st := c.w.st;
    var _ :- SetGuard(c);
    MayStartRetaining(c.cfg, c.w, st.(phase := Retaining, message := None));
    ghost var w1 := Written(c.w, st.(phase := Retaining, message := None));
    r := Advance(c, st, Retaining);
    if r.Ok? { StillGuarded(c.cfg, w1, c.w); }
  }

  // A volume already being deleted takes no new finalizer.
  predicate MayGuard(w: World) {
    w.src.zv.Some? && !w.src.zv.value.guard ==> !w.src.zv.value.deleting
  }

  function GuardingStep(w: World): World {
    if MayGuard(w) then Written(WithGuard(w), w.st.(phase := Retaining, message := None)) else w
  }

  lemma RetainSticks(cfg: Config, w: World, t: World, s: Status)
    requires w.st.phase.Retaining? && w.claim.pv.Some?
    requires Inv(cfg, Effect(cfg, w, ToClaim(SetPolicy(RETAIN))))
    requires Stable(cfg, Effect(cfg, w, ToClaim(SetPolicy(RETAIN))), t)
    requires s == t.st.(phase := Locking, message := None)
    ensures Move(cfg, t, s)
  {
  }

  lemma OldPvIsRetained(cfg: Config, w: World)
    requires Inv(cfg, w)
    ensures w.st.phase.Locking? && IsOldPv(w.st, w.claim.pv) ==> w.claim.pv.value.body.reclaimPolicy == Some(RETAIN)
  {
  }

  // Whatever PV has the name now is set to Retain.
  method InRetaining(c: Cluster) returns (r: Result<Action>)
    requires c.Valid() && c.w.st.phase.Retaining?
    modifies c
    ensures c.Valid() && old(c.log) <= c.log
    ensures ComesBack(r, c.w.st)
    ensures r.Ok? ==> c.w.st == old(c.w).st.(phase := Locking, message := None)
    ensures r.Ok? && IsOldPv(c.w.st, c.w.claim.pv) ==> c.w.claim.pv.value.body.reclaimPolicy == Some(RETAIN)
    ensures old(c.script) == [] && old(c.w).cr.Some? ==>
              c.Smoothly() && r.Ok? == old(c.w).claim.pv.Some? && c.w == RetainingStep(old(c.w))
  {
    hide Inv, Run, Move, Stable, Onwards;
    var st := c.w.st;
    ghost var w0 := c.w;
    var _ :- c.Do(ToClaim(SetPolicy(RETAIN)));
    RetainSticks(c.cfg, w0, c.w, st.(phase := Locking, message := None));
    r := Advance(c, st, Locking);
    OldPvIsRetained(c.cfg, c.w);
  }

  function RetainingStep(w: World): World {
    if w.claim.pv.None? then w
    else w.(claim := ClaimAfter(w.claim, SetPolicy(RETAIN)), st := w.st.(phase := Locking, message := None))
  }

  // The lock was taken no later than now.
  predicate LockedBy(w: World, ms: nat) {
    w.gate.lockSince.Some? && w.gate.lockSince.value <= ms
  }

  lemma LockTaken(cfg: Config, w: World, t: World)
    requires Inv(cfg, w) && Inv(cfg, Effect(cfg, w, LockKey)) && Stable(cfg, Effect(cfg, w, LockKey), t)
    ensures LockedBy(t, t.gate.now) && TakeLock(cfg, w.gate).now == w.gate.now
  {
    if Free(w.gate.params, Key(cfg)) {
      LockMembership(w.gate.params, Key(cfg), cfg.mode, "");
    }
  }

  lemma LockStays(cfg: Config, w: World, t: World, ms: nat)
    requires LockedBy(w, ms) && Stable(cfg, w, t)
    ensures LockedBy(t, ms) && w.gate.now <= t.gate.now
  {
  }

  lemma LockSurvivesLabel(cfg: Config, w: World, t: World, ms: nat)
    requires LockedBy(w, ms) && w.claim.pvc.Some? && Stable(cfg, Effect(cfg, w, ToClaim(LabelPvc(true))), t)
    ensures LockedBy(t, ms) && w.gate.now <= t.gate.now
  {
  }

  lemma MayQuiesce(cfg: Config, w: World, ms: nat, t: Status)
    requires w.st.phase.Locking? && LockedBy(w, ms) && ms <= w.gate.now
    requires t == w.st.(phase := Quiescing, message := None, lockedAt := Some(Stamp(ms)))
    ensures Move(cfg, w, t)
  {
    assert ms <= Stamp(ms) * 1000 + 999;
  }

  // The lock first, then the marker people see.
  method LockAndLabel(c: Cluster) returns (r: Result<()>)
    requires c.Valid() && c.w.st.phase.Locking?
    modifies c
    ensures c.Valid() && c.Continues()
    ensures r.Ok? ==> c.w.st == old(c.w).st && LockedBy(c.w, c.w.gate.now)
    ensures old(c.script) == [] ==>
              && c.Smoothly() && r.Ok? == old(c.w).claim.pvc.Some?
              && c.w == LockedAndLabelled(c.cfg, old(c.w)) && c.w.gate.now == old(c.w).gate.now
  {
    hide Inv, Run, Onwards, StableCopy, StableSnap, StableClaim, StableSource, StableGate, TakeLock, LockedBy,
      ClaimAfter;
    ghost var w0 := c.w;
    var _ :- c.Do(LockKey);
    LockTaken(c.cfg, w0, c.w);
    ghost var w1 := c.w;
    var _ :- c.Do(ToClaim(LabelPvc(true)));
    LockSurvivesLabel(c.cfg, w1, c.w, w1.gate.now);
    LockedLater(c.w, w1.gate.now, c.w.gate.now);
    return Ok(());
  }

  // The lock is taken even when the claim to mark is gone.
  function LockedAndLabelled(cfg: Config, w: World): World {
    var taken := w.(gate := TakeLock(cfg, w.gate));
    if w.claim.pvc.None? then taken else taken.(claim := ClaimAfter(w.claim, LabelPvc(true)))
  }

  // The recorded time is never earlier than the lock itself, to the second.
  method InLocking(c: Cluster) returns (r: Result<Action>)
    requires c.Valid() && c.w.st.phase.Locking?
    modifies c
    ensures c.Valid() && old(c.log) <= c.log
    ensures ComesBack(r, c.w.st)
    ensures r.Ok? ==> c.w.st.phase.Quiescing? && LockedBy(c.w, c.w.st.lockedAt.value * 1000 + 999)
    ensures r.Ok? ==> c.w.st == old(c.w).st.(phase := Quiescing, message := None, lockedAt := c.w.st.lockedAt)
    ensures old(c.script) == [] && old(c.w).cr.Some? ==>
              c.Smoothly() && r.Ok? == old(c.w).claim.pvc.Some? && c.w == LockingStep(c.cfg, old(c.w))
  {
    hide Inv, Run, Move, Onwards, StableCopy, StableSnap, StableClaim, StableSource, StableGate, TakeLock, LockedBy,
      ClaimAfter;
    var st := c.w.st;
    var _ :- LockAndLabel(c);
    ghost var w2 := c.w;
    var now := c.Now();
    LockStays(c.cfg, w2, c.w, now);
    MayQuiesce(c.cfg, c.w, now, st.(phase := Quiescing, message := None, lockedAt := Some(Stamp(now))));
    LockedLater(c.w, now, Stamp(now) * 1000 + 999);
    ghost var w3 := Written(c.w, st.(phase := Quiescing, message := None, lockedAt := Some(Stamp(now))));
    SameLock(c.w, w3, Stamp(now) * 1000 + 999);
    r := Advance(c, st.(lockedAt := Some(Stamp(now))), Quiescing);
    if r.Ok? { LockStays(c.cfg, w3, c.w, Stamp(now) * 1000 + 999); }
  }

  function LockingStep(cfg: Config, w: World): World {
    var taken := LockedAndLabelled(cfg, w);
    if w.claim.pvc.None? then taken
    else taken.(st := w.st.(phase := Quiescing, message := None, lockedAt := Some(Stamp(w.gate.now))))
  }

  lemma LockedLater(w: World, ms: nat, later: nat)
    requires LockedBy(w, ms) && ms <= later
    ensures LockedBy(w, later)
  {
  }

  lemma SameLock(w: World, t: World, ms: nat)
    requires LockedBy(w, ms) && t.gate == w.gate
    ensures LockedBy(t, ms)
  {
  }

  // -------------------------------------------------------------- quiescing

  function RefPods(cfg: Config, pods: map<string, Pod>): (refs: map<string, Pod>)
    ensures refs == map[] <==> !HasRefPods(cfg, pods)
  {
    var refs := map n | n in pods && ReferencesPvc(pods[n], cfg.pvcName) :: pods[n];
    assert HasRefPods(cfg, pods) ==> exists n <- pods :: n in refs;
    refs
  }

  // What the mode tolerates around a copy: no pod object at all, or only
  // never-scheduled ones that the source keeps away.
  predicate MayProceed(cfg: Config, refs: map<string, Pod>, srcNode: Option<Node>) {
    if cfg.mode.WhenIdle? then refs == map[]
    else (forall n <- refs :: !IsScheduled(refs[n])) && (srcNode.Some? ==> NodeRepelsPods(srcNode.value, cfg.taintKey))
  }

  // blocking_pods_message tells bound pods from those never scheduled, by name.
  function NamesOf(refs: map<string, Pod>, scheduled: bool): set<string> {
    set n | n in refs && IsScheduled(refs[n]) == scheduled
  }

  function BlockedBy(cfg: Config, refs: map<string, Pod>): Message {
    var scheduled, waiting := NamesOf(refs, true), NamesOf(refs, false);
    if cfg.mode.WhenIdle? then BlockedByPods(scheduled, waiting)
    else if scheduled != {} then BlockedByPods(scheduled, {})
    else SourceSchedulable(waiting)
  }

  // blocking_reason. The node is read only when it decides.
  method BlockingReason(c: Cluster, refs: map<string, Pod>) returns (r: Result<Option<Message>>)
    requires c.Valid()
    modifies c
    ensures c.Valid() && old(c.log) <= c.log && Carried(c.cfg, old(c.w), c.w)
    ensures r.Ok? ==> (r.value.None? <==> MayProceed(c.cfg, refs, old(c.w).gate.srcNode))
    ensures r.Ok? && r.value.Some? ==> r.value.value == BlockedBy(c.cfg, refs)
    ensures old(c.script) == [] ==> c.Smoothly() && c.w == old(c.w) && r.Ok?
  {
    hide Inv, Run, Stable, Onwards;
    Unmoved(c.cfg, c.w);
    var scheduled, waiting := NamesOf(refs, true), NamesOf(refs, false);
    if c.cfg.mode.WhenIdle? { return Ok(if refs == map[] then None else Some(BlockedByPods(scheduled, waiting))); }
    if scheduled != {} { return Ok(Some(BlockedByPods(scheduled, {}))); }
    assert forall n <- refs :: IsScheduled(refs[n]) ==> n in scheduled;
    var host :- c.Get((w: World) => w.gate.srcNode);
    if host.None? || NodeRepelsPods(host.value, c.cfg.taintKey) { return Ok(None); }
    return Ok(Some(SourceSchedulable(waiting)));
  }

  lemma Unmoved(cfg: Config, w: World)
    requires Inv(cfg, w)
    ensures Carried(cfg, w, w)
  {
    hide Inv, Stable;
    StableRefl(cfg, w);
    CarriedOn(cfg, w, w);
  }

  // Whole seconds from a recorded time; None for none, or one in the future.
  function Elapsed(now: nat, at: Option<nat>): Option<nat> {
    if at.Some? then SecsSince(now, at.value) else None
  }

  // Nobody has got onto the source; or, WhenIdle, the lock is enforced and
  // nobody references the claim.
  predicate IdleAndLocked(cfg: Config, g: Gate) {
    && g.lockSince.Some?
    && (cfg.mode.WhenIdle? && LockTimely(cfg) ==> QuietLock(cfg, g))
    && (!g.entered ==> !InUse(cfg, g.pods))
  }

  predicate GraceOver(now: nat, s: Status) {
    Elapsed(now, s.lockedAt).Some? ==> Elapsed(now, s.lockedAt).value >= LOCK_PROPAGATION_SECONDS
  }

  // Past the grace, a claim found idle is locked down for good.
  lemma GraceMakesQuiet(cfg: Config, w: World, w1: World, t: World, node: Option<Node>)
    requires Inv(cfg, w) && w.st.phase.Quiescing? && Stable(cfg, w, w1) && Stable(cfg, w1, t)
    requires GraceOver(w.gate.now, w.st) && MayProceed(cfg, RefPods(cfg, w1.gate.pods), node)
    ensures IdleAndLocked(cfg, t.gate)
  {
    forall n <- w1.gate.pods ensures !UsesSource(cfg, w1.gate.pods[n]) {
      assert n !in RefPods(cfg, w1.gate.pods) || !IsScheduled(w1.gate.pods[n]);
    }
  }

  lemma StaysIdle(cfg: Config, w: World, t: World)
    requires Inv(cfg, w) && IdleAndLocked(cfg, w.gate) && Stable(cfg, w, t)
    ensures IdleAndLocked(cfg, t.gate) && w.gate.now <= t.gate.now
    ensures (cfg.mode.WhenIdle? && LockTimely(cfg)) || !t.gate.entered ==> t.gate.lastUse <= w.gate.now
  {
  }

  lemma MayUnquiesce(cfg: Config, w: World, t: Status)
    requires w.st.phase.Quiescing? && t == w.st.(quiescedAt := None, message := t.message)
    ensures Move(cfg, w, t)
  {
  }

  lemma MayAnchor(cfg: Config, w: World, ms: nat)
    requires w.st.phase.Quiescing? && IdleAndLocked(cfg, w.gate) && ms <= w.gate.now
    requires (cfg.mode.WhenIdle? && LockTimely(cfg)) || !w.gate.entered ==> w.gate.lastUse <= ms
    ensures Move(cfg, w, w.st.(quiescedAt := Some(Stamp(ms))))
  {
  }

  lemma MaySelect(cfg: Config, w: World, ms: nat)
    requires w.st.phase.Quiescing? && ms <= w.gate.now
    requires Elapsed(ms, w.st.quiescedAt).Some? && Elapsed(ms, w.st.quiescedAt).value >= cfg.settleSeconds
    ensures Move(cfg, w, w.st.(phase := TargetSelecting, message := None))
  {
  }

  // Start the settle period, sit it out, go on.
  method Settle(c: Cluster) returns (r: Result<Action>)
    requires c.Valid() && c.w.st.phase.Quiescing? && IdleAndLocked(c.cfg, c.w.gate)
    modifies c
    ensures c.Valid() && old(c.log) <= c.log
    ensures ComesBack(r, c.w.st)
    ensures r.Ok? ==> c.w.st.phase.Quiescing? || c.w.st == old(c.w).st.(phase := TargetSelecting, message := None)
    ensures old(c.script) == [] && old(c.w).cr.Some? ==> c.Smoothly() && r.Ok? && c.w == Settled(c.cfg, old(c.w))
  {
    hide Inv, Run, Move, Onwards, Stable, IdleAndLocked;
    var st := c.w.st;
    ghost var w0 := c.w;
    var now := c.Now();
    StaysIdle(c.cfg, w0, c.w);
    var settled := Elapsed(now, st.quiescedAt);
    match settled
    case None =>
      MayAnchor(c.cfg, c.w, now);
      var _ :- Write(c, st.(quiescedAt := Some(Stamp(now))));
      return Ok(Requeue(c.cfg.settleSeconds));
    case Some(elapsed) =>
      if elapsed < c.cfg.settleSeconds { return Ok(Requeue(c.cfg.settleSeconds - elapsed)); }
      MaySelect(c.cfg, c.w, now);
      r := Advance(c, st, TargetSelecting);
  }

  function Settled(cfg: Config, w: World): World {
    var settled := Elapsed(w.gate.now, w.st.quiescedAt);
    if settled.None? then Written(w, w.st.(quiescedAt := Some(Stamp(w.gate.now))))
    else if settled.value < cfg.settleSeconds then w
    else Written(w, w.st.(phase := TargetSelecting, message := None))
  }

  // The settle period has run against the recorded time.
  predicate SettledFor(w: World, seconds: nat) {
    w.st.quiescedAt.Some? && w.gate.now >= (w.st.quiescedAt.value + seconds) * 1000
  }

  lemma QuiescedMeansQuiet(cfg: Config, w: World)
    requires Inv(cfg, w) && (w.st.phase.Quiescing? || w.st.phase.TargetSelecting?)
    ensures w.st.phase.TargetSelecting? ==> SettledFor(w, cfg.settleSeconds)
    ensures cfg.mode.WhenIdle? && LockTimely(cfg) && w.st.quiescedAt.Some? ==> QuietLock(cfg, w.gate)
  {
  }

  // Past the grace: seen, the world when the clock was read.
  method SettleUnlessBlocked(c: Cluster, ghost seen: World) returns (r: Result<Action>)
    requires c.Valid() && c.w.st.phase.Quiescing?
    requires Inv(c.cfg, seen) && seen.st == c.w.st && Stable(c.cfg, seen, c.w) && GraceOver(seen.gate.now, seen.st)
    modifies c
    ensures c.Valid() && old(c.log) <= c.log
    ensures ComesBack(r, c.w.st)
    ensures r.Ok? ==> c.w.st.phase.Quiescing? || c.w.st == old(c.w).st.(phase := TargetSelecting, message := None)
    ensures old(c.script) == [] && old(c.w).cr.Some? ==>
              c.Smoothly() && r.Ok? && c.w == SettledOrBlocked(c.cfg, old(c.w))
  {
    hide Inv, Run, Move, Onwards, Stable, MayProceed, Settled, IdleAndLocked, RefPods, BlockedBy, GraceOver;
    ghost var w1 := c.w;
    var pods :- c.Get((w: World) => RefPods(c.cfg, w.gate.pods));
    ghost var w2 := c.w;
    var why :- BlockingReason(c, pods);
    if why.Some? {
      var st := c.w.st.(quiescedAt := None);
      MayUnquiesce(c.cfg, c.w, st.(message := why));
      r := Wait(c, st, why.value, 15);
      return;
    }
    GraceMakesQuiet(c.cfg, seen, w1, c.w, w2.gate.srcNode);
    r := Settle(c);
  }

  // Never past the grace of the lock, never over a blocker, never before the
  // settle period has run against the recorded time.
  method InQuiescing(c: Cluster) returns (r: Result<Action>)
    requires c.Valid() && c.w.st.phase.Quiescing?
    modifies c
    ensures c.Valid() && old(c.log) <= c.log
    ensures ComesBack(r, c.w.st)
    ensures r.Ok? ==> c.w.st.phase.Quiescing? || c.w.st == old(c.w).st.(phase := TargetSelecting, message := None)
    ensures r.Ok? && c.w.st.phase.TargetSelecting? ==> SettledFor(c.w, c.cfg.settleSeconds)
    ensures r.Ok? && c.cfg.mode.WhenIdle? && LockTimely(c.cfg) && c.w.st.quiescedAt.Some? ==>
              QuietLock(c.cfg, c.w.gate)
    ensures old(c.script) == [] && old(c.w).cr.Some? ==>
              && c.Smoothly() && r.Ok? && c.w == Quiesced(c.cfg, old(c.w))
  {
    hide Inv, Run, Move, Onwards, Stable, SettledOrBlocked, SettledFor, QuietLock, LockTimely;
    ghost var w0 := c.w;
    var now := c.Now();
    var sinceLock := Elapsed(now, c.w.st.lockedAt);
    if sinceLock.Some? && sinceLock.value < LOCK_PROPAGATION_SECONDS {
      r := Ok(Requeue(LOCK_PROPAGATION_SECONDS - sinceLock.value));
    } else {
      r := SettleUnlessBlocked(c, w0);
    }
    if r.Ok? { QuiescedMeansQuiet(c.cfg, c.w); }
  }

  // One undisturbed visit: hold during the grace; reset at a blocker (which a
  // repeated message does not even write down); start the settle period;
  // sit it out; go on.
  function Quiesced(cfg: Config, w: World): World {
    if GraceOver(w.gate.now, w.st) then SettledOrBlocked(cfg, w) else w
  }

  function SettledOrBlocked(cfg: Config, w: World): World {
    var refs := RefPods(cfg, w.gate.pods);
    if MayProceed(cfg, refs, w.gate.srcNode) then Settled(cfg, w)
    else Waited(w, w.st.(quiescedAt := None), BlockedBy(cfg, refs))
  }

  // -------------------------------------------------------- target_selecting

  lemma MayTransfer(cfg: Config, w: World, target: TargetInfo)
    requires Inv(cfg, w) && w.st.phase.TargetSelecting?
    requires w.st.source.Some? && target.newVolumeHandle != w.st.source.value.volumeHandle
    ensures Move(cfg, w, w.st.(target := Some(target), phase := Transferring, message := None))
  {
  }

  lemma MayHoldSelection(cfg: Config, w: World, t: Status)
    requires w.st.phase.TargetSelecting?
    requires t == w.st.(message := t.message) || t == w.st.(phase := Failed, message := t.message)
    ensures Move(cfg, w, t)
  {
  }

  // busy: another evacuation is copying off this node; choice: what
  // Selection.SelectTarget found, None for any error; handle: freshly drawn.
  method InTargetSelecting(
    c: Cluster, busy: bool, choice: Option<TargetInfo>, handle: string) returns (r: Result<Action>)
    requires c.Valid() && c.w.st.phase.TargetSelecting?
    requires c.w.st.source.Some? ==> handle != c.w.st.source.value.volumeHandle
    modifies c
    ensures c.Valid() && old(c.log) <= c.log
    ensures ComesBack(r, c.w.st)
    ensures r.Ok? ==> c.w.st.phase.TargetSelecting? || c.w.st.phase.Transferring? || c.w.st.phase.Failed?
    ensures old(c.script) == [] && old(c.w).cr.Some? ==>
              c.Smoothly() && r.Ok? && c.w == SelectingStep(old(c.w), busy, choice, handle)
  {
    hide Inv, Run, Move, Onwards, Stable;
    var st := c.w.st;
    MayHoldSelection(c.cfg, c.w, st.(message := Some(SourceBusy)));
    if busy { r := Wait(c, st, SourceBusy, 60); return; }
    SourceIsRecorded(c.cfg, c.w);
    var pv :- c.Get((w: World) => w.claim.pv);
    if pv.None? {
      MayHoldSelection(c.cfg, c.w, st.(phase := Failed, message := Some(PvVanished)));
      r := Fail(c, st, PvVanished);
      return;
    }
    match choice
    case Some(target) =>
      MayTransfer(c.cfg, c.w, target.(newVolumeHandle := handle));
      r := Advance(c, st.(target := Some(target.(newVolumeHandle := handle))), Transferring);
    case None =>
      MayHoldSelection(c.cfg, c.w, st.(message := Some(NoTargetYet)));
      r := Wait(c, st, NoTargetYet, 60);
  }

  function SelectingStep(w: World, busy: bool, choice: Option<TargetInfo>, handle: string): World {
    if busy then Waited(w, w.st, SourceBusy)
    else if w.claim.pv.None? then Written(w, w.st.(phase := Failed, message := Some(PvVanished)))
    else if choice.None? then Waited(w, w.st, NoTargetYet)
    else
      Written(w, w.st.(target := Some(choice.value.(newVolumeHandle := handle)), phase := Transferring,
                       message := None))
  }

  lemma SourceIsRecorded(cfg: Config, w: World)
    requires Inv(cfg, w) && !w.st.phase.Pending? && !w.st.phase.Aborting? && !w.st.phase.Failed?
    ensures w.st.source.Some? && w.st.pvcRef.Some?
    ensures Copying(w.st.phase) || HandedOver(w.st.phase) ==> w.st.target.Some?
  {
  }

  // ---------------------------------------------------------------- adopting

  // target_zfsvolume: the CR that makes the target's agent take the dataset.
  function TargetZv(info: VolumeInfo, target: TargetInfo): Zv {
    Zv(AdaptToTarget(info, target), false, ZvPending, false, false, false)
  }

  lemma MayLeaveAdopting(cfg: Config, w1: World, w: World, t: Status)
    requires Inv(cfg, w1) && Stable(cfg, w1, w) && w1.st.phase.Adopting? && w.st == w1.st
    requires t == w.st.(message := t.message) || t == w.st.(phase := Aborting, message := t.message) ||
             (w1.copy.zv.Some? && w1.copy.zv.value.state.ZvReady? && t == w.st.(phase := Committing, message := None))
    ensures Move(cfg, w, t)
  {
  }

  lemma MayAdopt(cfg: Config, w: World, info: VolumeInfo)
    requires Inv(cfg, w) && w.st.phase.Adopting? && w.st.target.Some?
    ensures Permitted(cfg, w, ToCopy(CreateTgtZv(TargetZv(info, w.st.target.value))))
  {
  }

  method CreateTarget(c: Cluster) returns (r: Result<()>)
    requires c.Valid() && c.w.st.phase.Adopting?
    modifies c
    ensures c.Valid() && c.Continues() && (r.Ok? ==> c.w.st == old(c.w).st)
    ensures old(c.script) == [] && old(c.w).copy.zv.None? ==>
              c.Smoothly() && r.Ok? == old(c.w).src.zv.Some? && c.w == TargetCreated(old(c.w))
  {
    hide Inv, Run, Onwards, Stable, Permitted, TargetZv;
    SourceIsRecorded(c.cfg, c.w);
    var target := c.w.st.target.value;
    var src :- c.Get((w: World) => w.src.zv);
    if src.None? { return Err(Missing); }
    MayAdopt(c.cfg, c.w, src.value.info);
    r := c.Do(ToCopy(CreateTgtZv(TargetZv(src.value.info, target))));
  }

  function TargetCreated(w: World): World {
    if w.src.zv.None? || w.st.target.None? then w
    else w.(copy := w.copy.(zv := Some(TargetZv(w.src.zv.value.info, w.st.target.value))))
  }

  predicate TargetReady(x: CopyVol) {
    x.zv.Some? && x.zv.value.state.ZvReady? && !x.zv.value.deleting
  }

  lemma CommitsOnlyReady(cfg: Config, w: World)
    requires Inv(cfg, w)
    ensures w.st.phase.Committing? ==> TargetReady(w.copy)
  {
  }

  // What the volume's own state says to do.
  method JudgeTarget(c: Cluster, zv: Zv, ghost seen: World) returns (r: Result<Action>)
    requires c.Valid() && Inv(c.cfg, seen) && Stable(c.cfg, seen, c.w) && seen.st == c.w.st && seen.st.phase.Adopting?
    requires seen.copy.zv == Some(zv)
    modifies c
    ensures c.Valid() && old(c.log) <= c.log
    ensures ComesBack(r, c.w.st)
    ensures r.Ok? ==> c.w.st.phase.Adopting? || c.w.st.phase.Committing? || c.w.st.phase.Aborting?
    ensures old(c.script) == [] && old(c.w).cr.Some? ==> c.Smoothly() && r.Ok? && c.w == Judged(old(c.w), zv)
  {
    hide Inv, Run, Move, Onwards, Stable;
    var st := c.w.st;
    match zv.state
    case ZvReady =>
      MayLeaveAdopting(c.cfg, seen, c.w, st.(phase := Committing, message := None));
      r := Advance(c, st, Committing);
    case ZvFailed =>
      MayLeaveAdopting(c.cfg, seen, c.w, st.(phase := Aborting, message := Some(AdoptionFailed)));
      r := GoAborting(c, st, AdoptionFailed);
    case ZvPending =>
      MayLeaveAdopting(c.cfg, seen, c.w, st.(message := Some(WaitingForAdoption)));
      r := Wait(c, st, WaitingForAdoption, 5);
  }

  method InAdopting(c: Cluster) returns (r: Result<Action>)
    requires c.Valid() && c.w.st.phase.Adopting?
    modifies c
    ensures c.Valid() && old(c.log) <= c.log
    ensures ComesBack(r, c.w.st)
    ensures r.Ok? ==> c.w.st.phase.Adopting? || c.w.st.phase.Committing? || c.w.st.phase.Aborting?
    ensures r.Ok? && c.w.st.phase.Committing? ==> TargetReady(c.w.copy)
    ensures old(c.script) == [] && old(c.w).cr.Some? ==>
              && c.Smoothly() && r.Ok? == (old(c.w).copy.zv.Some? || old(c.w).src.zv.Some?)
              && c.w == Adopted(old(c.w))
  {
    hide Inv, Run, Move, Onwards, Stable, TargetReady, Judged, TargetCreated;
    ghost var w0 := c.w;
    var zv :- c.Get((w: World) => w.copy.zv);
    if zv.None? {
      var _ :- CreateTarget(c);
      return Ok(Requeue(3));
    }
    r := JudgeTarget(c, zv.value, w0);
    CommitsOnlyReady(c.cfg, c.w);
  }

  function Judged(w: World, zv: Zv): World {
    match zv.state
    case ZvReady => Written(w, w.st.(phase := Committing, message := None))
    case ZvFailed => Written(w, w.st.(phase := Aborting, message := Some(AdoptionFailed)))
    case ZvPending => Waited(w, w.st, WaitingForAdoption)
  }

  function Adopted(w: World): World {
    if w.copy.zv.None? then TargetCreated(w) else Judged(w, w.copy.zv.value)
  }

  // ------------------------------------------------------------ cancel_reason

  // Why an evacuation that has started and not committed is called off.
  function CancelCondition(cfg: Config, w: World): Option<CancelReason> {
    if w.st.phase.Pending? then None
    else if w.claim.pv.None? then Some(PvGone)
    else if cfg.trigger.Annotation? && !WantsEvacuation(w.claim.pv.value.body) then Some(AnnotationRemoved)
    else if cfg.trigger.NodeTaint? && w.st.source.Some? && w.gate.srcNode.Some? &&
            !HasEvacuateTaint(w.gate.srcNode.value, cfg.taintKey) then Some(TaintRemoved)
    else if w.st.pvcRef.Some? && w.claim.pvc.None? then Some(PvcGone)
    else if w.st.pvcRef.Some? && w.claim.pvc.value.uid != w.st.pvcRef.value.uid then Some(PvcUidChanged)
    else None
  }

  // A vanished source node never cancels; nothing does before Guarding.
  method Cancelled(c: Cluster) returns (r: Result<Option<CancelReason>>)
    requires c.Valid()
    modifies c
    ensures c.Valid() && old(c.log) <= c.log && Onwards(c.cfg, old(c.w), c.w)
    ensures old(c.Lull()) ==> c.Smoothly() && c.w == old(c.w) && r == Ok(CancelCondition(c.cfg, old(c.w)))
  {
    hide Inv, Run, Move, Onward, Stable, HasEvacuateTaint, WantsEvacuation;
    var st := c.w.st;
    Unmoved(c.cfg, c.w);
    if st.phase.Pending? { return Ok(None); }
    var pv :- c.Get((w: World) => w.claim.pv);
    if pv.None? { return Ok(Some(PvGone)); }
    match c.cfg.trigger {
      case Annotation =>
        if !WantsEvacuation(pv.value.body) { return Ok(Some(AnnotationRemoved)); }
      case NodeTaint =>
        if st.source.Some? {
          var host :- c.Get((w: World) => w.gate.srcNode);
          if host.Some? && !HasEvacuateTaint(host.value, c.cfg.taintKey) { return Ok(Some(TaintRemoved)); }
        }
    }
    if st.pvcRef.Some? {
      var pvc :- c.Get((w: World) => w.claim.pvc);
      if pvc.None? { return Ok(Some(PvcGone)); }
      if pvc.value.uid != st.pvcRef.value.uid { return Ok(Some(PvcUidChanged)); }
    }
    return Ok(None);
  }
}
