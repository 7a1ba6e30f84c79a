// What a handler may still rely on after other parties have run: the facts
// about a state that no event of theirs takes away.
module Stability {
  import opened Common
  import opened Pods
  import opened Admission
  import opened AttachLock
  import opened ParamsUpdate
  import opened Status
  import opened World
  import opened Protocol

  predicate SamePv(c: Claim, d: Claim) {
    c.pv.Some? && d.pv.Some? && c.pv.value.uid == d.pv.value.uid
  }

  predicate SamePvc(c: Claim, d: Claim) {
    c.pvc.Some? && d.pvc.Some? && c.pvc.value.uid == d.pvc.value.uid
  }

  predicate StableClaim(s: Status, c: Claim, d: Claim) {
    && c.nextUid <= d.nextUid && (c.pvDeleted ==> d.pvDeleted) && (c.pvcDeleted ==> d.pvcDeleted)
    // An older PV under the name is the one that was there.
    && (d.pv.Some? && d.pv.value.uid < c.nextUid ==> SamePv(c, d))
    && (SamePv(c, d) ==>
          && d.pv.value.body.reclaimPolicy == c.pv.value.body.reclaimPolicy
          && (c.pv.value.deleting ==> d.pv.value.deleting)
          && (d.pv.value.deleting ==> c.pv.value.deleting || d.pvDeleted))
    && (c.pv.Some? && !SamePv(c, d) ==> d.pvDeleted || c.pv.value.deleting)
    && (c.pvc.Some? && !SamePvc(c, d) ==> d.pvcDeleted)
    // From Committing on nobody else creates or edits a PV of this name.
    && ((s.phase.Committing? || s.committed) && d.pv.Some? ==> SamePv(c, d))
    && (s.committed && d.pv.Some? ==> c.pv.Some? && d.pv.value.body == c.pv.value.body)
  }

  predicate StableSource(v: SourceVol, u: SourceVol) {
    && u.guardPlaced == v.guardPlaced && u.guardReleased == v.guardReleased && (v.outsideDelete ==> u.outsideDelete)
    && (u.zv.Some? ==>
          && v.zv.Some? && u.zv.value.guard == v.zv.value.guard && u.zv.value.fin == v.zv.value.fin
          && u.zv.value.info == v.zv.value.info
          && (v.zv.value.deleting ==> u.zv.value.deleting))
  }

  predicate Resting(x: CopyVol) {
    && x.disk.Whole? && (forall n <- x.rsts :: x.rsts[n].status.JobDone?)
    && (x.zv.Some? ==> !x.zv.value.deleting)
  }

  predicate StableCopy(s: Status, x: CopyVol, y: CopyVol) {
    && (y.zv.Some? ==> x.zv.Some? && (x.zv.value.deleting ==> y.zv.value.deleting))
    && (!s.committed && x.zv.Some? && !x.zv.value.deleting ==> y.zv.Some? && !y.zv.value.deleting)
    && (x.zv.Some? && y.zv.Some? && x.zv.value.state.ZvReady? ==> y.zv.value.state.ZvReady?)
    && y.bkps.Keys <= x.bkps.Keys && y.rsts.Keys <= x.rsts.Keys
    && (forall n <- y.rsts :: x.rsts[n].status.JobDone? ==> y.rsts[n].status.JobDone?)
    && (forall n <- x.shots :: n in y.shots && y.shots[n] == x.shots[n])
    && (!s.committed && Resting(x) ==> Resting(y) && y.disk == x.disk)
  }

  predicate StableSnap(x: CopyVol, y: CopyVol, lost: bool) {
    && (y.snapCr.Some? ==> x.snapCr.Some? && (x.snapCr.value.fin ==> y.snapCr.value.fin) &&
                           (x.snapCr.value.deleting ==> y.snapCr.value.deleting))
    && (NoTransferCrs(x) && x.snapCr.None? && y.snap ==> x.snap)
    && (NoTransferCrs(x) && x.snapCr.Some? && x.snapCr.value.deleting && y.snapCr.None? ==> !y.snap || lost)
  }

  predicate StableGate(cfg: Config, g: Gate, h: Gate) {
    && g.now <= h.now && h.lockSince == g.lockSince && (g.wasOpen ==> h.wasOpen)
    && (forall m :: HeldIn(h.params, Key(cfg), m) <==> HeldIn(g.params, Key(cfg), m))
    && (Free(h.params, Key(cfg)) <==> Free(g.params, Key(cfg)))
    && (cfg.mode.WhenIdle? && QuietLock(cfg, g) ==> QuietLock(cfg, h) && h.lastUse == g.lastUse)
    && (!h.entered ==> !g.entered)
    && (g.lockSince.Some? && !InUse(cfg, g.pods) && !h.entered ==> !InUse(cfg, h.pods) && h.lastUse == g.lastUse)
  }

  predicate Stable(cfg: Config, w: World, t: World) {
    && t.st == w.st && t.failedFrom == w.failedFrom
    && (t.cr.Some? ==>
          && w.cr.Some? && t.cr.value.finalizer == w.cr.value.finalizer
          && (w.cr.value.deleting ==> t.cr.value.deleting))
    && (w.bound.Some? ==> t.bound == w.bound)
    && StableClaim(w.st, w.claim, t.claim)
    && StableSource(w.src, t.src)
    && StableCopy(w.st, w.copy, t.copy)
    && StableSnap(w.copy, t.copy, t.nodes.tgtLost)
    && StableGate(cfg, w.gate, t.gate)
    && (w.nodes.srcLost ==> t.nodes.srcLost) && (w.nodes.tgtLost ==> t.nodes.tgtLost)
  }

  lemma StableRefl(cfg: Config, w: World)
    requires Inv(cfg, w)
    ensures Stable(cfg, w, w)
  {
  }

  lemma StableTrans(cfg: Config, a: World, b: World, c: World)
    requires Inv(cfg, a) && Inv(cfg, b)
    requires Stable(cfg, a, b) && Stable(cfg, b, c)
    ensures Stable(cfg, a, c)
  {
    hide InvRecord, InvSource, InvEnds, InvSwap, InvHandover, InvLock, InvFidelity, InvNodes, InvLate;
  }

  lemma PodCreationStable(cfg: Config, w: World, pod: Pod)
    requires Inv(cfg, w) && GateEnabled(cfg, w, PodCreate(pod))
    ensures StableGate(cfg, w.gate, GateEffect(cfg, w.gate, PodCreate(pod)))
  {
    hide InvRecord, InvClaim, InvSource, InvEnds, InvAttempts, InvTarget, InvSwap, InvHandover, InvFidelity,
      InvSnapshot, InvNodes, InvLate;
    if ReferencesPvc(pod, cfg.pvcName) { PolicySeesWhatTheControllerSees(pod, cfg.pvcName); }
  }

  lemma OtherLockStable(cfg: Config, w: World, op: Op)
    requires Inv(cfg, w) && GateEnabled(cfg, w, OtherLock(op))
    ensures StableGate(cfg, w.gate, GateEffect(cfg, w.gate, OtherLock(op)))
  {
    hide InvRecord, InvClaim, InvSource, InvEnds, InvAttempts, InvTarget, InvSwap, InvHandover, InvFidelity,
      InvSnapshot, InvNodes, InvLate, HasRefPods, Mutated, HeldIn, Free;
    OthersUntouched(w.gate.params, op, Key(cfg));
  }

  lemma GateStable(cfg: Config, w: World, e: GateEvent)
    requires Inv(cfg, w) && GateEnabled(cfg, w, e)
    ensures StableGate(cfg, w.gate, GateEffect(cfg, w.gate, e))
  {
    hide InvRecord, InvClaim, InvSource, InvEnds, InvAttempts, InvTarget, InvSwap, InvHandover, InvFidelity,
      InvSnapshot, InvNodes, InvLate;
    match e {
      case PodCreate(pod) => PodCreationStable(cfg, w, pod);
      case OtherLock(op) => OtherLockStable(cfg, w, op);
      case _ => hide PvcKey;
    }
  }

  lemma GateEventStable(cfg: Config, w: World, e: GateEvent)
    requires Inv(cfg, w) && GateEnabled(cfg, w, e)
    ensures Stable(cfg, w, EnvEffect(cfg, w, OnGate(e)))
  {
    GateStable(cfg, w, e);
  }

  lemma ClaimEventStable(cfg: Config, w: World, e: ClaimEvent)
    requires Inv(cfg, w) && ClaimEnabled(cfg, w, e)
    ensures Stable(cfg, w, EnvEffect(cfg, w, OnClaim(e)))
  {
    hide InvSource, InvEnds, InvAttempts, InvTarget, InvHandover, InvLock, InvLate, InvQuiet, InvFidelity, InvSnapshot,
      InvNodes, HeldIn, Free, PvcKey, HasRefPods, InUse;
  }

  lemma CopyStable(cfg: Config, w: World, e: CopyEvent)
    requires Inv(cfg, w) && CopyEnabled(w, e)
    ensures StableCopy(w.st, w.copy, CopyEffect(w, e))
    ensures StableSnap(w.copy, CopyEffect(w, e), w.nodes.tgtLost)
  {
  }

  lemma CopyEventStable(cfg: Config, w: World, e: CopyEvent)
    requires Inv(cfg, w) && CopyEnabled(w, e)
    ensures Stable(cfg, w, EnvEffect(cfg, w, OnCopy(e)))
  {
    CopyStable(cfg, w, e);
  }

  lemma SourceEventStable(cfg: Config, w: World, e: SourceEvent)
    requires Inv(cfg, w) && SourceEnabled(cfg, w, e)
    ensures Stable(cfg, w, EnvEffect(cfg, w, OnSource(e)))
  {
  }

  lemma OtherEventStable(cfg: Config, w: World, e: EnvEvent)
    requires e.TgtNodeGone? || e.TgtNodeBack? || e.Addresses? || e.UserDeleteCr?
    requires Inv(cfg, w) && Enabled(cfg, w, e)
    ensures Stable(cfg, w, EnvEffect(cfg, w, e))
  {
    hide InvSource, InvEnds, InvTarget, InvSwap, InvHandover, InvLate, InvFidelity;
  }

  lemma EventStable(cfg: Config, w: World, e: EnvEvent)
    requires Inv(cfg, w)
    ensures Stable(cfg, w, EnvStep(cfg, w, e))
  {
    if !Enabled(cfg, w, e) {
      StableRefl(cfg, w);
    } else {
      match e
      case OnGate(g) => GateEventStable(cfg, w, g);
      case OnClaim(c) => ClaimEventStable(cfg, w, c);
      case OnCopy(x) => CopyEventStable(cfg, w, x);
      case OnSource(s) => SourceEventStable(cfg, w, s);
      case _ => OtherEventStable(cfg, w, e);
    }
  }

  // What also survives the controller's own deletes, strips and unlocks:
  // nothing that is gone comes back.
  predicate Onward(cfg: Config, w: World, t: World) {
    && t.st == w.st
    && t.copy.bkps.Keys <= w.copy.bkps.Keys && t.copy.rsts.Keys <= w.copy.rsts.Keys
    && (w.copy.zv.None? ==> t.copy.zv.None?)
    && (w.copy.snapCr.None? ==> t.copy.snapCr.None?)
    && (w.src.zv.None? ==> t.src.zv.None?)
    && (Unguarded(w.src.zv) ==> Unguarded(t.src.zv))
    && (PolicyBack(w.st, w.claim.pv) ==> PolicyBack(t.st, t.claim.pv))
    && (Free(w.gate.params, Key(cfg)) ==> Free(t.gate.params, Key(cfg)))
    && (w.claim.pvDeleted ==> t.claim.pvDeleted) && (w.claim.pvcDeleted ==> t.claim.pvcDeleted)
    && (w.nodes.srcLost ==> t.nodes.srcLost) && (w.nodes.tgtLost ==> t.nodes.tgtLost)
  }

  lemma StableIsOnward(cfg: Config, w: World, t: World)
    requires Inv(cfg, w) && Stable(cfg, w, t)
    ensures Onward(cfg, w, t)
  {
    if IsOldPv(t.st, t.claim.pv) {
      assert SamePv(w.claim, t.claim);
    }
  }

  predicate Removing(w: World, a: Act) {
    match a
    case WriteStatus(_) => false
    case LockKey => false
    case ToClaim(SetPolicy(policy)) => w.st.originalPolicy == Some(policy)
    case ToClaim(CreatePv(_)) => false
    case ToSource(PlaceGuard(_)) => false
    case ToSource(StripSrcZv(guard)) => w.src.zv.Some? ==> guard == w.src.zv.value.guard
    case ToCopy(x) => !x.CreateTgtZv? && !x.CreateBkp? && !x.CreateRst? && !x.CreateSnap?
    case _ => true
  }

  lemma RemovalIsOnward(cfg: Config, w: World, a: Act)
    requires Removing(w, a) && Accepts(w, a)
    ensures Onward(cfg, w, Effect(cfg, w, a))
  {
  }

  lemma OnwardTrans(cfg: Config, a: World, b: World, c: World)
    requires Onward(cfg, a, b) && Onward(cfg, b, c)
    ensures Onward(cfg, a, c)
  {
  }

  // The same, closed under what came before.
  ghost predicate Onwards(cfg: Config, w: World, t: World) {
    t.st == w.st && Onward(cfg, w, t) && forall a: World :: Onward(cfg, a, w) ==> Onward(cfg, a, t)
  }

  lemma OnwardsOn(cfg: Config, w: World, t: World)
    requires Onward(cfg, w, t)
    ensures Onwards(cfg, w, t)
  {
    assert t.st == w.st;
    hide Onward;
    forall a: World | Onward(cfg, a, w) ensures Onward(cfg, a, t) {
      OnwardTrans(cfg, a, w, t);
    }
  }

  lemma OnwardsOnSelf(cfg: Config, w: World)
    ensures Onwards(cfg, w, w)
  {
  }
}
