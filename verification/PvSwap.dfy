// The commit point and the swap of the PV under its name
// (src/controller/pv_swap.rs).
module PvSwap {
  import opened Common
  import opened Manifests
  import opened Pods
  import opened Status
  import opened World
  import opened Protocol
  import opened Stability
  import opened Runs
  import opened Client
  import opened Steps
  import opened Phases

  // --------------------------------------------------------------- committing

  function CommitRecord(st: Status, was: Manifest, next: Manifest): Status {
    st.(oldPv := Some(was), newPv := Some(next), committed := true, phase := Swapping, message := None)
  }

  lemma MayCommit(cfg: Config, w1: World, w: World, next: Manifest)
    requires Inv(cfg, w1) && Stable(cfg, w1, w) && w1.st == w.st && w.st.phase.Committing?
    requires IsOldPv(w1.st, w1.claim.pv) && w.st.pvcRef.Some? && w.st.target.Some?
    requires Render(w1.claim.pv.value.body, w.st.pvcRef.value, w.st.target.value) == Ok(next)
    ensures Move(cfg, w, CommitRecord(w.st, w1.claim.pv.value.body, next))
  {
  }

  lemma MayBackOut(cfg: Config, w: World, msg: Message)
    requires Inv(cfg, w) && w.st.phase.Committing?
    ensures Move(cfg, w, w.st.(message := Some(msg)))
    ensures Move(cfg, w, w.st.(phase := Aborting, message := Some(msg)))
    ensures Move(cfg, w, w.st.(phase := Failed, message := Some(msg)))
  {
  }

  // Pods that must not be there: any under WhenIdle, scheduled ones under
  // WhenClaimed.
  predicate Unexpected(cfg: Config, refs: map<string, Pod>) {
    if cfg.mode.WhenIdle? then refs != map[] else exists n <- refs :: IsScheduled(refs[n])
  }

  // What the commit record holds the swap to: the manifests, and the PV that
  // is still the old one or gone.
  predicate SwapIsOn(w: World) {
    && w.st.phase.Swapping? && w.st.committed
    && w.st.oldPv.Some? && w.st.newPv.Some? && w.st.pvcRef.Some? && w.st.target.Some?
    && Render(w.st.oldPv.value, w.st.pvcRef.value, w.st.target.value) == Ok(w.st.newPv.value)
    && (w.claim.pv.Some? ==> IsOldPv(w.st, w.claim.pv))
  }

  lemma CommitHolds(cfg: Config, w: World, t: Status, later: World)
    requires w.st.phase.Committing? && t.phase.Swapping? && Move(cfg, w, t) && Stable(cfg, Written(w, t), later)
    ensures SwapIsOn(later)
  {
    hide Render;
  }

  // The last cancelable moment. The status write is the commit record.
  method InCommitting(c: Cluster) returns (r: Result<Action>)
    requires c.Valid() && c.w.st.phase.Committing?
    modifies c
    ensures c.Valid() && old(c.log) <= c.log
    ensures ComesBack(r, c.w.st)
    ensures r.Ok? ==> c.w.st.phase.Committing? || SwapIsOn(c.w) || c.w.st.phase.Aborting? || c.w.st.phase.Failed?
    ensures old(c.script) == [] && old(c.w).cr.Some? ==>
              c.Smoothly() && r.Ok? == CommitDecides(c.cfg, old(c.w)) && c.w == CommitStep(c.cfg, old(c.w))
  {
    hide Inv, Run, Move, Onwards, Stable, CommittedUnlessInUse, DecidesUnlessInUse, SwapIsOn;
    var st := c.w.st;
    SourceIsRecorded(c.cfg, c.w);
    var pvc :- c.Get((w: World) => w.claim.pvc);
    if pvc.None? { return Err(Missing); }
    if pvc.value.uid != st.pvcRef.value.uid {
      MayBackOut(c.cfg, c.w, PvcReplaced);
      r := GoAborting(c, st, PvcReplaced);
      return;
    }
    r := CommitUnlessInUse(c);
  }

  method CommitUnlessInUse(c: Cluster) returns (r: Result<Action>)
    requires c.Valid() && c.w.st.phase.Committing?
    modifies c
    ensures c.Valid() && old(c.log) <= c.log
    ensures ComesBack(r, c.w.st)
    ensures r.Ok? ==> c.w.st.phase.Committing? || SwapIsOn(c.w) || c.w.st.phase.Aborting? || c.w.st.phase.Failed?
    ensures old(c.script) == [] && old(c.w).cr.Some? ==>
              && c.Smoothly() && r.Ok? == DecidesUnlessInUse(c.cfg, old(c.w))
              && c.w == CommittedUnlessInUse(c.cfg, old(c.w))
  {
    hide Inv, Run, Move, Onwards, Stable, MayProceed, Unexpected, RefPods, BlockedBy, PvCommitted, PvDecides, SwapIsOn;
    var st := c.w.st;
    var pods :- c.Get((w: World) => RefPods(c.cfg, w.gate.pods));
    if Unexpected(c.cfg, pods) {
      MayBackOut(c.cfg, c.w, PodsAtCommit);
      r := GoAborting(c, st, PodsAtCommit);
      return;
    }
    var why :- BlockingReason(c, pods);
    if why.Some? {
      MayBackOut(c.cfg, c.w, why.value);
      r := Wait(c, st, why.value, 15);
      return;
    }
    r := Commit(c);
  }

  method Commit(c: Cluster) returns (r: Result<Action>)
    requires c.Valid() && c.w.st.phase.Committing?
    modifies c
    ensures c.Valid() && old(c.log) <= c.log
    ensures ComesBack(r, c.w.st)
    ensures r.Ok? ==> SwapIsOn(c.w) || c.w.st.phase.Failed?
    ensures old(c.script) == [] && old(c.w).cr.Some? ==>
              c.Smoothly() && r.Ok? == PvDecides(old(c.w)) && c.w == PvCommitted(old(c.w))
  {
    hide Inv, Run, Move, Onwards, Stable, Render, SwapIsOn;
    var st := c.w.st;
    SourceIsRecorded(c.cfg, c.w);
    ghost var w0 := c.w;
    var pv :- c.Get((w: World) => w.claim.pv);
    if pv.None? { return Err(Missing); }
    MayBackOut(c.cfg, c.w, PvReplaced);
    if pv.value.uid != st.source.value.pvUid { r := Fail(c, st, PvReplaced); return; }
    RenderIsTheReplacement(pv.value.body, st.pvcRef.value, st.target.value, pv.value.body);
    var next :- Render(pv.value.body, st.pvcRef.value, st.target.value);
    MayCommit(c.cfg, w0, c.w, next);
    ghost var w1 := c.w;
    r := Advance(c, st.(oldPv := Some(pv.value.body), newPv := Some(next), committed := true), Swapping);
    if r.Ok? { CommitHolds(c.cfg, w1, CommitRecord(st, pv.value.body, next), c.w); }
  }

  predicate PvDecides(w: World) {
    w.claim.pv.Some? && (IsOldPv(w.st, w.claim.pv) ==> w.claim.pv.value.body.csi.Some?)
  }

  predicate DecidesUnlessInUse(cfg: Config, w: World) {
    var refs := RefPods(cfg, w.gate.pods);
    !Unexpected(cfg, refs) && MayProceed(cfg, refs, w.gate.srcNode) ==> PvDecides(w)
  }

  predicate CommitDecides(cfg: Config, w: World) {
    && w.claim.pvc.Some?
    && (w.st.pvcRef.Some? && w.claim.pvc.value.uid == w.st.pvcRef.value.uid ==> DecidesUnlessInUse(cfg, w))
  }

  function PvCommitted(w: World): World {
    if !PvDecides(w) || w.st.pvcRef.None? || w.st.target.None? then w
    else if !IsOldPv(w.st, w.claim.pv) then Written(w, w.st.(phase := Failed, message := Some(PvReplaced)))
    else Written(w, CommitRecord(w.st, w.claim.pv.value.body,
                              Render(w.claim.pv.value.body, w.st.pvcRef.value, w.st.target.value).value))
  }

  function CommittedUnlessInUse(cfg: Config, w: World): World {
    var refs := RefPods(cfg, w.gate.pods);
    if Unexpected(cfg, refs) then Written(w, w.st.(phase := Aborting, message := Some(PodsAtCommit)))
    else if !MayProceed(cfg, refs, w.gate.srcNode) then Waited(w, w.st, BlockedBy(cfg, refs))
    else PvCommitted(w)
  }

  // Undisturbed, it commits exactly when the recorded claim is still there,
  // no pod is in the way and the PV is still the original one.
  function CommitStep(cfg: Config, w: World): World {
    if w.claim.pvc.None? || w.st.pvcRef.None? then w
    else if w.claim.pvc.value.uid != w.st.pvcRef.value.uid then
      Written(w, w.st.(phase := Aborting, message := Some(PvcReplaced)))
    else CommittedUnlessInUse(cfg, w)
  }

  // ----------------------------------------------------------------- swapping

  lemma MayDeletePv(cfg: Config, w: World, t: World)
    requires Inv(cfg, w) && w.st.phase.Swapping? && IsOldPv(w.st, w.claim.pv) && Stable(cfg, w, t)
    ensures Permitted(cfg, t, ToClaim(DeletePv))
  {
  }

  // What is under the name is the old PV on its way out, or nothing.
  predicate Going(w: World) {
    w.st.phase.Swapping? && (w.claim.pv.Some? ==> IsOldPv(w.st, w.claim.pv) && w.claim.pv.value.deleting)
  }

  lemma DeletedIsGoing(cfg: Config, w: World, t: World)
    requires Permitted(cfg, w, ToClaim(DeletePv)) && w.claim.pv.Some?
    requires Stable(cfg, Effect(cfg, w, ToClaim(DeletePv)), t) && Inv(cfg, Effect(cfg, w, ToClaim(DeletePv)))
    ensures Going(t)
  {
  }

  lemma StaysGoing(cfg: Config, w: World, t: World)
    requires Inv(cfg, w) && Going(w) && Stable(cfg, w, t)
    ensures Going(t)
  {
  }

  // set_finalizers without the two that hold a PV back.
  method StripPvFinalizers(c: Cluster) returns (r: Result<()>)
    requires c.Valid() && Going(c.w)
    modifies c
    ensures c.Valid() && old(c.log) <= c.log && (r.Ok? ==> c.w.st == old(c.w).st)
    ensures old(c.script) == [] ==> c.Smoothly() && r.Ok? && c.w == PvStripped(old(c.w))
  {
    hide Inv, Run, Onwards, Stable;
    ghost var w0 := c.w;
    var pv :- c.Get((w: World) => w.claim.pv);
    StaysGoing(c.cfg, w0, c.w);
    if pv.Some? {
      var left := pv.value.finalizers - {PvProtection, Provisioner};
      if pv.value.finalizers != left {
        var _ :- c.Do(ToClaim(StripPv(left)));
      }
    }
    return Ok(());
  }

  function PvStripped(w: World): World {
    if w.claim.pv.Some? && w.claim.pv.value.finalizers != w.claim.pv.value.finalizers - {PvProtection, Provisioner}
    then w.(claim := ClaimAfter(w.claim, StripPv(w.claim.pv.value.finalizers - {PvProtection, Provisioner})))
    else w
  }

  // The old PV is there: re-verify right before the first delete, then strip.
  method RemoveOldPv(c: Cluster, pv: Pv, ghost seen: World) returns (r: Result<Action>)
    requires c.Valid() && c.w.st.phase.Swapping?
    requires Inv(c.cfg, seen) && seen.st == c.w.st && IsOldPv(seen.st, seen.claim.pv) && seen.claim.pv == Some(pv)
    requires Stable(c.cfg, seen, c.w)
    modifies c
    ensures c.Valid() && old(c.log) <= c.log && (r.Ok? ==> c.w.st.phase.Swapping?)
    ensures ComesBack(r, c.w.st)
    ensures old(c.script) == [] && old(c.w).cr.Some? && seen == old(c.w) ==>
              && c.Smoothly() && r.Ok?
              && c.w == if pv.deleting then PvStripped(seen) else PvDeleted(c.cfg, seen)
  {
    hide Inv, Run, Move, Onwards, Stable, Going, Permitted, PvStripped, PvDeleted;
    if !pv.deleting {
      r := DeleteOldPv(c, seen);
    } else {
      AlreadyGoing(c.cfg, seen);
      StaysGoing(c.cfg, seen, c.w);
      var _ :- StripPvFinalizers(c);
      return Ok(Requeue(2));
    }
  }

  method DeleteOldPv(c: Cluster, ghost seen: World) returns (r: Result<Action>)
    requires c.Valid() && c.w.st.phase.Swapping?
    requires Inv(c.cfg, seen) && seen.st == c.w.st && IsOldPv(seen.st, seen.claim.pv) && Stable(c.cfg, seen, c.w)
    modifies c
    ensures c.Valid() && old(c.log) <= c.log && (r.Ok? ==> c.w.st.phase.Swapping?)
    ensures ComesBack(r, c.w.st)
    ensures old(c.script) == [] && old(c.w).cr.Some? && seen == old(c.w) ==>
              c.Smoothly() && r.Ok? && c.w == PvDeleted(c.cfg, seen)
  {
    hide Inv, Run, Move, Onwards, Stable, MayProceed, Going, Permitted, PvStripped, RefPods, BlockedBy, HasRefPods;
    var pods :- c.Get((w: World) => RefPods(c.cfg, w.gate.pods));
    var why :- BlockingReason(c, pods);
    if why.Some? {
      MayRepeat(c.cfg, c.w, why.value);
      r := Wait(c, c.w.st, why.value, 10);
      return;
    }
    MayDeletePv(c.cfg, seen, c.w);
    var _ :- DeleteAndStrip(c);
    return Ok(Requeue(2));
  }

  method DeleteAndStrip(c: Cluster) returns (r: Result<()>)
    requires c.Valid() && Permitted(c.cfg, c.w, ToClaim(DeletePv))
    modifies c
    ensures c.Valid() && old(c.log) <= c.log && (r.Ok? ==> c.w.st == old(c.w).st)
    ensures old(c.script) == [] && old(c.w).claim.pv.Some? ==>
              && c.Smoothly() && r.Ok?
              && c.w == PvStripped(old(c.w).(claim := ClaimAfter(old(c.w).claim, DeletePv)))
  {
    hide Inv, Run, Onwards, Stable, Going, Permitted, PvStripped, ClaimAfter;
    ghost var w1 := c.w;
    var _ :- c.Do(ToClaim(DeletePv));
    DeletedIsGoing(c.cfg, w1, c.w);
    r := StripPvFinalizers(c);
  }

  lemma MayRepeat(cfg: Config, w: World, msg: Message)
    requires w.st.phase.Swapping?
    ensures Move(cfg, w, w.st.(message := Some(msg)))
  {
  }

  lemma AlreadyGoing(cfg: Config, w: World)
    requires w.st.phase.Swapping? && IsOldPv(w.st, w.claim.pv) && w.claim.pv.value.deleting
    ensures Going(w)
  {
  }

  // A pod in the way of the first delete is waited for.
  function PvDeleted(cfg: Config, w: World): World {
    var refs := RefPods(cfg, w.gate.pods);
    if w.claim.pv.None? then w
    else if !MayProceed(cfg, refs, w.gate.srcNode) then Waited(w, w.st, BlockedBy(cfg, refs))
    else PvStripped(w.(claim := ClaimAfter(w.claim, DeletePv)))
  }

  lemma MayRestore(cfg: Config, w: World, t: World, policy: string)
    requires Inv(cfg, w) && w.st.phase.Swapping? && w.claim.pv.Some? && !IsOldPv(w.st, w.claim.pv)
    requires w.claim.pv.value.bound
    requires Stable(cfg, w, t) && w.st.originalPolicy == Some(policy)
    ensures Permitted(cfg, t, ToClaim(SetPolicy(policy)))
  {
  }

  // Rebound: finish from what was read, with the original policy restored.
  lemma MayFinish(cfg: Config, w: World, t: World)
    requires Inv(cfg, w) && w.st.phase.Swapping? && w.claim.pv.Some? && !IsOldPv(w.st, w.claim.pv)
    requires w.bound.Some? && (w.st.originalPolicy.Some? ==> w.claim.pv.value.body.reclaimPolicy == w.st.originalPolicy)
    requires Stable(cfg, w, t)
    ensures Move(cfg, t, t.st.(phase := CleaningUp, message := None))
  {
  }

  lemma RestoredMayFinish(cfg: Config, w0: World, w: World, t: World, policy: string)
    requires Inv(cfg, w0) && w0.st.phase.Swapping?
    requires w0.claim.pv.Some? && !IsOldPv(w0.st, w0.claim.pv) && w0.claim.pv.value.bound
    requires Stable(cfg, w0, w) && w.claim.pv.Some? && w.st.originalPolicy == Some(policy)
    requires Inv(cfg, Effect(cfg, w, ToClaim(SetPolicy(policy))))
    requires Stable(cfg, Effect(cfg, w, ToClaim(SetPolicy(policy))), t)
    ensures Move(cfg, t, t.st.(phase := CleaningUp, message := None))
  {
    var e := Effect(cfg, w, ToClaim(SetPolicy(policy)));
    assert e.bound.Some?;
    MayFinish(cfg, e, t);
  }

  // The replacement is there and bound: its policy, then the last phase.
  method FinishSwap(c: Cluster, ghost seen: World) returns (r: Result<Action>)
    requires c.Valid() && Inv(c.cfg, seen) && seen.st == c.w.st && seen.st.phase.Swapping? && Stable(c.cfg, seen, c.w)
    requires seen.claim.pv.Some? && !IsOldPv(seen.st, seen.claim.pv) && seen.claim.pv.value.bound
    modifies c
    ensures c.Valid() && old(c.log) <= c.log
    ensures ComesBack(r, c.w.st)
    ensures r.Ok? ==> c.w.st == old(c.w).st.(phase := CleaningUp, message := None)
    ensures old(c.script) == [] && old(c.w).cr.Some? && seen == old(c.w) ==>
              && c.Smoothly() && r.Ok?
              && c.w == Written(PolicyRestored(seen), seen.st.(phase := CleaningUp, message := None))
  {
    hide Inv, Run, Move, Onwards, Stable, Permitted, PolicyRestored;
    var st := c.w.st;
    PolicyOnly(seen);
    if st.originalPolicy.Some? {
      var _ :- GiveBackPolicy(c, st.originalPolicy.value, seen);
    } else {
      BoundIsHandedOver(c.cfg, seen);
      MayFinish(c.cfg, seen, c.w);
    }
    r := Advance(c, st, CleaningUp);
  }

  method GiveBackPolicy(c: Cluster, policy: string, ghost seen: World) returns (r: Result<()>)
    requires c.Valid() && Inv(c.cfg, seen) && seen.st == c.w.st && seen.st.phase.Swapping? && Stable(c.cfg, seen, c.w)
    requires seen.claim.pv.Some? && !IsOldPv(seen.st, seen.claim.pv) && seen.claim.pv.value.bound
    requires seen.st.originalPolicy == Some(policy)
    modifies c
    ensures c.Valid() && old(c.log) <= c.log
    ensures r.Ok? ==> c.w.st == old(c.w).st && Move(c.cfg, c.w, c.w.st.(phase := CleaningUp, message := None))
    ensures old(c.script) == [] && seen == old(c.w) ==> c.Smoothly() && r.Ok? && c.w == PolicyRestored(seen)
  {
    hide Inv, Run, Move, Onwards, Stable, Permitted;
    MayRestore(c.cfg, seen, c.w, policy);
    ghost var w1 := c.w;
    var _ :- c.Do(ToClaim(SetPolicy(policy)));
    RestoredMayFinish(c.cfg, seen, w1, c.w, policy);
    return Ok(());
  }

  lemma PolicyOnly(w: World)
    ensures w.st.originalPolicy.None? ==> PolicyRestored(w) == w
    ensures PolicyRestored(w).cr == w.cr && PolicyRestored(w).st == w.st
  {
  }

  lemma BoundIsHandedOver(cfg: Config, w: World)
    requires Inv(cfg, w) && w.st.phase.Swapping? && w.claim.pv.Some? && !IsOldPv(w.st, w.claim.pv)
    requires w.claim.pv.value.bound
    ensures w.bound.Some?
  {
  }

  function PolicyRestored(w: World): World {
    if w.claim.pv.Some? && w.st.originalPolicy.Some?
    then w.(claim := ClaimAfter(w.claim, SetPolicy(w.st.originalPolicy.value)))
    else w
  }

  lemma MayCreatePv(cfg: Config, w: World)
    requires Inv(cfg, w) && w.st.phase.Swapping?
    ensures w.st.newPv.Some? && w.st.source.Some? && w.st.pvcRef.Some?
    ensures Permitted(cfg, w, ToClaim(CreatePv(w.st.newPv.value)))
  {
  }

  // Is the PV that was read bound to the recorded claim?
  predicate Rebound(st: Status, pv: Pv) {
    && pv.bound && pv.body.claimRef.Some? && st.pvcRef.Some?
    && pv.body.claimRef.value.uid == Some(st.pvcRef.value.uid)
  }

  method InSwapping(c: Cluster) returns (r: Result<Action>)
    requires c.Valid() && c.w.st.phase.Swapping?
    modifies c
    ensures c.Valid() && old(c.log) <= c.log
    ensures ComesBack(r, c.w.st)
    ensures r.Ok? ==> c.w.st.phase.Swapping? || c.w.st.phase.CleaningUp?
    ensures old(c.script) == [] && old(c.w).cr.Some? ==>
              c.Smoothly() && r.Ok? && c.w == SwapStep(c.cfg, old(c.w))
  {
    hide Inv, Run, Move, Onwards, Stable, Permitted, PvStripped, PvDeleted;
    var st := c.w.st;
    MayCreatePv(c.cfg, c.w);
    ghost var w0 := c.w;
    var found :- c.Get((w: World) => w.claim.pv);
    match found
    case None =>
      MayCreatePv(c.cfg, c.w);
      var _ :- c.Do(ToClaim(CreatePv(st.newPv.value)));
      return Ok(Requeue(2));
    case Some(pv) =>
      if pv.uid == st.source.value.pvUid {
        r := RemoveOldPv(c, pv, w0);
      } else if Rebound(st, pv) {
        r := FinishSwap(c, w0);
      } else {
        return Ok(Requeue(3));
      }
  }

  // Undisturbed: the old PV goes (unless a pod stands in the way of its first
  // delete), then nothing becomes the stored replacement, then a rebound
  // replacement gets its policy back; anything else is waited for.
  function SwapStep(cfg: Config, w: World): World {
    match w.claim.pv
    case None => if w.st.newPv.Some? then w.(claim := ClaimAfter(w.claim, CreatePv(w.st.newPv.value))) else w
    case Some(pv) =>
      if IsOldPv(w.st, w.claim.pv) then if pv.deleting then PvStripped(w) else PvDeleted(cfg, w)
      else if Rebound(w.st, pv) then Written(PolicyRestored(w), w.st.(phase := CleaningUp, message := None))
      else w
  }
}
