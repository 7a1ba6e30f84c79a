// The abort path: everything undone in reverse, re-entered until it is
// (src/controller/abort.rs).
module Abort {
  import opened Common
  import opened Manifests
  import opened AttachLock
  import opened Status
  import opened World
  import opened Protocol
  import opened Stability
  import opened Runs
  import opened Client
  import opened Steps
  import opened Phases
  import opened Transfer

  // How far the unwinding has got: the target and the transfer CRs first, then
  // the policy, the lock, the guard.
  predicate Unwinding(cfg: Config, w: World, policy: bool, lock: bool, guard: bool) {
    && w.st.phase.Aborting? && TargetClean(w.copy)
    && (policy ==> PolicyBack(w.st, w.claim.pv))
    && (lock ==> Free(w.gate.params, Key(cfg)))
    && (guard ==> Unguarded(w.src.zv))
  }

  lemma StaysUnwinding(cfg: Config, w: World, t: World, policy: bool, lock: bool, guard: bool)
    requires Unwinding(cfg, w, policy, lock, guard) && Onward(cfg, w, t)
    ensures Unwinding(cfg, t, policy, lock, guard)
  {
    StillAbsent(cfg, w, t, 0);
  }

  // The handler's copy of the status: what is recorded, but for the message.
  predicate View(s: Status, st: Status) {
    st == s.(message := st.message)
  }

  lemma MayMove(cfg: Config, w: World, st: Status, msg: Message)
    requires Inv(cfg, w) && View(w.st, st) && !w.st.committed && !Terminal(w.st.phase)
    ensures Move(cfg, w, st.(phase := Aborting))
    ensures w.st.phase.Aborting? ==> Move(cfg, w, st.(message := Some(msg)))
  {
  }

  // ------------------------------------------------------------ target side

  lemma NothingCopied(cfg: Config, w: World)
    requires Inv(cfg, w) && w.st.phase.Aborting? && w.st.transfer.None?
    ensures Unwinding(cfg, w, false, false, false)
  {
    assert w.copy.bkps.Keys == {} && w.copy.rsts.Keys == {};
  }

  lemma CopiedNoMore(cfg: Config, w: World, t: World)
    requires w.copy.zv.None? && Onward(cfg, w, t) && t.st.phase.Aborting? && NoTransferCrs(t.copy)
    ensures Unwinding(cfg, t, false, false, false)
  {
  }

  lemma MayDestroyTarget(cfg: Config, w: World)
    requires w.st.phase.Aborting?
    ensures Permitted(cfg, w, ToCopy(DeleteTgtZv))
    ensures Accepts(w, ToCopy(DeleteTgtZv)) <==> w.copy.zv.Some?
  {
  }

  lemma MayAdoptOrphan(cfg: Config, w: World, info: VolumeInfo)
    requires w.st.phase.Aborting? && w.st.target.Some? && w.st.transfer.Some?
    ensures Permitted(cfg, w, ToCopy(CreateTgtZv(TargetZv(info, w.st.target.value))))
  {
  }

  lemma TransferHasTarget(cfg: Config, w: World)
    requires Inv(cfg, w) && w.st.transfer.Some?
    ensures w.st.target.Some? && w.st.source.Some? && CurrentAttempt(w.st, w.st.transfer.value.attempt)
  {
  }

  method DestroyTarget(c: Cluster, st: Status, zv: Zv) returns (r: Result<Action>)
    requires c.Valid() && c.w.st.phase.Aborting? && View(c.w.st, st)
    modifies c
    ensures c.Valid() && c.Continues() && (r.Ok? ==> c.w.st.phase.Aborting? && r.value == Requeue(5))
    ensures old(c.script) == [] && old(c.w).cr.Some? && old(c.w).copy.zv == Some(zv) ==>
              c.script == [] && r.Ok? && c.w == Waited(TargetDeleted(c.cfg, old(c.w)), st, DestroyingTarget)
  {
    hide Inv, Run, Move, Onward, Stable, Permitted, Stripped;
    MayDestroyTarget(c.cfg, c.w);
    if !zv.deleting {
      var _ :- c.Do(ToCopy(DeleteTgtZv));
    }
    StrippedKeeps(c.cfg, c.w, TgtZvFin);
    var _ :- StripIfNodeGone(c, TgtZvFin);
    NotCommitted(c.cfg, c.w);
    MayMove(c.cfg, c.w, st, DestroyingTarget);
    r := Wait(c, st, DestroyingTarget, 5);
  }

  lemma NotCommitted(cfg: Config, w: World)
    requires Inv(cfg, w) && w.st.phase.Aborting?
    ensures !w.st.committed
  {
  }

  function TargetDeleted(cfg: Config, w: World): World {
    if w.copy.zv.None? then w
    else Stripped(cfg, if w.copy.zv.value.deleting then w else w.(copy := CopyAfter(w.copy, DeleteTgtZv)), TgtZvFin)
  }

  predicate RestoreDone(w: World) {
    w.st.transfer.Some? && w.st.transfer.value.attempt in w.copy.rsts &&
    w.copy.rsts[w.st.transfer.value.attempt].status.JobDone?
  }

  // A dataset landed and no ZFSVolume stands for it: one is created, so that
  // the agent adopts and destroys it. False when there is no source to model
  // it on.
  method AdoptOrphan(c: Cluster, st: Status) returns (r: Result<Option<Action>>)
    requires c.Valid() && c.w.st.phase.Aborting? && View(c.w.st, st) && c.w.st.transfer.Some?
    modifies c
    ensures c.Valid() && c.Continues() && (r.Ok? ==> c.w.st.phase.Aborting?)
    ensures r.Ok? && r.value.Some? ==> r.value.value == Requeue(5)
    ensures r == Ok(None) ==> Onwards(c.cfg, old(c.w), c.w)
    ensures old(c.script) == [] && old(c.w).cr.Some? ==>
              && c.script == [] && r.Ok? && (r.value.None? <==> old(c.w).src.zv.None?)
              && c.w == if r.value.None? then old(c.w) else Waited(OrphanAdopted(old(c.w)), st, AdoptingOrphan)
  {
    hide Inv, Run, Move, Onward, Stable, Permitted;
    TransferHasTarget(c.cfg, c.w);
    var src :- c.Get((w: World) => w.src.zv);
    if src.None? { return Ok(None); }
    MayAdoptOrphan(c.cfg, c.w, src.value.info);
    var _ :- c.Do(ToCopy(CreateTgtZv(TargetZv(src.value.info, st.target.value))));
    NotCommitted(c.cfg, c.w);
    MayMove(c.cfg, c.w, st, AdoptingOrphan);
    var again :- Wait(c, st, AdoptingOrphan, 5);
    return Ok(Some(again));
  }

  function OrphanAdopted(w: World): World {
    if w.copy.zv.Some? || w.src.zv.None? || w.st.target.None? then w
    else w.(copy := w.copy.(zv := Some(TargetZv(w.src.zv.value.info, w.st.target.value))))
  }

  // Step 2 and 3. None: the target side is clean; otherwise come back.
  method UnwindTarget(c: Cluster, st: Status) returns (r: Result<Option<Action>>)
    requires c.Valid() && c.w.st.phase.Aborting? && View(c.w.st, st)
    modifies c
    ensures c.Valid() && c.Continues() && (r.Ok? ==> c.w.st.phase.Aborting?)
    ensures r.Ok? && r.value.Some? ==> r.value.value == Requeue(5)
    ensures r == Ok(None) ==> Unwinding(c.cfg, c.w, false, false, false) && c.w.st == old(c.w).st
    ensures old(c.script) == [] && old(c.w).cr.Some? ==>
              && c.script == [] && r.Ok? && (r.value.None? <==> TargetIsClean(old(c.w)))
              && c.w == TargetUnwound(c.cfg, old(c.w), st)
  {
    hide Inv, Run, Move, Onward, Stable, Unwinding, NoTransferCrs, CrsCleaned, TargetDeleted, OrphanAdopted;
    if st.transfer.None? { NothingCopied(c.cfg, c.w); QuietlyClean(c.cfg, c.w, 0); return Ok(None); }
    var n := st.transfer.value.attempt;
    TransferHasTarget(c.cfg, c.w);
    ghost var w0 := c.w;
    OnwardsOnSelf(c.cfg, w0);
    QuietlyClean(c.cfg, w0, n);
    var rst :- c.Get((w: World) => JobOf(w.copy, Restore, n));
    var done := rst.Some? && rst.value.status.JobDone?;
    ghost var w1 := c.w;
    OnwardsOnSelf(c.cfg, w1);
    var zv :- c.Get((w: World) => w.copy.zv);
    if zv.Some? {
      var again :- DestroyTarget(c, st, zv.value);
      return Ok(Some(again));
    }
    r := OrphanOrCrs(c, st, n, done, w1);
  }

  // No target volume: a landed dataset first, then the CRs.
  method OrphanOrCrs(c: Cluster, st: Status, n: nat, done: bool, ghost seen: World) returns (r: Result<Option<Action>>)
    requires c.Valid() && c.w.st.phase.Aborting? && View(c.w.st, st) && CurrentAttempt(c.w.st, n)
    requires seen.copy.zv.None? && Onward(c.cfg, seen, c.w)
    modifies c
    ensures c.Valid() && c.Continues() && (r.Ok? ==> c.w.st.phase.Aborting?)
    ensures r.Ok? && r.value.Some? ==> r.value.value == Requeue(5)
    ensures r == Ok(None) ==> Unwinding(c.cfg, c.w, false, false, false) && c.w.st == old(c.w).st
    ensures old(c.script) == [] && old(c.w).cr.Some? ==>
              && c.script == [] && r.Ok?
              && (if done && old(c.w).src.zv.Some?
                  then r.value.Some? && c.w == Waited(OrphanAdopted(old(c.w)), st, AdoptingOrphan)
                  else if NoTransferCrs(old(c.w).copy) then r.value.None? && c.w == old(c.w)
                  else r.value.Some? && c.w == Waited(CrsCleaned(c.cfg, old(c.w), n), st, AbortCleaningCrs))
  {
    hide Inv, Run, Move, Onward, Stable, Unwinding, NoTransferCrs, CrsCleaned, OrphanAdopted;
    ghost var w1 := c.w;
    OnwardsOnSelf(c.cfg, w1);
    if done {
      var again :- AdoptOrphan(c, st);
      if again.Some? { return Ok(again); }
    }
    r := UnwindCrs(c, st, n, seen);
  }

  // Step 3 alone: the volume is gone since seen.
  method UnwindCrs(c: Cluster, st: Status, n: nat, ghost seen: World) returns (r: Result<Option<Action>>)
    requires c.Valid() && c.w.st.phase.Aborting? && View(c.w.st, st) && CurrentAttempt(c.w.st, n)
    requires seen.copy.zv.None? && Onward(c.cfg, seen, c.w)
    modifies c
    ensures c.Valid() && c.Continues() && (r.Ok? ==> c.w.st.phase.Aborting?)
    ensures r.Ok? && r.value.Some? ==> r.value.value == Requeue(5)
    ensures r == Ok(None) ==> Unwinding(c.cfg, c.w, false, false, false) && c.w.st == old(c.w).st
    ensures old(c.script) == [] && old(c.w).cr.Some? ==>
              && c.script == [] && r.Ok? && (r.value.None? <==> NoTransferCrs(old(c.w).copy))
              && c.w == if r.value.None? then old(c.w) else Waited(CrsCleaned(c.cfg, old(c.w), n), st, AbortCleaningCrs)
  {
    hide Inv, Run, Move, Onward, Stable, Unwinding, NoTransferCrs, CrsCleaned;
    OnlyCrsCleaned(c.cfg, c.w, n);
    var gone :- CleanupTransferCrs(c, n);
    if !gone {
      NotCommitted(c.cfg, c.w);
      MayMove(c.cfg, c.w, st, AbortCleaningCrs);
      var again :- Wait(c, st, AbortCleaningCrs, 5);
      return Ok(Some(again));
    }
    CopiedNoMore(c.cfg, seen, c.w);
    return Ok(None);
  }

  predicate TargetIsClean(w: World) {
    w.copy.zv.None? && NoTransferCrs(w.copy)
  }

  lemma QuietlyClean(cfg: Config, w: World, n: nat)
    requires Inv(cfg, w) && w.st.phase.Aborting?
    ensures w.st.transfer.None? ==> TargetIsClean(w)
    ensures CurrentAttempt(w.st, n) && JobOf(w.copy, Restore, n).Some? ==> !NoTransferCrs(w.copy)
  {
    if w.st.transfer.None? { NothingCopied(cfg, w); }
  }

  // Undisturbed: the target volume first; then, while the restore is Done and
  // the source stands, a new one in its place; then the CRs.
  function TargetUnwound(cfg: Config, w: World, st: Status): World {
    if TargetIsClean(w) || w.st.transfer.None? then w
    else if w.copy.zv.Some? then Waited(TargetDeleted(cfg, w), st, DestroyingTarget)
    else if RestoreDone(w) && w.src.zv.Some? then Waited(OrphanAdopted(w), st, AdoptingOrphan)
    else Waited(CrsCleaned(cfg, w, w.st.transfer.value.attempt), st, AbortCleaningCrs)
  }

  // ------------------------------------------------------------ policy, lock

  lemma PolicyIsBack(cfg: Config, w: World, t: World)
    requires Unwinding(cfg, w, false, false, false) && PolicyBack(w.st, w.claim.pv) && Onward(cfg, w, t)
    ensures Unwinding(cfg, t, true, false, false)
  {
    StaysUnwinding(cfg, w, t, false, false, false);
  }

  lemma MaySetBack(cfg: Config, w: World, policy: string)
    requires Unwinding(cfg, w, false, false, false) && w.st.originalPolicy == Some(policy)
    ensures Permitted(cfg, w, ToClaim(SetPolicy(policy)))
    ensures Accepts(w, ToClaim(SetPolicy(policy))) ==>
              var t := Effect(cfg, w, ToClaim(SetPolicy(policy)));
              Onward(cfg, w, t) && Unwinding(cfg, t, false, false, false) && PolicyBack(t.st, t.claim.pv)
  {
    if Accepts(w, ToClaim(SetPolicy(policy))) { RemovalIsOnward(cfg, w, ToClaim(SetPolicy(policy))); }
  }

  // Step 4: on the still original PV.
  method RestorePolicy(c: Cluster) returns (r: Result<()>)
    requires c.Valid() && Unwinding(c.cfg, c.w, false, false, false)
    modifies c
    ensures c.Valid() && c.Continues() && c.w.st == old(c.w).st
    ensures r.Ok? ==> Unwinding(c.cfg, c.w, true, false, false)
    ensures old(c.script) == [] ==> c.script == [] && r.Ok? && c.w == PolicyReset(old(c.w))
  {
    hide Inv, Run, Onward, Stable, Unwinding, Permitted;
    var st := c.w.st;
    ghost var w0 := c.w;
    OnwardsOnSelf(c.cfg, w0);
    if st.source.Some? && st.originalPolicy.Some? {
      var pv :- c.Get((w: World) => w.claim.pv);
      if pv.Some? && pv.value.uid == st.source.value.pvUid {
        StaysUnwinding(c.cfg, w0, c.w, false, false, false);
        MaySetBack(c.cfg, c.w, st.originalPolicy.value);
        ghost var w1 := c.w;
        var _ :- DoOnward(c, ToClaim(SetPolicy(st.originalPolicy.value)));
        PolicyIsBack(c.cfg, Effect(c.cfg, w1, ToClaim(SetPolicy(st.originalPolicy.value))), c.w);
        return Ok(());
      }
    }
    PolicyIsBack(c.cfg, w0, c.w);
    return Ok(());
  }

  function PolicyReset(w: World): World {
    if IsOldPv(w.st, w.claim.pv) && w.st.originalPolicy.Some?
    then w.(claim := ClaimAfter(w.claim, SetPolicy(w.st.originalPolicy.value)))
    else w
  }

  lemma MayUnlock(cfg: Config, w: World)
    requires Unwinding(cfg, w, true, false, false)
    ensures Permitted(cfg, w, UnlockKey) && Accepts(w, UnlockKey)
    ensures Onward(cfg, w, Effect(cfg, w, UnlockKey)) && Unwinding(cfg, Effect(cfg, w, UnlockKey), true, true, false)
  {
    RemovalIsOnward(cfg, w, UnlockKey);
  }

  lemma NeverLocked(cfg: Config, w: World)
    requires Inv(cfg, w) && Unwinding(cfg, w, true, false, false) && w.st.pvcRef.None?
    ensures Unwinding(cfg, w, true, true, false) && w.st.source.None?
  {
  }

  // Step 5.
  method Unlock(c: Cluster) returns (r: Result<()>)
    requires c.Valid() && Unwinding(c.cfg, c.w, true, false, false)
    modifies c
    ensures c.Valid() && c.Continues() && c.w.st == old(c.w).st
    ensures r.Ok? ==> Unwinding(c.cfg, c.w, true, true, false)
    ensures old(c.script) == [] ==> c.script == [] && r.Ok? && c.w == KeyReleased(c.cfg, old(c.w))
  {
    hide Inv, Run, Onward, Stable, Unwinding, Permitted;
    if c.w.st.pvcRef.None? { NeverLocked(c.cfg, c.w); return Ok(()); }
    MayUnlock(c.cfg, c.w);
    ghost var w1 := Effect(c.cfg, c.w, UnlockKey);
    OnwardsOnSelf(c.cfg, w1);
    var _ :- DoOnward(c, UnlockKey);
    var _ :- Unlabel(c);
    StaysUnwinding(c.cfg, w1, c.w, true, true, false);
    return Ok(());
  }

  function KeyReleased(cfg: Config, w: World): World {
    if w.st.pvcRef.Some? then Unlabelled(Effect(cfg, w, UnlockKey)) else w
  }

  // ------------------------------------------------------------- source side

  lemma GoneMeansDeleted(cfg: Config, w: World, t: World)
    requires Inv(cfg, w) && w.st.phase.Aborting? && w.st.source.Some? && Onward(cfg, w, t)
    ensures w.claim.pvc.None? ==> t.claim.pvcDeleted
    ensures w.claim.pv.None? ==> t.claim.pvDeleted
  {
  }

  lemma MayReclaim(cfg: Config, w: World)
    requires Unwinding(cfg, w, true, true, false) && UserGone(w.claim) && w.st.originalPolicy == Some(DELETE)
    ensures Permitted(cfg, w, ToSource(DeleteSrcZv)) && (Accepts(w, ToSource(DeleteSrcZv)) <==> w.src.zv.Some?)
    ensures Accepts(w, ToSource(DeleteSrcZv)) ==> Onward(cfg, w, Effect(cfg, w, ToSource(DeleteSrcZv)))
  {
    if Accepts(w, ToSource(DeleteSrcZv)) { RemovalIsOnward(cfg, w, ToSource(DeleteSrcZv)); }
  }

  // Step 6: a deletion asked for meanwhile is honoured, if claim and PV are
  // both gone and the volume would have been reclaimed.
  method HonorDeletion(c: Cluster) returns (r: Result<()>)
    requires c.Valid() && Unwinding(c.cfg, c.w, true, true, false) && c.w.st.source.Some?
    modifies c
    ensures c.Valid() && c.Continues() && Onwards(c.cfg, old(c.w), c.w)
    ensures OthersSince(old(c.log), c.log) ||
            (old(c.w).claim.pvc.None? && UserGone(c.w.claim) && c.w.st.originalPolicy == Some(DELETE))
    ensures old(c.script) == [] ==> c.script == [] && r.Ok? && c.w == DeletionHonored(c.cfg, old(c.w))
  {
    hide Inv, Run, Onward, Stable, Unwinding, Permitted, Accepts;
    var st := c.w.st;
    ghost var w0 := c.w;
    UnwindingIsAborting(c.cfg, w0);
    OnwardsOnSelf(c.cfg, w0);
    ghost var l0 := c.log;
    var pvcGone :- c.Get((w: World) => w.st.pvcRef.Some? && w.claim.pvc.None?);
    GoneMeansDeleted(c.cfg, w0, c.w);
    ghost var w1, l1 := c.w, c.log;
    var pvGone := c.Get((w: World) => w.claim.pv.None?);
    OthersOnly(l0, l1, c.log);
    if pvGone.IsFailure() { return pvGone.PropagateFailure(); }
    ghost var l2 := c.log;
    r := Reclaim(c, pvcGone && pvGone.value, w0, w1);
    if OthersSince(l2, c.log) { OthersOnly(l0, l2, c.log); }
  }

  lemma UnwindingIsAborting(cfg: Config, w: World)
    requires Unwinding(cfg, w, false, false, false) || Unwinding(cfg, w, true, true, false)
    ensures w.st.phase.Aborting? && MayDropGuard(w)
  {
  }

  method Reclaim(c: Cluster, gone: bool, ghost w0: World, ghost w1: World) returns (r: Result<()>)
    requires c.Valid() && Unwinding(c.cfg, w0, true, true, false) && w0.st.source.Some?
    requires Inv(c.cfg, w0) && Inv(c.cfg, w1) && Onwards(c.cfg, w0, w1) && Onwards(c.cfg, w1, c.w)
    requires gone ==> w0.claim.pvc.None? && w1.claim.pv.None?
    modifies c
    ensures c.Valid() && c.Continues() && Onwards(c.cfg, old(c.w), c.w)
    ensures OthersSince(old(c.log), c.log) || (gone && UserGone(c.w.claim) && c.w.st.originalPolicy == Some(DELETE))
    ensures old(c.script) == [] ==>
              && c.script == [] && r.Ok?
              && c.w == if gone && old(c.w).st.originalPolicy == Some(DELETE) then SourceDeleted(old(c.w)) else old(c.w)
  {
    hide Inv, Run, Onward, Stable, Unwinding, Permitted, Accepts;
    ghost var w2 := c.w;
    OnwardsOnSelf(c.cfg, w2);
    if gone && c.w.st.originalPolicy == Some(DELETE) {
      var zv :- c.Get((w: World) => w.src.zv);
      if zv.Some? && !zv.value.deleting {
        BothGone(c.cfg, w0, w1, c.w);
        MayReclaim(c.cfg, c.w);
        r := DoOnward(c, ToSource(DeleteSrcZv));
        BothGone(c.cfg, w0, w1, c.w);
        return;
      }
    }
    return Ok(());
  }

  lemma BothGone(cfg: Config, w0: World, w1: World, w: World)
    requires Inv(cfg, w0) && Inv(cfg, w1) && Unwinding(cfg, w0, true, true, false) && w0.st.source.Some?
    requires Onward(cfg, w0, w1) && Onward(cfg, w0, w) && Onward(cfg, w1, w)
    requires w0.claim.pvc.None? && w1.claim.pv.None?
    ensures Unwinding(cfg, w, true, true, false) && UserGone(w.claim)
  {
    StaysUnwinding(cfg, w0, w, true, true, false);
    UnwindingIsAborting(cfg, w0);
    SameRecord(cfg, w0, w1);
    GoneMeansDeleted(cfg, w0, w);
    GoneMeansDeleted(cfg, w1, w);
    hide Inv, Onward, Unwinding;
  }

  function SourceDeleted(w: World): World {
    if w.src.zv.Some? && !w.src.zv.value.deleting then w.(src := SourceAfter(w.src, DeleteSrcZv)) else w
  }

  function DeletionHonored(cfg: Config, w: World): World {
    if w.st.pvcRef.Some? && w.claim.pvc.None? && w.claim.pv.None? && w.st.originalPolicy == Some(DELETE)
    then SourceDeleted(w)
    else w
  }

  lemma NeverGuarded(cfg: Config, w: World)
    requires Inv(cfg, w) && Unwinding(cfg, w, true, true, false) && w.st.source.None?
    ensures Unwinding(cfg, w, true, true, true)
  {
  }

  lemma GuardIsOff(cfg: Config, w: World, t: World)
    requires Unwinding(cfg, w, true, true, false) && Onward(cfg, w, t) && Unguarded(t.src.zv)
    ensures Unwinding(cfg, t, true, true, true)
  {
    StaysUnwinding(cfg, w, t, true, true, false);
  }

  // Steps 6 and 7: the guard goes last.
  method ReleaseSource(c: Cluster) returns (r: Result<()>)
    requires c.Valid() && Unwinding(c.cfg, c.w, true, true, false)
    modifies c
    ensures c.Valid() && c.Continues() && c.w.st == old(c.w).st
    ensures r.Ok? ==> Unwinding(c.cfg, c.w, true, true, true)
    ensures old(c.script) == [] ==> c.script == [] && r.Ok? && c.w == SourceReleased(c.cfg, old(c.w))
  {
    hide Inv, Run, Onward, Stable, Unwinding, Permitted, Unguarded, MayDropGuard;
    if c.w.st.source.None? { NeverGuarded(c.cfg, c.w); return Ok(()); }
    ghost var w0 := c.w;
    UnwindingIsAborting(c.cfg, c.w);
    OnwardsOnSelf(c.cfg, w0);
    var _ :- HonorDeletion(c);
    StaysUnwinding(c.cfg, w0, c.w, true, true, false);
    UnwindingIsAborting(c.cfg, c.w);
    var _ :- ClearGuard(c);
    GuardIsOff(c.cfg, w0, c.w);
    ghost var w1 := c.w;
    OnwardsOnSelf(c.cfg, w1);
    var _ :- StripIfNodeGone(c, SrcZvFin);
    StaysUnwinding(c.cfg, w1, c.w, true, true, true);
    return Ok(());
  }

  function SourceReleased(cfg: Config, w: World): World {
    if w.st.source.Some? then Stripped(cfg, WithoutGuard(DeletionHonored(cfg, w)), SrcZvFin) else w
  }

  // ------------------------------------------------------------------- the end

  lemma MayEnd(cfg: Config, w: World, st: Status, msg: Message)
    requires Unwinding(cfg, w, true, true, true) && View(w.st, st)
    ensures Move(cfg, w, st.(phase := Failed, message := Some(msg)))
    ensures Permitted(cfg, w, RemoveFinalizer) && w.st.phase.Aborting?
    ensures Unwound(cfg, Written(w, st.(phase := Failed, message := Some(msg))))
  {
  }

  lemma StaysUnwound(cfg: Config, w: World, t: World)
    requires Unwinding(cfg, w, true, true, true) && Onward(cfg, w, t)
    ensures Unwound(cfg, t)
  {
    StaysUnwinding(cfg, w, t, true, true, true);
    hide Onward, TargetClean, Free, PolicyBack;
  }

  // The outcome is recorded, unless the CR is to disappear with its finalizer.
  method End(c: Cluster, st: Status, deleting: bool) returns (r: Result<Action>)
    requires c.Valid() && Unwinding(c.cfg, c.w, true, true, true) && View(c.w.st, st)
    modifies c
    ensures c.Valid() && c.Continues()
    ensures r.Ok? ==> r.value.AwaitChange? && if deleting then c.w.st.phase.Aborting? else c.w.st.phase.Failed?
    ensures r.Ok? && deleting ==> Unwound(c.cfg, c.w)
    ensures old(c.script) == [] && old(c.w).cr.Some? ==>
              c.script == [] && r.Ok? && c.w == Concluded(old(c.w), st, deleting)
  {
    hide Inv, Run, Onward, Stable, Unwinding, Permitted, Move, Unwound;
    var msg := if st.message.Some? then st.message.value else EvacuationAborted;
    MayEnd(c.cfg, c.w, st, msg);
    if deleting {
      ghost var w0 := c.w;
      var _ :- RemoveEvacFinalizer(c);
      StaysUnwound(c.cfg, w0, c.w);
      return Ok(AwaitChange);
    }
    r := Fail(c, st, msg);
  }

  function Concluded(w: World, st: Status, deleting: bool): World {
    var msg := if st.message.Some? then st.message.value else EvacuationAborted;
    if deleting then Released(w) else Written(w, st.(phase := Failed, message := Some(msg)))
  }

  // Everything after the target side, in one undisturbed go.
  function SourceUnwound(cfg: Config, w: World): World {
    SourceReleased(cfg, KeyReleased(cfg, PolicyReset(w)))
  }

  method UnwindSource(c: Cluster) returns (r: Result<()>)
    requires c.Valid() && Unwinding(c.cfg, c.w, false, false, false)
    modifies c
    ensures c.Valid() && c.Continues() && c.w.st == old(c.w).st
    ensures r.Ok? ==> Unwinding(c.cfg, c.w, true, true, true)
    ensures old(c.script) == [] ==> c.script == [] && r.Ok? && c.w == SourceUnwound(c.cfg, old(c.w))
  {
    hide Inv, Run, Onward, Stable, Unwinding, PolicyReset, KeyReleased, SourceReleased;
    var _ :- RestorePolicy(c);
    var _ :- Unlock(c);
    var _ :- ReleaseSource(c);
    return Ok(());
  }

  lemma SourceUnwoundKeepsCr(cfg: Config, w: World)
    ensures SourceUnwound(cfg, w).cr == w.cr && SourceUnwound(cfg, w).st == w.st
  {
    StrippedKeeps(cfg, WithoutGuard(DeletionHonored(cfg, KeyReleased(cfg, PolicyReset(w)))), SrcZvFin);
  }

  // The phase is recorded before anything is undone. When that fails the
  // caller is told at once, and a relay goes on running.
  method RecordAborting(c: Cluster, st0: Status) returns (r: Result<()>)
    requires c.Valid() && !c.w.st.committed && !Terminal(c.w.st.phase) && View(c.w.st, st0)
    modifies c
    ensures c.Valid() && c.Continues()
    ensures r.Ok? ==> c.w.st.phase.Aborting? && View(c.w.st, st0.(phase := Aborting))
    ensures c.w.st == old(c.w).st || c.w.st == st0.(phase := Aborting)
    ensures r != Err(Crashed) && old(c.relay).Some? ==> c.relay.Some?
    ensures old(c.w).st.phase.Aborting? ==> r.Ok?
    ensures old(c.script) == [] && old(c.w).cr.Some? ==>
              && c.script == [] && r.Ok?
              && c.w == if st0.phase.Aborting? then old(c.w) else Written(old(c.w), st0.(phase := Aborting))
  {
    hide Inv, Run, Onward, Stable, Move;
    if st0.phase.Aborting? { return Ok(()); }
    MayMove(c.cfg, c.w, st0, DeletedBeforeCommit);
    r := Write(c, st0.(phase := Aborting));
  }

  // st carries the message the caller set. Told that the phase is recorded,
  // it stops the relay before anything else; not told so, it does nothing
  // more, and only the process's death stops the relay.
  method RunAbort(c: Cluster, st0: Status, deleting: bool) returns (r: Result<Action>, ghost told: bool)
    requires c.Valid() && !c.w.st.committed && !Terminal(c.w.st.phase) && View(c.w.st, st0)
    modifies c
    ensures c.Valid() && c.Continues()
    ensures r.Ok? || old(c.w).st.phase.Aborting? ==> told
    ensures told ==> c.relay.None?
    ensures !told ==>
              && (c.w.st == old(c.w).st || c.w.st == st0.(phase := Aborting))
              && (r != Err(Crashed) && old(c.relay).Some? ==> c.relay.Some?)
    ensures r.Ok? && r.value.AwaitChange? ==> if deleting then Unwound(c.cfg, c.w) else c.w.st.phase.Failed?
    ensures r.Ok? ==> c.w.st.phase.Aborting? || (c.w.st.phase.Failed? && !deleting)
    ensures old(c.script) == [] && old(c.w).cr.Some? ==>
              c.script == [] && r.Ok? && c.w == AbortStep(c.cfg, old(c.w), st0, deleting)
  {
    hide Inv, Run, Onward, Stable, Unwinding, Move, TargetUnwound, SourceUnwound, TargetIsClean, Concluded, Unwound;
    var done := RecordAborting(c, st0);
    told := done.Ok?;
    if done.Err? { return Err(done.fault), told; }
    c.DropRelay();
    r := Unwind(c, st0.(phase := Aborting), deleting);
  }

  method Unwind(c: Cluster, st: Status, deleting: bool) returns (r: Result<Action>)
    requires c.Valid() && c.w.st.phase.Aborting? && View(c.w.st, st)
    modifies c
    ensures c.Valid() && c.Continues()
    ensures r.Ok? && r.value.AwaitChange? ==> if deleting then Unwound(c.cfg, c.w) else c.w.st.phase.Failed?
    ensures r.Ok? ==> c.w.st.phase.Aborting? || (c.w.st.phase.Failed? && !deleting)
    ensures old(c.script) == [] && old(c.w).cr.Some? ==>
              c.script == [] && r.Ok? && c.w == Unwinds(c.cfg, old(c.w), st, deleting)
  {
    hide Inv, Run, Onward, Stable, Unwinding, Move, TargetUnwound, SourceUnwound, TargetIsClean, Concluded, Unwound;
    CleanStays(c.cfg, c.w, st);
    var again :- UnwindTarget(c, st);
    if again.Some? { return Ok(again.value); }
    SourceUnwoundKeepsCr(c.cfg, c.w);
    var _ :- UnwindSource(c);
    r := End(c, st, deleting);
  }

  lemma CleanStays(cfg: Config, w: World, st: Status)
    ensures TargetIsClean(w) ==> TargetUnwound(cfg, w, st) == w
  {
  }

  function Unwinds(cfg: Config, w: World, st: Status, deleting: bool): World {
    if TargetIsClean(w) then Concluded(SourceUnwound(cfg, w), st, deleting) else TargetUnwound(cfg, w, st)
  }

  function AbortStep(cfg: Config, w: World, st0: Status, deleting: bool): World {
    var st := st0.(phase := Aborting);
    Unwinds(cfg, if st0.phase.Aborting? then w else Written(w, st), st, deleting)
  }

  // ------------------------------------------------------- does it ever end?

  // The node agents carry out what was asked of them.
  function CaughtUp(cfg: Config, w: World, n: nat): World {
    EnvStep(cfg, EnvStep(cfg, EnvStep(cfg, w, OnCopy(TgtDestroy)), OnCopy(BkpGone(n))), OnCopy(RstGone(n)))
  }

  function CaughtUpVol(x: CopyVol, n: nat): CopyVol {
    var y := if x.zv.Some? && x.zv.value.deleting then x.(zv := None, disk := Absent, snap := false) else x;
    y.(bkps := if n in y.bkps && y.bkps[n].deleting then y.bkps - {n} else y.bkps,
       rsts := if n in y.rsts && y.rsts[n].deleting then y.rsts - {n} else y.rsts)
  }

  lemma CatchingUp(cfg: Config, w: World, n: nat)
    ensures CaughtUp(cfg, w, n) == w.(copy := CaughtUpVol(w.copy, n))
  {
  }

  lemma DeletingTarget(cfg: Config, w: World)
    ensures var t := TargetDeleted(cfg, w);
            && t == w.(copy := w.copy.(zv := t.copy.zv))
            && (t.copy.zv.Some? ==> t.copy.zv.value.deleting)
  {
  }

  // An undisturbed visit, and the agents after it.
  function Turn(cfg: Config, w: World): World {
    CaughtUp(cfg, AbortStep(cfg, w, w.st, false), Attempt(w.st))
  }

  lemma TurnIs(cfg: Config, w: World)
    requires w.st.phase.Aborting?
    ensures var t := Unwinds(cfg, w, w.st, false);
            Turn(cfg, w) == t.(copy := CaughtUpVol(t.copy, Attempt(w.st)))
  {
    hide Unwinds, CaughtUp, CaughtUpVol;
    CatchingUp(cfg, AbortStep(cfg, w, w.st, false), Attempt(w.st));
  }

  predicate RestoreStands(w: World) {
    w.st.phase.Aborting? && RestoreDone(w) && w.src.zv.Some? && !w.copy.rsts[w.st.transfer.value.attempt].deleting
  }

  predicate Unblocked(w: World) {
    !RestoreDone(w) || w.src.zv.None?
  }

  lemma TurnDestroys(cfg: Config, w: World)
    requires w.st.phase.Aborting? && w.copy.zv.Some? && w.st.transfer.Some?
    ensures var (t, n) := (Turn(cfg, w), w.st.transfer.value.attempt);
            && t == w.(st := t.st, copy := t.copy) && View(w.st, t.st) && t.copy.zv.None?
            && (Unblocked(w) || !RestoreStands(w) ==> Unblocked(t)) && (RestoreStands(w) ==> RestoreStands(t))
  {
    TurnIs(cfg, w);
    DeletingTarget(cfg, w);
    hide Turn, TargetDeleted, SourceUnwound, CrsCleaned, OrphanAdopted;
  }

  // Not while the restore is Done and the source volume stands: every other
  // visit puts back the target volume that the one before had destroyed.
  lemma DoneRestoreNeverEnds(cfg: Config, w: World)
    requires RestoreStands(w) && w.st.target.Some?
    ensures RestoreStands(Turn(cfg, w))
    ensures Turn(cfg, w).copy.zv.Some? <==> w.copy.zv.None?
  {
    if w.copy.zv.Some? {
      TurnDestroys(cfg, w);
    } else {
      TurnIs(cfg, w);
      hide Turn, TargetDeleted, SourceUnwound, CrsCleaned;
    }
  }

  lemma StandsWithTarget(cfg: Config, w: World)
    requires Inv(cfg, w) && RestoreStands(w)
    ensures w.st.target.Some? && !w.st.committed && Turn(cfg, w).cr == w.cr
  {
    TransferHasTarget(cfg, w);
    TurnKeepsCr(cfg, w);
  }

  // So no number of visits gets there.
  method StandsOn(c: Cluster, turns: nat)
    requires c.Valid() && RestoreStands(c.w) && c.w.cr.Some? && c.script == []
    modifies c
    ensures c.Valid() && old(c.log) <= c.log && c.script == []
    ensures RestoreStands(c.w) && (c.w.copy.zv.Some? <==> (old(c.w).copy.zv.Some? <==> turns % 2 == 0))
  {
    hide Inv, Run, AbortStep, CaughtUp, RestoreDone, RestoreStands;
    for i := 0 to turns
      invariant c.Valid() && old(c.log) <= c.log && c.script == [] && c.w.cr.Some? && RestoreStands(c.w)
      invariant c.w.copy.zv.Some? <==> (old(c.w).copy.zv.Some? <==> i % 2 == 0)
    {
      StandsWithTarget(c.cfg, c.w);
      StandsInAborting(c.w);
      DoneRestoreNeverEnds(c.cfg, c.w);
      var n := Attempt(c.w.st);
      var _, _ := RunAbort(c, c.w.st, false);
      AgentsCatchUp(c, n);
    }
  }

  lemma StandsInAborting(w: World)
    requires RestoreStands(w)
    ensures w.st.phase.Aborting?
  {
  }

  lemma CleaningJob(cfg: Config, w: World, side: Side, n: nat)
    ensures var t := JobCleaned(cfg, w, side, n);
            && t == w.(copy := w.copy.(bkps := t.copy.bkps, rsts := t.copy.rsts))
            && t.copy.bkps.Keys <= w.copy.bkps.Keys && t.copy.rsts.Keys <= w.copy.rsts.Keys
            && (side.Backup? ==> t.copy.rsts == w.copy.rsts && (n in t.copy.bkps ==> t.copy.bkps[n].deleting))
            && (side.Restore? ==> t.copy.bkps == w.copy.bkps && (n in t.copy.rsts ==> t.copy.rsts[n].deleting))
  {
    if JobOf(w.copy, side, n).Some? && JobOf(w.copy, side, n).value.deleting { StrippingJob(cfg, w, side, n); }
    hide Stripped;
  }

  lemma StrippingJob(cfg: Config, w: World, side: Side, n: nat)
    requires JobOf(w.copy, side, n).Some? ==> JobOf(w.copy, side, n).value.deleting
    ensures var t := Stripped(cfg, w, FinOf(side, n));
            && t == w.(copy := w.copy.(bkps := t.copy.bkps, rsts := t.copy.rsts))
            && t.copy.bkps.Keys <= w.copy.bkps.Keys && t.copy.rsts.Keys <= w.copy.rsts.Keys
            && (side.Backup? ==> t.copy.rsts == w.copy.rsts && (n in t.copy.bkps ==> t.copy.bkps[n].deleting))
            && (side.Restore? ==> t.copy.bkps == w.copy.bkps && (n in t.copy.rsts ==> t.copy.rsts[n].deleting))
  {
  }

  lemma OnlyRecorded(cfg: Config, w: World, n: nat)
    requires Inv(cfg, w) && CurrentAttempt(w.st, n)
    ensures w.copy.bkps.Keys <= {n} && w.copy.rsts.Keys <= {n}
  {
  }

  lemma CleaningCrs(cfg: Config, w: World, n: nat)
    requires Inv(cfg, w) && CurrentAttempt(w.st, n)
    ensures var t := CrsCleaned(cfg, w, n);
            && t == w.(copy := w.copy.(bkps := t.copy.bkps, rsts := t.copy.rsts))
            && (forall k <- t.copy.bkps :: k == n && t.copy.bkps[k].deleting)
            && (forall k <- t.copy.rsts :: k == n && t.copy.rsts[k].deleting)
  {
    hide Inv, JobCleaned;
    OnlyRecorded(cfg, w, n);
    CleaningJob(cfg, w, Backup, n);
    CleaningJob(cfg, JobCleaned(cfg, w, Backup, n), Restore, n);
  }

  lemma AllGone(x: CopyVol, n: nat)
    requires forall k <- x.bkps :: k == n && x.bkps[k].deleting
    requires forall k <- x.rsts :: k == n && x.rsts[k].deleting
    ensures NoTransferCrs(CaughtUpVol(x, n)) && (x.zv.None? ==> CaughtUpVol(x, n).zv.None?)
  {
    var y := CaughtUpVol(x, n);
    assert y.bkps == map[] && y.rsts == map[];
  }

  // With the target volume gone and nothing to put it back: the CRs go in one
  // visit, and the next one is the last.
  lemma TurnCleans(cfg: Config, w: World)
    requires Inv(cfg, w) && w.st.phase.Aborting? && w.copy.zv.None? && Unblocked(w)
    ensures var t := Turn(cfg, w);
            if NoTransferCrs(w.copy) then t.st.phase.Failed? && t.failedFrom == Some(Aborting)
            else t.st.phase.Aborting? && TargetIsClean(t)
  {
    hide CrsCleaned, SourceUnwound, TargetDeleted, Inv, Turn;
    QuietlyClean(cfg, w, Attempt(w.st));
    TurnIs(cfg, w);
    if NoTransferCrs(w.copy) {
      SourceUnwoundKeepsCr(cfg, w);
    } else {
      CleaningCrs(cfg, w, Attempt(w.st));
      AllGone(CrsCleaned(cfg, w, Attempt(w.st)).copy, Attempt(w.st));
    }
  }

  method AgentsCatchUp(c: Cluster, n: nat)
    requires c.Valid()
    modifies c
    ensures c.Valid() && old(c.log) <= c.log && c.script == old(c.script) && c.w == CaughtUp(c.cfg, old(c.w), n)
  {
    hide Inv, Run, EnvStep;
    c.Happen(OnCopy(TgtDestroy));
    c.Happen(OnCopy(BkpGone(n)));
    c.Happen(OnCopy(RstGone(n)));
  }

  lemma TurnMoves(cfg: Config, w: World)
    requires Inv(cfg, w) && w.st.phase.Aborting? && Unblocked(w)
    ensures var t := Turn(cfg, w);
            && (t.st.phase.Failed? ==> t.failedFrom == Some(Aborting))
            && (!t.st.phase.Failed? ==> t.st.phase.Aborting? && t.copy.zv.None? && Unblocked(t))
            && (w.copy.zv.None? ==> t.st.phase.Failed? || NoTransferCrs(t.copy))
            && (w.copy.zv.None? && NoTransferCrs(w.copy) ==> t.st.phase.Failed?)
  {
    hide SourceUnwound, CrsCleaned, TargetDeleted;
    if w.copy.zv.None? {
      TurnCleans(cfg, w);
      NoRestoreLeft(Turn(cfg, w));
    } else {
      QuietlyClean(cfg, w, 0);
      TurnDestroys(cfg, w);
    }
  }

  lemma NoRestoreLeft(w: World)
    ensures NoTransferCrs(w.copy) ==> Unblocked(w)
  {
  }

  // A finished restore that is itself being deleted blocks no longer than its
  // agent takes.
  lemma FirstTurn(cfg: Config, w: World)
    requires Inv(cfg, w) && w.st.phase.Aborting? && !RestoreStands(w)
    ensures var t := Turn(cfg, w);
            if t.st.phase.Failed? then t.failedFrom == Some(Aborting) else t.st.phase.Aborting? && Unblocked(t)
  {
    hide SourceUnwound, CrsCleaned, TargetDeleted;
    if Unblocked(w) {
      TurnMoves(cfg, w);
    } else if w.copy.zv.Some? {
      TurnDestroys(cfg, w);
    } else {
      TurnIs(cfg, w);
      TransferHasTarget(cfg, w);
      hide Turn;
    }
  }

  lemma TurnKeepsCr(cfg: Config, w: World)
    ensures Turn(cfg, w).cr == w.cr
  {
    hide SourceUnwound, CrsCleaned, TargetDeleted;
    var n := Attempt(w.st);
    var t := if w.st.phase.Aborting? then w else Written(w, w.st.(phase := Aborting));
    CatchingUp(cfg, AbortStep(cfg, w, w.st, false), n);
    SourceUnwoundKeepsCr(cfg, t);
    OnlyCrsCleaned(cfg, t, n);
    DeletingTarget(cfg, t);
  }

  // Otherwise it does. Undisturbed, with agents doing their part in between,
  // four visits end it, and what they leave is unwound.
  method AbortToTheEnd(c: Cluster)
    requires c.Valid() && c.w.st.phase.Aborting? && c.w.cr.Some? && !RestoreStands(c.w) && c.script == []
    modifies c
    ensures c.Valid() && old(c.log) <= c.log
    ensures c.w.st.phase.Failed? && Unwound(c.cfg, c.w)
  {
    hide Inv, Run, AbortStep, CaughtUp, NoTransferCrs, RestoreDone, RestoreStands, Unwound, Unblocked;
    for visits := 0 to 4
      invariant c.Valid() && old(c.log) <= c.log && c.script == [] && c.w.cr.Some?
      invariant if c.w.st.phase.Failed? then c.w.failedFrom == Some(Aborting) else c.w.st.phase.Aborting? && visits < 4
      invariant !c.w.st.phase.Failed? ==>
                  && (if visits == 0 then !RestoreStands(c.w) else Unblocked(c.w))
                  && (visits >= 2 ==> c.w.copy.zv.None?) && (visits >= 3 ==> NoTransferCrs(c.w.copy))
    {
      if c.w.st.phase.Aborting? {
        if visits == 0 { FirstTurn(c.cfg, c.w); } else { TurnMoves(c.cfg, c.w); }
        TurnKeepsCr(c.cfg, c.w);
        var n := Attempt(c.w.st);
        NotCommitted(c.cfg, c.w);
        var _, _ := RunAbort(c, c.w.st, false);
        AgentsCatchUp(c, n);
      }
    }
    AbortedRunsAreUnwound(c.cfg, c.start, c.log, c.w);
  }
}
