// The last phase: transfer CRs, the received snapshot, the source volume, the
// lock, in this order (cleaning_up in src/controller/state_machine.rs).
module Cleanup {
  import opened Common
  import opened Manifests
  import opened AttachLock
  import opened Status
  import opened World
  import opened Protocol
  import opened Stability
  import opened Runs
  import opened Client
  import opened Steps
  import opened Transfer

  // Everything that comes before the source volume goes is done.
  predicate SourceMayGo(w: World) {
    w.st.phase.CleaningUp? && NoTransferCrs(w.copy) && HandshakeDone(w.st, w.copy)
  }

  lemma StaysReady(cfg: Config, w: World, t: World)
    requires SourceMayGo(w) && Onward(cfg, w, t)
    ensures SourceMayGo(t) && (w.src.zv.None? ==> t.src.zv.None?)
  {
    StillAbsent(cfg, w, t, 0);
  }

  lemma MayRemoveSource(cfg: Config, w: World)
    requires SourceMayGo(w)
    ensures Permitted(cfg, w, ToSource(DeleteSrcZv)) && MayDropGuard(w)
    ensures Accepts(w, ToSource(DeleteSrcZv)) <==> w.src.zv.Some?
    ensures Accepts(w, ToSource(DeleteSrcZv)) ==> Onward(cfg, w, Effect(cfg, w, ToSource(DeleteSrcZv)))
  {
    if Accepts(w, ToSource(DeleteSrcZv)) { RemovalIsOnward(cfg, w, ToSource(DeleteSrcZv)); }
  }

  lemma MayWaitCleaning(cfg: Config, w: World, msg: Message)
    requires w.st.phase.CleaningUp?
    ensures Move(cfg, w, w.st.(message := Some(msg)))
  {
  }

  // Delete, then drop the guard, so a crash in between resumes unambiguously.
  method RemoveSource(c: Cluster, zv: Zv) returns (r: Result<Action>)
    requires c.Valid() && SourceMayGo(c.w)
    modifies c
    ensures c.Valid() && old(c.log) <= c.log && (r.Ok? ==> c.w.st.phase.CleaningUp?)
    ensures ComesBack(r, c.w.st)
    ensures old(c.script) == [] && old(c.w).cr.Some? && old(c.w).src.zv == Some(zv) ==>
              c.Smoothly() && r.Ok? && c.w == SourceRemoved(c.cfg, old(c.w))
  {
    hide Inv, Run, Move, Onward, Stable, SourceMayGo, Permitted, Accepts, Stripped, MayDropGuard;
    var st := c.w.st;
    ghost var w0 := c.w;
    MayRemoveSource(c.cfg, c.w);
    if !zv.deleting {
      var _ :- DoOnward(c, ToSource(DeleteSrcZv));
    }
    ghost var w1 := c.w;
    OnwardsOnSelf(c.cfg, w0);
    StaysReady(c.cfg, w0, w1);
    MayRemoveSource(c.cfg, c.w);
    var _ :- ClearGuard(c);
    ReadyToWait(w1);
    StrippedKeeps(c.cfg, c.w, SrcZvFin);
    var _ :- StripIfNodeGone(c, SrcZvFin);
    MayWaitCleaning(c.cfg, c.w, WaitingForSourceDestroy);
    r := Wait(c, st, WaitingForSourceDestroy, 10);
  }

  lemma ReadyToWait(w: World)
    requires SourceMayGo(w)
    ensures w.st.phase.CleaningUp?
  {
  }

  function SourceRemoved(cfg: Config, w: World): World {
    if w.src.zv.None? then w
    else
      var deleted := if w.src.zv.value.deleting then w else Effect(cfg, w, ToSource(DeleteSrcZv));
      Waited(Stripped(cfg, WithoutGuard(deleted), SrcZvFin), w.st, WaitingForSourceDestroy)
  }

  // Nothing of the evacuation is left but its record.
  predicate Finishing(cfg: Config, w: World) {
    SourceMayGo(w) && w.src.zv.None? && Free(w.gate.params, Key(cfg))
  }

  lemma UnlockFinishes(cfg: Config, w: World)
    requires SourceMayGo(w) && w.src.zv.None?
    ensures Permitted(cfg, w, UnlockKey) && Accepts(w, UnlockKey)
    ensures Finishing(cfg, Effect(cfg, w, UnlockKey))
  {
  }

  lemma StaysFinishing(cfg: Config, w: World, t: World)
    requires Finishing(cfg, w) && Onward(cfg, w, t)
    ensures Finishing(cfg, t)
  {
    StaysReady(cfg, w, t);
  }

  lemma MayComplete(cfg: Config, w: World)
    requires Finishing(cfg, w)
    ensures Move(cfg, w, w.st.(phase := Completed, message := None)) && w.st.phase.CleaningUp?
    ensures Permitted(cfg, w, ToClaim(ClearTrigger))
  {
  }

  lemma CompletedIsOver(cfg: Config, w: World)
    requires w.st.phase.Completed?
    ensures Permitted(cfg, w, RemoveFinalizer)
  {
  }

  method Finish(c: Cluster) returns (r: Result<Action>)
    requires c.Valid() && SourceMayGo(c.w) && c.w.src.zv.None?
    modifies c
    ensures c.Valid() && old(c.log) <= c.log
    ensures ComesBack(r, c.w.st)
    ensures r.Ok? ==> c.w.st == old(c.w).st.(phase := Completed, message := None)
    ensures old(c.script) == [] && old(c.w).cr.Some? ==>
              c.Smoothly() && r.Ok? && c.w == Finished(c.cfg, old(c.w))
  {
    hide Inv, Run, Move, Onward, Stable, SourceMayGo, Permitted, Accepts, Finishing;
    var st := c.w.st;
    UnlockFinishes(c.cfg, c.w);
    RemovalIsEasy(c.cfg, c.w, UnlockKey);
    ghost var w1 := Effect(c.cfg, c.w, UnlockKey);
    var _ :- DoOnward(c, UnlockKey);
    OnwardsOnSelf(c.cfg, w1);
    var _ :- Unlabel(c);
    r := ClearAndComplete(c, st, w1);
  }

  // An old stored manifest may still carry the trigger.
  method ClearOldTrigger(c: Cluster) returns (r: Result<()>)
    requires c.Valid() && c.w.st.phase.CleaningUp?
    modifies c
    ensures c.Valid() && old(c.log) <= c.log && Onwards(c.cfg, old(c.w), c.w)
    ensures old(c.script) == [] ==> c.Smoothly() && r.Ok? && c.w == TriggerCleared(old(c.w))
  {
    hide Inv, Run, Onward, Stable;
    OnwardsOnSelf(c.cfg, c.w);
    var pv :- c.Get((w: World) => w.claim.pv);
    if pv.Some? && EVACUATE_ANNOTATION in pv.value.body.annotations {
      RemovalIsEasy(c.cfg, c.w, ToClaim(ClearTrigger));
      var _ :- DoOnward(c, ToClaim(ClearTrigger));
    }
    return Ok(());
  }

  method ClearAndComplete(c: Cluster, st: Status, ghost w1: World) returns (r: Result<Action>)
    requires c.Valid() && Finishing(c.cfg, w1) && Onward(c.cfg, w1, c.w) && st == c.w.st
    modifies c
    ensures c.Valid() && old(c.log) <= c.log
    ensures ComesBack(r, c.w.st)
    ensures r.Ok? ==> c.w.st == st.(phase := Completed, message := None)
    ensures old(c.script) == [] && old(c.w).cr.Some? ==>
              && c.Smoothly() && r.Ok?
              && c.w == Released(TriggerCleared(old(c.w)).(st := st.(phase := Completed, message := None)))
  {
    hide Inv, Run, Move, Onward, Stable, SourceMayGo, Permitted, Accepts, Finishing;
    StaysFinishing(c.cfg, w1, c.w);
    MayComplete(c.cfg, c.w);
    var _ :- ClearOldTrigger(c);
    StaysFinishing(c.cfg, w1, c.w);
    MayComplete(c.cfg, c.w);
    // The message set here is overwritten by the phase change.
    r := Advance(c, st.(message := Some(EvacuationComplete)), Completed);
    if r.Ok? {
      CompletedIsOver(c.cfg, c.w);
      var _ :- RemoveEvacFinalizer(c);
    }
  }

  function TriggerCleared(w: World): World {
    if w.claim.pv.Some? && EVACUATE_ANNOTATION in w.claim.pv.value.body.annotations
    then w.(claim := ClaimAfter(w.claim, ClearTrigger))
    else w
  }

  function Finished(cfg: Config, w: World): World {
    var t := TriggerCleared(Unlabelled(Effect(cfg, w, UnlockKey)));
    Released(t.(st := w.st.(phase := Completed, message := None)))
  }

  // A CR of the attempt may be there: wait until none is, then hand on.
  lemma ReadyForSnapshot(cfg: Config, w: World)
    requires Inv(cfg, w) && w.st.phase.CleaningUp?
    ensures w.st.transfer.Some? && w.st.source.Some? && CurrentAttempt(w.st, w.st.transfer.value.attempt)
    ensures NoTransferCrs(w.copy) ==> SnapshotTurn(w)
  {
  }

  lemma ReadyForSource(w: World)
    requires SnapshotTurn(w) && HandshakeDone(w.st, w.copy)
    ensures SourceMayGo(w)
  {
  }

  method InCleaningUp(c: Cluster) returns (r: Result<Action>)
    requires c.Valid() && c.w.st.phase.CleaningUp?
    modifies c
    ensures c.Valid() && old(c.log) <= c.log
    ensures ComesBack(r, c.w.st)
    ensures r.Ok? ==> c.w.st.phase.CleaningUp? || c.w.st.phase.Completed?
    ensures old(c.script) == [] && old(c.w).cr.Some? ==>
              c.Smoothly() && r.Ok? && c.w == CleanupStep(c.cfg, old(c.w))
  {
    hide Inv, Run, Move, Onward, Stable, SourceMayGo, Permitted, SnapshotTurn, HandshakeDone, NoTransferCrs,
      CrsCleaned, SourceRemoved, Finished, SnapshotStep, SnapshotVerdict;
    ReadyForSnapshot(c.cfg, c.w);
    var n := c.w.st.transfer.value.attempt;
    OnlyCrsCleaned(c.cfg, c.w, n);
    var gone :- CleanupTransferCrs(c, n);
    if !gone {
      MayWaitCleaning(c.cfg, c.w, WaitingForTransferCrs);
      r := Wait(c, c.w.st, WaitingForTransferCrs, 10);
      return;
    }
    ReadyForSnapshot(c.cfg, c.w);
    r := AfterTransferCrs(c);
  }

  method AfterTransferCrs(c: Cluster) returns (r: Result<Action>)
    requires c.Valid() && SnapshotTurn(c.w)
    modifies c
    ensures c.Valid() && old(c.log) <= c.log
    ensures ComesBack(r, c.w.st)
    ensures r.Ok? ==> c.w.st.phase.CleaningUp? || c.w.st.phase.Completed?
    ensures old(c.script) == [] && old(c.w).cr.Some? ==>
              c.Smoothly() && r.Ok? && c.w == AfterCrs(c.cfg, old(c.w))
  {
    hide Inv, Run, Move, Onward, Stable, SourceMayGo, Permitted, SnapshotTurn, HandshakeDone, SourceRemoved,
      Finished, SnapshotVerdict, SnapshotStep;
    TurnHasRecord(c.cfg, c.w);
    SnapshotRest(c.cfg, c.w);
    var waiting :- DestroyTargetSnapshot(c);
    TurnHasRecord(c.cfg, c.w);
    if waiting.Some? {
      MayWaitCleaning(c.cfg, c.w, waiting.value);
      r := Wait(c, c.w.st, waiting.value, 5);
      return;
    }
    ReadyForSource(c.w);
    ghost var w1 := c.w;
    OnwardsOnSelf(c.cfg, w1);
    var zv :- c.Get((w: World) => w.src.zv);
    StaysReady(c.cfg, w1, c.w);
    if zv.Some? {
      r := RemoveSource(c, zv.value);
    } else {
      r := Finish(c);
    }
  }

  // Undisturbed, one visit does one of: ask the transfer CRs to go; take the
  // snapshot handshake one step on; let the source volume go; finish.
  function CleanupStep(cfg: Config, w: World): World {
    var n := Attempt(w.st);
    if !NoTransferCrs(w.copy) then Waited(CrsCleaned(cfg, w, n), w.st, WaitingForTransferCrs) else AfterCrs(cfg, w)
  }

  function AfterCrs(cfg: Config, w: World): World {
    match SnapshotVerdict(w)
    case Some(msg) =>
      var t := SnapshotStep(cfg, w);
      Waited(t, t.st, msg)
    case None =>
      if w.src.zv.Some? then SourceRemoved(cfg, w) else Finished(cfg, w)
  }
}
