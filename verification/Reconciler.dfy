// reconcile (src/controller/state_machine.rs): one visit to one evacuation,
// and any number of them in a row, whatever fails or dies on the way.
module Reconciler {
  import opened Common
  import opened Manifests
  import opened Status
  import opened World
  import opened Protocol
  import opened Stability
  import opened Runs
  import opened Client
  import opened TransferVerdict
  import opened Steps
  import opened Phases
  import opened Transfer
  import opened PvSwap
  import opened Abort
  import opened Cleanup

  // What target selection answers when it is asked (Selection): is another
  // evacuation copying off this node, which target, and the handle drawn.
  datatype Choice = Choice(busy: bool, target: Option<TargetInfo>, handle: string)

  predicate Fresh(st: Status, pick: Choice) {
    st.source.Some? ==> pick.handle != st.source.value.volumeHandle
  }

  method EnsureEvacFinalizer(c: Cluster, cached: Cr) returns (r: Result<()>)
    requires c.Valid()
    modifies c
    ensures c.Valid() && c.Continues() && c.w.st == old(c.w).st
    ensures r != Err(Crashed) && old(c.relay).Some? ==> c.relay.Some?
    ensures old(c.script) == [] && old(c.w).cr == Some(cached) && !cached.deleting ==>
              && c.Smoothly() && r.Ok?
              && c.w == old(c.w).(cr := Some(cached.(finalizer := true)))
    ensures old(c.Lull()) && old(c.w).cr == Some(cached) && cached.finalizer ==>
              c.Smoothly() && r.Ok? && c.w == old(c.w)
  {
    hide Inv, Run, Stable, Onwards;
    if cached.finalizer { return Ok(()); }
    r := c.Do(AddFinalizer);
  }

  lemma MayCancel(cfg: Config, w: World, why: CancelReason)
    requires Inv(cfg, w) && !w.st.committed && !Terminal(w.st.phase) && !w.st.phase.Aborting?
    ensures Move(cfg, w, w.st.(phase := Aborting, cancelled := true, message := Some(CancelledBecause(why))))
  {
  }

  // What an undisturbed visit in each phase makes of the cluster.
  function PhaseStep(cfg: Config, w: World, relay: Option<RelayObs>, pick: Choice): World {
    match w.st.phase
    case Pending => PendingStep(cfg, w)
    case Guarding => GuardingStep(w)
    case Retaining => RetainingStep(w)
    case Locking => LockingStep(cfg, w)
    case Quiescing => Quiesced(cfg, w)
    case TargetSelecting => SelectingStep(w, pick.busy, pick.target, pick.handle)
    case Transferring => TransferStep(cfg, w, relay)
    case Adopting => Adopted(w)
    case Committing => CommitStep(cfg, w)
    case Swapping => SwapStep(cfg, w)
    case CleaningUp => CleanupStep(cfg, w)
    case _ => w
  }

  function PhaseRelay(cfg: Config, w: World, relay: Option<RelayObs>): Option<RelayObs> {
    if w.st.phase.Transferring? then TransferRelay(cfg, w, relay) else relay
  }

  method InPhase(c: Cluster, pick: Choice) returns (r: Result<Action>)
    requires c.Valid() && !Terminal(c.w.st.phase) && !c.w.st.phase.Aborting? && Fresh(c.w.st, pick)
    modifies c
    ensures c.Valid() && old(c.log) <= c.log
    ensures ComesBack(r, c.w.st)
    ensures old(c.script) == [] && old(c.w).cr.Some? ==>
              && c.script == [] && c.w == PhaseStep(c.cfg, old(c.w), old(c.relay), pick)
              && c.relay == PhaseRelay(c.cfg, old(c.w), old(c.relay))
    ensures old(c.LosesNext()) && old(c.w).st.phase.Transferring? && StartsNow(c.cfg, old(c.w), old(c.relay)) ==>
              LeftBehind(c, Attempt(old(c.w).st) + 1)
  {
    hide Inv, Run, StaleView, PendingStep, GuardingStep, RetainingStep, LockingStep, Quiesced, SelectingStep,
      TransferStep, Adopted, CommitStep, SwapStep, CleanupStep, TransferRelay, StartsNow, LeftBehind;
    var st := c.w.st;
    match st.phase
    case Pending => r := InPending(c);
    case Guarding => r := InGuarding(c);
    case Retaining => r := InRetaining(c);
    case Locking => r := InLocking(c);
    case Quiescing => r := InQuiescing(c);
    case TargetSelecting => r := InTargetSelecting(c, pick.busy, pick.target, pick.handle);
    case Transferring => r := InTransferring(c, st);
    case Adopting => r := InAdopting(c);
    case Committing => r := InCommitting(c);
    case Swapping => r := InSwapping(c);
    case CleaningUp => r := InCleaningUp(c);
  }

  lemma PhaseNeverCancels(cfg: Config, w: World, relay: Option<RelayObs>, pick: Choice)
    ensures PhaseStep(cfg, w, relay, pick).st.cancelled == w.st.cancelled
  {
    TransferNeverCancels(cfg, w, relay);
    CleanupNeverCancels(cfg, w);
    hide TransferStep, CleanupStep, RefPods, MayProceed, Unexpected, Evacuable, Render;
  }

  lemma TransferNeverCancels(cfg: Config, w: World, relay: Option<RelayObs>)
    ensures TransferStep(cfg, w, relay).st.cancelled == w.st.cancelled
  {
    OnlyCrsCleaned(cfg, w, Attempt(w.st));
    hide Verdict, ObservedAt, CrsCleaned, NoTransferCrs, BothUp;
  }

  lemma CleanupNeverCancels(cfg: Config, w: World)
    ensures CleanupStep(cfg, w).st.cancelled == w.st.cancelled
  {
    OnlyCrsCleaned(cfg, w, Attempt(w.st));
    StrippedKeeps(cfg, w, SnapFin);
    if w.src.zv.Some? {
      var deleted := if w.src.zv.value.deleting then w else Effect(cfg, w, ToSource(DeleteSrcZv));
      StrippedKeeps(cfg, WithoutGuard(deleted), SrcZvFin);
    }
    hide CrsCleaned, NoTransferCrs, Stripped, StripOf, ClaimAfter;
  }

  // The visit is an ordinary one: not over, not aborting, not called off.
  predicate GoesOn(cfg: Config, w: World) {
    && w.cr.Some? && !Terminal(w.st.phase) && !w.st.phase.Aborting?
    && (w.st.committed || (!w.cr.value.deleting && CancelCondition(cfg, w).None?))
  }

  // With our finalizer on the CR, unless it is being deleted.
  function Held(w: World): World {
    if w.cr.None? || w.cr.value.deleting then w else w.(cr := Some(w.cr.value.(finalizer := true)))
  }

  lemma FinalizerNeverCancels(cfg: Config, w: World)
    ensures CancelCondition(cfg, Held(w)) == CancelCondition(cfg, w)
  {
  }

  lemma MayWithdraw(cfg: Config, w: World)
    requires Inv(cfg, w) && w.st.phase.Aborting?
    ensures !w.st.committed && !Terminal(w.st.phase)
  {
  }

  // What a visit does before it gets to the phase: an answer, if that is all.
  method Enter(c: Cluster) returns (r: Result<Option<Action>>)
    requires c.Valid() && c.w.cr.Some?
    modifies c
    ensures c.Valid() && old(c.log) <= c.log
    ensures r == Ok(None) ==> c.w.st == old(c.w).st && !Terminal(c.w.st.phase) && !c.w.st.phase.Aborting?
    ensures r.Ok? && r.value == Some(AwaitChange) ==> Terminal(c.w.st.phase) || Unwound(c.cfg, c.w)
    ensures Terminal(old(c.w).st.phase) ==>
              c.w.st == old(c.w).st && (r.Ok? ==> r.value.Some? && r.value.value.AwaitChange?)
    ensures old(c.script) == [] ==>
              && c.script == [] && r.Ok? && (r.value.None? <==> GoesOn(c.cfg, old(c.w)))
              && c.w == Entered(c.cfg, old(c.w)) && c.relay == EnteredRelay(old(c.w), old(c.relay))
    ensures old(c.Lull()) && GoesOn(c.cfg, old(c.w)) && Held(old(c.w)) == old(c.w) ==>
              c.Smoothly() && c.w == old(c.w) && r == Ok(None)
  {
    hide Inv, Run, Stable, Onward, Move, Permitted, AbortStep, CancelCondition, Unwound;
    var st, cached := c.w.st, c.w.cr.value;
    FinalizerNeverCancels(c.cfg, c.w);
    if Terminal(st.phase) {
      if cached.deleting {
        TerminalMayLetGo(c.cfg, c.w);
        var _ :- RemoveEvacFinalizer(c);
      }
      return Ok(Some(AwaitChange));
    }
    if cached.deleting && !st.committed {
      var done, _ := RunAbort(c, st.(message := Some(DeletedBeforeCommit)), true);
      return if done.Ok? then Ok(Some(done.value)) else Err(done.fault);
    }
    if !cached.deleting {
      var _ :- EnsureEvacFinalizer(c, cached);
    }
    if st.phase.Aborting? {
      MayWithdraw(c.cfg, c.w);
      var done, _ := RunAbort(c, st, false);
      return if done.Ok? then Ok(Some(done.value)) else Err(done.fault);
    }
    if !st.committed {
      var why :- Cancelled(c);
      if why.Some? {
        MayCancel(c.cfg, c.w, why.value);
        var _ :- Write(c, st.(phase := Aborting, cancelled := true, message := Some(CancelledBecause(why.value))));
        return Ok(Some(Requeue(1)));
      }
    }
    return Ok(None);
  }

  function Entered(cfg: Config, w: World): World {
    if w.cr.None? then w
    else if Terminal(w.st.phase) then if w.cr.value.deleting then Released(w) else w
    else if w.cr.value.deleting && !w.st.committed then
      AbortStep(cfg, w, w.st.(message := Some(DeletedBeforeCommit)), true)
    else if w.st.phase.Aborting? then AbortStep(cfg, Held(w), w.st, false)
    else
      var why := CancelCondition(cfg, w);
      if !w.st.committed && why.Some? then
        Written(Held(w), w.st.(phase := Aborting, cancelled := true, message := Some(CancelledBecause(why.value))))
      else Held(w)
  }

  // The abort path drops the relay; calling off alone does not.
  function EnteredRelay(w: World, relay: Option<RelayObs>): Option<RelayObs> {
    if w.cr.Some? && !Terminal(w.st.phase) && (w.st.phase.Aborting? || (w.cr.value.deleting && !w.st.committed))
    then None
    else relay
  }

  // Once it has started and before it commits, an evacuation that is not being
  // deleted is called off exactly when its PV is gone, the annotation that asked
  // for it is not "true", the taint that asked for it is off a source node that
  // is there, or the recorded claim is gone or another one. Otherwise the visit
  // is the phase's.
  lemma CalledOffIff(cfg: Config, w: World, relay: Option<RelayObs>, pick: Choice)
    requires Inv(cfg, w) && w.cr.Some? && !w.cr.value.deleting && !w.st.committed
    requires !w.st.phase.Pending? && !w.st.phase.Aborting? && !w.st.phase.Completed? && !w.st.phase.Failed?
    ensures w.st.source.Some? && w.st.pvcRef.Some?
    ensures var t := ReconcileStep(cfg, w, relay, pick);
            t.st.phase.Aborting? && t.st.cancelled <==>
              || w.claim.pv.None?
              || (cfg.trigger == Annotation &&
                  !("zfsevac.alumino.us/evacuate" in w.claim.pv.value.body.annotations &&
                    w.claim.pv.value.body.annotations["zfsevac.alumino.us/evacuate"] == "true"))
              || (cfg.trigger == NodeTaint && w.gate.srcNode.Some? &&
                  forall t <- w.gate.srcNode.value.taints :: t.key != cfg.taintKey)
              || w.claim.pvc.None? || w.claim.pvc.value.uid != w.st.pvcRef.value.uid
    ensures var t := ReconcileStep(cfg, w, relay, pick);
            !t.st.cancelled ==> t == PhaseStep(cfg, w.(cr := Some(Cr(false, true))), relay, pick)
  {
    NotCancelledYet(cfg, w);
    if GoesOn(cfg, w) {
      PhaseNeverCancels(cfg, Held(w), relay, pick);
    }
    hide Inv, PhaseStep;
  }

  lemma NotCancelledYet(cfg: Config, w: World)
    requires Inv(cfg, w) && !w.st.phase.Aborting? && !w.st.phase.Failed?
    ensures !w.st.cancelled && (!w.st.phase.Pending? ==> w.st.source.Some? && w.st.pvcRef.Some?)
  {
    hide InvAccess;
  }

  // The CR as cached when the visit starts: its status is the last written.
  method Reconcile(c: Cluster, pick: Choice) returns (r: Result<Action>)
    requires c.Valid() && c.w.cr.Some? && Fresh(c.w.st, pick)
    modifies c
    ensures c.Valid() && old(c.log) <= c.log
    ensures Terminal(old(c.w).st.phase) ==> c.w.st == old(c.w).st && (r.Ok? ==> r.value.AwaitChange?)
    ensures r == Ok(AwaitChange) ==> Terminal(c.w.st.phase) || Unwound(c.cfg, c.w)
    ensures old(c.script) == [] ==>
              && c.script == [] && c.w == ReconcileStep(c.cfg, old(c.w), old(c.relay), pick)
              && c.relay == RelayLeft(c.cfg, old(c.w), old(c.relay))
    ensures old(c.LosesNext()) && LosesAttempt(c.cfg, old(c.w), old(c.relay)) ==>
              LeftBehind(c, Attempt(old(c.w).st) + 1)
  {
    hide Inv, Run, GoesOn, Entered, EnteredRelay, PhaseStep, PhaseRelay, StartsNow, CancelCondition, Unwound;
    KeepsGoing(c.cfg, c.w);
    var answer :- Enter(c);
    if answer.Some? { return Ok(answer.value); }
    r := InPhase(c, pick);
  }

  lemma KeepsGoing(cfg: Config, w: World)
    ensures GoesOn(cfg, w) ==> Entered(cfg, w) == Held(w) && Held(w).cr.Some? && !Terminal(w.st.phase)
    ensures forall relay :: GoesOn(cfg, w) ==> EnteredRelay(w, relay) == relay
  {
  }

  // The visit would start an attempt, and its first mutation is the record.
  predicate LosesAttempt(cfg: Config, w: World, relay: Option<RelayObs>) {
    GoesOn(cfg, w) && Held(w) == w && w.st.phase.Transferring? && StartsNow(cfg, w, relay)
  }

  // One undisturbed visit: a finished evacuation only lets go of a deleted CR;
  // deletion before the commit point aborts; so does a withdrawn trigger; past
  // it nothing but the phase counts.
  function ReconcileStep(cfg: Config, w: World, relay: Option<RelayObs>, pick: Choice): World {
    if GoesOn(cfg, w) then PhaseStep(cfg, Held(w), relay, pick) else Entered(cfg, w)
  }

  function RelayLeft(cfg: Config, w: World, relay: Option<RelayObs>): Option<RelayObs> {
    if GoesOn(cfg, w) then PhaseRelay(cfg, Held(w), relay) else EnteredRelay(w, relay)
  }

  lemma TerminalMayLetGo(cfg: Config, w: World)
    requires Terminal(w.st.phase)
    ensures Permitted(cfg, w, RemoveFinalizer)
  {
  }

  lemma CommitFlag(cfg: Config, w: World)
    requires Inv(cfg, w)
    ensures w.st.committed <==> Committed(w.st.phase)
  {
  }

  // Any number of visits, each among whatever faults, crashes and foreign
  // events the script holds. What the cluster has become is a run, so
  // everything proved of runs is true of it.
  method Control(c: Cluster, picks: seq<Choice>)
    requires c.Valid()
    modifies c
    ensures c.Valid() && old(c.log) <= c.log && Run(c.cfg, c.start, c.log, c.w)
    ensures PhaseChanges(c.cfg, c.start, c.log) <= 13
    ensures c.w.copy.rsts.Keys <= c.connected
    ensures old(c.w).st.committed ==> c.w.st.phase.Swapping? || c.w.st.phase.CleaningUp? || c.w.st.phase.Completed?
    ensures c.w.src.guardPlaced && !c.w.src.disk.Whole? ==>
              || (c.w.bound.Some? && c.w.bound.value.tgt.Whole?)
              || (c.w.src.guardReleased && (c.w.src.outsideDelete || (c.w.claim.pvDeleted && c.w.claim.pvcDeleted)))
  {
    hide Inv, PhaseChanges, Legal;
    ghost var past, before := c.log, c.w;
    for i := 0 to |picks|
      invariant c.Valid() && past <= c.log
    {
      if c.w.cr.Some? && Fresh(c.w.st, picks[i]) {
        var _ := Reconcile(c, picks[i]);
      }
    }
    FewPhaseChanges(c.cfg, c.start, c.log, c.w);
    assert past + c.log[|past|..] == c.log;
    CommitFlag(c.cfg, before);
    CommitIsForGood(c.cfg, c.start, past, c.log[|past|..]);
    if c.w.src.guardPlaced && !c.w.src.disk.Whole? { NoDataLoss(c.cfg, c.start, c.log, c.w); }
  }
}
