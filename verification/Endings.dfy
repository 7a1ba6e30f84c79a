// Runs to the endings Runs.FailedMeansUnwound and Abort.DoneRestoreNeverEnds
// are about: each can be met by an evacuation that set out like any other.
module Endings {
  import opened Common
  import opened Manifests
  import opened Pods
  import opened AttachLock
  import opened Status
  import opened World
  import opened Protocol
  import opened Runs
  import opened Client
  import opened TransferVerdict
  import opened Abort
  import opened Reconciler
  import opened Completion

  // What is left behind: the claim's key stays in its list, the guard on.
  predicate LeftLocked(cfg: Config, w: World, p: Phase) {
    && w.st.phase.Failed? && w.failedFrom == Some(p)
    && HeldIn(w.gate.params, Key(cfg), cfg.mode) && !Unwound(cfg, w)
  }

  lemma FailingLeavesLocked(cfg: Config, w: World)
    requires Inv(cfg, w) && w.st.phase.Failed?
    requires w.failedFrom == Some(TargetSelecting) || w.failedFrom == Some(Committing)
    ensures LeftLocked(cfg, w, w.failedFrom.value)
  {
    hide InvObjects, InvHandover, InvLate, InvQuiet, InvFidelity, InvSnapshot, InvNodes;
  }

  // ------------------------------------------------- failed while selecting

  lemma PvGoes(cfg: Config, w: World, t: Trip, p: Phase)
    requires Preparing(cfg, w, t, p) && Rank(p) > Rank(Retaining) && t.fins <= {PvProtection, Provisioner}
    ensures var v := EnvStep(cfg, EnvStep(cfg, w, OnClaim(UserDeletePv)), OnClaim(PvRelease(PvProtection)));
            var u := EnvStep(cfg, v, OnClaim(PvRelease(Provisioner)));
            u == w.(claim := u.claim) && u.claim.pv.None?
  {
    assert t.fins - {PvProtection} - {Provisioner} == {};
  }

  // The user deletes the PV right after the visit has looked for reasons to
  // call the evacuation off.
  method FailsSelecting(cfg: Config, start: World, t: Trip, pick: Choice) returns (c: Cluster)
    requires Departing(cfg, start, t) && Picks(pick, t) && t.target.newVolumeHandle != cfg.handle
    ensures fresh(c) && c.cfg == cfg && c.start == start && Run(cfg, start, c.log, c.w)
    ensures LeftLocked(cfg, c.w, TargetSelecting)
  {
    hide Inv, Run, Preparing, Departing, EnvStep, GoesOn, Entered, EnteredRelay, LeftLocked;
    c := Lock(cfg, start, t, pick);
    Quiesce(c, t, pick);
    PreparingGoesOn(cfg, c.w, t, TargetSelecting, pick);
    CalmIsHeld(cfg, c.w, t);
    var answer := Enter(c);
    PvGoes(cfg, c.w, t, TargetSelecting);
    c.Happen(OnClaim(UserDeletePv));
    c.Happen(OnClaim(PvRelease(PvProtection)));
    c.Happen(OnClaim(PvRelease(Provisioner)));
    var _ := InPhase(c, pick);
    FailingLeavesLocked(cfg, c.w);
  }

  lemma CalmIsHeld(cfg: Config, w: World, t: Trip)
    requires Preparing(cfg, w, t, TargetSelecting)
    ensures Held(w) == w
  {
  }

  // ------------------------------------------------- failed at the commit point

  // Another PV under the name, asking for evacuation like the first.
  predicate OtherPv(cfg: Config, w: World, t: Trip) {
    && w.claim.pv.Some? && w.claim.pv.value.uid != t.pvUid
    && (cfg.trigger.Annotation? ==> WantsEvacuation(w.claim.pv.value.body))
  }

  function Recreated(cfg: Config, w: World, body: Manifest): World {
    var u := EnvStep(cfg, EnvStep(cfg, w, OnClaim(UserDeletePv)), OnClaim(PvRelease(PvProtection)));
    EnvStep(cfg, EnvStep(cfg, u, OnClaim(PvRelease(Provisioner))), OnClaim(ForeignPv(body, {})))
  }

  lemma PvIsRecreated(cfg: Config, w: World, t: Trip, x: CopyVol)
    requires Inv(cfg, w) && Carrying(cfg, w, t, Adopting, x) && t.fins <= {PvProtection, Provisioner}
    requires Asked(cfg, t)
    ensures CarryingFor(cfg, Recreated(cfg, w, OldManifest(t)), t, Adopting, x)
    ensures OtherPv(cfg, Recreated(cfg, w, OldManifest(t)), t)
  {
    assert t.fins - {PvProtection} - {Provisioner} == {};
    assert t.pvUid < w.claim.nextUid;
    hide Inv, HasRefPods, Clear;
  }

  lemma OtherGoesOn(cfg: Config, w: World, t: Trip, p: Phase, x: CopyVol, pick: Choice)
    requires CarryingFor(cfg, w, t, p, x) && OtherPv(cfg, w, t) && !Terminal(p) && !p.Aborting?
    requires t.target.newVolumeHandle != cfg.handle && pick.handle == t.target.newVolumeHandle
    ensures GoesOn(cfg, w) && Reconciler.Fresh(w.st, pick) && Held(w) == w
  {
  }

  lemma OtherIsApproved(cfg: Config, w: World, t: Trip, relay: Option<RelayObs>, pick: Choice)
    requires GoesOn(cfg, w) && CarryingFor(cfg, w, t, Adopting, Landed(t, Some(ReadyZv(t)))) && OtherPv(cfg, w, t)
    ensures var u := Visited(cfg, w, relay, pick);
            CarryingFor(cfg, u, t, Committing, Landed(t, Some(ReadyZv(t)))) && OtherPv(cfg, u, t)
  {
    hide GoesOn, HasRefPods, WantsEvacuation;
  }

  lemma OtherIsRefused(cfg: Config, w: World, t: Trip, relay: Option<RelayObs>, pick: Choice)
    requires GoesOn(cfg, w) && CarryingFor(cfg, w, t, Committing, Landed(t, Some(ReadyZv(t)))) && OtherPv(cfg, w, t)
    ensures var u := Visited(cfg, w, relay, pick); u.st.phase.Failed? && u.failedFrom == Some(Committing)
  {
    hide GoesOn, WantsEvacuation, Render;
  }

  // Somebody replaces the PV while its copy is being adopted.
  method FailsCommitting(cfg: Config, start: World, t: Trip, pick: Choice) returns (c: Cluster)
    requires Departing(cfg, start, t) && Picks(pick, t) && t.target.newVolumeHandle != cfg.handle
    ensures fresh(c) && c.cfg == cfg && c.start == start && Run(cfg, start, c.log, c.w)
    ensures LeftLocked(cfg, c.w, Committing)
  {
    hide Inv, Run, Preparing, Departing, EnvStep, GoesOn, LeftLocked, Carrying, OtherPv, Visited, ReadyZv, Landed, Calm,
      RecordIs, SourceIs;
    c := Prepare(cfg, start, t, pick);
    Copy(c, t, pick);
    Adopt(c, t, pick);
    PvIsRecreated(cfg, c.w, t, Landed(t, Some(ReadyZv(t))));
    c.Happen(OnClaim(UserDeletePv));
    c.Happen(OnClaim(PvRelease(PvProtection)));
    c.Happen(OnClaim(PvRelease(Provisioner)));
    c.Happen(OnClaim(ForeignPv(OldManifest(t), {})));
    OtherGoesOn(cfg, c.w, t, Adopting, Landed(t, Some(ReadyZv(t))), pick);
    OtherIsApproved(cfg, c.w, t, c.relay, pick);
    VisitsCr(cfg, c.w);
    Completion.Visit(c, pick);
    OtherGoesOn(cfg, c.w, t, Committing, Landed(t, Some(ReadyZv(t))), pick);
    OtherIsRefused(cfg, c.w, t, c.relay, pick);
    VisitsCr(cfg, c.w);
    Completion.Visit(c, pick);
    FailingLeavesLocked(cfg, c.w);
  }

  lemma VisitsCr(cfg: Config, w: World)
    requires GoesOn(cfg, w)
    ensures w.cr.Some? && !Terminal(w.st.phase)
  {
  }

  // ------------------------------------------- called off, or not called off

  // The trigger is withdrawn: the annotation, or the taint.
  function Withdrawal(cfg: Config): EnvEvent {
    if cfg.trigger.Annotation? then OnClaim(Annotate(false)) else OnGate(SrcNodeIs(Node(cfg.srcName, false, [])))
  }

  lemma Withdraws(cfg: Config, w: World, t: Trip, relay: Option<RelayObs>, pick: Choice)
    requires Inv(cfg, w) && Preparing(cfg, w, t, Quiescing) && cfg.srcName != ""
    requires t.target.newVolumeHandle != cfg.handle && pick.handle == t.target.newVolumeHandle
    ensures var u := EnvStep(cfg, w, Withdrawal(cfg));
            var v := ReconcileStep(cfg, u, relay, pick);
            && u.cr.Some? && Reconciler.Fresh(u.st, pick)
            && v.st.phase.Aborting? && v.st.cancelled
            && (cfg.trigger.NodeTaint? ==> v.gate.srcNode == Some(Node(cfg.srcName, false, [])))
  {
    hide HasRefPods;
  }

  // Either trigger can be withdrawn while the evacuation waits for the claim to
  // be idle; the next visit calls it off.
  method WithdrawnStops(cfg: Config, start: World, t: Trip, pick: Choice) returns (c: Cluster)
    requires Departing(cfg, start, t) && Picks(pick, t) && t.target.newVolumeHandle != cfg.handle
    ensures fresh(c) && c.cfg == cfg && c.start == start && Run(cfg, start, c.log, c.w)
    ensures c.w.st.phase.Aborting? && c.w.st.cancelled
    ensures cfg.trigger.NodeTaint? ==> c.w.gate.srcNode == Some(Node(cfg.srcName, false, []))
  {
    hide Inv, Run, Preparing, Departing, EnvStep, ReconcileStep;
    c := Lock(cfg, start, t, pick);
    Withdraws(cfg, c.w, t, c.relay, pick);
    c.Happen(Withdrawal(cfg));
    var _ := Reconcile(c, pick);
  }

  lemma NodeVanishes(cfg: Config, w: World, t: Trip, relay: Option<RelayObs>, pick: Choice)
    requires Asked(cfg, t) && Preparing(cfg, w, t, TargetSelecting) && Picks(pick, t)
    requires t.target.newVolumeHandle != cfg.handle
    ensures var u := EnvStep(cfg, w, OnGate(SrcNodeGone));
            && GoesOn(cfg, u) && Reconciler.Fresh(u.st, pick) && u.cr.Some? && !Terminal(u.st.phase)
            && ReconcileStep(cfg, u, relay, pick).st.phase.Transferring?
            && ReconcileStep(cfg, u, relay, pick).gate.srcNode.None?
  {
    hide HasRefPods;
  }

  // A source node that vanishes takes its taint with it and calls nothing off:
  // the evacuation goes on to the copy.
  method VanishedGoesOn(cfg: Config, start: World, t: Trip, pick: Choice) returns (c: Cluster)
    requires Departing(cfg, start, t) && Picks(pick, t) && t.target.newVolumeHandle != cfg.handle
    ensures fresh(c) && c.cfg == cfg && c.start == start && Run(cfg, start, c.log, c.w)
    ensures c.w.st.phase.Transferring? && c.w.gate.srcNode.None?
  {
    hide Inv, Run, Preparing, Departing, EnvStep, ReconcileStep, GoesOn, Asked;
    c := Lock(cfg, start, t, pick);
    Quiesce(c, t, pick);
    NodeVanishes(cfg, c.w, t, c.relay, pick);
    c.Happen(OnGate(SrcNodeGone));
    Completion.Visit(c, pick);
  }

  // -------------------------------------------------- an abort that never ends

  lemma CallsOff(cfg: Config, w: World, t: Trip, relay: Option<RelayObs>, pick: Choice)
    requires cfg.srcName != "" && Carrying(cfg, w, t, Transferring, Landed(t, None))
    requires t.target.newVolumeHandle != cfg.handle
    requires pick.handle == t.target.newVolumeHandle
    ensures var u := EnvStep(cfg, w, Withdrawal(cfg));
            && u.cr.Some? && Reconciler.Fresh(u.st, pick)
            && RestoreStands(ReconcileStep(cfg, u, relay, pick)) && ReconcileStep(cfg, u, relay, pick).cr.Some?
  {
    hide HasRefPods, ReadyZv;
  }

  // The user withdraws the trigger when the whole copy has landed. However
  // many visits follow, they do not unwind it.
  method AbortsForever(cfg: Config, start: World, t: Trip, pick: Choice, turns: nat) returns (c: Cluster)
    requires Departing(cfg, start, t) && Picks(pick, t) && t.target.newVolumeHandle != cfg.handle
    ensures fresh(c) && c.cfg == cfg && c.start == start && Run(cfg, start, c.log, c.w)
    ensures RestoreStands(c.w) && c.w.st.phase.Aborting?
  {
    hide Inv, Run, Preparing, Departing, EnvStep, Carrying, ReconcileStep, RestoreStands;
    c := Prepare(cfg, start, t, pick);
    Copy(c, t, pick);
    CallsOff(cfg, c.w, t, c.relay, pick);
    c.Happen(Withdrawal(cfg));
    var _ := Reconcile(c, pick);
    StandsOn(c, turns);
    StandsInAborting(c.w);
  }
}
