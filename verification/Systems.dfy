// The two systems of many evacuations (Ledger, Colocation) seen from one of
// them: what the protocol lets it write is a step there.
module Systems {
  import opened Common
  import opened Manifests
  import opened Status
  import opened World
  import opened Protocol
  import opened Safety
  import Selection
  import Ledger
  import Colocation

  // A phase change other than the start of the copy is a move, and names no
  // new target; the copy starts from TargetSelecting with a first one.
  lemma ChangeIsMove(cfg: Config, w: World, t: Status)
    requires Inv(cfg, w) && Change(cfg, w, t) && t.phase != w.st.phase
    ensures !t.phase.Transferring? ==> Ledger.MovesTo(w.st.phase, t.phase) && t.target == w.st.target
    ensures Rank(Adopting) <= Rank(t.phase) <= Rank(Completed) ==> t.target.Some?
    ensures t.phase.Transferring? ==> w.st.phase.TargetSelecting? && w.st.target.None? && t.target.Some?
  {
    ChangeClimbs(cfg, w, t);
    hide InvAccess, InvClaim, InvSource, InvTarget, InvSwap;
  }

  // ------------------------------------------------------------- the ledger

  // The listing's entry for this evacuation.
  predicate Lists(e: Selection.Evac, s: Status) {
    e.phase == s.phase && e.target == s.target
  }

  // Whatever the protocol lets it write while it is not selecting, the system
  // of listings takes: nothing changes there, or it makes a move.
  lemma WriteIsListed(
    cfg: Config, w: World, t: Status, size: Selection.Slot -> nat, cap: string -> nat, s: Ledger.System, i: nat)
    returns (u: Ledger.System)
    requires Inv(cfg, w) && Move(cfg, w, t) && !t.phase.Transferring?
    requires i < |s.evacs| && Lists(s.evacs[i], w.st) && !(s.selecting.Some? && s.selecting.value.i == i)
    ensures var e := Ledger.Move(i, t.phase);
            u == s || (Ledger.CanStep(size, cap, s, e) && u == Ledger.Next(s, e))
    ensures i < |u.evacs| && Lists(u.evacs[i], t)
  {
    if t.phase == w.st.phase {
      u := s;
    } else {
      ChangeIsMove(cfg, w, t);
      u := Ledger.Next(s, Ledger.Move(i, t.phase));
    }
  }

  // -------------------------------------------------------------- the group

  // The view's entries for this evacuation: its record, whether its PV and its
  // new volume are there, and that the volume of the PV under the name is the
  // replacement's at the target, or else still on the source.
  predicate Shows(g: Colocation.Setting, w: World, v: Colocation.View, pv: string) {
    && pv in v.evacs && v.evacs[pv].phase == w.st.phase && v.evacs[pv].target == w.st.target
    && (pv in v.pvs <==> w.claim.pv.Some?)
    && (w.st.target.Some? ==> NewVolumeIs(w.st.target.value, w.copy.zv.Some?, v.zvs))
    && var at := Colocation.VolumeNode(v, pv);
       at.Some? ==> at == Some(if Replaced(w) then w.st.target.value.nodeId else g.source)
  }

  predicate NewVolumeIs(target: TargetInfo, there: bool, zvs: map<string, Colocation.ZvView>) {
    var handle := target.newVolumeHandle;
    (handle in zvs <==> there) && (handle in zvs ==> zvs[handle].owner == target.nodeId)
  }

  predicate Replaced(w: World) {
    w.st.committed && w.st.target.Some? && !IsOldPv(w.st, w.claim.pv)
  }

  lemma ReplacedIffHandedOver(cfg: Config, w: World, t: Status)
    requires Inv(cfg, w) && Change(cfg, w, t) && t.phase != w.st.phase && !t.phase.Transferring?
    ensures t.phase.Aborting? || t.phase.Failed? ==> !Replaced(w)
    ensures t.phase.Completed? ==> w.st.phase.CleaningUp? && w.st.target.Some? && (w.claim.pv.Some? ==> Replaced(w))
    ensures w.claim.pv.Some? ==> (Replaced(w.(st := t)) <==> Replaced(w))
  {
    hide InvAccess, InvSource, InvAttempts;
  }

  // Its phase changes are moves of the group's system.
  lemma ChangeIsGroupMove(cfg: Config, g: Colocation.Setting, w: World, t: Status, s: Colocation.State, pv: string)
    returns (u: Colocation.State)
    requires Inv(cfg, w) && Change(cfg, w, t) && t.phase != w.st.phase && !t.phase.Transferring?
    requires Shows(g, w, s.v, pv) && !(s.choosing.Some? && s.choosing.value.me == pv)
    ensures Colocation.CanStep(g, s, Colocation.Move(pv, t.phase))
    ensures u == Colocation.Next(g, s, Colocation.Move(pv, t.phase)) && Shows(g, Written(w, t), u.v, pv)
  {
    ChangeIsMove(cfg, w, t);
    ReplacedIffHandedOver(cfg, w, t);
    hide Inv, Change, IsOldPv;
    u := Colocation.Next(g, s, Colocation.Move(pv, t.phase));
    assert Colocation.VolumeNode(u.v, pv) == Colocation.VolumeNode(s.v, pv);
  }

  lemma ReplacementPointsThere(cfg: Config, w: World, body: Manifest)
    requires Inv(cfg, w) && Permitted(cfg, w, ToClaim(CreatePv(body))) && w.claim.pv.None?
    ensures w.st.phase.Swapping? && w.st.target.Some?
    ensures body.csi.Some? && body.csi.value.volumeHandle == w.st.target.value.newVolumeHandle
    ensures Replaced(Effect(cfg, w, ToClaim(CreatePv(body))))
  {
    RenderIsTheReplacement(w.st.oldPv.value, w.st.pvcRef.value, w.st.target.value, body);
    hide InvAccess, InvSource, InvAttempts, InvTarget, Render;
  }

  // So is the creation of the replacement.
  lemma ReplacementIsGroupStep(
    cfg: Config, g: Colocation.Setting, w: World, body: Manifest, s: Colocation.State, pv: string)
    returns (u: Colocation.State)
    requires Inv(cfg, w) && Permitted(cfg, w, ToClaim(CreatePv(body))) && w.claim.pv.None?
    requires Shows(g, w, s.v, pv)
    ensures Colocation.CanStep(g, s, Colocation.Step.PvAppears(pv))
    ensures u == Colocation.Next(g, s, Colocation.Step.PvAppears(pv))
    ensures u.v.pvs[pv].handle == body.csi.value.volumeHandle
    ensures Shows(g, Effect(cfg, w, ToClaim(CreatePv(body))), u.v, pv)
  {
    ReplacementPointsThere(cfg, w, body);
    hide Inv, IsOldPv;
    u := Colocation.Next(g, s, Colocation.Step.PvAppears(pv));
  }
}
