// The helpers every phase handler ends with or shares
// (src/controller/state_machine.rs, src/controller/transfer.rs).
module Steps {
  import opened Common
  import opened Status
  import opened World
  import opened Protocol
  import opened Stability
  import opened Runs
  import opened Client

  // When to look again.
  datatype Action = RequeueMs(ms: nat) | AwaitChange

  function Requeue(seconds: nat): Action {
    RequeueMs(seconds * 1000)
  }

  // Another visit is asked for, unless the evacuation is over. (An error is
  // tried again in any case.)
  predicate ComesBack(r: Result<Action>, st: Status) {
    r.Ok? && r.value.AwaitChange? ==> Terminal(st.phase)
  }

  method Write(c: Cluster, t: Status) returns (r: Result<()>)
    requires c.Valid() && Move(c.cfg, c.w, t)
    modifies c
    ensures c.Valid() && c.Continues()
    ensures r.Ok? ==> c.w.st == t && Inv(c.cfg, Written(old(c.w), t)) && Carried(c.cfg, Written(old(c.w), t), c.w)
    ensures c.w.st == t || c.w.st == old(c.w).st
    ensures r != Err(Crashed) && old(c.relay).Some? ==> c.relay.Some?
    ensures old(c.script) == [] && old(c.w).cr.Some? ==> c.Smoothly() && r.Ok? && c.w == Written(old(c.w), t)
    ensures old(c.LosesNext()) ==> c.Lost() && r == Err(Transport)
  {
    hide Inv, Move, Run;
    r := c.Do(WriteStatus(t));
  }

  method Advance(c: Cluster, st: Status, phase: Phase) returns (r: Result<Action>)
    requires c.Valid() && Move(c.cfg, c.w, st.(phase := phase, message := None))
    modifies c
    ensures c.Valid() && c.Continues()
    ensures r.Ok? ==> r.value == RequeueMs(500) && c.w.st == st.(phase := phase, message := None)
    ensures r.Ok? ==> Carried(c.cfg, Written(old(c.w), st.(phase := phase, message := None)), c.w)
    ensures old(c.script) == [] && old(c.w).cr.Some? ==>
              c.Smoothly() && r.Ok? && c.w == Written(old(c.w), st.(phase := phase, message := None))
  {
    hide Inv, Move, Carried, Run;
    var _ :- Write(c, st.(phase := phase, message := None));
    return Ok(RequeueMs(500));
  }

  // Gives up for good.
  method Fail(c: Cluster, st: Status, msg: Message) returns (r: Result<Action>)
    requires c.Valid() && Move(c.cfg, c.w, st.(phase := Failed, message := Some(msg)))
    modifies c
    ensures c.Valid() && c.Continues()
    ensures r.Ok? ==> r.value == AwaitChange && c.w.st == st.(phase := Failed, message := Some(msg))
    ensures old(c.script) == [] && old(c.w).cr.Some? ==>
              c.Smoothly() && r.Ok? && c.w == Written(old(c.w), st.(phase := Failed, message := Some(msg)))
  {
    hide Inv, Move, Carried, Run;
    var _ :- Write(c, st.(phase := Failed, message := Some(msg)));
    return Ok(AwaitChange);
  }

  // Leaves the phase for the abort path.
  method GoAborting(c: Cluster, st: Status, msg: Message) returns (r: Result<Action>)
    requires c.Valid() && Move(c.cfg, c.w, st.(phase := Aborting, message := Some(msg)))
    modifies c
    ensures c.Valid() && c.Continues()
    ensures r.Ok? ==> r.value == Requeue(1) && c.w.st == st.(phase := Aborting, message := Some(msg))
    ensures r.Ok? ==> Carried(c.cfg, Written(old(c.w), st.(phase := Aborting, message := Some(msg))), c.w)
    ensures old(c.script) == [] && old(c.w).cr.Some? ==>
              c.Smoothly() && r.Ok? && c.w == Written(old(c.w), st.(phase := Aborting, message := Some(msg)))
  {
    hide Inv, Move, Carried, Run;
    var _ :- Write(c, st.(phase := Aborting, message := Some(msg)));
    return Ok(Requeue(1));
  }

  // What a wait leaves behind: a repeated message is not written again, and
  // neither is anything else the handler changed in its copy of the status.
  function Waited(w: World, st: Status, msg: Message): World {
    if st.message == Some(msg) then w else Written(w, st.(message := Some(msg)))
  }

  method Wait(c: Cluster, st: Status, msg: Message, seconds: nat) returns (r: Result<Action>)
    requires c.Valid() && (st.message != Some(msg) ==> Move(c.cfg, c.w, st.(message := Some(msg))))
    modifies c
    ensures c.Valid() && c.Continues()
    ensures r.Ok? ==> r.value == Requeue(seconds) && c.w.st == Waited(old(c.w), st, msg).st
    ensures old(c.script) == [] && old(c.w).cr.Some? ==> c.Smoothly() && r.Ok? && c.w == Waited(old(c.w), st, msg)
  {
    hide Inv, Move, Carried, Run;
    if st.message != Some(msg) {
      var _ :- Write(c, st.(message := Some(msg)));
    }
    return Ok(Requeue(seconds));
  }

  // ------------------------------------------------------- set_finalizers

  // Each reads the object and patches it only if that changes anything; a
  // patch refused because the object just went away is an error.

  method SetGuard(c: Cluster) returns (r: Result<()>)
    requires c.Valid() && c.w.st.phase.Guarding?
    modifies c
    ensures c.Valid() && c.Continues() && c.w.st == old(c.w).st
    ensures r.Ok? ==> Guarded(c.w.src.zv)
    ensures old(c.script) == [] ==>
              && c.Smoothly()
              && r.Ok? == (Unguarded(old(c.w).src.zv) && old(c.w).src.zv.Some? ==> !old(c.w).src.zv.value.deleting)
              && c.w == if r.Ok? then WithGuard(old(c.w)) else old(c.w)
  {
    hide Inv, Run, Stable;
    ghost var w0 := c.w;
    var zv :- c.Get((w: World) => w.src.zv);
    StillGuarded(c.cfg, w0, c.w);
    if zv.Some? && !zv.value.guard {
      ghost var w1 := c.w;
      FinStaysSame(c.cfg, w0, c.w);
      var _ :- c.Do(ToSource(PlaceGuard(zv.value.fin)));
      StillGuarded(c.cfg, Effect(c.cfg, w1, ToSource(PlaceGuard(zv.value.fin))), c.w);
    }
    return Ok(());
  }

  predicate Guarded(zv: Option<Zv>) {
    zv.Some? ==> zv.value.guard
  }

  function WithGuard(w: World): World {
    if w.src.zv.Some? && !w.src.zv.value.guard
    then w.(src := w.src.(zv := Some(w.src.zv.value.(guard := true)), guardPlaced := true))
    else w
  }

  lemma FinStaysSame(cfg: Config, w: World, t: World)
    requires Stable(cfg, w, t)
    ensures w.src.zv.Some? ==> SameFin(t.src.zv, w.src.zv.value.fin)
  {
  }

  lemma StillGuarded(cfg: Config, w: World, t: World)
    requires Stable(cfg, w, t)
    ensures Guarded(w.src.zv) ==> Guarded(t.src.zv)
  {
  }

  // A call that only removes.
  method DoOnward(c: Cluster, a: Act) returns (r: Result<()>)
    requires c.Valid() && Permitted(c.cfg, c.w, a) && forall n: nat :: !Dials(a, n)
    requires Accepts(c.w, a) ==> Onward(c.cfg, c.w, Effect(c.cfg, c.w, a))
    modifies c
    ensures c.Valid() && c.Continues() && Onwards(c.cfg, old(c.w), c.w)
    ensures r.Ok? ==> Accepts(old(c.w), a) && Onwards(c.cfg, Effect(c.cfg, old(c.w), a), c.w)
    ensures old(c.script) == [] ==>
              && c.Smoothly()
              && r == (if Accepts(old(c.w), a) then Ok(()) else Err(Rejected))
              && c.w == if Accepts(old(c.w), a) then Effect(c.cfg, old(c.w), a) else old(c.w)
  {
    hide Inv, Run, Stable, Onward, Permitted, Effect, Accepts;
    ghost var w0 := c.w;
    r := c.Do(a);
    if Accepts(w0, a) && Carried(c.cfg, Effect(c.cfg, w0, a), c.w) {
      OnwardsOn(c.cfg, w0, c.w);
    }
  }

  lemma GuardComesOff(cfg: Config, w: World, t: World)
    requires Stable(cfg, w, t) && Onward(cfg, w, t) && MayDropGuard(w) && w.src.zv.Some?
    ensures var act := ToSource(DropGuard(w.src.zv.value.fin));
            && Permitted(cfg, t, act) && (t == w ==> Accepts(t, act))
            && (Accepts(t, act) ==> Onward(cfg, t, Effect(cfg, t, act)) && Unguarded(Effect(cfg, t, act).src.zv))
  {
    StaysDroppable(cfg, w, t);
    hide MayDropGuard;
    if t.src.zv.Some? { RemovalIsOnward(cfg, t, ToSource(DropGuard(w.src.zv.value.fin))); }
  }

  lemma StaysDroppable(cfg: Config, w: World, t: World)
    requires MayDropGuard(w) && Onward(cfg, w, t)
    ensures MayDropGuard(t)
  {
    assert w.copy.bkps == map[] ==> w.copy.bkps.Keys == {};
    assert w.copy.rsts == map[] ==> w.copy.rsts.Keys == {};
    assert t.copy.bkps.Keys == {} ==> t.copy.bkps == map[];
    assert t.copy.rsts.Keys == {} ==> t.copy.rsts == map[];
  }

  lemma StaysUnguarded(cfg: Config, w: World, t: World)
    requires Onward(cfg, w, t)
    ensures Unguarded(w.src.zv) ==> Unguarded(t.src.zv)
  {
  }

  method ClearGuard(c: Cluster) returns (r: Result<()>)
    requires c.Valid() && MayDropGuard(c.w)
    modifies c
    ensures c.Valid() && c.Continues() && Onwards(c.cfg, old(c.w), c.w)
    ensures r.Ok? ==> Unguarded(c.w.src.zv)
    ensures old(c.script) == [] ==> c.Smoothly() && r.Ok? && c.w == WithoutGuard(old(c.w))
  {
    hide Inv, Run, Stable, Onward, Permitted, Accepts, MayDropGuard;
    ghost var w0 := c.w;
    OnwardsOnSelf(c.cfg, w0);
    var zv :- c.Get((w: World) => w.src.zv);
    StaysUnguarded(c.cfg, w0, c.w);
    if zv.Some? && zv.value.guard {
      GuardComesOff(c.cfg, w0, c.w);
      ghost var w1 := c.w;
      var _ :- DoOnward(c, ToSource(DropGuard(zv.value.fin)));
      StaysUnguarded(c.cfg, Effect(c.cfg, w1, ToSource(DropGuard(zv.value.fin))), c.w);
    }
    return Ok(());
  }

  function WithoutGuard(w: World): World {
    if w.src.zv.Some? && w.src.zv.value.guard
    then w.(src := w.src.(zv := SettledZv(w.src.zv.value.(guard := false)), guardReleased := true))
    else w
  }

  // ------------------------------------- strip_zfs_finalizer_if_node_gone

  // An object waiting on the finalizer of a node agent.
  datatype Holder = SrcZvFin | TgtZvFin | BkpFin(n: nat) | RstFin(n: nat) | SnapFin

  predicate OwnerUp(w: World, h: Holder) {
    if h.SrcZvFin? || h.BkpFin? then w.gate.srcNode.Some? else w.nodes.tgtUp
  }

  predicate HasFin(w: World, h: Holder) {
    match h
    case SrcZvFin => w.src.zv.Some? && w.src.zv.value.fin
    case TgtZvFin => w.copy.zv.Some? && w.copy.zv.value.fin
    case BkpFin(n) => n in w.copy.bkps && w.copy.bkps[n].fin
    case RstFin(n) => n in w.copy.rsts && w.copy.rsts[n].fin
    case SnapFin => w.copy.snapCr.Some? && w.copy.snapCr.value.fin
  }

  // From the list as it is in w.
  function StripOf(w: World, h: Holder): Act {
    match h
    case SrcZvFin => ToSource(StripSrcZv(w.src.zv.Some? && w.src.zv.value.guard))
    case TgtZvFin => ToCopy(StripTgtZv)
    case BkpFin(n) => ToCopy(StripBkp(n))
    case RstFin(n) => ToCopy(StripRst(n))
    case SnapFin => ToCopy(StripSnap)
  }

  // In the phases where each may happen at all.
  predicate MayStrip(p: Phase, h: Holder) {
    match h
    case SrcZvFin => p.CleaningUp? || p.Aborting?
    case TgtZvFin => p.Aborting?
    case SnapFin => p.CleaningUp?
    case _ => true
  }

  predicate OwnerLost(w: World, h: Holder) {
    if h.SrcZvFin? || h.BkpFin? then w.nodes.srcLost else w.nodes.tgtLost
  }

  lemma AbsentMeansLost(cfg: Config, w: World, t: World, h: Holder)
    requires Inv(cfg, w) && !OwnerUp(w, h) && Onward(cfg, w, t)
    ensures OwnerLost(t, h)
  {
  }

  lemma StripPermitted(cfg: Config, w: World, t: World, h: Holder)
    requires Stable(cfg, w, t) && HasFin(w, h)
    requires MayStrip(t.st.phase, h) && OwnerLost(t, h)
    ensures Permitted(cfg, t, StripOf(w, h)) && forall n: nat :: !Dials(StripOf(w, h), n)
    ensures t == w ==> Accepts(t, StripOf(w, h))
    ensures Accepts(t, StripOf(w, h)) ==> Onward(cfg, t, Effect(cfg, t, StripOf(w, h)))
  {
    if Accepts(t, StripOf(w, h)) { RemovalIsOnward(cfg, t, StripOf(w, h)); }
  }

  method StripIfNodeGone(c: Cluster, h: Holder) returns (r: Result<()>)
    requires c.Valid() && MayStrip(c.w.st.phase, h)
    modifies c
    ensures c.Valid() && c.Continues() && Onwards(c.cfg, old(c.w), c.w)
    ensures OwnerUp(old(c.w), h) ==> OthersSince(old(c.log), c.log)
    ensures old(c.script) == [] ==> c.Smoothly() && r.Ok? && c.w == Stripped(c.cfg, old(c.w), h)
  {
    hide Inv, Run, Stable, Onward, Permitted, Effect, Accepts, HasFin, StripOf, OwnerUp, OwnerLost, MayStrip;
    ghost var w0 := c.w;
    var up :- c.Get((w: World) => OwnerUp(w, h));
    if up { return Ok(()); }
    ghost var w1 := c.w;
    var found :- c.Get((w: World) => (HasFin(w, h), StripOf(w, h)));
    if found.0 {
      AbsentMeansLost(c.cfg, w0, c.w, h);
      StripPermitted(c.cfg, w1, c.w, h);
      var _ :- DoOnward(c, found.1);
    }
    return Ok(());
  }

  // The finalizer goes exactly when the node that should process it is gone.
  function Stripped(cfg: Config, w: World, h: Holder): World {
    if !OwnerUp(w, h) && HasFin(w, h) && Accepts(w, StripOf(w, h)) then Effect(cfg, w, StripOf(w, h)) else w
  }

  lemma StrippedKeeps(cfg: Config, w: World, h: Holder)
    ensures var t := Stripped(cfg, w, h);
            && t == w.(src := t.src, copy := t.copy)
            && (h.SrcZvFin? ==> t.copy == w.copy) && (!h.SrcZvFin? ==> t.src == w.src)
  {
  }

  // ------------------------------------------------------------- small calls

  lemma RemovalIsEasy(cfg: Config, w: World, a: Act)
    requires a == UnlockKey || a == ToClaim(LabelPvc(false)) || a == ToClaim(ClearTrigger) || a == RemoveFinalizer
    ensures Accepts(w, a) ==> Onward(cfg, w, Effect(cfg, w, a))
  {
    if Accepts(w, a) { RemovalIsOnward(cfg, w, a); }
  }

  // The marker label goes if it can; only a crash stops the caller.
  method Unlabel(c: Cluster) returns (r: Result<()>)
    requires c.Valid()
    modifies c
    ensures c.Valid() && c.Continues() && Onwards(c.cfg, old(c.w), c.w)
    ensures old(c.script) == [] ==> c.Smoothly() && r.Ok? && c.w == Unlabelled(old(c.w))
  {
    hide Inv, Run, Onward, Stable;
    RemovalIsEasy(c.cfg, c.w, ToClaim(LabelPvc(false)));
    var done := DoOnward(c, ToClaim(LabelPvc(false)));
    return if done == Err(Crashed) then done else Ok(());
  }

  function Unlabelled(w: World): World {
    if w.claim.pvc.Some? then w.(claim := ClaimAfter(w.claim, LabelPvc(false))) else w
  }

  method RemoveEvacFinalizer(c: Cluster) returns (r: Result<()>)
    requires c.Valid() && Permitted(c.cfg, c.w, RemoveFinalizer)
    modifies c
    ensures c.Valid() && c.Continues() && Onwards(c.cfg, old(c.w), c.w)
    ensures old(c.script) == [] ==> c.Smoothly() && r.Ok? && c.w == Released(old(c.w))
  {
    hide Inv, Run, Onward, Stable, Move, Unwound;
    ghost var w0 := c.w;
    OnwardsOnSelf(c.cfg, w0);
    var cr :- c.Get((w: World) => w.cr);
    if cr.Some? {
      StaysReleasable(c.cfg, w0, c.w);
      RemovalIsEasy(c.cfg, c.w, RemoveFinalizer);
      var _ :- DoOnward(c, RemoveFinalizer);
    }
    return Ok(());
  }

  lemma StaysReleasable(cfg: Config, w: World, t: World)
    requires Permitted(cfg, w, RemoveFinalizer) && Onward(cfg, w, t)
    ensures Permitted(cfg, t, RemoveFinalizer)
  {
    assert t.copy.bkps == map[] <==> t.copy.bkps.Keys == {};
    assert t.copy.rsts == map[] <==> t.copy.rsts.Keys == {};
  }

  function Released(w: World): World {
    if w.cr.None? then w
    else w.(cr := if w.cr.value.deleting then None else Some(w.cr.value.(finalizer := false)))
  }
}
