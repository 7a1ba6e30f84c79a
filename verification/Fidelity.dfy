// Who can still write to the source while it is copied: what FaithfulCopy asks
// of a WhenClaimed run, in terms of the pods in it, and when it can fail.
module Fidelity {
  import opened Pods
  import opened Admission
  import opened World
  import opened Protocol
  import opened Safety
  import opened Runs

  // A user of the claim gets onto the source other than through the policy: a
  // pod created with its node before the lock is enforced, or one from before
  // that is bound because of a bypassing toleration.
  predicate Slips(cfg: Config, w: World, e: Event) {
    && e.Env? && e.e.OnGate?
    && match e.e.g {
         case PodCreate(pod) => !Enforced(cfg, w.gate) && UsesSource(cfg, pod)
         case PodBind(name, node) =>
           && node == cfg.srcName && name in w.gate.pods && name !in w.gate.late
           && ReferencesPvc(w.gate.pods[name], cfg.pvcName) && TolerationsBypass(w.gate.pods[name])
         case _ => false
       }
  }

  lemma CreatedEarly(cfg: Config, w: World, pod: Pod)
    requires Inv(cfg, w) && cfg.mode.WhenClaimed? && GateEnabled(cfg, w, PodCreate(pod))
    requires w.gate.lockSince.Some? && UsesSource(cfg, pod)
    ensures !Enforced(cfg, w.gate)
  {
    hide InvClaim, InvSource, InvEnds, InvAttempts, InvTarget, InvSwap, InvHandover, InvLate, InvQuiet, InvFidelity,
      InvSnapshot, InvNodes;
    PolicySeesWhatTheControllerSees(pod, cfg.pvcName);
  }

  lemma BoundByBypass(cfg: Config, w: World, name: string)
    requires Inv(cfg, w) && cfg.mode.WhenClaimed? && GateEnabled(cfg, w, PodBind(name, cfg.srcName))
    requires w.gate.lockSince.Some? && !w.gate.wasOpen
    ensures name !in w.gate.late && TolerationsBypass(w.gate.pods[name])
  {
    hide InvObjects, InvHandover, InvLock, InvQuiet, InvFidelity, InvSnapshot, InvNodes, SchedulerAdmits;
    if !TolerationsBypass(w.gate.pods[name]) { NoBypassNoBinding(w.gate.pods[name], w.gate.srcNode.value); }
  }

  lemma EntersBySlipping(cfg: Config, w: World, e: Event)
    requires Inv(cfg, w) && cfg.mode.WhenClaimed?
    requires !w.gate.entered && !w.gate.wasOpen && Stepped(cfg, w, e).gate.entered
    ensures Slips(cfg, w, e)
  {
    hide Inv, SchedulerAdmits, Denies, TolerationsBypass;
    match e.e.g {
      case PodCreate(pod) => CreatedEarly(cfg, w, pod);
      case PodBind(name, node) => BoundByBypass(cfg, w, name);
    }
  }

  lemma StaysOpened(cfg: Config, w: World, e: Event)
    ensures w.gate.wasOpen ==> Stepped(cfg, w, e).gate.wasOpen
  {
  }

  lemma StartsUnentered(cfg: Config, w: World)
    requires Init(cfg, w)
    ensures !w.gate.entered
  {
  }

  // The step of a run at which the first user of the claim got onto a source
  // that stayed shut.
  lemma {:induction false} EnteredBySlipping(cfg: Config, start: World, log: seq<Event>, w: World) returns (i: nat)
    requires Run(cfg, start, log, w)
    requires cfg.mode.WhenClaimed? && w.gate.entered && !w.gate.wasOpen
    ensures i < |log| && Slips(cfg, At(cfg, start, log, i), log[i])
  {
    hide Init, Inv, Permitted, Stepped, Slips;
    StartsUnentered(cfg, start);
    var n := |log| - 1;
    var before := After(cfg, start, log[..n]);
    RunsKeepInv(cfg, start, log[..n], before);
    StaysOpened(cfg, before, log[n]);
    if before.gate.entered {
      i := EnteredBySlipping(cfg, start, log[..n], before);
      assert log[..n][..i] == log[..i];
    } else {
      EntersBySlipping(cfg, before, log[n]);
      i := n;
    }
  }

  lemma HandoverRemembers(cfg: Config, w: World)
    requires Inv(cfg, w) && w.bound.Some?
    ensures w.bound.value.entered ==> w.gate.entered
  {
  }

  // WhenClaimed copy fidelity: on a source shut since the lock, with nobody
  // slipping in, what is handed over is the source's content at that moment.
  lemma FaithfulWhenShut(cfg: Config, start: World, log: seq<Event>, w: World)
    requires Run(cfg, start, log, w)
    requires cfg.mode.WhenClaimed? && UnmountTimely(cfg) && !w.gate.wasOpen
    requires forall i: nat | i < |log| :: !Slips(cfg, At(cfg, start, log, i), log[i])
    requires w.bound.Some? && w.src.guardPlaced
    ensures w.bound.value.src.Whole? && w.bound.value.tgt == w.bound.value.src
  {
    hide Inv, Run, Slips, At;
    RunsKeepInv(cfg, start, log, w);
    HandoverRemembers(cfg, w);
    if w.gate.entered {
      var i := EnteredBySlipping(cfg, start, log, w);
    }
    FaithfulCopy(cfg, start, log, w);
  }

  // ------------------------------------------- when the bytes can still change

  function AfterAll(cfg: Config, w: World, es: seq<EnvEvent>): World
    decreases |es|
  {
    if es == [] then w else AfterAll(cfg, EnvStep(cfg, w, es[0]), es[1..])
  }

  predicate NodeLeftAlone(es: seq<EnvEvent>) {
    forall e <- es :: !(e.OnGate? && e.g.SrcNodeIs?)
  }

  predicate WaitsAtTheDoor(cfg: Config, g: Gate, n: string) {
    && g.srcNode.Some? && n in g.pods
    && ReferencesPvc(g.pods[n], cfg.pvcName) && !IsScheduled(g.pods[n]) && SchedulerAdmits(g.pods[n], g.srcNode.value)
  }

  // Some user of the claim can still be bound to the source: any pod can, or
  // one that waits.
  predicate CanGetOn(cfg: Config, g: Gate) {
    && g.srcNode.Some?
    && (|| !ShutToAdmitted(g.srcNode.value)
        || exists n <- g.pods :: WaitsAtTheDoor(cfg, g, n))
  }

  // Out of everybody's reach.
  predicate Sound(cfg: Config, w: World) {
    && cfg.mode.WhenClaimed? && Enforced(cfg, w.gate) && UnderLock(w.st.phase)
    && !Writable(cfg, w.gate) && !CanGetOn(cfg, w.gate)
  }

  lemma NobodyNewGetsOn(cfg: Config, w: World, pod: Pod)
    requires Inv(cfg, w) && Sound(cfg, w) && GateEnabled(cfg, w, PodCreate(pod)) && ReferencesPvc(pod, cfg.pvcName)
    ensures !IsScheduled(pod) && cfg.srcName != ""
    ensures w.gate.srcNode.Some? ==> !SchedulerAdmits(pod, w.gate.srcNode.value)
  {
    hide InvClaim, InvSource, InvEnds, InvAttempts, InvTarget, InvSwap, InvHandover, InvLate, InvQuiet, InvFidelity,
      InvSnapshot, InvNodes, SchedulerAdmits, ShutToAdmitted, Denies, ReferencesPvc, Writable;
    if w.gate.srcNode.Some? {
      ClaimableExclusion(w.gate.params, pod, cfg.pvcName, w.gate.srcNode.value);
    } else {
      ClaimableExclusion(w.gate.params, pod, cfg.pvcName, Node("", true, []));
    }
  }

  lemma CreationIsSound(cfg: Config, w: World, pod: Pod)
    requires Inv(cfg, w) && Sound(cfg, w) && GateEnabled(cfg, w, PodCreate(pod))
    ensures Sound(cfg, EnvEffect(cfg, w, OnGate(PodCreate(pod))))
  {
    hide Inv, SchedulerAdmits, ShutToAdmitted, Denies, ReferencesPvc;
    if ReferencesPvc(pod, cfg.pvcName) { NobodyNewGetsOn(cfg, w, pod); }
  }

  lemma GuardIsOn(cfg: Config, w: World)
    requires Inv(cfg, w) && UnderLock(w.st.phase)
    ensures w.src.zv.Some? ==> w.src.zv.value.guard
  {
  }

  lemma GateStepIsSound(cfg: Config, w: World, e: GateEvent)
    requires Inv(cfg, w) && Sound(cfg, w) && GateEnabled(cfg, w, e) && !e.SrcNodeIs?
    ensures Sound(cfg, EnvEffect(cfg, w, OnGate(e)))
  {
    if e.PodCreate? {
      CreationIsSound(cfg, w, e.pod);
    } else {
      hide Inv, ShutToAdmitted, Denies, SchedulerAdmits;
    }
  }

  lemma SoundStep(cfg: Config, w: World, e: EnvEvent)
    requires Inv(cfg, w) && Sound(cfg, w) && !(e.OnGate? && e.g.SrcNodeIs?)
    ensures Sound(cfg, EnvStep(cfg, w, e)) && EnvStep(cfg, w, e).src.disk == w.src.disk
  {
    GuardIsOn(cfg, w);
    if Enabled(cfg, w, e) && e.OnGate? {
      GateStepIsSound(cfg, w, e.g);
      hide Inv, Sound, GateEffect, GateEnabled;
    } else {
      hide Inv, CanGetOn, Enforced, InUse, CopyEffect, ClaimEffect, HandsOver;
    }
  }

  lemma {:induction false} SoundStays(cfg: Config, w: World, es: seq<EnvEvent>)
    requires Inv(cfg, w) && Sound(cfg, w) && NodeLeftAlone(es)
    ensures AfterAll(cfg, w, es).src.disk == w.src.disk
    decreases |es|
  {
    hide Inv, Sound, EnvStep;
    if es != [] {
      assert es[0] in es && forall e <- es[1..] :: e in es;
      SoundStep(cfg, w, es[0]);
      EnvKeepsInv(cfg, w, es[0]);
      SoundStays(cfg, EnvStep(cfg, w, es[0]), es[1..]);
    }
  }

  lemma Then(cfg: Config, w: World, e: EnvEvent, es: seq<EnvEvent>)
    ensures AfterAll(cfg, w, [e] + es) == AfterAll(cfg, EnvStep(cfg, w, e), es)
  {
    hide EnvStep;
    assert ([e] + es)[1..] == es;
  }

  ghost predicate Spoils(cfg: Config, w: World, es: seq<EnvEvent>) {
    NodeLeftAlone(es) && AfterAll(cfg, w, es).src.disk != w.src.disk
  }

  lemma WriterSpoils(cfg: Config, w: World) returns (es: seq<EnvEvent>)
    requires Writable(cfg, w.gate) && w.src.disk.Whole? && w.bound.None?
    ensures Spoils(cfg, w, es)
  {
    hide Writable;
    es := [OnSource(SrcWrite(w.src.disk.content + 1))];
    Then(cfg, w, es[0], []);
    assert es == [es[0]] + [];
  }

  lemma SpoilsLater(cfg: Config, w: World, e: EnvEvent, es: seq<EnvEvent>)
    requires Spoils(cfg, EnvStep(cfg, w, e), es) && EnvStep(cfg, w, e).src == w.src && !(e.OnGate? && e.g.SrcNodeIs?)
    ensures Spoils(cfg, w, [e] + es)
  {
    hide EnvStep;
    Then(cfg, w, e, es);
  }

  lemma WaitingSpoils(cfg: Config, w: World, n: string) returns (es: seq<EnvEvent>)
    requires Inv(cfg, w) && UnderLock(w.st.phase) && WaitsAtTheDoor(cfg, w.gate, n)
    requires w.src.disk.Whole? && w.bound.None?
    ensures Spoils(cfg, w, es)
  {
    var e := OnGate(PodBind(n, cfg.srcName));
    var u := EnvStep(cfg, w, e);
    assert n in u.gate.pods && UsesSource(cfg, u.gate.pods[n]) by {
      hide InvObjects, InvAccess, SchedulerAdmits;
    }
    hide Inv, SchedulerAdmits, Spoils;
    es := WriterSpoils(cfg, u);
    SpoilsLater(cfg, w, e, es);
    es := [e] + es;
  }

  lemma IntruderWaits(cfg: Config, w: World, n: string)
    requires Inv(cfg, w) && cfg.mode.WhenClaimed? && Enforced(cfg, w.gate)
    requires w.gate.srcNode.Some? && !ShutToAdmitted(w.gate.srcNode.value) && n !in w.gate.pods
    ensures var e := OnGate(PodCreate(Intruder(cfg.ns, n, cfg.pvcName, w.gate.srcNode.value)));
            WaitsAtTheDoor(cfg, EnvStep(cfg, w, e).gate, n) && EnvStep(cfg, w, e).src == w.src
  {
    IntruderGetsIn(w.gate.params, cfg.ns, n, cfg.pvcName, w.gate.srcNode.value);
    IntruderIsNamed(cfg.ns, n, cfg.pvcName, w.gate.srcNode.value);
    hide InvObjects, InvHandover, InvLate, InvQuiet, InvFidelity, InvSnapshot, Intruder, Denies, SchedulerAdmits,
      ReferencesPvc, ShutToAdmitted;
  }

  lemma IntruderSpoils(cfg: Config, w: World) returns (es: seq<EnvEvent>)
    requires Inv(cfg, w) && cfg.mode.WhenClaimed? && Enforced(cfg, w.gate) && UnderLock(w.st.phase)
    requires w.gate.srcNode.Some? && !ShutToAdmitted(w.gate.srcNode.value)
    requires w.src.disk.Whole? && w.bound.None?
    ensures Spoils(cfg, w, es)
  {
    var n := AnUnusedName(w.gate.pods.Keys);
    var e := OnGate(PodCreate(Intruder(cfg.ns, n, cfg.pvcName, w.gate.srcNode.value)));
    IntruderWaits(cfg, w, n);
    EnvKeepsInv(cfg, w, e);
    assert EnvStep(cfg, w, e).st == w.st && EnvStep(cfg, w, e).bound == w.bound;
    hide Inv, EnvStep, WaitsAtTheDoor, Spoils, Intruder;
    es := WaitingSpoils(cfg, EnvStep(cfg, w, e), n);
    SpoilsLater(cfg, w, e, es);
    es := [e] + es;
  }

  // From the enforced lock to the hand-over of a WhenClaimed run, and as long
  // as nobody touches the source's node object, the source's bytes can still
  // change exactly when somebody uses them, may still be unmounting, or can
  // get on: as a waiting pod the node admits, or through the policy because
  // the node is not shut to what it admits.
  lemma SpoilableIff(cfg: Config, start: World, log: seq<Event>, w: World)
    requires Run(cfg, start, log, w)
    requires cfg.mode.WhenClaimed? && Enforced(cfg, w.gate) && UnderLock(w.st.phase)
    requires w.src.disk.Whole? && w.bound.None?
    ensures Writable(cfg, w.gate) || CanGetOn(cfg, w.gate) <==>
            exists es: seq<EnvEvent> :: Spoils(cfg, w, es)
  {
    RunsKeepInv(cfg, start, log, w);
    if Writable(cfg, w.gate) {
      var es := WriterSpoils(cfg, w);
    } else if CanGetOn(cfg, w.gate) {
      if ShutToAdmitted(w.gate.srcNode.value) {
        var n :| WaitsAtTheDoor(cfg, w.gate, n);
        var es := WaitingSpoils(cfg, w, n);
      } else {
        var es := IntruderSpoils(cfg, w);
      }
    } else {
      forall es: seq<EnvEvent> ensures !Spoils(cfg, w, es) {
        if NodeLeftAlone(es) { SoundStays(cfg, w, es); }
      }
    }
  }
}
