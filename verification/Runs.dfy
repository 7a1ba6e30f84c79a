// Runs: any sequence of permitted controller calls and other parties' events,
// in any interleaving and broken off anywhere. What is true of all of them.
module Runs {
  import opened Common
  import opened Manifests
  import opened Pods
  import opened Admission
  import opened AttachLock
  import opened Status
  import opened World
  import opened Protocol
  import opened Safety
  import opened Stability

  datatype Event = Env(e: EnvEvent) | Ctl(a: Act)

  function Stepped(cfg: Config, w: World, e: Event): World {
    match e
    case Env(v) => EnvStep(cfg, w, v)
    case Ctl(a) => if Accepts(w, a) then Effect(cfg, w, a) else w
  }

  function After(cfg: Config, start: World, log: seq<Event>): World {
    if log == [] then start else Stepped(cfg, After(cfg, start, log[..|log| - 1]), log[|log| - 1])
  }

  ghost predicate Legal(cfg: Config, start: World, log: seq<Event>) {
    log == [] ||
    (&& Legal(cfg, start, log[..|log| - 1])
     && (log[|log| - 1].Ctl? ==> Permitted(cfg, After(cfg, start, log[..|log| - 1]), log[|log| - 1].a)))
  }

  ghost predicate Run(cfg: Config, start: World, log: seq<Event>, w: World) {
    Init(cfg, start) && Legal(cfg, start, log) && w == After(cfg, start, log)
  }

  lemma RunGoesOn(cfg: Config, start: World, log: seq<Event>, w: World, e: Event)
    requires Run(cfg, start, log, w) && (e.Ctl? ==> Permitted(cfg, w, e.a))
    ensures Run(cfg, start, log + [e], Stepped(cfg, w, e))
  {
    hide Init, Permitted, Stepped;
    assert (log + [e])[..|log|] == log;
  }

  lemma StepKeepsInv(cfg: Config, w: World, e: Event)
    requires Inv(cfg, w) && (e.Ctl? ==> Permitted(cfg, w, e.a))
    ensures Inv(cfg, Stepped(cfg, w, e))
  {
    hide Inv, Permitted, EnvStep, Effect;
    match e
    case Env(v) => EnvKeepsInv(cfg, w, v);
    case Ctl(a) => if Accepts(w, a) { ActKeepsInv(cfg, w, a); }
  }

  lemma {:induction false} RunsKeepInv(cfg: Config, start: World, log: seq<Event>, w: World)
    requires Run(cfg, start, log, w)
    ensures Inv(cfg, w)
  {
    hide Init, Inv, Permitted, Stepped;
    if log == [] {
      InitEstablishesInv(cfg, start);
    } else {
      var before := After(cfg, start, log[..|log| - 1]);
      RunsKeepInv(cfg, start, log[..|log| - 1], before);
      StepKeepsInv(cfg, before, log[|log| - 1]);
    }
  }

  // No data loss. Once the guard was placed on the source volume, its dataset
  // is destroyed only after the replacement PV was Bound to the recorded claim
  // with a whole copy on the target, or after an abort released it and
  // somebody outside had the volume, or PVC and PV both, deleted.
  lemma NoDataLoss(cfg: Config, start: World, log: seq<Event>, w: World)
    requires Run(cfg, start, log, w)
    requires w.src.guardPlaced && !w.src.disk.Whole?
    ensures || (w.bound.Some? && w.bound.value.tgt.Whole?)
            || (w.src.guardReleased && (w.st.phase.Aborting? || w.st.phase.Failed?) &&
                (w.src.outsideDelete || (w.claim.pvDeleted && w.claim.pvcDeleted)))
  {
    RunsKeepInv(cfg, start, log, w);
  }

  // Copy fidelity. The content handed over is the source's content at that
  // moment, whatever attempts failed on the way: WhenIdle in a timely
  // environment, and in either mode if no user of the claim got onto the source
  // since the lock and the settle period is long enough to unmount.
  lemma FaithfulCopy(cfg: Config, start: World, log: seq<Event>, w: World)
    requires Run(cfg, start, log, w)
    requires w.bound.Some? && w.src.guardPlaced
    requires UnmountTimely(cfg) && ((cfg.mode.WhenIdle? && LockTimely(cfg)) || !w.bound.value.entered)
    ensures w.bound.value.src.Whole? && w.bound.value.tgt == w.bound.value.src
  {
    RunsKeepInv(cfg, start, log, w);
  }

  // And nobody can write to it: from the moment quiesced_at is recorded until
  // the unlock, whatever phase that is in, no pod object references the claim
  // and none can be created; once the settle period has run against it, which
  // it has from TargetSelecting on, the last writer has unmounted.
  lemma QuietUntilUnlocked(cfg: Config, start: World, log: seq<Event>, w: World)
    requires Run(cfg, start, log, w)
    requires cfg.mode.WhenIdle? && LockTimely(cfg)
    requires w.gate.lockSince.Some? && (w.st.quiescedAt.Some? || PastSettling(w.st.phase))
    ensures w.st.quiescedAt.Some? && !HasRefPods(cfg, w.gate.pods)
    ensures forall pod: Pod :: ReferencesPvc(pod, cfg.pvcName) ==> !GateEnabled(cfg, w, PodCreate(pod))
    ensures UnmountTimely(cfg) ==>
              w.gate.now >= (w.st.quiescedAt.value + cfg.settleSeconds) * 1000 || PastSettling(w.st.phase) ==>
              !Writable(cfg, w.gate)
  {
    RunsKeepInv(cfg, start, log, w);
    forall pod: Pod | ReferencesPvc(pod, cfg.pvcName) ensures !GateEnabled(cfg, w, PodCreate(pod)) {
      PolicySeesWhatTheControllerSees(pod, cfg.pvcName);
    }
  }

  // WhenClaimed exclusion. While the source has been shut to admitted pods
  // (Admission.ShutToAdmitted) ever since the lock, no pod created under the
  // enforced lock that references the claim is on it.
  lemma NoLateComerOnSource(cfg: Config, start: World, log: seq<Event>, w: World, name: string)
    requires Run(cfg, start, log, w)
    requires cfg.mode.WhenClaimed? && w.gate.lockSince.Some? && !w.gate.wasOpen
    requires name in w.gate.late
    ensures name in w.gate.pods && w.gate.pods[name].nodeName != cfg.srcName
  {
    RunsKeepInv(cfg, start, log, w);
  }

  // And only then: whenever the source is not shut under the enforced lock, two
  // events put such a pod on it.

  lemma {:induction false} LongerThanAll(names: set<string>) returns (n: nat)
    ensures forall s <- names :: |s| < n
  {
    if names == {} {
      n := 0;
    } else {
      var s :| s in names;
      var m := LongerThanAll(names - {s});
      n := if m > |s| then m else |s| + 1;
    }
  }

  lemma AnUnusedName(names: set<string>) returns (name: string)
    ensures name !in names
  {
    var n := LongerThanAll(names);
    name := seq(n, i => 'x');
  }

  lemma OpenSourceAdmits(cfg: Config, w: World, name: string)
    requires Inv(cfg, w) && cfg.mode.WhenClaimed? && Enforced(cfg, w.gate) && !SourceShut(w.gate.srcNode)
    requires name !in w.gate.pods
    ensures var pod := Intruder(cfg.ns, name, cfg.pvcName, w.gate.srcNode.value);
            var v := Stepped(cfg, w, Env(OnGate(PodCreate(pod))));
            var u := Stepped(cfg, v, Env(OnGate(PodBind(name, cfg.srcName))));
            name in u.gate.late && name in u.gate.pods && u.gate.pods[name].nodeName == cfg.srcName
  {
    hide InvObjects, InvHandover, InvLate, InvQuiet, InvFidelity, InvSnapshot, Intruder, Denies, SchedulerAdmits,
      ReferencesPvc, ShutToAdmitted, PvcKey;
    IntruderGetsIn(w.gate.params, cfg.ns, name, cfg.pvcName, w.gate.srcNode.value);
    IntruderIsNamed(cfg.ns, name, cfg.pvcName, w.gate.srcNode.value);
  }

  lemma IntruderIsNamed(ns: string, name: string, pvcName: string, node: Node)
    ensures Intruder(ns, name, pvcName, node).ns == ns && Intruder(ns, name, pvcName, node).name == name
  {
  }

  lemma OpenSourceLetsIn(cfg: Config, start: World, log: seq<Event>, w: World)
    returns (more: seq<Event>, u: World, name: string)
    requires Run(cfg, start, log, w)
    requires cfg.mode.WhenClaimed? && Enforced(cfg, w.gate) && !SourceShut(w.gate.srcNode)
    ensures Run(cfg, start, log + more, u)
    ensures name in u.gate.late && name in u.gate.pods && u.gate.pods[name].nodeName == cfg.srcName
  {
    RunsKeepInv(cfg, start, log, w);
    hide Inv, Init, Stepped, Intruder, Run;
    name := AnUnusedName(w.gate.pods.Keys);
    var pod := Intruder(cfg.ns, name, cfg.pvcName, w.gate.srcNode.value);
    OpenSourceAdmits(cfg, w, name);
    more := [Env(OnGate(PodCreate(pod))), Env(OnGate(PodBind(name, cfg.srcName)))];
    u := Stepped(cfg, Stepped(cfg, w, more[0]), more[1]);
    RunGoesOn(cfg, start, log, w, more[0]);
    RunGoesOn(cfg, start, log + [more[0]], Stepped(cfg, w, more[0]), more[1]);
    assert log + [more[0]] + [more[1]] == log + more;
  }

  // The swap is crash-atomic: from the commit on, the name holds the old PV,
  // nothing, or exactly the stored replacement of it.
  lemma SwapIsAtomic(cfg: Config, start: World, log: seq<Event>, w: World)
    requires Run(cfg, start, log, w)
    requires w.st.phase.Swapping? && w.claim.pv.Some?
    ensures w.st.oldPv.Some? && w.st.pvcRef.Some? && w.st.target.Some? && w.st.source.Some?
    ensures IsOldPv(w.st, w.claim.pv) ||
            (var m := Render(w.st.oldPv.value, w.st.pvcRef.value, w.st.target.value);
             m.Ok? && w.claim.pv.value.uid != w.st.source.value.pvUid &&
             (w.claim.pv.value.body == m.value || w.claim.pv.value.body == WithPolicy(m.value, w.st.originalPolicy)))
    ensures IsOldPv(w.st, w.claim.pv) ==> w.bound.None? && w.claim.pv.value.body.reclaimPolicy == Some(RETAIN)
  {
    RunsKeepInv(cfg, start, log, w);
  }

  // Reaching CleaningUp means the replacement was Bound; the PV under the name
  // is the same volume at its new place, with its original policy restored.
  lemma CleanupFollowsHandover(cfg: Config, start: World, log: seq<Event>, w: World)
    requires Run(cfg, start, log, w)
    requires w.st.phase.CleaningUp? || w.st.phase.Completed?
    ensures w.bound.Some? && w.bound.value.tgt.Whole?
    ensures w.st.oldPv.Some? && w.st.pvcRef.Some? && w.st.target.Some?
    ensures w.claim.pv.Some? ==>
              var body := w.claim.pv.value.body;
              && SameVolume(w.st.oldPv.value, body)
              && PointsAt(body, w.st.pvcRef.value, w.st.target.value)
              && body.reclaimPolicy == if w.st.originalPolicy.Some? then w.st.originalPolicy else Some(RETAIN)
  {
    RunsKeepInv(cfg, start, log, w);
    RenderIsTheReplacement(w.st.oldPv.value, w.st.pvcRef.value, w.st.target.value, w.st.newPv.value);
  }

  // What the record says of the source is true of it for as long as it is
  // there, and what it says of the target is what the new volume is.
  lemma RecordIsTrue(cfg: Config, start: World, log: seq<Event>, w: World)
    requires Run(cfg, start, log, w) && w.st.source.Some?
    ensures w.st.source.value.node == cfg.srcName && w.st.source.value.volumeHandle == cfg.handle
    ensures w.src.zv.Some? ==>
              && w.src.zv.value.info.ownerNodeId == w.st.source.value.nodeId
              && w.src.zv.value.info.poolName == w.st.source.value.pool
              && w.src.zv.value.info.capacity == w.st.source.value.capacityBytes
    ensures w.copy.zv.Some? ==>
              && w.st.target.Some? && w.st.target.value.newVolumeHandle != cfg.handle
              && w.copy.zv.value.info.ownerNodeId == w.st.target.value.nodeId
              && w.copy.zv.value.info.poolName == w.st.target.value.pool && w.copy.zv.value.info.snapname.None?
  {
    RunsKeepInv(cfg, start, log, w);
  }

  // From Quiescing to Swapping the claim's key is in exactly its mode's list.
  lemma LockIsHeld(cfg: Config, start: World, log: seq<Event>, w: World)
    requires Run(cfg, start, log, w)
    requires Rank(Quiescing) <= Rank(w.st.phase) <= Rank(Swapping)
    ensures Key(cfg) in ListFor(w.gate.params, cfg.mode) && Key(cfg) !in OtherList(w.gate.params, cfg.mode)
  {
    RunsKeepInv(cfg, start, log, w);
  }

  // The target-snapshot handshake: by the time cleanup deletes the source
  // volume, the received copy of the transfer snapshot is destroyed, or its
  // node was lost, or the new volume is gone, and no transfer CR is left.
  lemma HandshakeBeforeDelete(cfg: Config, start: World, log: seq<Event>, w: World)
    requires Run(cfg, start, log, w) && w.st.phase.CleaningUp?
    requires Legal(cfg, start, log + [Ctl(ToSource(DeleteSrcZv))])
    ensures SnapshotSettled(w.copy, w.nodes.tgtLost) && NoTransferCrs(w.copy)
  {
    RunsKeepInv(cfg, start, log, w);
    assert (log + [Ctl(ToSource(DeleteSrcZv))])[..|log|] == log;
  }

  // Attempt discipline: every transfer CR is the recorded attempt's, at most
  // max(1, maxAttempts) attempts are ever recorded, none is left at the end.
  lemma AttemptDiscipline(cfg: Config, start: World, log: seq<Event>, w: World)
    requires Run(cfg, start, log, w)
    ensures forall n <- w.copy.bkps.Keys + w.copy.rsts.Keys ::
              w.st.transfer.Some? && n == w.st.transfer.value.attempt && 1 <= n <= AttemptLimit(cfg)
    ensures w.st.phase.Completed? ==> NoTransferCrs(w.copy)
  {
    RunsKeepInv(cfg, start, log, w);
  }

  // The last attempt on record; none yet is 0.
  function Attempt(s: Status): nat {
    if s.transfer.Some? then s.transfer.value.attempt else 0
  }

  lemma RecordStep(cfg: Config, w: World, a: Act)
    requires InvRecord(cfg, w.st) && Permitted(cfg, w, a) && Accepts(w, a)
    ensures var t := Effect(cfg, w, a);
            Attempt(t.st) == Attempt(w.st) ||
            (Attempt(t.st) == Attempt(w.st) + 1 && NoTransferCrs(w.copy) && t.copy == w.copy)
  {
  }

  lemma AttemptStep(cfg: Config, w: World, e: Event)
    requires Inv(cfg, w) && (e.Ctl? ==> Permitted(cfg, w, e.a))
    ensures var t := Stepped(cfg, w, e);
            Attempt(t.st) == Attempt(w.st) ||
            (Attempt(t.st) == Attempt(w.st) + 1 && NoTransferCrs(w.copy) && NoTransferCrs(t.copy))
  {
    assert InvRecord(cfg, w.st);
    hide Inv, EnvStep, Effect, Accepts, Permitted, NoTransferCrs;
    match e
    case Env(v) => OthersDoNotRecord(cfg, w, v);
    case Ctl(a) => if Accepts(w, a) { RecordStep(cfg, w, a); }
  }

  // The cluster after the first i events.
  function At(cfg: Config, start: World, log: seq<Event>, i: nat): World
    requires i <= |log|
  {
    After(cfg, start, log[..i])
  }

  lemma {:induction false} PrefixesAreLegal(cfg: Config, start: World, log: seq<Event>, i: nat)
    requires Legal(cfg, start, log) && i <= |log|
    ensures Legal(cfg, start, log[..i])
    decreases |log|
  {
    if i < |log| {
      PrefixesAreLegal(cfg, start, log[..|log| - 1], i);
      assert log[..|log| - 1][..i] == log[..i];
    } else {
      assert log[..i] == log;
    }
  }

  lemma NextOf(cfg: Config, start: World, log: seq<Event>, i: nat)
    requires Init(cfg, start) && Legal(cfg, start, log) && i < |log|
    ensures At(cfg, start, log, i + 1) == Stepped(cfg, At(cfg, start, log, i), log[i])
    ensures Inv(cfg, At(cfg, start, log, i)) && Inv(cfg, At(cfg, start, log, i + 1))
    ensures log[i].Ctl? ==> Permitted(cfg, At(cfg, start, log, i), log[i].a)
  {
    hide Inv, Permitted, Init, Effect, EnvStep, Accepts;
    PrefixesAreLegal(cfg, start, log, i);
    PrefixesAreLegal(cfg, start, log, i + 1);
    RunsKeepInv(cfg, start, log[..i], At(cfg, start, log, i));
    RunsKeepInv(cfg, start, log[..i + 1], At(cfg, start, log, i + 1));
    assert log[..i + 1][..i] == log[..i];
  }

  lemma {:induction false} AttemptsClimb(cfg: Config, start: World, log: seq<Event>, i: nat, j: nat)
    requires Init(cfg, start) && Legal(cfg, start, log) && i <= j <= |log|
    ensures Attempt(At(cfg, start, log, i).st) <= Attempt(At(cfg, start, log, j).st)
    decreases j
  {
    hide Inv, Permitted, Init, Stepped, At, Legal;
    if i < j {
      AttemptsClimb(cfg, start, log, i, j - 1);
      NextOf(cfg, start, log, j - 1);
      AttemptStep(cfg, At(cfg, start, log, j - 1), log[j - 1]);
    }
  }

  // The instant attempt k is recorded.
  lemma {:induction false} RecordedAt(cfg: Config, start: World, log: seq<Event>, j: nat, k: nat) returns (m: nat)
    requires Init(cfg, start) && Legal(cfg, start, log) && j <= |log| && 1 <= k <= Attempt(At(cfg, start, log, j).st)
    ensures m < j && Attempt(At(cfg, start, log, m).st) == k - 1 && Attempt(At(cfg, start, log, m + 1).st) == k
    ensures NoTransferCrs(At(cfg, start, log, m).copy) && NoTransferCrs(At(cfg, start, log, m + 1).copy)
    decreases j
  {
    hide Inv, Permitted, Stepped, Legal, NoTransferCrs;
    assert j > 0;
    NextOf(cfg, start, log, j - 1);
    AttemptStep(cfg, At(cfg, start, log, j - 1), log[j - 1]);
    if k <= Attempt(At(cfg, start, log, j - 1).st) {
      m := RecordedAt(cfg, start, log, j - 1, k);
    } else {
      m := j - 1;
    }
  }

  predicate HasTransferCr(x: CopyVol, n: nat) {
    n in x.bkps || n in x.rsts
  }

  // Attempts never overlap. In any run that has got to attempt k there is an
  // instant that parts k from all before it: k - 1 is on record before and k
  // after, no transfer CR of any attempt exists, earlier in the run none of k
  // or later ever did, and from then on none of an attempt before k ever does.
  // So attempts are numbered consecutively from 1.
  lemma AttemptsDoNotOverlap(cfg: Config, start: World, log: seq<Event>, w: World, k: nat) returns (m: nat)
    requires Run(cfg, start, log, w) && 1 <= k <= Attempt(w.st)
    ensures m < |log| && Attempt(At(cfg, start, log, m).st) == k - 1 && Attempt(At(cfg, start, log, m + 1).st) == k
    ensures NoTransferCrs(At(cfg, start, log, m).copy) && NoTransferCrs(At(cfg, start, log, m + 1).copy)
    ensures forall i: nat, n: nat | i <= m && HasTransferCr(At(cfg, start, log, i).copy, n) :: n < k
    ensures forall i: nat, n: nat | m < i <= |log| && HasTransferCr(At(cfg, start, log, i).copy, n) :: n >= k
  {
    assert log[..|log|] == log && At(cfg, start, log, |log|) == w;
    hide Inv, Init, Legal, NoTransferCrs, At, HasTransferCr;
    m := RecordedAt(cfg, start, log, |log|, k);
    forall i: nat, n: nat | i <= m && HasTransferCr(At(cfg, start, log, i).copy, n) ensures n < k {
      OfTheRecorded(cfg, start, log, i, n);
      AttemptsClimb(cfg, start, log, i, m);
    }
    forall i: nat, n: nat | m < i <= |log| && HasTransferCr(At(cfg, start, log, i).copy, n) ensures n >= k {
      OfTheRecorded(cfg, start, log, i, n);
      AttemptsClimb(cfg, start, log, m + 1, i);
    }
  }

  lemma OfTheRecorded(cfg: Config, start: World, log: seq<Event>, i: nat, n: nat)
    requires Init(cfg, start) && Legal(cfg, start, log) && i <= |log| && HasTransferCr(At(cfg, start, log, i).copy, n)
    ensures n == Attempt(At(cfg, start, log, i).st)
  {
    hide Init, Legal, InvRecord, InvClaim, InvSource, InvEnds, InvTarget, InvSwap, InvAccess;
    PrefixesAreLegal(cfg, start, log, i);
    RunsKeepInv(cfg, start, log[..i], At(cfg, start, log, i));
  }

  // ---------------------------------------------------- finitely many phases

  lemma WriteClimbs(cfg: Config, w: World, t: Status)
    requires Inv(cfg, w) && Move(cfg, w, t)
    ensures t.phase != w.st.phase ==> Rank(w.st.phase) < Rank(t.phase)
    ensures Committed(w.st.phase) ==> Committed(t.phase)
  {
    hide Inv, Change;
    if t.phase != w.st.phase { ChangeClimbs(cfg, w, t); }
  }

  lemma EventClimbs(cfg: Config, w: World, e: Event)
    requires Inv(cfg, w)
    requires e.Ctl? ==> Permitted(cfg, w, e.a)
    ensures var t := Stepped(cfg, w, e);
            && (t.st.phase != w.st.phase ==> Rank(w.st.phase) < Rank(t.st.phase))
            && (Committed(w.st.phase) ==> Committed(t.st.phase))
  {
    hide Inv, EnvStep, Move;
    match e
    case Env(v) => OthersDoNotRecord(cfg, w, v);
    case Ctl(a) => if a.WriteStatus? && Accepts(w, a) { WriteClimbs(cfg, w, a.st); }
  }

  lemma OthersDoNotRecord(cfg: Config, w: World, e: EnvEvent)
    ensures EnvStep(cfg, w, e).st == w.st
  {
  }

  lemma StartsPending(cfg: Config, w: World)
    requires Init(cfg, w)
    ensures w.st.phase.Pending?
  {
  }

  function PhaseChanges(cfg: Config, start: World, log: seq<Event>): nat {
    if log == [] then 0
    else
      var before := log[..|log| - 1];
      PhaseChanges(cfg, start, before) +
      if After(cfg, start, log).st.phase == After(cfg, start, before).st.phase then 0 else 1
  }

  // A run makes at most as many phase changes as its last phase ranks, so
  // never more than thirteen.
  lemma {:induction false} FewPhaseChanges(cfg: Config, start: World, log: seq<Event>, w: World)
    requires Run(cfg, start, log, w)
    ensures PhaseChanges(cfg, start, log) <= Rank(w.st.phase) <= 13
  {
    hide Init, Inv, Permitted, Stepped;
    if log == [] {
      StartsPending(cfg, start);
    } else {
      var before := After(cfg, start, log[..|log| - 1]);
      RunsKeepInv(cfg, start, log[..|log| - 1], before);
      FewPhaseChanges(cfg, start, log[..|log| - 1], before);
      EventClimbs(cfg, before, log[|log| - 1]);
    }
  }

  // Roll forward only: once committed, no continuation, whatever is deleted or
  // crashes, leaves Swapping, CleaningUp and Completed.
  lemma {:induction false} CommitIsForGood(cfg: Config, start: World, log: seq<Event>, more: seq<Event>)
    requires Init(cfg, start) && Legal(cfg, start, log + more)
    ensures Legal(cfg, start, log)
    ensures Committed(After(cfg, start, log).st.phase) ==> Committed(After(cfg, start, log + more).st.phase)
  {
    hide Init, Inv, Permitted, Stepped;
    if more == [] {
      assert log + more == log;
    } else {
      assert (log + more)[..|log + more| - 1] == log + more[..|more| - 1];
      var before := After(cfg, start, log + more[..|more| - 1]);
      CommitIsForGood(cfg, start, log, more[..|more| - 1]);
      RunsKeepInv(cfg, start, log + more[..|more| - 1], before);
      EventClimbs(cfg, before, more[|more| - 1]);
    }
  }

  // ---------------------------------------------------------- endings

  lemma UnwoundStays(cfg: Config, w: World, e: Event)
    requires Inv(cfg, w) && w.st.phase.Failed? && Unwound(cfg, w)
    requires e.Ctl? ==> Permitted(cfg, w, e.a) && Accepts(w, e.a)
    ensures Unwound(cfg, match e case Env(v) => EnvStep(cfg, w, v) case Ctl(a) => Effect(cfg, w, a))
  {
    match e
    case Env(v) => EventStable(cfg, w, v);
    case Ctl(a) =>
  }

  lemma {:induction false} AbortedRunsAreUnwound(cfg: Config, start: World, log: seq<Event>, w: World)
    requires Run(cfg, start, log, w)
    requires w.failedFrom == Some(Aborting) || w.failedFrom == Some(Pending)
    ensures Unwound(cfg, w)
  {
    RunsKeepInv(cfg, start, log, w);
    if log != [] {
      var before, e := After(cfg, start, log[..|log| - 1]), log[|log| - 1];
      RunsKeepInv(cfg, start, log[..|log| - 1], before);
      if before.st.phase.Failed? {
        FailedFromIsFixed(cfg, before, e);
        AbortedRunsAreUnwound(cfg, start, log[..|log| - 1], before);
        if e.Env? || Accepts(before, e.a) { UnwoundStays(cfg, before, e); }
      } else {
        FailingUnwound(cfg, before, e);
      }
    }
  }

  lemma FailedFromIsFixed(cfg: Config, w: World, e: Event)
    requires Inv(cfg, w) && w.st.phase.Failed?
    requires e.Ctl? ==> Permitted(cfg, w, e.a)
    ensures var t := Stepped(cfg, w, e);
            t.failedFrom == w.failedFrom
  {
    if e.Env? { EventStable(cfg, w, e.e); }
  }

  lemma FailingUnwound(cfg: Config, w: World, e: Event)
    requires Inv(cfg, w) && !w.st.phase.Failed?
    requires e.Ctl? ==> Permitted(cfg, w, e.a)
    ensures var t := Stepped(cfg, w, e);
            t.failedFrom == Some(Aborting) || t.failedFrom == Some(Pending) ==> Unwound(cfg, t)
  {
    if e.Env? { EventStable(cfg, w, e.e); }
  }

  // Abort soundness, and its exact extent. A run ends Failed in four places;
  // it is unwound (no target volume, no transfer CR, no lock, no guard, the
  // original policy back on the original PV) exactly when it failed before
  // touching anything or through the abort path. Failing out of
  // TargetSelecting or Committing leaves the claim locked for good.
  lemma FailedMeansUnwound(cfg: Config, start: World, log: seq<Event>, w: World)
    requires Run(cfg, start, log, w) && w.st.phase.Failed?
    ensures Unwound(cfg, w) <==> w.failedFrom == Some(Aborting) || w.failedFrom == Some(Pending)
    ensures w.failedFrom.Some?
  {
    RunsKeepInv(cfg, start, log, w);
    if w.failedFrom == Some(Aborting) || w.failedFrom == Some(Pending) {
      AbortedRunsAreUnwound(cfg, start, log, w);
    } else {
      assert w.gate.lockSince.None? ==> w.failedFrom != Some(TargetSelecting) && w.failedFrom != Some(Committing);
    }
  }
}
