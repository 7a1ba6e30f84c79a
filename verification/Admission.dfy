// The attach lock's ValidatingAdmissionPolicy (deploy/admission.yaml) as
// predicates over pods, and what it keeps off the source node.
module Admission {
  import opened Common
  import opened Pods
  import opened AttachLock

  // "namespace/pvc" for every claim the pod references.
  function KeysOf(ns: string, podName: string, volumes: seq<PodVolume>): seq<string> {
    if volumes == [] then []
    else
      var v := volumes[0];
      var rest := KeysOf(ns, podName, volumes[1..]);
      if v.claim.Some? || v.ephemeral
      then [ns + "/" + (if v.claim.Some? then v.claim.value else podName + "-" + v.name)] + rest
      else rest
  }

  function ReferencedKeys(pod: Pod): seq<string> {
    KeysOf(pod.ns, pod.name, pod.volumes)
  }

  // Does one toleration let its pod past a cordon or the evacuate taint?
  predicate TolerationBypasses(t: Toleration) {
    || ((Blank(t.key) || t.key.value == UNSCHEDULABLE) && (Blank(t.effect) || t.effect.value == NO_SCHEDULE))
    || (t.key == Some(EVACUATE_TAINT) && (Blank(t.effect) || HardEffect(t.effect.value)))
  }

  predicate BypassesCordon(pod: Pod) {
    pod.nodeName != "" || exists t <- pod.tolerations :: TolerationBypasses(t)
  }

  predicate Denies(params: ParamsSpec, pod: Pod) {
    || (exists k <- ReferencedKeys(pod) :: k in params.pvcKeys)
    || (BypassesCordon(pod) && exists k <- ReferencedKeys(pod) :: k in params.claimableKeys)
  }

  // The controller's listing and the policy agree on which pods reference a
  // claim: the policy's keys are exactly the controller's names, qualified.
  lemma {:induction false} KeysAreNames(ns: string, podName: string, volumes: seq<PodVolume>)
    ensures |KeysOf(ns, podName, volumes)| == |ClaimNames(podName, volumes)|
    ensures forall i | 0 <= i < |KeysOf(ns, podName, volumes)| ::
              KeysOf(ns, podName, volumes)[i] == PvcKey(ns, ClaimNames(podName, volumes)[i])
  {
    if volumes != [] {
      KeysAreNames(ns, podName, volumes[1..]);
    }
  }

  lemma PvcKeyInjective(ns: string, a: string, b: string)
    requires PvcKey(ns, a) == PvcKey(ns, b)
    ensures a == b
  {
    assert a == PvcKey(ns, a)[|ns| + 1..];
    assert b == PvcKey(ns, b)[|ns| + 1..];
  }

  lemma PolicySeesWhatTheControllerSees(pod: Pod, pvcName: string)
    ensures PvcKey(pod.ns, pvcName) in ReferencedKeys(pod) <==> ReferencesPvc(pod, pvcName)
  {
    var keys, names := ReferencedKeys(pod), PodPvcNames(pod);
    KeysAreNames(pod.ns, pod.name, pod.volumes);
    if PvcKey(pod.ns, pvcName) in keys {
      var i :| 0 <= i < |keys| && keys[i] == PvcKey(pod.ns, pvcName);
      PvcKeyInjective(pod.ns, pvcName, names[i]);
      assert names[i] == pvcName;
    }
    if pvcName in names {
      var i :| 0 <= i < |names| && names[i] == pvcName;
      assert keys[i] == PvcKey(pod.ns, pvcName);
    }
  }

  // WhenIdle: no pod that references a locked claim is admitted.
  lemma LockedClaimAdmitsNobody(params: ParamsSpec, pod: Pod, pvcName: string)
    requires PvcKey(pod.ns, pvcName) in params.pvcKeys
    requires ReferencesPvc(pod, pvcName)
    ensures Denies(params, pod)
  {
    PolicySeesWhatTheControllerSees(pod, pvcName);
  }

  // Where a pod the policy admits cannot go: a cordon, or an effect NoSchedule
  // under one of the three keys whose toleration always counts as a bypass.
  predicate ShutToAdmitted(node: Node) {
    || node.unschedulable
    || exists t <- node.taints :: t.effect == NO_SCHEDULE && t.key in {EVACUATE_TAINT, UNSCHEDULABLE, ""}
  }

  // Without a toleration the policy would deny, the scheduler will not bind a
  // pod to such a node.
  lemma NoBypassNoBinding(pod: Pod, node: Node)
    requires !exists t <- pod.tolerations :: TolerationBypasses(t)
    requires ShutToAdmitted(node)
    ensures !SchedulerAdmits(pod, node)
  {
    if node.unschedulable {
      forall t <- pod.tolerations ensures !Tolerates(t, Taint(UNSCHEDULABLE, None, NO_SCHEDULE)) {}
    } else {
      var taint :|
        taint in node.taints && taint.effect == NO_SCHEDULE && taint.key in {EVACUATE_TAINT, UNSCHEDULABLE, ""};
      forall t <- pod.tolerations ensures !Tolerates(t, taint) {}
      assert HardEffect(taint.effect) && !PodTolerates(pod, taint);
    }
  }

  // WhenClaimed: a pod the policy admits while its claim is claimable reaches
  // such a node neither at creation nor later through the scheduler.
  lemma ClaimableExclusion(params: ParamsSpec, pod: Pod, pvcName: string, node: Node)
    requires PvcKey(pod.ns, pvcName) in params.claimableKeys
    requires ReferencesPvc(pod, pvcName)
    requires !Denies(params, pod)
    requires ShutToAdmitted(node)
    ensures !IsScheduled(pod) && !SchedulerAdmits(pod, node)
  {
    PolicySeesWhatTheControllerSees(pod, pvcName);
    NoBypassNoBinding(pod, node);
  }

  // What a toleration could match, whatever its operator and value: by key and
  // effect alone.
  predicate CouldMatch(t: Toleration, taint: Taint) {
    Tolerates(t.(operator := Some("Exists")), taint)
  }

  // It could let its pod past a cordon, or names the evacuate taint with an
  // effect that keeps pods away.
  predicate LetsThrough(t: Toleration) {
    || CouldMatch(t, Taint(UNSCHEDULABLE, None, NO_SCHEDULE))
    || (t.key == Some(EVACUATE_TAINT) &&
        (|| CouldMatch(t, Taint(EVACUATE_TAINT, None, NO_SCHEDULE))
         || CouldMatch(t, Taint(EVACUATE_TAINT, None, NO_EXECUTE))))
  }

  lemma LettingThroughBypasses(t: Toleration)
    ensures LetsThrough(t) <==> TolerationBypasses(t)
  {
  }

  lemma KeyOfAName(pod: Pod, keys: seq<string>)
    ensures (exists k <- ReferencedKeys(pod) :: k in keys) <==>
            exists name <- PodPvcNames(pod) :: PvcKey(pod.ns, name) in keys
  {
    var all, names := ReferencedKeys(pod), PodPvcNames(pod);
    KeysAreNames(pod.ns, pod.name, pod.volumes);
    hide PvcKey, KeysOf, ClaimNames;
    forall k | k in all && k in keys ensures exists name <- names :: PvcKey(pod.ns, name) in keys {
      var i :| 0 <= i < |all| && all[i] == k;
      assert names[i] in names;
    }
    forall name | name in names && PvcKey(pod.ns, name) in keys ensures PvcKey(pod.ns, name) in all {
      var i :| 0 <= i < |names| && names[i] == name;
      assert all[i] in all;
    }
  }

  // Exactly which pods the policy denies: those that use a locked claim, and
  // those that use a claimable one and already have a node or a toleration that
  // could let them through.
  lemma DeniesIff(params: ParamsSpec, pod: Pod)
    ensures Denies(params, pod) <==>
              || (exists name <- PodPvcNames(pod) :: PvcKey(pod.ns, name) in params.pvcKeys)
              || (&& (exists name <- PodPvcNames(pod) :: PvcKey(pod.ns, name) in params.claimableKeys)
                  && (pod.nodeName != "" || exists t <- pod.tolerations :: LetsThrough(t)))
  {
    KeyOfAName(pod, params.pvcKeys);
    KeyOfAName(pod, params.claimableKeys);
    forall t <- pod.tolerations ensures LetsThrough(t) <==> TolerationBypasses(t) { LettingThroughBypasses(t); }
    hide LetsThrough, TolerationBypasses, ReferencedKeys, PodPvcNames, PvcKey;
  }

  // So a consumer whose tolerations are all for other keys is admitted: one
  // without any, and one with those every pod gets by default.
  lemma OthersAreAdmitted(params: ParamsSpec, pod: Pod)
    requires pod.nodeName == "" && forall name <- PodPvcNames(pod) :: PvcKey(pod.ns, name) !in params.pvcKeys
    requires forall t <- pod.tolerations ::
               t.key.Some? && t.key.value !in {"", "node.kubernetes.io/unschedulable", "zfsevac.alumino.us/evacuate"}
    ensures !Denies(params, pod)
  {
    DeniesIff(params, pod);
  }

  // To every other node somebody gets through: tolerating NoExecute under every
  // key, and NoSchedule under each key the node has, bypasses nothing.

  function ScheduleTolerations(taints: seq<Taint>): seq<Toleration> {
    if taints == [] then []
    else
      (if taints[0].effect == NO_SCHEDULE then [Toleration(Some(taints[0].key), Some("Exists"), None, None)] else []) +
      ScheduleTolerations(taints[1..])
  }

  const TOLERATES_EVICTION := Toleration(None, Some("Exists"), None, Some(NO_EXECUTE))

  // A consumer of the claim that goes wherever the policy cannot stop it.
  function Intruder(ns: string, name: string, pvcName: string, node: Node): Pod {
    Pod(ns, name, [PodVolume("data", Some(pvcName), false)], "",
        [TOLERATES_EVICTION] + ScheduleTolerations(node.taints))
  }

  lemma {:induction false} EveryScheduleTaintTolerated(taints: seq<Taint>, t: Taint)
    requires t in taints && t.effect == NO_SCHEDULE
    ensures exists tol <- ScheduleTolerations(taints) :: Tolerates(tol, t)
  {
    if t == taints[0] {
      assert Tolerates(ScheduleTolerations(taints)[0], t);
    } else {
      EveryScheduleTaintTolerated(taints[1..], t);
      var tol :| tol in ScheduleTolerations(taints[1..]) && Tolerates(tol, t);
      assert tol in ScheduleTolerations(taints);
    }
  }

  lemma {:induction false} NothingElseTolerated(taints: seq<Taint>, tol: Toleration)
    requires tol in ScheduleTolerations(taints)
    ensures exists t <- taints :: t.effect == NO_SCHEDULE && tol == Toleration(Some(t.key), Some("Exists"), None, None)
  {
    if tol in ScheduleTolerations(taints[1..]) {
      NothingElseTolerated(taints[1..], tol);
      var t :|
        t in taints[1..] && t.effect == NO_SCHEDULE && tol == Toleration(Some(t.key), Some("Exists"), None, None);
      assert t in taints;
    } else {
      assert taints[0] in taints;
    }
  }

  lemma IntruderGetsIn(params: ParamsSpec, ns: string, name: string, pvcName: string, node: Node)
    requires !ShutToAdmitted(node) && PvcKey(ns, pvcName) !in params.pvcKeys
    ensures var pod := Intruder(ns, name, pvcName, node);
            ReferencesPvc(pod, pvcName) && !IsScheduled(pod) && !Denies(params, pod) && SchedulerAdmits(pod, node)
  {
    var pod := Intruder(ns, name, pvcName, node);
    assert pod.volumes[1..] == [] && ClaimNames(name, pod.volumes) == [pvcName] + ClaimNames(name, pod.volumes[1..]);
    assert KeysOf(ns, name, pod.volumes) == [ns + "/" + pvcName] + KeysOf(ns, name, pod.volumes[1..]);
    forall tol <- pod.tolerations ensures !TolerationBypasses(tol) {
      if tol in ScheduleTolerations(node.taints) { NothingElseTolerated(node.taints, tol); }
    }
    forall t <- node.taints | HardEffect(t.effect) ensures PodTolerates(pod, t) {
      if t.effect == NO_EXECUTE {
        assert TOLERATES_EVICTION in pod.tolerations && Tolerates(TOLERATES_EVICTION, t);
      } else {
        EveryScheduleTaintTolerated(node.taints, t);
        var tol :| tol in ScheduleTolerations(node.taints) && Tolerates(tol, t);
        assert tol in pod.tolerations;
      }
    }
    assert pvcName == PodPvcNames(pod)[0];
  }

  // So exactly the nodes under one of those are out of reach of every pod that
  // the policy lets use a claimable volume.
  lemma AdmittedPodsStayOffIff(params: ParamsSpec, ns: string, pvcName: string, node: Node)
    requires PvcKey(ns, pvcName) in params.claimableKeys && PvcKey(ns, pvcName) !in params.pvcKeys
    ensures ShutToAdmitted(node) <==>
            forall pod: Pod :: pod.ns == ns && ReferencesPvc(pod, pvcName) && !Denies(params, pod) ==>
              !IsScheduled(pod) && !SchedulerAdmits(pod, node)
  {
    if ShutToAdmitted(node) {
      forall pod: Pod | pod.ns == ns && ReferencesPvc(pod, pvcName) && !Denies(params, pod)
        ensures !IsScheduled(pod) && !SchedulerAdmits(pod, node)
      {
        ClaimableExclusion(params, pod, pvcName, node);
      }
    } else {
      IntruderGetsIn(params, ns, "intruder", pvcName, node);
      assert Intruder(ns, "intruder", pvcName, node).ns == ns;
    }
  }

  // The controller counts a NoExecute taint as repelling all the same.
  lemma NoExecuteAloneIsNotEnough(params: ParamsSpec, ns: string, name: string, pvcName: string, node: Node)
    requires node == Node(node.name, false, [Taint(EVACUATE_TAINT, None, NO_EXECUTE)])
    requires PvcKey(ns, pvcName) !in params.pvcKeys
    ensures var pod := Intruder(ns, name, pvcName, node);
            && NodeRepelsPods(node, EVACUATE_TAINT)
            && ReferencesPvc(pod, pvcName) && !Denies(params, pod) && SchedulerAdmits(pod, node)
  {
    assert node.taints[0] in node.taints;
    IntruderGetsIn(params, ns, name, pvcName, node);
  }
}
