// Pods and nodes as the controller reads them: which claims a pod references,
// whether a node keeps ordinary pods away, and the scheduler's toleration
// rule (src/controller/mod.rs, src/controller/placement.rs).
module Pods {
  import opened Common

  // A volume of a pod: a plain claim, a generic ephemeral volume, or neither.
  datatype PodVolume = PodVolume(name: string, claim: Option<string>, ephemeral: bool)

  datatype Toleration = Toleration(
    key: Option<string>, operator: Option<string>, value: Option<string>, effect: Option<string>)

  datatype Taint = Taint(key: string, value: Option<string>, effect: string)

  datatype Pod = Pod(
    ns: string, name: string, volumes: seq<PodVolume>, nodeName: string, tolerations: seq<Toleration>)

  datatype Node = Node(name: string, unschedulable: bool, taints: seq<Taint>)

  const EVACUATE_TAINT := "zfsevac.alumino.us/evacuate"
  const UNSCHEDULABLE := "node.kubernetes.io/unschedulable"
  const NO_SCHEDULE := "NoSchedule"
  const NO_EXECUTE := "NoExecute"

  predicate HardEffect(effect: string) {
    effect == NO_SCHEDULE || effect == NO_EXECUTE
  }

  // The claim name one volume stands for, if any.
  function ClaimName(podName: string, v: PodVolume): Option<string> {
    match v.claim
    case Some(c) => Some(c)
    case None => if v.ephemeral then Some(podName + "-" + v.name) else None
  }

  function ClaimNames(podName: string, volumes: seq<PodVolume>): seq<string> {
    if volumes == [] then []
    else
      var rest := ClaimNames(podName, volumes[1..]);
      match ClaimName(podName, volumes[0])
      case Some(c) => [c] + rest
      case None => rest
  }

  function PodPvcNames(pod: Pod): seq<string> {
    ClaimNames(pod.name, pod.volumes)
  }

  predicate ReferencesPvc(pod: Pod, pvcName: string) {
    pvcName in PodPvcNames(pod)
  }

  lemma {:induction false} NamesIff(podName: string, volumes: seq<PodVolume>, pvcName: string)
    ensures pvcName in ClaimNames(podName, volumes) <==>
            exists v <- volumes ::
              v.claim == Some(pvcName) || (v.claim.None? && v.ephemeral && pvcName == podName + "-" + v.name)
  {
    if volumes != [] { NamesIff(podName, volumes[1..], pvcName); }
  }

  // A pod references the claims its volumes name, and those its ephemeral
  // volumes stand for.
  lemma ReferencesIff(pod: Pod, pvcName: string)
    ensures ReferencesPvc(pod, pvcName) <==>
            exists v <- pod.volumes ::
              v.claim == Some(pvcName) || (v.claim.None? && v.ephemeral && pvcName == pod.name + "-" + v.name)
  {
    NamesIff(pod.name, pod.volumes, pvcName);
  }

  predicate IsScheduled(pod: Pod) {
    pod.nodeName != ""
  }

  predicate HasEvacuateTaint(node: Node, taintKey: string) {
    exists t <- node.taints :: t.key == taintKey
  }

  // Cordoned, or carrying the evacuate taint with a hard effect.
  predicate NodeRepelsPods(node: Node, taintKey: string) {
    || node.unschedulable
    || exists t <- node.taints :: t.key == taintKey && HardEffect(t.effect)
  }

  predicate Blank(s: Option<string>) {
    s.None? || s.value == ""
  }

  function OrEmpty(s: Option<string>): string {
    match s
    case Some(v) => v
    case None => ""
  }

  predicate Tolerates(tol: Toleration, taint: Taint) {
    var keyOk := if Blank(tol.key) then tol.operator == Some("Exists") else tol.key.value == taint.key;
    var effectOk := Blank(tol.effect) || tol.effect.value == taint.effect;
    var valueOk := tol.operator == Some("Exists") || OrEmpty(tol.value) == OrEmpty(taint.value);
    keyOk && effectOk && valueOk
  }

  predicate PodTolerates(pod: Pod, taint: Taint) {
    exists tol <- pod.tolerations :: Tolerates(tol, taint)
  }

  // Every hard taint of the node is tolerated (the taint half of Placement::admits).
  predicate ToleratesNode(pod: Pod, node: Node) {
    forall t <- node.taints :: HardEffect(t.effect) ==> PodTolerates(pod, t)
  }

  // May the scheduler bind this pod to this node? A cordon acts as the
  // unschedulable taint with effect NoSchedule.
  predicate SchedulerAdmits(pod: Pod, node: Node) {
    && (node.unschedulable ==> PodTolerates(pod, Taint(UNSCHEDULABLE, None, NO_SCHEDULE)))
    && ToleratesNode(pod, node)
  }

  // Name order, as a name-sorted list is read: lexicographic on code points.
  predicate NameLe(a: string, b: string) {
    if a == "" then true
    else if b == "" then false
    else if a[0] != b[0] then a[0] < b[0]
    else NameLe(a[1..], b[1..])
  }

  lemma {:induction false} NameLeTotal(a: string, b: string)
    ensures NameLe(a, b) || NameLe(b, a)
    ensures NameLe(a, b) && NameLe(b, a) ==> a == b
  {
    if a != "" && b != "" && a[0] == b[0] {
      NameLeTotal(a[1..], b[1..]);
      assert a == [a[0]] + a[1..] && b == [b[0]] + b[1..];
    }
  }

  lemma {:induction false} NameLeTransitive(a: string, b: string, c: string)
    requires NameLe(a, b) && NameLe(b, c)
    ensures NameLe(a, c)
  {
    if a != "" && b != "" && c != "" && a[0] == b[0] && b[0] == c[0] {
      NameLeTransitive(a[1..], b[1..], c[1..]);
    }
  }
}
