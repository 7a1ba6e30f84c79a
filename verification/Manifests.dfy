// PersistentVolume manifests and volume specs, the rendering of the
// replacement PV (src/controller/pv_swap.rs) and the spec every target-side
// object must carry (src/controller/mod.rs).
module Manifests {
  import opened Common

  datatype PvcRef = PvcRef(ns: string, name: string, uid: nat)

  datatype TargetInfo = TargetInfo(node: string, nodeId: string, pool: string, newVolumeHandle: string)

  datatype ClaimRef = ClaimRef(ns: Option<string>, name: Option<string>, uid: Option<nat>)

  datatype Csi = Csi(driver: string, volumeHandle: string, attributes: Option<map<string, string>>)

  // Required node affinity: on a node-id topology term, or anything else.
  datatype Affinity = NodeIdIn(ids: seq<string>) | OtherAffinity(terms: nat)

  // A PV without what the server fills in (uid, status, finalizers); rest
  // stands for the spec fields carried over verbatim.
  datatype Manifest = Manifest(
    name: string, labels: map<string, string>, annotations: map<string, string>,
    claimRef: Option<ClaimRef>, reclaimPolicy: Option<string>, affinity: Option<Affinity>,
    csi: Option<Csi>, rest: nat)

  datatype VolumeInfo = VolumeInfo(
    ownerNodeId: string, poolName: string, capacity: nat, snapname: Option<string>, extra: nat)

  const EVACUATE_ANNOTATION := "zfsevac.alumino.us/evacuate"
  const POOLNAME_ATTRIBUTE := "openebs.io/poolname"
  const ZFS_DRIVER := "zfs.csi.openebs.io"
  const RETAIN := "Retain"
  const DELETE := "Delete"

  function Render(was: Manifest, pvcRef: PvcRef, target: TargetInfo): Result<Manifest> {
    match was.csi
    case None => Err(Missing)
    case Some(csi) =>
      var attributes :=
        match csi.attributes
        case Some(attrs) =>
          Some(if POOLNAME_ATTRIBUTE in attrs then attrs[POOLNAME_ATTRIBUTE := target.pool] else attrs)
        case None => None;
      Ok(Manifest(
           was.name, was.labels, was.annotations - {EVACUATE_ANNOTATION},
           Some(ClaimRef(Some(pvcRef.ns), Some(pvcRef.name), Some(pvcRef.uid))),
           Some(RETAIN), Some(NodeIdIn([target.nodeId])),
           Some(Csi(csi.driver, target.newVolumeHandle, attributes)), was.rest))
  }

  function WithPolicy(m: Manifest, policy: Option<string>): Manifest {
    if policy.Some? then m.(reclaimPolicy := policy) else m
  }

  predicate WantsEvacuation(m: Manifest) {
    EVACUATE_ANNOTATION in m.annotations && m.annotations[EVACUATE_ANNOTATION] == "true"
  }

  // What makes two manifests the same volume to everyone but the storage
  // layer: everything except claim identity, policy, placement, handle, pool
  // and our own trigger.
  predicate SameVolume(a: Manifest, b: Manifest) {
    && a.name == b.name && a.labels == b.labels && a.rest == b.rest
    && a.annotations - {EVACUATE_ANNOTATION} == b.annotations - {EVACUATE_ANNOTATION}
    && (a.csi.Some? <==> b.csi.Some?)
    && (a.csi.Some? && b.csi.Some? ==>
          && a.csi.value.driver == b.csi.value.driver
          && SameAttributes(a.csi.value.attributes, b.csi.value.attributes))
  }

  predicate SameAttributes(a: Option<map<string, string>>, b: Option<map<string, string>>) {
    match (a, b)
    case (None, None) => true
    case (Some(x), Some(y)) =>
      x.Keys == y.Keys && x - {POOLNAME_ATTRIBUTE} == y - {POOLNAME_ATTRIBUTE}
    case _ => false
  }

  // What the replacement must say about where the volume now lives.
  predicate PointsAt(m: Manifest, pvcRef: PvcRef, target: TargetInfo) {
    && m.claimRef.Some? && m.claimRef.value == ClaimRef(Some(pvcRef.ns), Some(pvcRef.name), Some(pvcRef.uid))
    && m.affinity == Some(NodeIdIn([target.nodeId]))
    && m.csi.Some? && m.csi.value.volumeHandle == target.newVolumeHandle
    && (m.csi.value.attributes.Some? && POOLNAME_ATTRIBUTE in m.csi.value.attributes.value ==>
          m.csi.value.attributes.value[POOLNAME_ATTRIBUTE] == target.pool)
    && EVACUATE_ANNOTATION !in m.annotations
  }

  // A CSI volume always renders, and the rendering is the one manifest that is
  // the same volume, points at the target and starts out as Retain.
  lemma RenderIsTheReplacement(was: Manifest, pvcRef: PvcRef, target: TargetInfo, m: Manifest)
    ensures Render(was, pvcRef, target).Ok? <==> was.csi.Some?
    ensures Render(was, pvcRef, target) == Ok(m) <==>
            was.csi.Some? && SameVolume(was, m) && PointsAt(m, pvcRef, target) && m.reclaimPolicy == Some(RETAIN)
  {
    if was.csi.Some? {
      var r := Render(was, pvcRef, target).value;
      if was.csi.value.attributes.Some? {
        var x := was.csi.value.attributes.value;
        if POOLNAME_ATTRIBUTE in x {
          assert x[POOLNAME_ATTRIBUTE := target.pool] - {POOLNAME_ATTRIBUTE} == x - {POOLNAME_ATTRIBUTE};
        }
      }
      assert SameVolume(was, r);
      if SameVolume(was, m) && PointsAt(m, pvcRef, target) && m.reclaimPolicy == Some(RETAIN) {
        assert m.annotations == m.annotations - {EVACUATE_ANNOTATION};
        if was.csi.value.attributes.Some? {
          var x, y := r.csi.value.attributes.value, m.csi.value.attributes.value;
          forall k | k in x ensures x[k] == y[k] {
            assert x - {POOLNAME_ATTRIBUTE} == y - {POOLNAME_ATTRIBUTE};
            if k != POOLNAME_ATTRIBUTE {
              assert (x - {POOLNAME_ATTRIBUTE})[k] == (y - {POOLNAME_ATTRIBUTE})[k];
            }
          }
          assert x == y;
        }
      }
    }
  }

  // Moving on from a node a volume was itself moved to loses nothing: only
  // the last target shows.
  lemma RenderForgetsEarlierMoves(was: Manifest, first: PvcRef, via: TargetInfo, pvcRef: PvcRef, target: TargetInfo)
    requires was.csi.Some?
    ensures Render(Render(was, first, via).value, pvcRef, target) == Render(was, pvcRef, target)
  {
    assert was.annotations - {EVACUATE_ANNOTATION} - {EVACUATE_ANNOTATION} == was.annotations - {EVACUATE_ANNOTATION};
    if was.csi.value.attributes.Some? {
      var x := was.csi.value.attributes.value;
      assert x[POOLNAME_ATTRIBUTE := via.pool][POOLNAME_ATTRIBUTE := target.pool] ==
             x[POOLNAME_ATTRIBUTE := target.pool];
    }
  }

  // ownerNodeID, poolName and no clone origin: what the target's agent acts on.
  function AdaptToTarget(info: VolumeInfo, target: TargetInfo): VolumeInfo {
    info.(ownerNodeId := target.nodeId, poolName := target.pool, snapname := None)
  }

  predicate AddressedTo(info: VolumeInfo, target: TargetInfo) {
    info.ownerNodeId == target.nodeId && info.poolName == target.pool && info.snapname.None?
  }

  // The one spec that is the given volume's, addressed to the target: nothing
  // but owner, pool and clone origin may differ.
  lemma AdaptedIsAddressed(info: VolumeInfo, target: TargetInfo, r: VolumeInfo)
    ensures r == AdaptToTarget(info, target) <==>
            AddressedTo(r, target) && r.capacity == info.capacity && r.extra == info.extra
  {
  }
}
