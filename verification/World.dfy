// One evacuation's part of the cluster: the API objects it touches, the two
// datasets on disk, the pods that reference its claim, and everything other
// parties may do to them at any moment.
module World {
  import opened Common
  import opened Manifests
  import opened Pods
  import opened Admission
  import opened AttachLock
  import opened ParamsUpdate
  import opened Status

  // The evacuation's spec; the claim, volume handle and node of its PV; and two
  // facts about the environment: how long a lock write takes to be enforced
  // everywhere, and how long after its pod object is gone a writer may still
  // be mounted.
  datatype Config = Config(
    ns: string, pvcName: string, pvName: string, handle: string, srcName: string, trigger: Trigger, mode: Mode,
    maxAttempts: nat, settleSeconds: nat, timeoutSeconds: nat, stallSeconds: nat, taintKey: string,
    enforceMs: nat, unmountMs: nat)

  function Key(cfg: Config): string {
    PvcKey(cfg.ns, cfg.pvcName)
  }

  const LOCK_PROPAGATION_SECONDS: nat := 5

  // Each delay fits the grace the controller waits for it, less the 999 ms its
  // timestamps may lose (Status.GraceGuarantee).
  predicate LockTimely(cfg: Config) {
    cfg.enforceMs <= LOCK_PROPAGATION_SECONDS * 1000 - 999
  }

  predicate UnmountTimely(cfg: Config) {
    cfg.unmountMs == 0 || cfg.unmountMs <= cfg.settleSeconds * 1000 - 999
  }

  // ------------------------------------------------------------- objects

  datatype PvFinalizer = PvProtection | Provisioner | ForeignFinalizer

  datatype Pv = Pv(uid: nat, body: Manifest, bound: bool, deleting: bool, finalizers: set<PvFinalizer>)

  datatype Pvc = Pvc(uid: nat, volumeName: Option<string>, resizing: bool, marked: bool)

  datatype ZvState = ZvPending | ZvReady | ZvFailed

  // A ZFSVolume: guard is our finalizer, fin the node agent's.
  datatype Zv = Zv(info: VolumeInfo, marked: bool, state: ZvState, deleting: bool, guard: bool, fin: bool)

  // A dataset on disk: none, a half-received one, or a whole one with a content.
  datatype Disk = Absent | Partial | Whole(content: nat)

  datatype JobStatus = JobInit | JobRunning | JobDone | JobFailed | JobInvalid

  // A ZFSBackup or ZFSRestore.
  datatype Job = Job(status: JobStatus, deleting: bool, fin: bool)

  // The ZFSSnapshot standing in for the received copy of the transfer snapshot.
  datatype SnapCr = SnapCr(deleting: bool, fin: bool)

  datatype Cr = Cr(deleting: bool, finalizer: bool)

  // The PV and PVC under the evacuation's names, and whether a user ever
  // deleted either.
  datatype Claim = Claim(pv: Option<Pv>, pvc: Option<Pvc>, nextUid: nat, pvDeleted: bool, pvcDeleted: bool)

  // The source ZFSVolume and dataset; what ever happened to the guard, and
  // whether anybody outside asked for the volume's deletion.
  datatype SourceVol = SourceVol(
    zv: Option<Zv>, disk: Disk, snapshots: bool, guardPlaced: bool, guardReleased: bool, outsideDelete: bool)

  // The target ZFSVolume and dataset (snap: it carries the received transfer
  // snapshot), the transfer CRs by attempt, and the content each attempt's
  // source snapshot froze.
  datatype CopyVol = CopyVol(
    zv: Option<Zv>, disk: Disk, snap: bool, snapCr: Option<SnapCr>,
    bkps: map<nat, Job>, rsts: map<nat, Job>, shots: map<nat, nat>)

  // Who may reach the source: the namespace's pods (late: created under the
  // enforced lock and referencing the claim), when one that used the claim on
  // the source last went, the lock lists, the source node, and whether under
  // the lock it was ever open, or such a pod ever got onto it.
  datatype Gate = Gate(
    pods: map<string, Pod>, late: set<string>, lastUse: nat,
    params: ParamsSpec, lockSince: Option<nat>, now: nat, srcNode: Option<Node>, wasOpen: bool, entered: bool)

  // Is the target node there; was either ever gone; does each, when there, have
  // an address the relay can let in.
  datatype Nodes = Nodes(srcLost: bool, tgtUp: bool, tgtLost: bool, srcPeers: bool, tgtPeers: bool)

  // What the two disks held the first time the replacement PV reached Bound,
  // and whether a user of the claim had got onto the source under the lock.
  datatype Handover = Handover(src: Disk, tgt: Disk, entered: bool)

  datatype World = World(
    cr: Option<Cr>, st: Status, claim: Claim, src: SourceVol, copy: CopyVol, gate: Gate, nodes: Nodes,
    bound: Option<Handover>, failedFrom: Option<Phase>)

  predicate HasRefPods(cfg: Config, pods: map<string, Pod>) {
    exists n <- pods :: ReferencesPvc(pods[n], cfg.pvcName)
  }

  predicate Enforced(cfg: Config, g: Gate) {
    g.lockSince.Some? && g.now >= g.lockSince.value + cfg.enforceMs
  }

  // The volume is local: only on its node does a pod get to write to it.
  predicate UsesSource(cfg: Config, pod: Pod) {
    ReferencesPvc(pod, cfg.pvcName) && pod.nodeName == cfg.srcName
  }

  predicate InUse(cfg: Config, pods: map<string, Pod>) {
    exists n <- pods :: UsesSource(cfg, pods[n])
  }

  predicate Writable(cfg: Config, g: Gate) {
    InUse(cfg, g.pods) || g.now < g.lastUse + cfg.unmountMs
  }

  // The PV under the name is the one this evacuation started from.
  predicate IsOldPv(s: Status, pv: Option<Pv>) {
    pv.Some? && s.source.Some? && pv.value.uid == s.source.value.pvUid
  }

  // No pod the policy admits can be scheduled to the source.
  predicate SourceShut(srcNode: Option<Node>) {
    srcNode.Some? ==> ShutToAdmitted(srcNode.value)
  }

  predicate Ended(s: JobStatus) {
    s.JobDone? || s.JobFailed? || s.JobInvalid?
  }

  // Deleting an object with finalizers marks it; without, it is gone.
  function DeletedPv(pv: Pv): Option<Pv> {
    if pv.finalizers == {} then None else Some(pv.(deleting := true))
  }

  function DeletedZv(zv: Zv): Option<Zv> {
    if zv.guard || zv.fin then Some(zv.(deleting := true)) else None
  }

  function DeletedJob(jobs: map<nat, Job>, n: nat): map<nat, Job>
    requires n in jobs
  {
    if jobs[n].fin then jobs[n := jobs[n].(deleting := true)] else jobs - {n}
  }

  function DeletedSnap(s: SnapCr): Option<SnapCr> {
    if s.fin then Some(s.(deleting := true)) else None
  }

  // Removing a finalizer lets a deletion that was waiting for it complete.
  function SettledZv(zv: Zv): Option<Zv> {
    if zv.deleting && !zv.guard && !zv.fin then None else Some(zv)
  }

  function SettledPv(pv: Pv): Option<Pv> {
    if pv.deleting && pv.finalizers == {} then None else Some(pv)
  }

  function StrippedJob(jobs: map<nat, Job>, n: nat): map<nat, Job>
    requires n in jobs
  {
    if jobs[n].deleting then jobs - {n} else jobs[n := jobs[n].(fin := false)]
  }

  function WithTrigger(m: Manifest, on: bool): Manifest {
    m.(annotations := if on then m.annotations[EVACUATE_ANNOTATION := "true"]
                      else m.annotations - {EVACUATE_ANNOTATION})
  }

  function Opened(g: Gate): Gate {
    if g.lockSince.Some? && !SourceShut(g.srcNode) then g.(wasOpen := true) else g
  }

  // ------------------------------------------------------ everybody else

  // Time, pods, other evacuations' locks, and the source node's state.
  datatype GateEvent =
    | Tick(ms: nat)
    | PodCreate(pod: Pod) | PodDelete(name: string) | PodBind(name: string, node: string)
    | OtherLock(op: Op)
    | SrcNodeGone | SrcNodeIs(host: Node)

  // Users, the PV controller and the provisioner on PV and PVC.
  datatype ClaimEvent =
    | UserDeletePv | UserDeletePvc | NewPvc(pvc: Pvc)
    | ForeignPv(body: Manifest, finalizers: set<PvFinalizer>) | Annotate(on: bool)
    | PvBind | PvUnbind | PvRelease(f: PvFinalizer)

  // Writers, users and the node agent on the source volume.
  datatype SourceEvent = SrcWrite(content: nat) | OutsideDelete | SrcDestroy

  // Node agents, writers and the provisioner on the target side and the CRs.
  datatype CopyEvent =
    | TgtWrite(content: nat) | TgtReady | TgtFail | TgtDestroy | ProvisionerDelete
    | BkpRun(n: nat) | BkpEnd(n: nat, s: JobStatus) | BkpGone(n: nat)
    | RstRun(n: nat) | RstEnd(n: nat, s: JobStatus) | RstGone(n: nat)
    | SnapReady | SnapDestroy | UserDeleteSnap | UserDeleteBkp(n: nat) | UserDeleteRst(n: nat)

  datatype EnvEvent =
    | OnGate(g: GateEvent) | OnClaim(c: ClaimEvent) | OnSource(s: SourceEvent) | OnCopy(x: CopyEvent)
    | TgtNodeGone | TgtNodeBack | Addresses(src: bool, tgt: bool) | UserDeleteCr

  // The enabling conditions state the assumptions about other parties.
  predicate GateEnabled(cfg: Config, w: World, e: GateEvent) {
    var g := w.gate;
    match e
    case Tick(_) => true
    // Once the lock is enforced everywhere the policy decides; before that
    // some API server may still run on an older list.
    case PodCreate(pod) => pod.name !in g.pods && pod.ns == cfg.ns && (Enforced(cfg, g) ==> !Denies(g.params, pod))
    case PodDelete(name) => name in g.pods
    case PodBind(name, node) =>
      && name in g.pods && !IsScheduled(g.pods[name]) && node != ""
      && (node == cfg.srcName ==> g.srcNode.Some? && SchedulerAdmits(g.pods[name], g.srcNode.value))
    case OtherLock(op) => op.key != Key(cfg)
    case SrcNodeGone => true
    case SrcNodeIs(host) => host.name != "" && host.name == cfg.srcName
  }

  function GateEffect(cfg: Config, g: Gate, e: GateEvent): Gate
    requires e.PodDelete? || e.PodBind? ==> e.name in g.pods
  {
    match e
    case Tick(ms) => g.(now := g.now + ms)
    case PodCreate(pod) =>
      g.(pods := g.pods[pod.name := pod],
         late := if Enforced(cfg, g) && ReferencesPvc(pod, cfg.pvcName) then g.late + {pod.name}
                 else g.late - {pod.name},
         entered := g.entered || (g.lockSince.Some? && UsesSource(cfg, pod)))
    case PodDelete(name) =>
      g.(pods := g.pods - {name}, late := g.late - {name},
         lastUse := if UsesSource(cfg, g.pods[name]) then g.now else g.lastUse)
    case PodBind(name, node) =>
      var pod := g.pods[name].(nodeName := node);
      g.(pods := g.pods[name := pod], entered := g.entered || (g.lockSince.Some? && UsesSource(cfg, pod)))
    case OtherLock(op) => g.(params := Mutated(g.params, op))
    case SrcNodeGone => g.(srcNode := None)
    case SrcNodeIs(host) => Opened(g.(srcNode := Some(host)))
  }

  predicate ClaimEnabled(cfg: Config, w: World, e: ClaimEvent) {
    var c := w.claim;
    match e
    case UserDeletePv => c.pv.Some?
    case UserDeletePvc => c.pvc.Some?
    case NewPvc(pvc) => c.pvc.None? && pvc.uid == c.nextUid
    // Nobody else creates a PV under this name from Committing on.
    case ForeignPv(_, _) => c.pv.None? && !w.st.phase.Committing? && !w.st.committed
    case Annotate(_) => c.pv.Some? && !w.st.committed
    case PvBind =>
      && c.pv.Some? && !c.pv.value.deleting && c.pvc.Some?
      && c.pv.value.body.claimRef.Some? && c.pv.value.body.claimRef.value.uid == Some(c.pvc.value.uid)
    case PvUnbind => c.pv.Some?
    case PvRelease(_) => c.pv.Some? && c.pv.value.deleting
  }

  function ClaimEffect(c: Claim, e: ClaimEvent): Claim
    requires !e.UserDeletePvc? && !e.NewPvc? && !e.ForeignPv? ==> c.pv.Some?
  {
    match e
    case UserDeletePv => c.(pv := DeletedPv(c.pv.value), pvDeleted := true)
    case UserDeletePvc => c.(pvc := None, pvcDeleted := true)
    case NewPvc(pvc) => c.(pvc := Some(pvc), nextUid := c.nextUid + 1)
    case ForeignPv(body, fins) => c.(pv := Some(Pv(c.nextUid, body, false, false, fins)), nextUid := c.nextUid + 1)
    case Annotate(on) => c.(pv := Some(c.pv.value.(body := WithTrigger(c.pv.value.body, on))))
    case PvBind => c.(pv := Some(c.pv.value.(bound := true)))
    case PvUnbind => c.(pv := Some(c.pv.value.(bound := false)))
    case PvRelease(f) => c.(pv := SettledPv(c.pv.value.(finalizers := c.pv.value.finalizers - {f})))
  }

  // The first time the replacement is Bound to the recorded claim.
  predicate HandsOver(w: World) {
    && w.st.committed && w.bound.None? && !IsOldPv(w.st, w.claim.pv)
    && w.claim.pvc.Some? && w.st.pvcRef.Some? && w.claim.pvc.value.uid == w.st.pvcRef.value.uid
  }

  predicate SourceEnabled(cfg: Config, w: World, e: SourceEvent) {
    match e
    // A mounted writer needs a pod on the source, or one gone less than
    // unmountMs ago.
    case SrcWrite(_) => w.src.disk.Whole? && Writable(cfg, w.gate) && w.bound.None?
    case OutsideDelete => w.src.zv.Some?
    // The agent never destroys while the guard is present.
    case SrcDestroy => w.src.zv.Some? && w.src.zv.value.deleting && !w.src.zv.value.guard && w.src.zv.value.fin
  }

  function SourceEffect(v: SourceVol, e: SourceEvent): SourceVol
    requires e.OutsideDelete? ==> v.zv.Some?
  {
    match e
    case SrcWrite(c) => v.(disk := Whole(c))
    case OutsideDelete => v.(zv := DeletedZv(v.zv.value), outsideDelete := true)
    case SrcDestroy => v.(zv := None, disk := Absent)
  }

  predicate CopyEnabled(w: World, e: CopyEvent) {
    var x := w.copy;
    match e
    case TgtWrite(_) => x.disk.Whole? && w.bound.Some?
    case TgtReady => x.zv.Some? && !x.zv.value.deleting && x.zv.value.state.ZvPending?
    case TgtFail => x.zv.Some? && x.zv.value.state.ZvPending?
    case TgtDestroy => x.zv.Some? && x.zv.value.deleting
    // The provisioner reclaims the new volume only after it was handed over.
    case ProvisionerDelete => x.zv.Some? && w.bound.Some?
    case BkpRun(n) => n in x.bkps && x.bkps[n].status.JobInit? && w.src.disk.Whole?
    case BkpEnd(n, s) => n in x.bkps && !Ended(x.bkps[n].status) && Ended(s)
    case BkpGone(n) => n in x.bkps && x.bkps[n].deleting
    case RstRun(n) => n in x.rsts && x.rsts[n].status.JobInit?
    // Done means the whole snapshot stream of that attempt landed.
    case RstEnd(n, s) =>
      && n in x.rsts && !Ended(x.rsts[n].status) && Ended(s)
      && (s.JobDone? ==> x.rsts[n].status.JobRunning? && n in x.shots)
    case RstGone(n) => n in x.rsts && x.rsts[n].deleting
    case SnapReady => x.snapCr.Some? && !x.snapCr.value.deleting && w.nodes.tgtUp
    case SnapDestroy => x.snapCr.Some? && x.snapCr.value.deleting
    case UserDeleteSnap => x.snapCr.Some?
    case UserDeleteBkp(n) => n in x.bkps
    case UserDeleteRst(n) => n in x.rsts
  }

  function CopyEffect(w: World, e: CopyEvent): CopyVol
    requires CopyEnabled(w, e)
  {
    var x := w.copy;
    match e
    case TgtWrite(c) => x.(disk := Whole(c))
    case TgtReady =>
      x.(zv := Some(x.zv.value.(state := ZvReady, fin := true)), disk := if x.disk.Absent? then Whole(0) else x.disk)
    case TgtFail => x.(zv := Some(x.zv.value.(state := ZvFailed)))
    case TgtDestroy => x.(zv := None, disk := Absent, snap := false)
    case ProvisionerDelete => x.(zv := DeletedZv(x.zv.value))
    case BkpRun(n) =>
      x.(bkps := x.bkps[n := Job(JobRunning, x.bkps[n].deleting, true)],
         shots := if n in x.shots then x.shots else x.shots[n := w.src.disk.content])
    case BkpEnd(n, s) => x.(bkps := x.bkps[n := x.bkps[n].(status := s)])
    case BkpGone(n) => x.(bkps := x.bkps - {n})
    case RstRun(n) => x.(rsts := x.rsts[n := Job(JobRunning, x.rsts[n].deleting, true)], disk := Partial)
    case RstEnd(n, s) =>
      if s.JobDone?
      then x.(rsts := x.rsts[n := x.rsts[n].(status := s)], disk := Whole(x.shots[n]), snap := true)
      else x.(rsts := x.rsts[n := x.rsts[n].(status := s)])
    case RstGone(n) => x.(rsts := x.rsts - {n})
    // Registering creates the snapshot if the dataset does not carry it.
    case SnapReady => x.(snapCr := Some(SnapCr(false, true)), snap := true)
    case SnapDestroy => x.(snapCr := None, snap := false)
    case UserDeleteSnap => x.(snapCr := DeletedSnap(x.snapCr.value))
    case UserDeleteBkp(n) => x.(bkps := DeletedJob(x.bkps, n))
    case UserDeleteRst(n) => x.(rsts := DeletedJob(x.rsts, n))
  }

  predicate Enabled(cfg: Config, w: World, e: EnvEvent) {
    match e
    case OnGate(g) => GateEnabled(cfg, w, g)
    case OnClaim(c) => ClaimEnabled(cfg, w, c)
    case OnSource(s) => SourceEnabled(cfg, w, s)
    case OnCopy(x) => CopyEnabled(w, x)
    case TgtNodeGone => true
    case TgtNodeBack => true
    case Addresses(_, _) => true
    case UserDeleteCr => w.cr.Some?
  }

  function EnvEffect(cfg: Config, w: World, e: EnvEvent): World
    requires Enabled(cfg, w, e)
  {
    match e
    case OnGate(g) =>
      w.(gate := GateEffect(cfg, w.gate, g), nodes := if g.SrcNodeGone? then w.nodes.(srcLost := true) else w.nodes)
    case OnClaim(c) =>
      w.(claim := ClaimEffect(w.claim, c),
         bound := if c.PvBind? && HandsOver(w) then Some(Handover(w.src.disk, w.copy.disk, w.gate.entered))
                  else w.bound)
    case OnSource(s) => w.(src := SourceEffect(w.src, s))
    case OnCopy(x) => w.(copy := CopyEffect(w, x))
    case TgtNodeGone => w.(nodes := w.nodes.(tgtUp := false, tgtLost := true))
    case TgtNodeBack => w.(nodes := w.nodes.(tgtUp := true))
    case Addresses(src, tgt) => w.(nodes := w.nodes.(srcPeers := src, tgtPeers := tgt))
    case UserDeleteCr => w.(cr := if w.cr.value.finalizer then Some(w.cr.value.(deleting := true)) else None)
  }

  // An event that is not possible now does not happen.
  function EnvStep(cfg: Config, w: World, e: EnvEvent): World {
    if Enabled(cfg, w, e) then EnvEffect(cfg, w, e) else w
  }

  // ------------------------------------------------- the controller's calls

  // A patch of finalizers replaces the whole list: PlaceGuard, DropGuard,
  // StripSrcZv and StripPv carry what the caller leaves of the list it read.
  datatype ClaimAct =
    | SetPolicy(policy: string) | DeletePv | StripPv(left: set<PvFinalizer>) | CreatePv(body: Manifest)
    | ClearTrigger | LabelPvc(on: bool)

  datatype SourceAct = PlaceGuard(fin: bool) | DropGuard(fin: bool) | DeleteSrcZv | StripSrcZv(guard: bool)

  datatype CopyAct =
    | CreateTgtZv(zv: Zv) | DeleteTgtZv | StripTgtZv
    | CreateBkp(n: nat) | DeleteBkp(n: nat) | StripBkp(n: nat)
    | CreateRst(n: nat) | DeleteRst(n: nat) | StripRst(n: nat)
    | CreateSnap | DeleteSnap | StripSnap

  datatype Act =
    | WriteStatus(st: Status) | AddFinalizer | RemoveFinalizer | LockKey | UnlockKey
    | ToClaim(c: ClaimAct) | ToSource(s: SourceAct) | ToCopy(x: CopyAct)

  // Does the API server accept the call? Deletes and patches need their
  // object; a new finalizer is refused on an object being deleted; creates are
  // create_if_absent, where an existing object counts as success.
  predicate ClaimAccepts(c: Claim, a: ClaimAct) {
    if a.LabelPvc? then c.pvc.Some?
    else if a.StripPv? then c.pv.Some? && (c.pv.value.deleting ==> a.left <= c.pv.value.finalizers)
    else a.CreatePv? || c.pv.Some?
  }

  predicate SourceAccepts(v: SourceVol, a: SourceAct) {
    && v.zv.Some?
    && (v.zv.value.deleting ==>
          match a
          case PlaceGuard(fin) => v.zv.value.guard && (fin ==> v.zv.value.fin)
          case DropGuard(fin) => fin ==> v.zv.value.fin
          case DeleteSrcZv => true
          case StripSrcZv(guard) => guard ==> v.zv.value.guard)
  }

  predicate CopyAccepts(x: CopyVol, a: CopyAct) {
    match a
    case CreateTgtZv(_) => true
    case DeleteTgtZv => x.zv.Some?
    case StripTgtZv => x.zv.Some?
    case CreateBkp(_) => true
    case DeleteBkp(n) => n in x.bkps
    case StripBkp(n) => n in x.bkps
    case CreateRst(_) => true
    case DeleteRst(n) => n in x.rsts
    case StripRst(n) => n in x.rsts
    case CreateSnap => true
    case DeleteSnap => x.snapCr.Some?
    case StripSnap => x.snapCr.Some?
  }

  predicate Accepts(w: World, a: Act) {
    match a
    case WriteStatus(_) => w.cr.Some?
    case AddFinalizer => w.cr.Some? && !w.cr.value.deleting
    case RemoveFinalizer => w.cr.Some?
    case LockKey => true
    case UnlockKey => true
    case ToClaim(c) => ClaimAccepts(w.claim, c)
    case ToSource(s) => SourceAccepts(w.src, s)
    case ToCopy(x) => CopyAccepts(w.copy, x)
  }

  function ClaimAfter(c: Claim, a: ClaimAct): Claim
    requires ClaimAccepts(c, a)
  {
    match a
    case SetPolicy(p) => c.(pv := Some(c.pv.value.(body := c.pv.value.body.(reclaimPolicy := Some(p)))))
    case DeletePv => c.(pv := DeletedPv(c.pv.value))
    case StripPv(left) => c.(pv := SettledPv(c.pv.value.(finalizers := left)))
    case CreatePv(body) =>
      if c.pv.Some? then c
      else c.(pv := Some(Pv(c.nextUid, body, false, false, {PvProtection})), nextUid := c.nextUid + 1)
    case ClearTrigger => c.(pv := Some(c.pv.value.(body := WithTrigger(c.pv.value.body, false))))
    case LabelPvc(on) => c.(pvc := Some(c.pvc.value.(marked := on)))
  }

  function SourceAfter(v: SourceVol, a: SourceAct): SourceVol
    requires SourceAccepts(v, a)
  {
    match a
    case PlaceGuard(fin) => v.(zv := Some(v.zv.value.(guard := true, fin := fin)), guardPlaced := true)
    case DropGuard(fin) => v.(zv := SettledZv(v.zv.value.(guard := false, fin := fin)), guardReleased := true)
    case DeleteSrcZv => v.(zv := DeletedZv(v.zv.value))
    case StripSrcZv(guard) => v.(zv := SettledZv(v.zv.value.(guard := guard, fin := false)))
  }

  function CopyAfter(x: CopyVol, a: CopyAct): CopyVol
    requires CopyAccepts(x, a)
  {
    match a
    case CreateTgtZv(zv) => if x.zv.Some? then x else x.(zv := Some(zv))
    case DeleteTgtZv => x.(zv := DeletedZv(x.zv.value))
    case StripTgtZv => x.(zv := SettledZv(x.zv.value.(fin := false)))
    case CreateBkp(n) => if n in x.bkps then x else x.(bkps := x.bkps[n := Job(JobInit, false, false)])
    case DeleteBkp(n) => x.(bkps := DeletedJob(x.bkps, n))
    case StripBkp(n) => x.(bkps := StrippedJob(x.bkps, n))
    case CreateRst(n) => if n in x.rsts then x else x.(rsts := x.rsts[n := Job(JobInit, false, false)])
    case DeleteRst(n) => x.(rsts := DeletedJob(x.rsts, n))
    case StripRst(n) => x.(rsts := StrippedJob(x.rsts, n))
    case CreateSnap => if x.snapCr.Some? then x else x.(snapCr := Some(SnapCr(false, false)))
    case DeleteSnap => x.(snapCr := DeletedSnap(x.snapCr.value))
    case StripSnap => x.(snapCr := if x.snapCr.value.deleting then None else Some(x.snapCr.value.(fin := false)))
  }

  function TakeLock(cfg: Config, g: Gate): Gate {
    Opened(g.(params := Locked(g.params, Key(cfg), cfg.mode),
              lockSince := if HeldIn(g.params, Key(cfg), cfg.mode) then g.lockSince else Some(g.now)))
  }

  function Written(w: World, st: Status): World {
    w.(st := st, failedFrom := if st.phase.Failed? && !w.st.phase.Failed? then Some(w.st.phase) else w.failedFrom)
  }

  function Effect(cfg: Config, w: World, a: Act): World
    requires Accepts(w, a)
  {
    match a
    case WriteStatus(st) => Written(w, st)
    case AddFinalizer => w.(cr := Some(w.cr.value.(finalizer := true)))
    case RemoveFinalizer => w.(cr := if w.cr.value.deleting then None else Some(w.cr.value.(finalizer := false)))
    case LockKey => w.(gate := TakeLock(cfg, w.gate))
    case UnlockKey => w.(gate := w.gate.(params := Unlocked(w.gate.params, Key(cfg)), lockSince := None))
    case ToClaim(c) => w.(claim := ClaimAfter(w.claim, c))
    case ToSource(s) => w.(src := SourceAfter(w.src, s))
    case ToCopy(x) => w.(copy := CopyAfter(w.copy, x))
  }
}
