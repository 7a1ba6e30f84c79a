// Permitted calls and all other parties keep the invariant.
module Safety {
  import opened Pods
  import opened Admission
  import opened AttachLock
  import opened ParamsUpdate
  import opened Status
  import opened World
  import opened Protocol

  // What the enforced policy admits neither disturbs a quiet claim nor can land
  // on a shut source.
  lemma AdmissionKeepsQuiet(cfg: Config, w: World, pod: Pod)
    requires Inv(cfg, w) && GateEnabled(cfg, w, PodCreate(pod))
    ensures var g := GateEffect(cfg, w.gate, PodCreate(pod));
            InvQuiet(cfg, w.st, g) && InvLate(cfg, w.st, g)
  {
    var g, params := w.gate, w.gate.params;
    if Enforced(cfg, g) && ReferencesPvc(pod, cfg.pvcName) {
      PolicySeesWhatTheControllerSees(pod, cfg.pvcName);
    }
  }

  // A pod without a bypassing toleration is not scheduled onto a shut source.
  lemma BindingKeepsLate(cfg: Config, w: World, name: string, node: string)
    requires Inv(cfg, w) && GateEnabled(cfg, w, PodBind(name, node))
    ensures InvLate(cfg, w.st, GateEffect(cfg, w.gate, PodBind(name, node)))
  {
    var pod, host := w.gate.pods[name], w.gate.srcNode;
    if !TolerationsBypass(pod) && host.Some? && SourceShut(host) {
      NoBypassNoBinding(pod, host.value);
    }
  }

  lemma CreationKeepsInv(cfg: Config, w: World, pod: Pod)
    requires Inv(cfg, w) && GateEnabled(cfg, w, PodCreate(pod))
    ensures Inv(cfg, EnvEffect(cfg, w, OnGate(PodCreate(pod))))
  {
    hide InvRecord, InvClaim, InvSource, InvEnds, InvAttempts, InvTarget, InvSwap, InvSnapshot, InvNodes,
      Denies, ReferencesPvc, HeldIn, Free, PvcKey, InUse;
    AdmissionKeepsQuiet(cfg, w, pod);
    hide InvQuiet, InvLate;
  }

  lemma BoundKeepsInv(cfg: Config, w: World, name: string, node: string)
    requires Inv(cfg, w) && GateEnabled(cfg, w, PodBind(name, node))
    ensures Inv(cfg, EnvEffect(cfg, w, OnGate(PodBind(name, node))))
  {
    hide InvClaim, InvSource, InvEnds, InvAttempts, InvTarget, InvSwap, InvSnapshot, InvNodes, HeldIn, Free,
      PvcKey, SchedulerAdmits;
    BindingKeepsLate(cfg, w, name, node);
    hide InvLate;
  }

  lemma PodGoesKeepsInv(cfg: Config, w: World, name: string)
    requires Inv(cfg, w) && GateEnabled(cfg, w, PodDelete(name))
    ensures Inv(cfg, EnvEffect(cfg, w, OnGate(PodDelete(name))))
  {
    hide InvClaim, InvSource, InvEnds, InvAttempts, InvTarget, InvSwap, InvHandover, InvFidelity, InvSnapshot, InvNodes,
      HeldIn, Free, PvcKey;
  }

  lemma OtherLockKeepsInv(cfg: Config, w: World, op: Op)
    requires Inv(cfg, w) && GateEnabled(cfg, w, OtherLock(op))
    ensures Inv(cfg, EnvEffect(cfg, w, OnGate(OtherLock(op))))
  {
    hide InvRecord, InvClaim, InvSource, InvEnds, InvAttempts, InvTarget, InvSwap, InvHandover, InvFidelity,
      InvSnapshot, Mutated, HeldIn, Free, PvcKey, HasRefPods, SourceShut;
    OthersUntouched(w.gate.params, op, Key(cfg));
  }

  lemma GateEventKeepsInv(cfg: Config, w: World, e: GateEvent)
    requires !e.PodCreate? && !e.PodDelete? && !e.PodBind? && !e.OtherLock?
    requires Inv(cfg, w) && GateEnabled(cfg, w, e)
    ensures Inv(cfg, EnvEffect(cfg, w, OnGate(e)))
  {
    hide InvRecord, InvClaim, InvSource, InvEnds, InvAttempts, InvTarget, InvSwap, InvHandover, InvFidelity,
      InvSnapshot, HeldIn, Free, PvcKey, HasRefPods, ShutToAdmitted;
  }

  lemma BindingKeepsInv(cfg: Config, w: World)
    requires Inv(cfg, w) && ClaimEnabled(cfg, w, PvBind)
    ensures Inv(cfg, EnvEffect(cfg, w, OnClaim(PvBind)))
  {
    hide InvAttempts, InvLate, InvSnapshot, InvNodes, HeldIn, Free, PvcKey;
  }

  lemma ClaimEventKeepsInv(cfg: Config, w: World, e: ClaimEvent)
    requires !e.PvBind?
    requires Inv(cfg, w) && ClaimEnabled(cfg, w, e)
    ensures Inv(cfg, EnvEffect(cfg, w, OnClaim(e)))
  {
    hide InvAttempts, InvTarget, InvHandover, InvLock, InvLate, InvQuiet, InvFidelity, InvSnapshot, InvNodes;
  }

  lemma SourceEventKeepsInv(cfg: Config, w: World, e: SourceEvent)
    requires Inv(cfg, w) && SourceEnabled(cfg, w, e)
    ensures Inv(cfg, EnvEffect(cfg, w, OnSource(e)))
  {
    hide InvClaim, InvAttempts, InvTarget, InvSwap, InvLate, InvSnapshot, InvNodes;
  }

  predicate BackupEvent(e: CopyEvent) {
    e.BkpRun? || e.BkpEnd? || e.BkpGone? || e.UserDeleteBkp?
  }

  predicate RestoreEvent(e: CopyEvent) {
    e.RstRun? || e.RstEnd? || e.RstGone? || e.UserDeleteRst?
  }

  predicate SnapshotEvent(e: CopyEvent) {
    e.SnapReady? || e.SnapDestroy? || e.UserDeleteSnap?
  }

  lemma BackupRunKeepsInv(cfg: Config, w: World, n: nat)
    requires Inv(cfg, w) && CopyEnabled(w, BkpRun(n))
    ensures Inv(cfg, EnvEffect(cfg, w, OnCopy(BkpRun(n))))
  {
    hide InvRecord, InvClaim, InvSource, InvEnds, InvSwap, InvHandover, InvLock, InvLate, InvQuiet, InvNodes;
  }

  lemma BackupEventKeepsInv(cfg: Config, w: World, e: CopyEvent)
    requires BackupEvent(e) && !e.BkpRun?
    requires Inv(cfg, w) && CopyEnabled(w, e)
    ensures Inv(cfg, EnvEffect(cfg, w, OnCopy(e)))
  {
    hide InvRecord, InvClaim, InvSource, InvEnds, InvSwap, InvHandover, InvLock, InvLate, InvQuiet, InvFidelity,
      InvNodes;
  }

  lemma RestoreEventKeepsInv(cfg: Config, w: World, e: CopyEvent)
    requires RestoreEvent(e)
    requires Inv(cfg, w) && CopyEnabled(w, e)
    ensures Inv(cfg, EnvEffect(cfg, w, OnCopy(e)))
  {
    hide InvRecord, InvClaim, InvSource, InvEnds, InvSwap, InvHandover, InvLock, InvLate, InvQuiet, InvFidelity,
      InvNodes;
  }

  lemma SnapshotEventKeepsInv(cfg: Config, w: World, e: CopyEvent)
    requires SnapshotEvent(e)
    requires Inv(cfg, w) && CopyEnabled(w, e)
    ensures Inv(cfg, EnvEffect(cfg, w, OnCopy(e)))
  {
    hide InvRecord, InvClaim, InvSource, InvEnds, InvSwap, InvHandover, InvLock, InvLate, InvQuiet, InvFidelity,
      InvNodes;
  }

  lemma TargetEventKeepsInv(cfg: Config, w: World, e: CopyEvent)
    requires !BackupEvent(e) && !RestoreEvent(e) && !SnapshotEvent(e)
    requires Inv(cfg, w) && CopyEnabled(w, e)
    ensures Inv(cfg, EnvEffect(cfg, w, OnCopy(e)))
  {
    hide InvClaim, InvSource, InvSwap, InvHandover, InvLock, InvLate, InvQuiet, InvFidelity, InvNodes;
  }

  lemma OtherEventKeepsInv(cfg: Config, w: World, e: EnvEvent)
    requires e.TgtNodeGone? || e.TgtNodeBack? || e.Addresses? || e.UserDeleteCr?
    requires Inv(cfg, w) && Enabled(cfg, w, e)
    ensures Inv(cfg, EnvEffect(cfg, w, e))
  {
    hide InvRecord, InvClaim, InvSource, InvEnds, InvAttempts, InvTarget, InvSwap, InvHandover, InvLock, InvLate,
      InvQuiet, InvFidelity;
  }

  lemma ClaimActKeepsInv(cfg: Config, w: World, a: ClaimAct)
    requires Inv(cfg, w) && ClaimPermitted(w, a) && ClaimAccepts(w.claim, a)
    ensures Inv(cfg, Effect(cfg, w, ToClaim(a)))
  {
    hide InvAttempts, InvHandover, InvLock, InvLate, InvQuiet, InvFidelity, InvSnapshot, InvNodes;
  }

  lemma SourceActKeepsInv(cfg: Config, w: World, a: SourceAct)
    requires Inv(cfg, w) && SourcePermitted(w, a) && SourceAccepts(w.src, a)
    ensures Inv(cfg, Effect(cfg, w, ToSource(a)))
  {
    hide InvClaim, InvAttempts, InvTarget, InvSwap, InvLock, InvLate, InvQuiet, InvFidelity, InvSnapshot, InvNodes;
  }

  predicate BackupAct(a: CopyAct) {
    a.CreateBkp? || a.DeleteBkp? || a.StripBkp?
  }

  predicate RestoreAct(a: CopyAct) {
    a.CreateRst? || a.DeleteRst? || a.StripRst?
  }

  lemma BackupActKeepsInv(cfg: Config, w: World, a: CopyAct)
    requires BackupAct(a)
    requires Inv(cfg, w) && CopyPermitted(w, a) && CopyAccepts(w.copy, a)
    ensures Inv(cfg, Effect(cfg, w, ToCopy(a)))
  {
    hide InvClaim, InvSource, InvSwap, InvHandover, InvLock, InvLate, InvQuiet, InvFidelity, InvNodes;
  }

  lemma RestoreActKeepsInv(cfg: Config, w: World, a: CopyAct)
    requires RestoreAct(a)
    requires Inv(cfg, w) && CopyPermitted(w, a) && CopyAccepts(w.copy, a)
    ensures Inv(cfg, Effect(cfg, w, ToCopy(a)))
  {
    hide InvClaim, InvSource, InvSwap, InvHandover, InvLock, InvLate, InvQuiet, InvFidelity, InvNodes;
  }

  lemma TargetActKeepsInv(cfg: Config, w: World, a: CopyAct)
    requires !BackupAct(a) && !RestoreAct(a)
    requires Inv(cfg, w) && CopyPermitted(w, a) && CopyAccepts(w.copy, a)
    ensures Inv(cfg, Effect(cfg, w, ToCopy(a)))
  {
    hide InvClaim, InvSource, InvSwap, InvHandover, InvLock, InvLate, InvQuiet, InvNodes;
  }

  lemma LockKeepsInv(cfg: Config, w: World)
    requires Inv(cfg, w) && Permitted(cfg, w, LockKey)
    ensures Inv(cfg, Effect(cfg, w, LockKey))
  {
    hide InvClaim, InvSource, InvEnds, InvAttempts, InvTarget, InvSwap, InvHandover, InvFidelity, InvSnapshot, PvcKey,
      HeldIn, Free, Locked, SourceShut, HasRefPods;
    TakenIsHeld(w.gate.params, Key(cfg), cfg.mode);
  }

  lemma TakenIsHeld(params: ParamsSpec, key: string, mode: Mode)
    ensures HeldIn(Locked(params, key, mode), key, mode) && !Free(Locked(params, key, mode), key)
    ensures HeldIn(params, key, mode) ==> !Free(params, key)
  {
  }

  lemma UnlockKeepsInv(cfg: Config, w: World)
    requires Inv(cfg, w) && Permitted(cfg, w, UnlockKey)
    ensures Inv(cfg, Effect(cfg, w, UnlockKey))
  {
    hide InvClaim, InvSource, InvEnds, InvAttempts, InvTarget, InvSwap, InvHandover, InvFidelity, InvSnapshot, PvcKey,
      SourceShut, HasRefPods;
  }

  lemma StayKeepsObjects(cfg: Config, w: World, t: Status)
    requires Inv(cfg, w) && Stay(cfg, w, t)
    ensures InvObjects(cfg, w.(st := t))
  {
    hide InvHandover, InvLock, InvLate, InvQuiet, InvFidelity, InvSnapshot, InvNodes;
  }

  lemma StayKeepsAccess(cfg: Config, w: World, t: Status)
    requires Inv(cfg, w) && Stay(cfg, w, t)
    ensures InvAccess(cfg, w.(st := t))
  {
    hide InvClaim, InvSource, InvEnds, InvAttempts, InvTarget, InvSwap;
  }

  lemma StayKeepsInv(cfg: Config, w: World, t: Status)
    requires Inv(cfg, w) && Stay(cfg, w, t)
    ensures Inv(cfg, w.(st := t))
  {
    hide Inv, InvObjects, InvAccess, Stay;
    StayKeepsObjects(cfg, w, t);
    StayKeepsAccess(cfg, w, t);
    BothHalves(cfg, w.(st := t));
  }

  lemma BothHalves(cfg: Config, w: World)
    requires InvObjects(cfg, w) && InvAccess(cfg, w)
    ensures Inv(cfg, w)
  {
  }

  lemma StartKeepsObjects(cfg: Config, w: World, t: Status)
    requires Inv(cfg, w) && t.phase != w.st.phase && Change(cfg, w, t)
    requires t.phase.Guarding? || t.phase.Retaining? || t.phase.Locking?
    ensures InvObjects(cfg, Written(w, t))
  {
    hide InvHandover, InvLock, InvLate, InvQuiet, InvFidelity, InvSnapshot, InvNodes;
  }

  lemma StartKeepsAccess(cfg: Config, w: World, t: Status)
    requires Inv(cfg, w) && t.phase != w.st.phase && Change(cfg, w, t)
    requires t.phase.Guarding? || t.phase.Retaining? || t.phase.Locking?
    ensures InvAccess(cfg, Written(w, t))
  {
    hide InvClaim, InvSource, InvEnds, InvAttempts, InvTarget, InvSwap;
  }

  lemma QuiesceKeepsObjects(cfg: Config, w: World, t: Status)
    requires Inv(cfg, w) && t.phase != w.st.phase && Change(cfg, w, t)
    requires t.phase.Quiescing? || t.phase.TargetSelecting?
    ensures InvObjects(cfg, Written(w, t))
  {
    hide InvHandover, InvLock, InvLate, InvQuiet, InvFidelity, InvSnapshot, InvNodes;
  }

  lemma QuiesceKeepsAccess(cfg: Config, w: World, t: Status)
    requires Inv(cfg, w) && t.phase != w.st.phase && Change(cfg, w, t)
    requires t.phase.Quiescing? || t.phase.TargetSelecting?
    ensures InvAccess(cfg, Written(w, t))
  {
    hide InvClaim, InvSource, InvEnds, InvAttempts, InvTarget, InvSwap;
  }

  lemma BeginCopyKeepsObjects(cfg: Config, w: World, t: Status)
    requires Inv(cfg, w) && t.phase != w.st.phase && Change(cfg, w, t)
    requires t.phase.Transferring?
    ensures InvObjects(cfg, Written(w, t))
  {
    hide InvHandover, InvLock, InvLate, InvQuiet, InvFidelity, InvSnapshot, InvNodes;
  }

  lemma BeginCopyKeepsAccess(cfg: Config, w: World, t: Status)
    requires Inv(cfg, w) && t.phase != w.st.phase && Change(cfg, w, t)
    requires t.phase.Transferring?
    ensures InvAccess(cfg, Written(w, t))
  {
    hide InvClaim, InvSource, InvEnds, InvAttempts, InvTarget, InvSwap;
  }

  lemma ReceiveKeepsObjects(cfg: Config, w: World, t: Status)
    requires Inv(cfg, w) && t.phase != w.st.phase && Change(cfg, w, t)
    requires t.phase.Adopting? || t.phase.Committing?
    ensures InvObjects(cfg, Written(w, t))
  {
    hide InvLate, InvSnapshot, InvNodes;
  }

  lemma ReceiveKeepsAccess(cfg: Config, w: World, t: Status)
    requires Inv(cfg, w) && t.phase != w.st.phase && Change(cfg, w, t)
    requires t.phase.Adopting? || t.phase.Committing?
    ensures InvAccess(cfg, Written(w, t))
  {
    hide InvClaim, InvSwap;
  }

  lemma CommitKeepsObjects(cfg: Config, w: World, t: Status)
    requires Inv(cfg, w) && t.phase != w.st.phase && Change(cfg, w, t)
    requires t.phase.Swapping?
    ensures InvObjects(cfg, Written(w, t))
  {
    hide InvLate, InvSnapshot, InvNodes;
  }

  lemma CommitKeepsAccess(cfg: Config, w: World, t: Status)
    requires Inv(cfg, w) && t.phase != w.st.phase && Change(cfg, w, t)
    requires t.phase.Swapping?
    ensures InvAccess(cfg, Written(w, t))
  {
    hide InvClaim, InvSwap;
  }

  lemma FinishKeepsObjects(cfg: Config, w: World, t: Status)
    requires Inv(cfg, w) && t.phase != w.st.phase && Change(cfg, w, t)
    requires t.phase.CleaningUp? || t.phase.Completed?
    ensures InvObjects(cfg, Written(w, t))
  {
    hide InvLate, InvSnapshot, InvNodes;
  }

  lemma FinishKeepsAccess(cfg: Config, w: World, t: Status)
    requires Inv(cfg, w) && t.phase != w.st.phase && Change(cfg, w, t)
    requires t.phase.CleaningUp? || t.phase.Completed?
    ensures InvAccess(cfg, Written(w, t))
  {
    hide InvClaim, InvSwap;
  }

  lemma AbortKeepsObjects(cfg: Config, w: World, t: Status)
    requires Inv(cfg, w) && t.phase != w.st.phase && Change(cfg, w, t)
    requires t.phase.Aborting?
    ensures InvObjects(cfg, Written(w, t))
  {
    hide InvHandover, InvLate, InvQuiet, InvFidelity, InvSnapshot, InvNodes;
  }

  lemma AbortKeepsAccess(cfg: Config, w: World, t: Status)
    requires Inv(cfg, w) && t.phase != w.st.phase && Change(cfg, w, t)
    requires t.phase.Aborting?
    ensures InvAccess(cfg, Written(w, t))
  {
    hide InvClaim, InvSource, InvAttempts, InvTarget, InvSwap;
  }

  lemma FailKeepsObjects(cfg: Config, w: World, t: Status)
    requires Inv(cfg, w) && t.phase != w.st.phase && Change(cfg, w, t)
    requires t.phase.Failed?
    ensures InvObjects(cfg, Written(w, t))
  {
    hide InvHandover, InvLate, InvQuiet, InvFidelity, InvSnapshot, InvNodes;
  }

  lemma FailKeepsAccess(cfg: Config, w: World, t: Status)
    requires Inv(cfg, w) && t.phase != w.st.phase && Change(cfg, w, t)
    requires t.phase.Failed?
    ensures InvAccess(cfg, Written(w, t))
  {
    hide InvClaim, InvSource, InvAttempts, InvTarget, InvSwap;
  }

  // Every phase change goes up in rank.
  lemma ChangeClimbs(cfg: Config, w: World, t: Status)
    requires Inv(cfg, w) && t.phase != w.st.phase && Change(cfg, w, t)
    ensures Rank(w.st.phase) < Rank(t.phase)
    ensures Committed(w.st.phase) ==> Committed(t.phase)
  {
  }

  lemma ChangeKeepsInv(cfg: Config, w: World, t: Status)
    requires Inv(cfg, w) && t.phase != w.st.phase && Change(cfg, w, t)
    ensures Inv(cfg, Written(w, t))
  {
    hide InvObjects, InvAccess;
    NeverBack(cfg, w, t);
    hide Change;
    match t.phase
    case Guarding => StartKeepsObjects(cfg, w, t); StartKeepsAccess(cfg, w, t);
    case Retaining => StartKeepsObjects(cfg, w, t); StartKeepsAccess(cfg, w, t);
    case Locking => StartKeepsObjects(cfg, w, t); StartKeepsAccess(cfg, w, t);
    case Quiescing => QuiesceKeepsObjects(cfg, w, t); QuiesceKeepsAccess(cfg, w, t);
    case TargetSelecting => QuiesceKeepsObjects(cfg, w, t); QuiesceKeepsAccess(cfg, w, t);
    case Transferring => BeginCopyKeepsObjects(cfg, w, t); BeginCopyKeepsAccess(cfg, w, t);
    case Adopting => ReceiveKeepsObjects(cfg, w, t); ReceiveKeepsAccess(cfg, w, t);
    case Committing => ReceiveKeepsObjects(cfg, w, t); ReceiveKeepsAccess(cfg, w, t);
    case Swapping => CommitKeepsObjects(cfg, w, t); CommitKeepsAccess(cfg, w, t);
    case CleaningUp => FinishKeepsObjects(cfg, w, t); FinishKeepsAccess(cfg, w, t);
    case Completed => FinishKeepsObjects(cfg, w, t); FinishKeepsAccess(cfg, w, t);
    case Aborting => AbortKeepsObjects(cfg, w, t); AbortKeepsAccess(cfg, w, t);
    case Failed => FailKeepsObjects(cfg, w, t); FailKeepsAccess(cfg, w, t);
  }

  lemma NeverBack(cfg: Config, w: World, t: Status)
    requires Change(cfg, w, t)
    ensures !t.phase.Pending?
  {
  }

  // A permitted call that the server accepts keeps the invariant.
  lemma ActKeepsInv(cfg: Config, w: World, a: Act)
    requires Inv(cfg, w) && Permitted(cfg, w, a) && Accepts(w, a)
    ensures Inv(cfg, Effect(cfg, w, a))
  {
    match a
    case WriteStatus(t) => if t.phase == w.st.phase { StayKeepsInv(cfg, w, t); } else { ChangeKeepsInv(cfg, w, t); }
    case AddFinalizer =>
    case RemoveFinalizer =>
    case LockKey => LockKeepsInv(cfg, w);
    case UnlockKey => UnlockKeepsInv(cfg, w);
    case ToClaim(c) => ClaimActKeepsInv(cfg, w, c);
    case ToSource(s) => SourceActKeepsInv(cfg, w, s);
    case ToCopy(x) =>
      if BackupAct(x) {
        BackupActKeepsInv(cfg, w, x);
      } else if RestoreAct(x) {
        RestoreActKeepsInv(cfg, w, x);
      } else {
        TargetActKeepsInv(cfg, w, x);
      }
  }

  // So does anything anybody else does.
  lemma EnvKeepsInv(cfg: Config, w: World, e: EnvEvent)
    requires Inv(cfg, w)
    ensures Inv(cfg, EnvStep(cfg, w, e))
  {
    if Enabled(cfg, w, e) {
      match e
      case OnGate(g) =>
        match g {
          case PodCreate(pod) => CreationKeepsInv(cfg, w, pod);
          case PodDelete(name) => PodGoesKeepsInv(cfg, w, name);
          case PodBind(name, node) => BoundKeepsInv(cfg, w, name, node);
          case OtherLock(op) => OtherLockKeepsInv(cfg, w, op);
          case _ => GateEventKeepsInv(cfg, w, g);
        }
      case OnClaim(c) => if c.PvBind? { BindingKeepsInv(cfg, w); } else { ClaimEventKeepsInv(cfg, w, c); }
      case OnSource(s) => SourceEventKeepsInv(cfg, w, s);
      case OnCopy(x) =>
        if x.BkpRun? {
          BackupRunKeepsInv(cfg, w, x.n);
        } else if BackupEvent(x) {
          BackupEventKeepsInv(cfg, w, x);
        } else if RestoreEvent(x) {
          RestoreEventKeepsInv(cfg, w, x);
        } else if SnapshotEvent(x) {
          SnapshotEventKeepsInv(cfg, w, x);
        } else {
          TargetEventKeepsInv(cfg, w, x);
        }
      case _ => OtherEventKeepsInv(cfg, w, e);
    }
  }
}
