// The durable record of one evacuation (src/crd/zfs_evacuation.rs): its phase,
// what it knows about source, target and transfer, and the clock its
// timestamps are read against.
module Status {
  import opened Common
  import opened Manifests

  datatype Phase =
    | Pending | Guarding | Retaining | Locking | Quiescing | TargetSelecting | Transferring
    | Adopting | Committing | Swapping | CleaningUp | Completed | Aborting | Failed

  datatype Trigger = Annotation | NodeTaint

  datatype SourceInfo = SourceInfo(
    node: string, nodeId: string, pool: string, volumeHandle: string, pvUid: nat, capacityBytes: nat)

  datatype FailureReason = BackupEnded | RestoreEnded | ControllerRestarted | TimedOut | Stalled

  datatype TransferStatus = TransferStatus(
    attempt: nat, bytesRelayed: Option<nat>, startedAt: nat,
    failureReason: Option<FailureReason>, targetSnapDeleteIssued: bool)

  // status.message, one constructor per text the controller writes, with what
  // varies in it.
  datatype Message =
    | CancelledBecause(why: CancelReason) | DeletedBeforeCommit
    | NotEvacuable
    | BlockedByPods(scheduled: set<string>, waiting: set<string>) | SourceSchedulable(waiting: set<string>)
    | SourceBusy | PvVanished | NoTargetYet
    | AttemptStarting(attempt: nat) | AttemptWaiting(attempt: nat)
    | AttemptCleanup(attempt: nat, reason: FailureReason) | AttemptsExhausted(attempt: nat, reason: FailureReason)
    | WaitingForAdoption | AdoptionFailed
    | PvcReplaced | PodsAtCommit | PvReplaced
    | WaitingForTransferCrs | RegisteringSnapshot | WaitingForSnapshotAgent | WaitingForSnapshotDestroy
    | WaitingForSourceDestroy | EvacuationComplete
    | DestroyingTarget | AdoptingOrphan | AbortCleaningCrs | EvacuationAborted

  datatype CancelReason = PvGone | AnnotationRemoved | TaintRemoved | PvcGone | PvcUidChanged

  datatype Status = Status(
    phase: Phase, message: Option<Message>,
    pvcRef: Option<PvcRef>, source: Option<SourceInfo>, target: Option<TargetInfo>,
    originalPolicy: Option<string>, oldPv: Option<Manifest>, newPv: Option<Manifest>,
    committed: bool, cancelled: bool, transfer: Option<TransferStatus>,
    quiescedAt: Option<nat>, lockedAt: Option<nat>)

  const INITIAL_STATUS :=
    Status(Pending, None, None, None, None, None, None, None, false, false, None, None, None)

  // Every phase change goes up; Aborting and Failed rank above everything they
  // can be reached from.
  function Rank(p: Phase): nat {
    match p
    case Pending => 0 case Guarding => 1 case Retaining => 2 case Locking => 3 case Quiescing => 4
    case TargetSelecting => 5 case Transferring => 6 case Adopting => 7 case Committing => 8
    case Swapping => 9 case CleaningUp => 10 case Completed => 11 case Aborting => 12 case Failed => 13
  }

  predicate Committed(p: Phase) {
    p.Swapping? || p.CleaningUp? || p.Completed?
  }

  predicate Terminal(p: Phase) {
    p.Completed? || p.Failed?
  }

  // Phases in which the copy exists or is being made.
  predicate Copying(p: Phase) {
    p.Transferring? || p.Adopting? || p.Committing? || p.Swapping?
  }

  // ------------------------------------------------------------------ clock

  // Timestamps are RFC3339 without fractions: the second a moment falls in.
  function Stamp(nowMs: nat): nat {
    nowMs / 1000
  }

  // secs_since: whole seconds from a stamp to now, None for a future stamp.
  function SecsSince(nowMs: nat, stamp: nat): Option<nat> {
    if nowMs < stamp * 1000 then None else Some((nowMs - stamp * 1000) / 1000)
  }

  // Because the stamp is cut to a second, a grace of g seconds measured against
  // it guarantees strictly more than g - 1 seconds of real time, and no more.
  lemma GraceGuarantee(eventMs: nat, nowMs: nat, g: nat)
    requires eventMs <= nowMs
    ensures SecsSince(nowMs, Stamp(eventMs)).Some?
    ensures SecsSince(nowMs, Stamp(eventMs)).value >= g <==> nowMs - eventMs >= g * 1000 - eventMs % 1000
    ensures SecsSince(nowMs, Stamp(eventMs)).value >= g ==> nowMs - eventMs > (g - 1) * 1000
  {
    assert eventMs == Stamp(eventMs) * 1000 + eventMs % 1000;
  }

  lemma GraceIsShortByUpToASecond()
    ensures SecsSince(15_000, Stamp(10_999)) == Some(5) && 15_000 - 10_999 == 4_001
  {
  }
}
