// The Transferring phase and the CRs of an attempt (src/controller/transfer.rs).
module Transfer {
  import opened Common
  import opened Status
  import opened World
  import opened Protocol
  import opened Stability
  import opened Runs
  import opened Client
  import opened Steps
  import opened TransferVerdict

  // ----------------------------------------------------- cleanup_transfer_crs

  predicate MayDelete(p: Phase) {
    p.Transferring? || p.CleaningUp? || p.Aborting?
  }

  lemma NoneLeft(cfg: Config, w: World, n: nat)
    requires Inv(cfg, w) && CurrentAttempt(w.st, n) && n !in w.copy.bkps && n !in w.copy.rsts
    ensures NoTransferCrs(w.copy)
  {
  }

  lemma StillAbsent(cfg: Config, w: World, t: World, n: nat)
    requires Onward(cfg, w, t)
    ensures n !in w.copy.bkps ==> n !in t.copy.bkps
    ensures n !in w.copy.rsts ==> n !in t.copy.rsts
    ensures NoTransferCrs(w.copy) ==> NoTransferCrs(t.copy)
  {
    assert n !in w.copy.bkps ==> n !in w.copy.bkps.Keys;
    assert t.copy.bkps == map[] <==> t.copy.bkps.Keys == {};
    assert t.copy.rsts == map[] <==> t.copy.rsts.Keys == {};
  }

  // The sending and the receiving CR of an attempt.
  datatype Side = Backup | Restore

  function JobOf(x: CopyVol, side: Side, n: nat): Option<Job> {
    match side
    case Backup => if n in x.bkps then Some(x.bkps[n]) else None
    case Restore => if n in x.rsts then Some(x.rsts[n]) else None
  }

  function DeleteOf(side: Side, n: nat): Act {
    if side.Backup? then ToCopy(DeleteBkp(n)) else ToCopy(DeleteRst(n))
  }

  function FinOf(side: Side, n: nat): Holder {
    if side.Backup? then BkpFin(n) else RstFin(n)
  }

  lemma MayCleanUp(cfg: Config, w: World, side: Side, n: nat)
    requires MayDelete(w.st.phase) && CurrentAttempt(w.st, n)
    ensures Permitted(cfg, w, DeleteOf(side, n))
    ensures Accepts(w, DeleteOf(side, n)) <==> JobOf(w.copy, side, n).Some?
    ensures Accepts(w, DeleteOf(side, n)) ==> Onward(cfg, w, Effect(cfg, w, DeleteOf(side, n)))
  {
    if Accepts(w, DeleteOf(side, n)) { RemovalIsOnward(cfg, w, DeleteOf(side, n)); }
  }

  // One CR: asked to go, or helped along when its node is lost.
  method CleanupJob(c: Cluster, side: Side, n: nat) returns (r: Result<bool>)
    requires c.Valid() && MayDelete(c.w.st.phase) && CurrentAttempt(c.w.st, n)
    modifies c
    ensures c.Valid() && c.Continues() && Onwards(c.cfg, old(c.w), c.w)
    ensures r == Ok(true) ==> JobOf(c.w.copy, side, n).None?
    ensures old(c.script) == [] ==>
              && c.Smoothly() && r == Ok(JobOf(old(c.w).copy, side, n).None?)
              && c.w == JobCleaned(c.cfg, old(c.w), side, n)
    ensures old(c.Lull()) && JobOf(old(c.w).copy, side, n).None? ==> c.Smoothly() && r == Ok(true) && c.w == old(c.w)
  {
    hide Inv, Run, Onward, Stable, Stripped, Permitted, Accepts, Effect;
    OnwardsOnSelf(c.cfg, c.w);
    ghost var w0 := c.w;
    var job :- c.Get((w: World) => JobOf(w.copy, side, n));
    StillAbsent(c.cfg, w0, c.w, n);
    if job.None? { return Ok(true); }
    if !job.value.deleting {
      MayCleanUp(c.cfg, c.w, side, n);
      var _ :- DoOnward(c, DeleteOf(side, n));
    } else {
      var _ :- StripIfNodeGone(c, FinOf(side, n));
    }
    return Ok(false);
  }

  function JobCleaned(cfg: Config, w: World, side: Side, n: nat): World {
    var job := JobOf(w.copy, side, n);
    if job.None? then w
    else if job.value.deleting then Stripped(cfg, w, FinOf(side, n))
    else if Accepts(w, DeleteOf(side, n)) then Effect(cfg, w, DeleteOf(side, n))
    else w
  }

  lemma SidesApart(cfg: Config, w: World, n: nat)
    ensures JobOf(JobCleaned(cfg, w, Backup, n).copy, Restore, n) == JobOf(w.copy, Restore, n)
    ensures NoTransferCrs(w.copy) ==> JobOf(w.copy, Backup, n).None? && JobOf(w.copy, Restore, n).None?
  {
  }

  lemma OnlyCrsCleaned(cfg: Config, w: World, n: nat)
    ensures CrsCleaned(cfg, w, n) == w.(copy := CrsCleaned(cfg, w, n).copy)
    ensures NoTransferCrs(w.copy) ==> CrsCleaned(cfg, w, n) == w
  {
  }

  // Both CRs; true once nothing of any attempt is left.
  method CleanupTransferCrs(c: Cluster, n: nat) returns (r: Result<bool>)
    requires c.Valid() && MayDelete(c.w.st.phase) && CurrentAttempt(c.w.st, n)
    modifies c
    ensures c.Valid() && c.Continues() && Onwards(c.cfg, old(c.w), c.w)
    ensures r == Ok(true) ==> NoTransferCrs(c.w.copy)
    ensures old(c.script) == [] ==>
              && c.Smoothly() && r == Ok(NoTransferCrs(old(c.w).copy))
              && c.w == CrsCleaned(c.cfg, old(c.w), n)
    ensures old(c.Lull()) && NoTransferCrs(old(c.w).copy) ==> c.Smoothly() && r == Ok(true) && c.w == old(c.w)
  {
    hide Inv, Run, Onward, Stable, JobCleaned, NoTransferCrs;
    ghost var w0 := c.w;
    if JobOf(w0.copy, Backup, n).None? && JobOf(w0.copy, Restore, n).None? { NoneLeft(c.cfg, w0, n); }
    SidesApart(c.cfg, w0, n);
    var sent :- CleanupJob(c, Backup, n);
    ghost var w1 := c.w;
    var received :- CleanupJob(c, Restore, n);
    StillAbsent(c.cfg, w1, c.w, n);
    if sent && received { NoneLeft(c.cfg, c.w, n); }
    return Ok(sent && received);
  }

  function CrsCleaned(cfg: Config, w: World, n: nat): World {
    JobCleaned(cfg, JobCleaned(cfg, w, Backup, n), Restore, n)
  }

  // ------------------------------------------------------------ start_attempt

  function NewAttempt(st: Status, n: nat, now: nat): Status {
    st.(transfer := Some(TransferStatus(n, None, now, None, false)), message := Some(AttemptStarting(n)))
  }

  // st is the recorded status, or what a failed attempt's handler made of it:
  // a reason noted, nothing else.
  predicate Noted(s: Status, st: Status) {
    st == s || (s.transfer.Some? && st.transfer.Some? && st == s.(transfer := st.transfer) &&
                st.transfer.value == s.transfer.value.(failureReason := st.transfer.value.failureReason))
  }

  predicate NextAttempt(s: Status, n: nat) {
    n == 1 + if s.transfer.Some? then s.transfer.value.attempt else 0
  }

  lemma MayRecordAttempt(cfg: Config, w: World, st: Status, n: nat, now: nat)
    requires w.st.phase.Transferring? && Noted(w.st, st) && NextAttempt(w.st, n) && NoTransferCrs(w.copy)
    requires n <= AttemptLimit(cfg)
    ensures Move(cfg, w, NewAttempt(st, n, now)) && NewAttempt(st, n, now).phase.Transferring?
  {
  }

  lemma MayCreateBackup(cfg: Config, w: World, n: nat)
    requires w.st.phase.Transferring? && CurrentAttempt(w.st, n)
    ensures Permitted(cfg, w, ToCopy(CreateBkp(n))) && Permitted(cfg, w, ToCopy(CreateRst(n)))
    ensures Accepts(w, ToCopy(CreateBkp(n))) && Accepts(w, ToCopy(CreateRst(n)))
  {
  }

  // Both nodes are there, with addresses.
  predicate BothUp(w: World) {
    w.gate.srcNode.Some? && w.nodes.tgtUp && w.nodes.srcPeers && w.nodes.tgtPeers
  }

  function NewRelay(w: World, n: nat): RelayObs {
    RelayObs(n, 0, Stamp(w.gate.now), false, false)
  }

  // Both nodes must exist and have addresses to let in (relay_peers); then the
  // relay listens and is registered at once.
  method Connect(c: Cluster, n: nat) returns (r: Result<()>)
    requires c.Valid()
    modifies c
    ensures c.Valid() && old(c.log) <= c.log && Onwards(c.cfg, old(c.w), c.w)
    ensures r.Ok? ==> c.relay.Some? && c.relay.value.attempt == n
    ensures old(c.Lull()) ==>
              && c.script == old(c.script) && c.w == old(c.w)
              && r == (if BothUp(c.w) then Ok(()) else Err(Missing))
              && c.relay == if r.Ok? then Some(NewRelay(c.w, n)) else old(c.relay)
  {
    hide Inv, Run, Onward, Stable;
    OnwardsOnSelf(c.cfg, c.w);
    var host :- c.Get((w: World) => (w.gate.srcNode.Some?, w.nodes.srcPeers));
    if !host.0 { return Err(Missing); }
    var dest :- c.Get((w: World) => (w.nodes.tgtUp, w.nodes.tgtPeers));
    if !dest.0 || !host.1 || !dest.1 { return Err(Missing); }
    r := c.SpawnRelay(n);
  }

  predicate Running(relay: Option<RelayObs>, n: nat) {
    relay.Some? && relay.value.attempt >= n
  }

  // All a start leaves when its record is lost: the relay.
  twostate predicate LeftBehind(c: Cluster, n: nat)
    reads c
  {
    c.script == [] && c.w == old(c.w) && c.relay.Some? && c.relay.value.attempt == n
  }

  lemma NoneOf(x: CopyVol, n: nat)
    ensures NoTransferCrs(x) ==> n !in x.bkps && n !in x.rsts
  {
  }

  // Intent before action: the attempt is on record before its CRs exist.
  method RecordAttempt(c: Cluster, st: Status, n: nat, ghost seen: World) returns (r: Result<()>)
    requires c.Valid() && seen.st.phase.Transferring? && Noted(seen.st, st) && NextAttempt(seen.st, n)
    requires NoTransferCrs(seen.copy) && n <= AttemptLimit(c.cfg) && Onward(c.cfg, seen, c.w)
    modifies c
    ensures c.Valid() && c.Continues()
    ensures r.Ok? ==>
              && c.w.st.transfer.Some? && c.w.st == NewAttempt(st, n, c.w.st.transfer.value.startedAt)
              && c.w.st.phase.Transferring?
    ensures r != Err(Crashed) && old(c.relay).Some? ==> c.relay.Some?
    ensures old(c.script) == [] && old(c.w).cr.Some? ==>
              c.Smoothly() && r.Ok? && c.w == old(c.w).(st := NewAttempt(st, n, Stamp(old(c.w).gate.now)))
    ensures old(c.LosesNext()) ==> c.Lost() && r == Err(Transport)
  {
    hide Inv, Run, Move, Onward, Stable, Noted, NextAttempt, NoTransferCrs, AttemptLimit;
    SameRecord(c.cfg, seen, c.w);
    StillAbsent(c.cfg, seen, c.w, n);
    ghost var w1 := c.w;
    var now := c.Now();
    StillAbsent(c.cfg, w1, c.w, n);
    MayRecordAttempt(c.cfg, c.w, st, n, Stamp(now));
    r := Write(c, NewAttempt(st, n, Stamp(now)));
  }

  lemma SameRecord(cfg: Config, w: World, t: World)
    requires Onward(cfg, w, t)
    ensures t.st == w.st
  {
  }

  // Never over a live relay of this attempt or a later one. Otherwise a new
  // relay is registered, the attempt recorded, and only then the backup made.
  method StartAttempt(c: Cluster, st: Status, n: nat) returns (r: Result<Action>)
    requires c.Valid()
    requires Running(c.relay, n) ||
             (&& c.w.st.phase.Transferring? && Noted(c.w.st, st) && NextAttempt(c.w.st, n)
              && NoTransferCrs(c.w.copy) && n <= AttemptLimit(c.cfg))
    modifies c
    ensures c.Valid() && old(c.log) <= c.log
    ensures ComesBack(r, c.w.st)
    ensures Running(old(c.relay), n) ==>
              && r == Ok(Requeue(5)) && c.w == old(c.w) && c.relay == old(c.relay)
              && c.script == old(c.script) && c.log == old(c.log)
    ensures r.Ok? ==> Running(c.relay, n)
    ensures r.Ok? && !Running(old(c.relay), n) ==>
              && c.relay.value.attempt == n
              && c.w.st.transfer.Some? && c.w.st == NewAttempt(st, n, c.w.st.transfer.value.startedAt)
    ensures old(c.script) == [] && old(c.w).cr.Some? && !Running(old(c.relay), n) ==>
              && c.script == []
              && r.Ok? == BothUp(old(c.w))
              && c.w == (if r.Ok? then Started(old(c.w), st, n) else old(c.w))
              && c.relay == if r.Ok? then Some(NewRelay(old(c.w), n)) else old(c.relay)
    ensures old(c.LosesNext()) && BothUp(old(c.w)) && !Running(old(c.relay), n) ==> LeftBehind(c, n)
  {
    hide Inv, Run, Move, Onward, Stable, Permitted, Noted, NextAttempt, Accepts, NoTransferCrs;
    if Running(c.relay, n) { return Ok(Requeue(5)); }
    ghost var w0 := c.w;
    NoneOf(w0.copy, n);
    var _ :- Connect(c, n);
    var _ :- RecordAttempt(c, st, n, w0);
    MayCreateBackup(c.cfg, c.w, n);
    var _ :- c.Do(ToCopy(CreateBkp(n)));
    return Ok(Requeue(2));
  }

  function Started(w: World, st: Status, n: nat): World {
    w.(st := NewAttempt(st, n, Stamp(w.gate.now)),
       copy := w.copy.(bkps := w.copy.bkps[n := Job(JobInit, false, false)]))
  }

  // ------------------------------------------------------------ retry_or_fail

  function WithReason(st: Status, reason: FailureReason): Status {
    if st.transfer.Some? then st.(transfer := Some(st.transfer.value.(failureReason := Some(reason)))) else st
  }

  lemma MayNoteReason(cfg: Config, w: World, reason: FailureReason, msg: Message)
    requires w.st.phase.Transferring? && w.st.transfer.Some? && Inv(cfg, w)
    ensures Noted(w.st, WithReason(w.st, reason))
    ensures Move(cfg, w, WithReason(w.st, reason).(message := Some(msg)))
    ensures Move(cfg, w, WithReason(w.st, reason).(phase := Aborting, message := Some(msg)))
  {
  }

  lemma RoomForAnother(cfg: Config, w: World)
    requires Inv(cfg, w) && w.st.transfer.Some? && w.st.transfer.value.attempt < cfg.maxAttempts
    ensures w.st.transfer.value.attempt + 1 <= AttemptLimit(cfg)
    ensures NextAttempt(w.st, w.st.transfer.value.attempt + 1)
  {
  }

  // Nothing of it is left: the next one, or the abort path once maxAttempts
  // are used up.
  method NextOrGiveUp(c: Cluster, st: Status, reason: FailureReason) returns (r: Result<Action>)
    requires c.Valid() && c.w.st.phase.Transferring? && c.w.st.transfer.Some? && st == WithReason(c.w.st, reason)
    requires NoTransferCrs(c.w.copy) && c.relay.None?
    modifies c
    ensures c.Valid() && old(c.log) <= c.log
    ensures ComesBack(r, c.w.st)
    ensures r.Ok? ==> c.w.st.phase.Transferring? || c.w.st.phase.Aborting?
    ensures r.Ok? && c.w.st.phase.Aborting? ==> GaveUp(c.cfg, old(c.w).st, c.w)
    ensures r.Ok? && c.w.st.phase.Transferring? ==> TriesAgain(c.cfg, old(c.w).st, c.w, c.relay)
    ensures old(c.script) == [] && old(c.w).cr.Some? ==>
              && c.script == []
              && r.Ok? == (StartsAnother(c.cfg, old(c.w)) ==> BothUp(old(c.w)))
              && c.w == Retried(c.cfg, old(c.w), reason) && c.relay == RetriedRelay(c.cfg, old(c.w))
    ensures old(c.LosesNext()) && StartsAnother(c.cfg, old(c.w)) && BothUp(old(c.w)) ==>
              LeftBehind(c, old(c.w).st.transfer.value.attempt + 1)
  {
    hide Inv, Run, Move, Onward, Stable, CrsCleaned, Noted, NextAttempt, NoTransferCrs, AttemptLimit;
    var n := c.w.st.transfer.value.attempt;
    MayNoteReason(c.cfg, c.w, reason, AttemptsExhausted(n, reason));
    if n >= c.cfg.maxAttempts {
      ghost var w1 := Written(c.w, st.(phase := Aborting, message := Some(AttemptsExhausted(n, reason))));
      r := GoAborting(c, st, AttemptsExhausted(n, reason));
      if r.Ok? { StillAbsent(c.cfg, w1, c.w, n); }
      return;
    }
    RoomForAnother(c.cfg, c.w);
    r := StartAttempt(c, st, n + 1);
  }

  // Given up: the limit is reached and nothing of the last attempt is left.
  predicate GaveUp(cfg: Config, s: Status, t: World) {
    NoTransferCrs(t.copy) && s.transfer.Some? && s.transfer.value.attempt >= cfg.maxAttempts
  }

  // The next one is recorded, within the limit, and its relay is up.
  predicate TriesAgain(cfg: Config, s: Status, t: World, relay: Option<RelayObs>) {
    && Attempt(t.st) == Attempt(s) + 1 <= cfg.maxAttempts
    && relay.Some? && relay.value.attempt == Attempt(t.st)
  }

  lemma TearsDownFirst(cfg: Config, w: World, reason: FailureReason)
    requires w.st.transfer.Some?
    ensures StartsAnother(cfg, w) ==> NoTransferCrs(w.copy)
    ensures var n := w.st.transfer.value.attempt;
            !NoTransferCrs(w.copy) ==>
              && Retried(cfg, w, reason) ==
                 Waited(CrsCleaned(cfg, w, n), WithReason(w.st, reason), AttemptCleanup(n, reason))
              && RetriedRelay(cfg, w).None?
  {
  }

  // Tears the attempt down first.
  method RetryOrFail(c: Cluster, reason: FailureReason) returns (r: Result<Action>)
    requires c.Valid() && c.w.st.phase.Transferring? && c.w.st.transfer.Some?
    modifies c
    ensures c.Valid() && old(c.log) <= c.log
    ensures ComesBack(r, c.w.st)
    ensures r.Ok? ==> c.w.st.phase.Transferring? || c.w.st.phase.Aborting?
    ensures r.Ok? && c.w.st.phase.Aborting? ==> GaveUp(c.cfg, old(c.w).st, c.w)
    ensures r.Ok? && c.w.st.phase.Transferring? ==>
              TriesAgain(c.cfg, old(c.w).st, c.w, c.relay) || (c.relay.None? && Attempt(c.w.st) == Attempt(old(c.w).st))
    ensures old(c.script) == [] && old(c.w).cr.Some? ==>
              && c.script == []
              && r.Ok? == (StartsAnother(c.cfg, old(c.w)) ==> BothUp(old(c.w)))
              && c.w == Retried(c.cfg, old(c.w), reason) && c.relay == RetriedRelay(c.cfg, old(c.w))
    ensures old(c.LosesNext()) && StartsAnother(c.cfg, old(c.w)) && BothUp(old(c.w)) ==>
              LeftBehind(c, old(c.w).st.transfer.value.attempt + 1)
  {
    hide Inv, Run, Move, Onward, Stable, CrsCleaned, Noted, NoTransferCrs, GaveUp, TriesAgain, BothUp, StartsAnother,
      Retried, RetriedRelay;
    var n := c.w.st.transfer.value.attempt;
    c.DropRelay();
    OnlyCrsCleaned(c.cfg, c.w, n);
    TearsDownFirst(c.cfg, c.w, reason);
    var gone :- CleanupTransferCrs(c, n);
    if gone {
      r := NextOrGiveUp(c, WithReason(c.w.st, reason), reason);
    } else {
      r := AwaitTeardown(c, n, reason);
    }
  }

  method AwaitTeardown(c: Cluster, n: nat, reason: FailureReason) returns (r: Result<Action>)
    requires c.Valid() && c.w.st.phase.Transferring? && CurrentAttempt(c.w.st, n)
    modifies c
    ensures c.Valid() && c.Continues()
    ensures ComesBack(r, c.w.st)
    ensures r.Ok? ==> c.w.st.phase.Transferring? && Attempt(c.w.st) == n
    ensures old(c.script) == [] && old(c.w).cr.Some? ==>
              && c.Smoothly() && r.Ok?
              && c.w == Waited(old(c.w), WithReason(old(c.w).st, reason), AttemptCleanup(n, reason))
  {
    hide Inv, Run, Move;
    MayNoteReason(c.cfg, c.w, reason, AttemptCleanup(n, reason));
    r := Wait(c, WithReason(c.w.st, reason), AttemptCleanup(n, reason), 10);
  }

  // Nothing of the failed attempt is left and there is another one to make.
  predicate StartsAnother(cfg: Config, w: World) {
    NoTransferCrs(w.copy) && w.st.transfer.Some? && w.st.transfer.value.attempt < cfg.maxAttempts
  }

  function Retried(cfg: Config, w: World, reason: FailureReason): World {
    var st, n := WithReason(w.st, reason), Attempt(w.st);
    if StartsAnother(cfg, w) then if BothUp(w) then Started(w, st, n + 1) else w
    else if NoTransferCrs(w.copy) then Written(w, st.(phase := Aborting, message := Some(AttemptsExhausted(n, reason))))
    else Waited(CrsCleaned(cfg, w, n), st, AttemptCleanup(n, reason))
  }

  // The old relay is dropped whatever comes of it.
  function RetriedRelay(cfg: Config, w: World): Option<RelayObs> {
    if StartsAnother(cfg, w) && BothUp(w) then Some(NewRelay(w, w.st.transfer.value.attempt + 1)) else None
  }

  // ------------------------------------------------------------- transferring

  lemma DoneMeansLanded(cfg: Config, w: World, t: World, n: nat)
    requires Inv(cfg, w) && w.st.phase.Transferring? && CurrentAttempt(w.st, n) && Stable(cfg, w, t)
    requires n in w.copy.rsts && w.copy.rsts[n].status.JobDone?
    ensures CopyLanded(t.st, t.copy)
  {
  }

  function StatusOf(job: Option<Job>): Option<JobStatus> {
    if job.Some? then Some(job.value.status) else None
  }

  // Everything the verdict is reached on, for the attempt t of some view.
  function ObservedAt(cfg: Config, w: World, relay: Option<RelayObs>, t: TransferStatus): TransferObs {
    var elapsed := SecsSince(w.gate.now, t.startedAt);
    TransferObs(
      t.attempt, t.failureReason,
      StatusOf(JobOf(w.copy, Backup, t.attempt)), StatusOf(JobOf(w.copy, Restore, t.attempt)),
      relay, if elapsed.Some? then elapsed.value else 0, Stamp(w.gate.now), cfg.timeoutSeconds, cfg.stallSeconds)
  }

  method Observe(c: Cluster, t: TransferStatus) returns (r: Result<TransferObs>)
    requires c.Valid()
    modifies c
    ensures c.Valid() && c.Continues() && Onwards(c.cfg, old(c.w), c.w) && OthersSince(old(c.log), c.log)
    ensures r != Err(Crashed) && old(c.relay).Some? ==> c.relay.Some?
    ensures r.Ok? ==>
              && r.value.attempt == t.attempt && r.value.failureReason == t.failureReason
              && (r.value.mem.Some? <==> c.relay.Some?)
              && (r.value.mem.Some? ==> c.relay.Some? && r.value.mem.value.attempt == c.relay.value.attempt)
              && r.value.bkp == StatusOf(JobOf(old(c.w).copy, Backup, t.attempt))
              && (t.attempt !in old(c.w).copy.rsts ==> r.value.rst.None?)
    ensures r.Ok? && r.value.mem.Some? && r.value.mem.value.sourceConnected ==>
              r.value.mem.value.attempt in c.connected
    ensures r.Ok? && r.value.rst == Some(JobDone) && c.w.st.phase.Transferring? && CurrentAttempt(c.w.st, t.attempt) ==>
              CopyLanded(c.w.st, c.w.copy)
    ensures old(c.Lull()) ==>
              c.Smoothly() && c.w == old(c.w) && r == Ok(ObservedAt(c.cfg, c.w, c.relay, t))
  {
    hide Inv, Run, Onward, Stable, CopyLanded;
    ghost var w0 := c.w;
    var bkp :- c.Get((w: World) => JobOf(w.copy, Backup, t.attempt));
    ghost var w1 := c.w;
    StillAbsent(c.cfg, w0, w1, t.attempt);
    var rst :- c.Get((w: World) => JobOf(w.copy, Restore, t.attempt));
    var mem := c.relay;
    var now := c.Now();
    var elapsed := SecsSince(now, t.startedAt);
    if rst.Some? && rst.value.status.JobDone? && c.w.st.phase.Transferring? && CurrentAttempt(c.w.st, t.attempt) {
      DoneMeansLanded(c.cfg, w1, c.w, t.attempt);
    }
    return Ok(TransferObs(t.attempt, t.failureReason, StatusOf(bkp), StatusOf(rst), mem,
                          if elapsed.Some? then elapsed.value else 0,
                          Stamp(now), c.cfg.timeoutSeconds, c.cfg.stallSeconds));
  }

  // A status view older than the live relay: without an attempt, or of an
  // earlier attempt with no reason recorded and its CRs gone.
  predicate StaleView(x: CopyVol, relay: Option<RelayObs>, st: Status) {
    match st.transfer
    case None => Running(relay, 1)
    case Some(t) =>
      && relay.Some? && t.attempt < relay.value.attempt && t.failureReason.None?
      && t.attempt !in x.bkps && t.attempt !in x.rsts
  }

  lemma MayStartFirst(cfg: Config, w: World)
    requires Inv(cfg, w) && w.st.transfer.None?
    ensures Noted(w.st, w.st) && NextAttempt(w.st, 1) && NoTransferCrs(w.copy) && 1 <= AttemptLimit(cfg)
  {
    assert w.copy.bkps.Keys == {} && w.copy.rsts.Keys == {};
  }

  function WithBytes(st: Status, bytes: Option<nat>): Status {
    if st.transfer.Some? && bytes.Some? then st.(transfer := Some(st.transfer.value.(bytesRelayed := bytes))) else st
  }

  lemma MayCount(cfg: Config, w: World, bytes: Option<nat>, msg: Message)
    requires Inv(cfg, w) && w.st.phase.Transferring? && w.st.transfer.Some?
    ensures Move(cfg, w, WithBytes(w.st, bytes)) && Move(cfg, w, w.st.(message := Some(msg)))
    ensures CopyLanded(w.st, w.copy) ==> Move(cfg, w, WithBytes(w.st, bytes).(phase := Adopting, message := None))
  {
  }

  // Points the target's agent at the relay, which the source's has reached.
  method MakeRestore(c: Cluster, n: nat) returns (r: Result<()>)
    requires c.Valid() && c.w.st.phase.Transferring? && CurrentAttempt(c.w.st, n) && n in c.connected
    modifies c
    ensures c.Valid() && old(c.log) <= c.log
    ensures r.Ok? ==> c.w.st == old(c.w).st
    ensures old(c.script) == [] ==>
              c.Smoothly() && r.Ok? == old(c.w).src.zv.Some? && c.w == WithRestore(old(c.w), n)
  {
    hide Inv, Run, Onwards, Stable, Permitted;
    var src :- c.Get((w: World) => w.src.zv);
    if src.None? { return Err(Missing); }
    MayCreateBackup(c.cfg, c.w, n);
    var _ :- c.Do(ToCopy(CreateRst(n)));
    return Ok(());
  }

  function WithRestore(w: World, n: nat): World {
    if w.src.zv.None? || n in w.copy.rsts then w
    else w.(copy := w.copy.(rsts := w.copy.rsts[n := Job(JobInit, false, false)]))
  }

  // What each verdict leads to; a stale one leads to nothing.
  method Act(c: Cluster, st: Status, v: TransferVerdict) returns (r: Result<Action>)
    requires c.Valid() && st.transfer.Some?
    requires !v.StaleStatus? ==> st == c.w.st && st.phase.Transferring?
    requires v.Complete? ==> CopyLanded(c.w.st, c.w.copy)
    requires v.CreateRestore? ==> st.transfer.value.attempt in c.connected
    modifies c
    ensures c.Valid() && old(c.log) <= c.log
    ensures ComesBack(r, c.w.st)
    ensures v.StaleStatus? ==>
              && r == Ok(Requeue(2)) && c.w == old(c.w) && c.relay == old(c.relay)
              && c.script == old(c.script) && c.log == old(c.log)
    ensures r.Ok? && v.Complete? ==>
              c.relay.None? && c.w.st == WithBytes(old(c.w).st, v.relayed).(phase := Adopting, message := None)
    ensures r.Ok? && !v.StaleStatus? ==> c.w.st.phase.Transferring? || c.w.st.phase.Adopting? || c.w.st.phase.Aborting?
    ensures old(c.script) == [] && old(c.w).cr.Some? && st == old(c.w).st ==>
              && c.script == [] && c.w == Acted(c.cfg, old(c.w), v)
              && c.relay == ActedRelay(c.cfg, old(c.w), old(c.relay), v)
    ensures old(c.LosesNext()) && v.FailAttempt? && st == old(c.w).st && StartsAnother(c.cfg, old(c.w)) &&
            BothUp(old(c.w)) ==>
              LeftBehind(c, st.transfer.value.attempt + 1)
  {
    hide Inv, Run, Move, Onwards, Stable, CopyLanded, Retried, Permitted, Accepts, Effect;
    var n := st.transfer.value.attempt;
    match v
    case Complete(bytes) =>
      c.DropRelay();
      MayCount(c.cfg, c.w, bytes, AttemptWaiting(n));
      r := Advance(c, WithBytes(st, bytes), Adopting);
    case FailAttempt(reason) =>
      r := RetryOrFail(c, reason);
    case StaleStatus =>
      return Ok(Requeue(2));
    case StaleRelay =>
      c.DropRelay();
      return Ok(Requeue(1));
    case WaitingForSource =>
      MayCount(c.cfg, c.w, None, AttemptWaiting(n));
      r := Wait(c, st, AttemptWaiting(n), 2);
    case CreateRestore =>
      var _ :- MakeRestore(c, n);
      return Ok(Requeue(2));
    case Continue(bytes) =>
      if st.transfer.value.bytesRelayed != Some(bytes) {
        MayCount(c.cfg, c.w, Some(bytes), AttemptWaiting(n));
        var _ :- Write(c, WithBytes(st, Some(bytes)));
      }
      return Ok(Requeue(10));
  }

  function Acted(cfg: Config, w: World, v: TransferVerdict): World {
    var n := Attempt(w.st);
    match v
    case Complete(bytes) => Written(w, WithBytes(w.st, bytes).(phase := Adopting, message := None))
    case FailAttempt(reason) => Retried(cfg, w, reason)
    case StaleStatus => w
    case StaleRelay => w
    case WaitingForSource => Waited(w, w.st, AttemptWaiting(n))
    case CreateRestore => WithRestore(w, n)
    case Continue(bytes) => w.(st := WithBytes(w.st, Some(bytes)))
  }

  function ActedRelay(cfg: Config, w: World, relay: Option<RelayObs>, v: TransferVerdict): Option<RelayObs> {
    match v
    case Complete(_) => None
    case FailAttempt(_) => RetriedRelay(cfg, w)
    case StaleRelay => None
    case _ => relay
  }

  // Undisturbed, this visit starts an attempt.
  predicate StartsNow(cfg: Config, w: World, relay: Option<RelayObs>) {
    && BothUp(w)
    && if w.st.transfer.None? then !Running(relay, 1)
       else StartsAnother(cfg, w) && Verdict(ObservedAt(cfg, w, relay, w.st.transfer.value)).FailAttempt?
  }

  // st is the view this reconcile was handed: the recorded status, or a stale
  // one. A stale view changes neither relay, CRs nor status.
  method InTransferring(c: Cluster, st: Status) returns (r: Result<Action>)
    requires c.Valid() && c.w.st.phase.Transferring?
    requires st == c.w.st || StaleView(c.w.copy, c.relay, st)
    modifies c
    ensures c.Valid() && old(c.log) <= c.log
    ensures ComesBack(r, c.w.st)
    ensures StaleView(old(c.w).copy, old(c.relay), st) ==>
              && c.w.st == old(c.w).st && OthersSince(old(c.log), c.log)
              && c.RelayKept() && (r != Err(Crashed) ==> c.relay.Some?)
    ensures r.Ok? ==> c.w.st.phase.Transferring? || c.w.st.phase.Adopting? || c.w.st.phase.Aborting?
    ensures c.w.copy.rsts.Keys <= c.connected
    ensures old(c.script) == [] && old(c.w).cr.Some? && st == old(c.w).st ==>
              && c.script == [] && c.w == TransferStep(c.cfg, old(c.w), old(c.relay))
              && c.relay == TransferRelay(c.cfg, old(c.w), old(c.relay))
    ensures old(c.LosesNext()) && st == old(c.w).st && StartsNow(c.cfg, old(c.w), old(c.relay)) ==>
              LeftBehind(c, Attempt(st) + 1)
  {
    hide Inv, Run, Move, Onward, Stable, CopyLanded, Acted, Started, Noted;
    if st.transfer.None? {
      if st == c.w.st { MayStartFirst(c.cfg, c.w); }
      r := StartAttempt(c, st, 1);
      return;
    }
    var obs :- Observe(c, st.transfer.value);
    r := Act(c, st, Verdict(obs));
  }

  function TransferStep(cfg: Config, w: World, relay: Option<RelayObs>): World {
    if w.st.transfer.Some? then Acted(cfg, w, Verdict(ObservedAt(cfg, w, relay, w.st.transfer.value)))
    else if Running(relay, 1) || !BothUp(w) then w
    else Started(w, w.st, 1)
  }

  function TransferRelay(cfg: Config, w: World, relay: Option<RelayObs>): Option<RelayObs> {
    if w.st.transfer.Some? then ActedRelay(cfg, w, relay, Verdict(ObservedAt(cfg, w, relay, w.st.transfer.value)))
    else if Running(relay, 1) || !BothUp(w) then relay
    else Some(NewRelay(w, 1))
  }

  // -------------------------------------------------- destroy_target_snapshot

  function Marked(st: Status): Status {
    if st.transfer.Some? then st.(transfer := Some(st.transfer.value.(targetSnapDeleteIssued := true))) else st
  }

  // Being cleaned up: the transfer CRs are gone, the record is complete.
  predicate SnapshotTurn(w: World) {
    w.st.phase.CleaningUp? && w.st.transfer.Some? && NoTransferCrs(w.copy)
  }

  lemma StaysSnapshotTurn(cfg: Config, w: World, t: World)
    requires SnapshotTurn(w) && Onward(cfg, w, t)
    ensures SnapshotTurn(t)
  {
    StillAbsent(cfg, w, t, 0);
  }

  lemma MayMark(cfg: Config, w: World, t: World)
    requires Inv(cfg, w) && Stable(cfg, w, t) && SnapshotTurn(w) && SnapshotTurn(t)
    requires if w.copy.snapCr.Some? then w.copy.snapCr.value.deleting else w.nodes.tgtLost
    ensures Move(cfg, t, Marked(t.st))
  {
  }

  lemma DeletingIsMarked(cfg: Config, w: World)
    requires SnapshotTurn(w) && w.copy.snapCr.Some? && (w.copy.snapCr.value.fin || w.nodes.tgtLost)
    ensures Permitted(cfg, w, ToCopy(DeleteSnap)) && Accepts(w, ToCopy(DeleteSnap))
    ensures var t := Effect(cfg, w, ToCopy(DeleteSnap));
            SnapshotTurn(t) && (if t.copy.snapCr.Some? then t.copy.snapCr.value.deleting else t.nodes.tgtLost)
  {
  }

  // Deletes the CR and marks that in the record, in this order.
  method DeleteAndMark(c: Cluster) returns (r: Result<()>)
    requires c.Valid() && SnapshotTurn(c.w)
    requires c.w.copy.snapCr.Some? ==> c.w.copy.snapCr.value.fin || c.w.nodes.tgtLost
    modifies c
    ensures c.Valid() && old(c.log) <= c.log
    ensures r.Ok? ==> c.w.st == Marked(old(c.w).st) && SnapshotTurn(c.w)
    ensures old(c.script) == [] && old(c.w).cr.Some? && old(c.w).copy.snapCr.Some? ==>
              && c.Smoothly() && r.Ok?
              && c.w == old(c.w).(st := Marked(old(c.w).st),
                                  copy := old(c.w).copy.(snapCr := DeletedSnap(old(c.w).copy.snapCr.value)))
  {
    hide Inv, Run, Move, Onward, Stable;
    ghost var w0 := c.w;
    var _ :- c.Do(ToCopy(DeleteSnap));
    DeletingIsMarked(c.cfg, w0);
    ghost var w1 := Effect(c.cfg, w0, ToCopy(DeleteSnap));
    StaysSnapshotTurn(c.cfg, w1, c.w);
    MayMark(c.cfg, w1, c.w);
    ghost var w2 := Written(c.w, Marked(c.w.st));
    var _ :- Write(c, Marked(c.w.st));
    StaysSnapshotTurn(c.cfg, w2, c.w);
    return Ok(());
  }

  lemma FinStays(cfg: Config, w: World, t: World)
    requires Stable(cfg, w, t) && w.copy.snapCr.Some? && w.copy.snapCr.value.fin
    ensures t.copy.snapCr.Some? ==> t.copy.snapCr.value.fin
  {
  }

  lemma MayRegister(cfg: Config, w: World)
    requires SnapshotTurn(w) && !SnapIssued(w.st)
    ensures Permitted(cfg, w, ToCopy(CreateSnap)) && Accepts(w, ToCopy(CreateSnap))
  {
  }

  lemma RegisteredTurn(cfg: Config, w: World, t: World)
    requires SnapshotTurn(w) && Onward(cfg, Effect(cfg, w, ToCopy(CreateSnap)), t)
    ensures SnapshotTurn(t)
  {
    StaysSnapshotTurn(cfg, Effect(cfg, w, ToCopy(CreateSnap)), t);
  }

  lemma TgtAbsentMeansLost(cfg: Config, w: World, t: World)
    requires Inv(cfg, w) && !w.nodes.tgtUp && Onward(cfg, w, t)
    ensures t.nodes.tgtLost
  {
  }

  // None once the received snapshot needs no more care, else what it waits
  // for. A CR that is simply gone is never registered again.
  method DestroyTargetSnapshot(c: Cluster) returns (r: Result<Option<Message>>)
    requires c.Valid() && SnapshotTurn(c.w)
    modifies c
    ensures c.Valid() && old(c.log) <= c.log
    ensures r.Ok? ==> SnapshotTurn(c.w)
    ensures r == Ok(None) ==> HandshakeDone(c.w.st, c.w.copy) && c.w.st == old(c.w).st
    ensures r.Ok? ==> c.w.st == old(c.w).st || c.w.st == Marked(old(c.w).st)
    ensures old(c.script) == [] && old(c.w).cr.Some? ==>
              c.Smoothly() && r == Ok(SnapshotVerdict(old(c.w))) && c.w == SnapshotStep(c.cfg, old(c.w))
  {
    hide Inv, Run, Move, Onward, Stable, SnapshotTurn, Stripped, Permitted, Accepts;
    ghost var w0 := c.w;
    TurnHasRecord(c.cfg, w0);
    var existing :- c.Get((w: World) => w.copy.snapCr);
    StaysSnapshotTurn(c.cfg, w0, c.w);
    if SnapIssued(c.w.st) {
      if existing.None? { StaysGone(c.cfg, w0, c.w); return Ok(None); }
      ghost var w1 := c.w;
      var _ :- StripIfNodeGone(c, SnapFin);
      StaysSnapshotTurn(c.cfg, w1, c.w);
      return Ok(Some(WaitingForSnapshotDestroy));
    }
    r := SnapshotCr(c, existing, w0);
  }

  lemma TurnHasRecord(cfg: Config, w: World)
    requires SnapshotTurn(w)
    ensures w.st.phase.CleaningUp? && w.st.transfer.Some?
  {
  }

  lemma StaysGone(cfg: Config, w: World, t: World)
    requires Onward(cfg, w, t)
    ensures w.copy.snapCr.None? ==> t.copy.snapCr.None?
    ensures w.copy.zv.None? ==> t.copy.zv.None?
  {
  }

  // Nothing stands for the received snapshot yet; with the new volume gone
  // nothing has to.
  method RegisterSnapshot(c: Cluster) returns (r: Result<Option<Message>>)
    requires c.Valid() && SnapshotTurn(c.w) && !SnapIssued(c.w.st)
    modifies c
    ensures c.Valid() && old(c.log) <= c.log
    ensures r.Ok? ==> SnapshotTurn(c.w) && c.w.st == old(c.w).st
    ensures r == Ok(None) ==> c.w.copy.zv.None?
    ensures old(c.script) == [] && old(c.w).copy.snapCr.None? ==>
              c.Smoothly() && r == Ok(SnapshotVerdict(old(c.w))) && c.w == SnapshotStep(c.cfg, old(c.w))
  {
    hide Inv, Run, Move, Onward, Stable, SnapshotTurn, Stripped, Permitted, Accepts;
    ghost var w0 := c.w;
    var zv :- c.Get((w: World) => w.copy.zv);
    StaysGone(c.cfg, w0, c.w);
    StaysSnapshotTurn(c.cfg, w0, c.w);
    if zv.None? { return Ok(None); }
    MayRegister(c.cfg, c.w);
    ghost var w1 := c.w;
    var _ :- c.Do(ToCopy(CreateSnap));
    RegisteredTurn(c.cfg, w1, c.w);
    return Ok(Some(RegisteringSnapshot));
  }

  // Before the delete has been recorded.
  method SnapshotCr(c: Cluster, existing: Option<SnapCr>, ghost seen: World) returns (r: Result<Option<Message>>)
    requires c.Valid() && SnapshotTurn(c.w) && !SnapIssued(c.w.st)
    requires Inv(c.cfg, seen) && SnapshotTurn(seen) && Stable(c.cfg, seen, c.w) && Onward(c.cfg, seen, c.w)
    requires existing == seen.copy.snapCr
    modifies c
    ensures c.Valid() && old(c.log) <= c.log
    ensures r.Ok? ==> SnapshotTurn(c.w)
    ensures r == Ok(None) ==> c.w.copy.zv.None? && c.w.st == old(c.w).st
    ensures r.Ok? ==> c.w.st == old(c.w).st || c.w.st == Marked(old(c.w).st)
    ensures old(c.script) == [] && old(c.w).cr.Some? && seen == old(c.w) ==>
              c.Smoothly() && r == Ok(SnapshotVerdict(old(c.w))) && c.w == SnapshotStep(c.cfg, old(c.w))
  {
    hide Inv, Run, Move, Onward, Stable, SnapshotTurn, Stripped, Permitted, Accepts;
    if existing.None? { r := RegisterSnapshot(c); return; }
    ghost var w0 := c.w;
    if existing.value.deleting {
      MayMark(c.cfg, seen, c.w);
      ghost var w1 := Written(c.w, Marked(c.w.st));
      MarkedTurn(c.w);
      var _ :- Write(c, Marked(c.w.st));
      StaysSnapshotTurn(c.cfg, w1, c.w);
      return Ok(Some(WaitingForSnapshotDestroy));
    }
    if existing.value.fin {
      FinStays(c.cfg, seen, c.w);
      var _ :- DeleteAndMark(c);
      return Ok(Some(WaitingForSnapshotDestroy));
    }
    var up :- c.Get((w: World) => w.nodes.tgtUp);
    StaysSnapshotTurn(c.cfg, w0, c.w);
    if !up {
      TgtAbsentMeansLost(c.cfg, w0, c.w);
      var _ :- DeleteAndMark(c);
    }
    return Ok(Some(WaitingForSnapshotAgent));
  }

  lemma MarkedTurn(w: World)
    requires SnapshotTurn(w)
    ensures SnapshotTurn(Written(w, Marked(w.st)))
  {
  }

  function SnapshotVerdict(w: World): Option<Message> {
    match w.copy.snapCr
    case None =>
      if SnapIssued(w.st) || w.copy.zv.None? then None else Some(RegisteringSnapshot)
    case Some(cr) =>
      if SnapIssued(w.st) || cr.deleting || cr.fin then Some(WaitingForSnapshotDestroy)
      else Some(WaitingForSnapshotAgent)
  }

  function SnapshotStep(cfg: Config, w: World): World {
    match w.copy.snapCr
    case None =>
      if SnapIssued(w.st) || w.copy.zv.None? then w else w.(copy := w.copy.(snapCr := Some(SnapCr(false, false))))
    case Some(cr) =>
      if SnapIssued(w.st) then Stripped(cfg, w, SnapFin)
      else if cr.deleting then w.(st := Marked(w.st))
      else if cr.fin || !w.nodes.tgtUp then w.(st := Marked(w.st), copy := w.copy.(snapCr := DeletedSnap(cr)))
      else w
  }

  lemma SnapshotRest(cfg: Config, w: World)
    ensures SnapshotVerdict(w).None? ==> SnapshotStep(cfg, w) == w
    ensures SnapshotStep(cfg, w).cr == w.cr
  {
  }
}
