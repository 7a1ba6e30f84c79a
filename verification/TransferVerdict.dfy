// The verdict on a transfer attempt (src/controller/transfer.rs): one pure
// function that orders success, recorded failure, agent failure, staleness,
// timeout and stall.
module TransferVerdict {
  import opened Common
  import opened Status
  import opened World

  // What the controller's memory holds of a live relay.
  datatype RelayObs = RelayObs(
    attempt: nat, bytes: nat, lastActivity: nat, taskFinished: bool, sourceConnected: bool)

  // bkp and rst are None when the CR does not exist.
  datatype TransferObs = TransferObs(
    attempt: nat, failureReason: Option<FailureReason>, bkp: Option<JobStatus>, rst: Option<JobStatus>,
    mem: Option<RelayObs>, elapsedSecs: nat, nowSecs: nat, timeoutSecs: nat, stallSecs: nat)

  datatype TransferVerdict =
    | Complete(relayed: Option<nat>) | FailAttempt(reason: FailureReason)
    | StaleStatus | StaleRelay | WaitingForSource | CreateRestore | Continue(bytes: nat)

  predicate AgentFailed(s: Option<JobStatus>) {
    s == Some(JobFailed) || s == Some(JobInvalid)
  }

  predicate Flowing(m: RelayObs) {
    !m.taskFinished && m.bytes > 0
  }

  function Verdict(o: TransferObs): TransferVerdict {
    if o.bkp == Some(JobDone) && o.rst == Some(JobDone) then
      Complete(if o.mem.Some? then Some(o.mem.value.bytes) else None)
    else if o.failureReason.Some? then FailAttempt(o.failureReason.value)
    else if AgentFailed(o.bkp) then FailAttempt(BackupEnded)
    else if AgentFailed(o.rst) then FailAttempt(RestoreEnded)
    else if o.mem.None? then FailAttempt(ControllerRestarted)
    else
      var m := o.mem.value;
      if m.attempt > o.attempt then StaleStatus
      else if m.attempt < o.attempt then StaleRelay
      else if !Flowing(m) && o.elapsedSecs > o.timeoutSecs then FailAttempt(TimedOut)
      else if o.rst.None? then (if m.sourceConnected then CreateRestore else WaitingForSource)
      else if Flowing(m) && SaturatingSub(o.nowSecs, m.lastActivity) > o.stallSecs then FailAttempt(Stalled)
      else Continue(m.bytes)
  }

  // A live relay of this very attempt, and nobody has reported an end.
  predicate Live(o: TransferObs) {
    && o.failureReason.None? && !AgentFailed(o.bkp) && !AgentFailed(o.rst)
    && !(o.bkp == Some(JobDone) && o.rst == Some(JobDone))
    && o.mem.Some? && o.mem.value.attempt == o.attempt
  }

  predicate TimeoutPassed(o: TransferObs) {
    o.elapsedSecs > o.timeoutSecs
  }

  predicate StallPassed(o: TransferObs) {
    o.mem.Some? && o.nowSecs > o.mem.value.lastActivity + o.stallSecs
  }

  // Completing takes both agents' word and nothing else: neither a recorded
  // failure, nor a lost relay, nor a passed window outweighs it, and no relay
  // that finished by itself brings it about.
  lemma SuccessNeedsBothAgents(o: TransferObs)
    ensures Verdict(o).Complete? <==> o.bkp == Some(JobDone) && o.rst == Some(JobDone)
  {
  }

  // A live attempt fails exactly when its stream does not flow past the
  // timeout, or flows to an existing restore and then stands still past the
  // stall window. So a flowing stream never times out, however long it takes.
  lemma LiveAttemptFailsIff(o: TransferObs)
    requires Live(o)
    ensures Verdict(o).FailAttempt? <==>
              if Flowing(o.mem.value) then o.rst.Some? && StallPassed(o) else TimeoutPassed(o)
    ensures Flowing(o.mem.value) ==> Verdict(o) != FailAttempt(TimedOut)
  {
  }

  // Each reason says what happened, the agents' word before the relay's and the
  // sender's before the receiver's.
  lemma ReasonNamesTheEnd(o: TransferObs)
    requires o.failureReason.None? && !(o.bkp == Some(JobDone) && o.rst == Some(JobDone))
    ensures Verdict(o) == FailAttempt(BackupEnded) <==> o.bkp == Some(JobFailed) || o.bkp == Some(JobInvalid)
    ensures Verdict(o) == FailAttempt(RestoreEnded) <==>
              !AgentFailed(o.bkp) && (o.rst == Some(JobFailed) || o.rst == Some(JobInvalid))
    ensures Verdict(o) == FailAttempt(ControllerRestarted) <==>
              !AgentFailed(o.bkp) && !AgentFailed(o.rst) && o.mem.None?
    ensures Verdict(o) == FailAttempt(TimedOut) <==> Live(o) && !Flowing(o.mem.value) && TimeoutPassed(o)
    ensures Verdict(o) == FailAttempt(Stalled) <==>
              Live(o) && Flowing(o.mem.value) && o.rst.Some? && StallPassed(o)
  {
  }

  // The receiver is set to work once, when the sender has reached the relay, and
  // not past the timeout of a stream that does not flow.
  lemma DialedWhenConnected(o: TransferObs)
    ensures Verdict(o) == CreateRestore <==>
              Live(o) && o.rst.None? && o.mem.value.sourceConnected && (Flowing(o.mem.value) || !TimeoutPassed(o))
    ensures Verdict(o) == WaitingForSource <==>
              Live(o) && o.rst.None? && !o.mem.value.sourceConnected && (Flowing(o.mem.value) || !TimeoutPassed(o))
  {
  }

  // With the restore CR there, an attempt whose counters stand still past both
  // windows is always ended one way or the other.
  lemma StandstillIsDetected(o: TransferObs)
    requires o.mem.Some? && o.mem.value.attempt == o.attempt && o.rst.Some?
    requires TimeoutPassed(o) && StallPassed(o)
    ensures Verdict(o).FailAttempt? || Verdict(o).Complete?
  {
  }

  // A dead attempt is dead: with its relay lost, or its recorded number ahead
  // of the relay, only agents that both finished save it.
  lemma LostRelayEndsTheAttempt(o: TransferObs)
    requires o.mem.None?
    ensures Verdict(o).FailAttempt? || Verdict(o).Complete?
  {
  }

  // The visits to one attempt: whatever each of them finds of CRs, relay and
  // clock, all that is written of it is the reason it saw the attempt fail
  // for, and that write may be lost.
  predicate Visits(os: seq<TransferObs>) {
    forall i | 0 < i < |os| ::
      && os[i].attempt == os[i - 1].attempt
      && (|| os[i].failureReason == os[i - 1].failureReason
          || (Verdict(os[i - 1]).FailAttempt? && os[i].failureReason == Some(Verdict(os[i - 1]).reason)))
  }

  // A recorded reason is never replaced by one read off the torn down state: all
  // later visits repeat it, but for a success that outran the teardown.
  lemma {:induction false} ReasonIsKept(os: seq<TransferObs>, k: nat, i: nat)
    requires Visits(os) && k <= i < |os| && os[k].failureReason.Some?
    ensures os[i].failureReason == os[k].failureReason
    ensures Verdict(os[i]) == FailAttempt(os[k].failureReason.value) ||
            (Verdict(os[i]).Complete? && os[i].bkp == Some(JobDone) && os[i].rst == Some(JobDone))
  {
    if k < i { ReasonIsKept(os, k, i - 1); }
  }

  // A status view older than the live relay is told to touch nothing exactly
  // when it records no reason and its CRs show no end; once they are gone
  // that is all it takes. A recorded reason is acted upon first.
  lemma StaleViewHarmlessIff(o: TransferObs)
    requires o.mem.Some? && o.mem.value.attempt > o.attempt
    ensures Verdict(o) == StaleStatus <==>
              && o.failureReason.None? && !AgentFailed(o.bkp) && !AgentFailed(o.rst)
              && !(o.bkp == Some(JobDone) && o.rst == Some(JobDone))
  {
  }
}
