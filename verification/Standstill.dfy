// When the copy phase stands still for good. A start registers its relay
// before the attempt is on record (src/controller/transfer.rs); should the
// record be lost, the relay stays ahead of it, and every visit takes the
// record for an old one and leaves everything alone.
module Standstill {
  import opened Common
  import opened Pods
  import opened Status
  import opened World
  import opened Protocol
  import opened Safety
  import opened Runs
  import opened Client
  import opened TransferVerdict
  import opened Steps
  import opened Phases
  import opened Transfer
  import opened Abort
  import opened Reconciler
  import opened Completion

  // Nobody will report an end of attempt n any more: at most one of its CRs
  // is there, and that one is Done.
  predicate NothingToCome(x: CopyVol, n: nat) {
    && (n in x.bkps ==> x.bkps[n].status.JobDone? && n !in x.rsts)
    && (n in x.rsts ==> x.rsts[n].status.JobDone?)
  }

  // The relay is ahead of a record that names no failure.
  predicate Overtaken(w: World, relay: Option<RelayObs>) {
    && w.st.phase.Transferring? && relay.Some? && relay.value.attempt > Attempt(w.st)
    && (w.st.transfer.Some? ==>
          w.st.transfer.value.failureReason.None? && NothingToCome(w.copy, w.st.transfer.value.attempt))
  }

  // And nobody has called the evacuation off.
  predicate Stranded(cfg: Config, w: World, relay: Option<RelayObs>) {
    GoesOn(cfg, w) && Overtaken(w, relay)
  }

  // --------------------------------------------------- visits change nothing

  // An undisturbed visit leaves record, copy and relay as they are.
  predicate Idles(cfg: Config, w: World, relay: Option<RelayObs>, pick: Choice) {
    var t := ReconcileStep(cfg, w, relay, pick);
    t.st == w.st && t.copy == w.copy && RelayLeft(cfg, w, relay) == relay
  }

  lemma OrdinaryVisit(cfg: Config, w: World, relay: Option<RelayObs>, pick: Choice)
    requires GoesOn(cfg, w) && w.st.phase.Transferring?
    ensures ReconcileStep(cfg, w, relay, pick) == TransferStep(cfg, Held(w), relay)
    ensures RelayLeft(cfg, w, relay) == TransferRelay(cfg, Held(w), relay)
  {
    hide TransferStep, TransferRelay, GoesOn;
  }

  lemma StrandedIdles(cfg: Config, w: World, relay: Option<RelayObs>, pick: Choice)
    requires Stranded(cfg, w, relay)
    ensures ReconcileStep(cfg, w, relay, pick) == Held(w) && RelayLeft(cfg, w, relay) == relay
  {
    OrdinaryVisit(cfg, w, relay, pick);
    hide GoesOn, ReconcileStep, RelayLeft;
  }

  lemma StillNothing(w: World, e: CopyEvent, n: nat)
    requires CopyEnabled(w, e) && NothingToCome(w.copy, n)
    ensures NothingToCome(CopyEffect(w, e), n)
  {
  }

  // Whatever anybody else does, it stays overtaken.
  lemma StaysOvertaken(cfg: Config, w: World, e: EnvEvent, relay: Option<RelayObs>)
    requires Overtaken(w, relay)
    ensures Overtaken(EnvStep(cfg, w, e), relay)
  {
    hide CopyEnabled, CopyEffect, NothingToCome, GateEnabled, GateEffect, ClaimEnabled, ClaimEffect, SourceEnabled,
      SourceEffect, HandsOver;
    if e.OnCopy? && Enabled(cfg, w, e) && w.st.transfer.Some? { StillNothing(w, e.x, w.st.transfer.value.attempt); }
  }

  // ------------------------------------------------------- and nothing else does

  // What goes on by itself: time, the nodes' return, unless the source's calls
  // the evacuation off, and the node agents at the transfer CRs.
  predicate Routine(cfg: Config, e: EnvEvent) {
    || (e.OnGate? && e.g.Tick?)
    || (e.OnGate? && e.g.SrcNodeIs? && (cfg.trigger.Annotation? || HasEvacuateTaint(e.g.host, cfg.taintKey)))
    || e.TgtNodeBack? || e == Addresses(true, true)
    || (e.OnCopy? && (e.x.BkpRun? || e.x.BkpEnd? || e.x.BkpGone? || e.x.RstRun? || e.x.RstEnd? || e.x.RstGone?))
  }

  function Later(cfg: Config, w: World, events: seq<EnvEvent>): World {
    if events == [] then w else EnvStep(cfg, Later(cfg, w, events[..|events| - 1]), events[|events| - 1])
  }

  function RanOn(relay: Option<RelayObs>, counters: RelayObs): Option<RelayObs> {
    if relay.Some? then Some(counters.(attempt := relay.value.attempt)) else None
  }

  lemma LaterIs(cfg: Config, w: World, e: EnvEvent, f: EnvEvent)
    ensures Later(cfg, w, [e]) == EnvStep(cfg, w, e)
    ensures Later(cfg, w, [e, f]) == EnvStep(cfg, EnvStep(cfg, w, e), f)
  {
    hide EnvStep;
    assert [e][..0] == [] && [e, f][..1] == [e];
  }

  lemma RoutineGoesOn(cfg: Config, w: World, e: EnvEvent)
    requires Routine(cfg, e)
    ensures GoesOn(cfg, w) ==> GoesOn(cfg, EnvStep(cfg, w, e))
    ensures BothUp(w) ==> BothUp(EnvStep(cfg, w, e))
    ensures EnvStep(cfg, w, e).st == w.st
  {
  }

  lemma {:induction false} StrandedForGood(
    cfg: Config, w: World, relay: Option<RelayObs>, events: seq<EnvEvent>, counters: RelayObs)
    requires Stranded(cfg, w, relay) && forall e <- events :: Routine(cfg, e)
    ensures Stranded(cfg, Later(cfg, w, events), RanOn(relay, counters))
  {
    hide GoesOn, EnvStep;
    if events != [] {
      StrandedForGood(cfg, w, relay, events[..|events| - 1], counters);
      var before := Later(cfg, w, events[..|events| - 1]);
      RoutineGoesOn(cfg, before, events[|events| - 1]);
      StaysOvertaken(cfg, before, events[|events| - 1], RanOn(relay, counters));
    }
  }

  lemma AbortLeaves(cfg: Config, w: World, st: Status)
    requires st.phase.Transferring?
    ensures AbortStep(cfg, w, st, true).st.phase.Aborting?
  {
    hide TargetDeleted, CrsCleaned, SourceUnwound, TargetIsClean;
    var t := Written(w, st.(phase := Aborting));
    SourceUnwoundKeepsCr(cfg, t);
    OnlyCrsCleaned(cfg, t, Attempt(t.st));
    DeletingTarget(cfg, t);
  }

  lemma CalledOffMoves(cfg: Config, w: World, relay: Option<RelayObs>, pick: Choice)
    requires w.cr.Some? && w.st.phase.Transferring? && !w.st.committed && !GoesOn(cfg, w)
    ensures !Idles(cfg, w, relay, pick)
  {
    hide AbortStep, CancelCondition;
    AbortLeaves(cfg, w, w.st.(message := Some(DeletedBeforeCommit)));
  }

  function VerdictAt(cfg: Config, w: World, relay: Option<RelayObs>): TransferVerdict
    requires w.st.transfer.Some?
  {
    Verdict(ObservedAt(cfg, w, relay, w.st.transfer.value))
  }

  // A visit that finds an end to the attempt drops the relay, if there is one,
  // or moves the record on.
  lemma EndMoves(cfg: Config, w: World, relay: Option<RelayObs>, pick: Choice)
    requires GoesOn(cfg, w) && w.st.phase.Transferring? && w.st.transfer.Some? && BothUp(w)
    requires Ends(VerdictAt(cfg, w, relay)) || VerdictAt(cfg, w, relay).StaleRelay?
    requires relay.Some? || NoTransferCrs(w.copy)
    ensures !Idles(cfg, w, relay, pick)
  {
    OrdinaryVisit(cfg, w, relay, pick);
    SameVerdict(cfg, w, relay);
    hide GoesOn, ReconcileStep, RelayLeft, Verdict, ObservedAt, CrsCleaned;
  }

  predicate Ends(v: TransferVerdict) {
    v.FailAttempt? || v.Complete?
  }

  lemma SameVerdict(cfg: Config, w: World, relay: Option<RelayObs>)
    requires w.st.transfer.Some?
    ensures VerdictAt(cfg, Held(w), relay) == VerdictAt(cfg, w, relay)
  {
    hide Verdict;
  }

  // No relay, CRs left: they are asked to go, or go by themselves.
  lemma TeardownMoves(cfg: Config, w: World, pick: Choice) returns (events: seq<EnvEvent>)
    requires Inv(cfg, w) && GoesOn(cfg, w) && w.st.phase.Transferring? && w.st.transfer.Some? && BothUp(w)
    ensures (forall e <- events :: Routine(cfg, e)) && !Idles(cfg, Later(cfg, w, events), None, pick)
  {
    hide Inv, GoesOn, Idles, EnvStep;
    var n := w.st.transfer.value.attempt;
    if Ends(VerdictAt(cfg, w, None)) && NoTransferCrs(w.copy) {
      events := [];
      EndMoves(cfg, w, None, pick);
    } else if AllLeaving(w.copy, n) {
      events := [OnCopy(BkpGone(n)), OnCopy(RstGone(n))];
      AllGo(cfg, w, n);
      EndMoves(cfg, Later(cfg, w, events), None, pick);
    } else {
      events := [];
      AskedToGo(cfg, w, pick);
    }
  }

  predicate AllLeaving(x: CopyVol, n: nat) {
    (n in x.bkps ==> x.bkps[n].deleting) && (n in x.rsts ==> x.rsts[n].deleting)
  }

  lemma AllGo(cfg: Config, w: World, n: nat)
    requires Inv(cfg, w) && CurrentAttempt(w.st, n) && AllLeaving(w.copy, n)
    ensures var t := Later(cfg, w, [OnCopy(BkpGone(n)), OnCopy(RstGone(n))]);
            && NoTransferCrs(t.copy) && t == w.(copy := t.copy) && GoesOn(cfg, t) == GoesOn(cfg, w)
  {
    hide InvRecord, InvClaim, InvSource, InvEnds, InvTarget, InvSwap, InvAccess;
    LaterIs(cfg, w, OnCopy(BkpGone(n)), OnCopy(RstGone(n)));
    var u := EnvStep(cfg, w, OnCopy(BkpGone(n)));
    assert u.copy.bkps == map[];
  }

  lemma AskedIsNews(cfg: Config, w: World, n: nat)
    requires !AllLeaving(w.copy, n)
    ensures CrsCleaned(cfg, w, n).copy != w.copy
  {
    hide Stripped;
    SidesApart(cfg, w, n);
    CleaningJob(cfg, w, Backup, n);
    CleaningJob(cfg, JobCleaned(cfg, w, Backup, n), Restore, n);
  }

  lemma AskedToGo(cfg: Config, w: World, pick: Choice)
    requires GoesOn(cfg, w) && w.st.phase.Transferring? && w.st.transfer.Some?
    requires !AllLeaving(w.copy, w.st.transfer.value.attempt)
    ensures !Idles(cfg, w, None, pick)
  {
    var n := w.st.transfer.value.attempt;
    OrdinaryVisit(cfg, w, None, pick);
    LostRelayEndsTheAttempt(ObservedAt(cfg, Held(w), None, w.st.transfer.value));
    AskedIsNews(cfg, Held(w), n);
    OnlyCrsCleaned(cfg, Held(w), n);
    hide GoesOn, ReconcileStep, RelayLeft, Verdict, ObservedAt, CrsCleaned;
  }

  // A relay of this very attempt whose stream does not flow times out.
  lemma TimeoutMoves(
    cfg: Config, w: World, relay: Option<RelayObs>, pick: Choice) returns (e: EnvEvent, counters: RelayObs)
    requires GoesOn(cfg, w) && w.st.phase.Transferring? && w.st.transfer.Some? && BothUp(w)
    requires relay.Some? && relay.value.attempt == w.st.transfer.value.attempt
    ensures Routine(cfg, e) && !Idles(cfg, EnvStep(cfg, w, e), RanOn(relay, counters), pick)
  {
    var t := w.st.transfer.value;
    e, counters := OnGate(Tick((t.startedAt + cfg.timeoutSeconds + 1) * 1000)), relay.value.(bytes := 0);
    var u := EnvStep(cfg, w, e);
    RoutineGoesOn(cfg, w, e);
    assert SecsSince(u.gate.now, t.startedAt).Some? && SecsSince(u.gate.now, t.startedAt).value > cfg.timeoutSeconds;
    hide GoesOn, Idles;
    EndMoves(cfg, u, RanOn(relay, counters), pick);
  }

  // A CR that is not Done may yet fail.
  lemma FailureMoves(cfg: Config, w: World, relay: Option<RelayObs>, pick: Choice) returns (events: seq<EnvEvent>)
    requires GoesOn(cfg, w) && w.st.phase.Transferring? && w.st.transfer.Some? && BothUp(w) && relay.Some?
    requires !NothingToCome(w.copy, w.st.transfer.value.attempt)
    ensures (forall e <- events :: Routine(cfg, e)) && !Idles(cfg, Later(cfg, w, events), relay, pick)
  {
    var n, x := w.st.transfer.value.attempt, w.copy;
    hide GoesOn, Idles, BothUp, EnvStep, VerdictAt, Later;
    if n in x.bkps && !Ended(x.bkps[n].status) {
      events := [OnCopy(BkpEnd(n, JobFailed))];
      BackupFails(cfg, w, relay);
    } else if n in x.rsts && !Ended(x.rsts[n].status) {
      events := [OnCopy(RstEnd(n, JobFailed))];
      RestoreFails(cfg, w, relay);
    } else {
      events := [];
      HasEnded(cfg, w, relay);
      EndMoves(cfg, w, relay, pick);
      return;
    }
    LaterIs(cfg, w, events[0], events[0]);
    RoutineGoesOn(cfg, w, events[0]);
    EndMoves(cfg, EnvStep(cfg, w, events[0]), relay, pick);
  }

  lemma BackupFails(cfg: Config, w: World, relay: Option<RelayObs>)
    requires w.st.transfer.Some?
    requires var n := w.st.transfer.value.attempt; n in w.copy.bkps && !Ended(w.copy.bkps[n].status)
    ensures var u := EnvStep(cfg, w, OnCopy(BkpEnd(w.st.transfer.value.attempt, JobFailed)));
            u.st == w.st && Ends(VerdictAt(cfg, u, relay))
  {
  }

  lemma RestoreFails(cfg: Config, w: World, relay: Option<RelayObs>)
    requires w.st.transfer.Some?
    requires var n := w.st.transfer.value.attempt; n in w.copy.rsts && !Ended(w.copy.rsts[n].status)
    ensures var u := EnvStep(cfg, w, OnCopy(RstEnd(w.st.transfer.value.attempt, JobFailed)));
            u.st == w.st && Ends(VerdictAt(cfg, u, relay))
  {
  }

  // Both Done, or one of them failed already.
  lemma HasEnded(cfg: Config, w: World, relay: Option<RelayObs>)
    requires w.st.transfer.Some? && !NothingToCome(w.copy, w.st.transfer.value.attempt)
    requires var (n, x) := (w.st.transfer.value.attempt, w.copy);
             (n in x.bkps ==> Ended(x.bkps[n].status)) && (n in x.rsts ==> Ended(x.rsts[n].status))
    ensures Ends(VerdictAt(cfg, w, relay))
  {
  }

  lemma UpAndNotStrandedMoves(cfg: Config, w: World, relay: Option<RelayObs>, pick: Choice)
    returns (events: seq<EnvEvent>, counters: RelayObs)
    requires Inv(cfg, w) && w.st.phase.Transferring? && BothUp(w) && GoesOn(cfg, w) && !Overtaken(w, relay)
    ensures (forall e <- events :: Routine(cfg, e)) && !Idles(cfg, Later(cfg, w, events), RanOn(relay, counters), pick)
  {
    hide Inv, GoesOn, BothUp, Idles, EnvStep;
    events, counters := [], if relay.Some? then relay.value else RelayObs(0, 0, 0, false, false);
    assert RanOn(relay, counters) == relay;
    if w.st.transfer.None? {
      FirstStartMoves(cfg, w, relay, pick);
    } else if relay.None? {
      events := TeardownMoves(cfg, w, pick);
    } else if relay.value.attempt == w.st.transfer.value.attempt {
      var e;
      e, counters := TimeoutMoves(cfg, w, relay, pick);
      events := [e];
      LaterIs(cfg, w, e, e);
    } else if relay.value.attempt < w.st.transfer.value.attempt || w.st.transfer.value.failureReason.Some? {
      EndMoves(cfg, w, relay, pick);
    } else {
      events := FailureMoves(cfg, w, relay, pick);
    }
  }

  // Both nodes come back as they have to be.
  function Returns(cfg: Config): seq<EnvEvent> {
    var host := Node(cfg.srcName, false, [Taint(cfg.taintKey, None, NO_SCHEDULE)]);
    [OnGate(SrcNodeIs(host)), TgtNodeBack, Addresses(true, true)]
  }

  lemma KeptByReturn(cfg: Config, w: World, e: EnvEvent)
    requires Inv(cfg, w) && GoesOn(cfg, w) && Routine(cfg, e) && !e.OnCopy?
    ensures var u := EnvStep(cfg, w, e); Inv(cfg, u) && GoesOn(cfg, u) && u.st == w.st && u.copy == w.copy
  {
    RoutineGoesOn(cfg, w, e);
    EnvKeepsInv(cfg, w, e);
    hide Inv, GoesOn;
  }

  lemma AllReturned(cfg: Config, w: World, host: Node)
    requires Inv(cfg, w) && w.st.phase.Transferring? && host.name == cfg.srcName
    ensures var u := EnvStep(cfg, EnvStep(cfg, w, OnGate(SrcNodeIs(host))), TgtNodeBack);
            BothUp(EnvStep(cfg, u, Addresses(true, true)))
  {
    hide InvAccess;
  }

  lemma NodesReturn(cfg: Config, w: World)
    requires Inv(cfg, w) && w.st.phase.Transferring? && GoesOn(cfg, w)
    ensures forall e <- Returns(cfg) :: Routine(cfg, e)
    ensures var u := Later(cfg, w, Returns(cfg));
            Inv(cfg, u) && u.st == w.st && u.copy == w.copy && BothUp(u) && GoesOn(cfg, u)
  {
    var es := Returns(cfg);
    assert HasEvacuateTaint(es[0].g.host, cfg.taintKey);
    AllReturned(cfg, w, es[0].g.host);
    assert forall e <- es :: Routine(cfg, e);
    hide Inv, GoesOn, Routine, EnvStep, BothUp;
    LaterIs(cfg, w, es[0], es[1]);
    assert es[..2] == [es[0], es[1]];
    KeptByReturn(cfg, w, es[0]);
    KeptByReturn(cfg, EnvStep(cfg, w, es[0]), es[1]);
    KeptByReturn(cfg, EnvStep(cfg, EnvStep(cfg, w, es[0]), es[1]), es[2]);
  }

  lemma {:induction false} LaterStill(cfg: Config, w: World, first: seq<EnvEvent>, rest: seq<EnvEvent>)
    ensures Later(cfg, w, first + rest) == Later(cfg, Later(cfg, w, first), rest)
    decreases |rest|
  {
    hide EnvStep;
    if rest == [] {
      assert first + rest == first;
    } else {
      var n := |rest| - 1;
      LaterStill(cfg, w, first, rest[..n]);
      assert (first + rest)[..|first| + n] == first + rest[..n];
    }
  }

  lemma NotStrandedMoves(cfg: Config, w: World, relay: Option<RelayObs>, pick: Choice)
    returns (events: seq<EnvEvent>, counters: RelayObs)
    requires Inv(cfg, w) && w.cr.Some? && w.st.phase.Transferring? && !Stranded(cfg, w, relay)
    ensures (forall e <- events :: Routine(cfg, e)) && !Idles(cfg, Later(cfg, w, events), RanOn(relay, counters), pick)
  {
    if GoesOn(cfg, w) {
      hide Inv, GoesOn, Routine, BothUp, Idles;
      var u := Later(cfg, w, Returns(cfg));
      NodesReturn(cfg, w);
      events, counters := UpAndNotStrandedMoves(cfg, u, relay, pick);
      LaterStill(cfg, w, Returns(cfg), events);
      events := Returns(cfg) + events;
    } else {
      events, counters := [], if relay.Some? then relay.value else RelayObs(0, 0, 0, false, false);
      assert RanOn(relay, counters) == relay;
      NotYetCommitted(cfg, w);
      CalledOffMoves(cfg, w, relay, pick);
    }
  }

  lemma NotYetCommitted(cfg: Config, w: World)
    requires Inv(cfg, w) && w.st.phase.Transferring?
    ensures !w.st.committed
  {
  }

  lemma FirstStartMoves(cfg: Config, w: World, relay: Option<RelayObs>, pick: Choice)
    requires GoesOn(cfg, w) && w.st.phase.Transferring? && w.st.transfer.None? && BothUp(w) && !Running(relay, 1)
    ensures !Idles(cfg, w, relay, pick)
  {
    OrdinaryVisit(cfg, w, relay, pick);
    hide GoesOn, ReconcileStep, RelayLeft;
  }

  // These are exactly the states of the copy phase that no passing of time, no
  // node's return, no agent's progress and no relay's progress ever gets a
  // visit to move on from.
  lemma StrandedIff(cfg: Config, w: World, relay: Option<RelayObs>, pick: Choice)
    requires Inv(cfg, w) && w.cr.Some? && w.st.phase.Transferring?
    ensures Stranded(cfg, w, relay) <==>
            forall events: seq<EnvEvent>, counters: RelayObs :: (forall e <- events :: Routine(cfg, e)) ==>
              Idles(cfg, Later(cfg, w, events), RanOn(relay, counters), pick)
  {
    hide Inv, Stranded, Later, RanOn, Routine;
    if Stranded(cfg, w, relay) {
      forall events: seq<EnvEvent>, counters: RelayObs | forall e <- events :: Routine(cfg, e)
        ensures Idles(cfg, Later(cfg, w, events), RanOn(relay, counters), pick)
      {
        StrandedForGood(cfg, w, relay, events, counters);
        StrandedIdles(cfg, Later(cfg, w, events), RanOn(relay, counters), pick);
      }
    } else {
      var events, counters := NotStrandedMoves(cfg, w, relay, pick);
    }
  }

  // ------------------------------------------------- how long, and how it ends

  // Before a visit: what others do, and how far the relay has got.
  datatype Round = Round(events: seq<EnvEvent>, counters: RelayObs, pick: Choice)

  lemma CallingOffAborts(cfg: Config, w: World, relay: Option<RelayObs>, pick: Choice)
    requires w.cr.Some? && w.st.phase.Transferring? && !w.st.committed && !GoesOn(cfg, w)
    ensures var t := ReconcileStep(cfg, w, relay, pick);
            && t.st.phase.Aborting? && t.st.source == w.st.source
            && (w.cr.value.deleting ==> RelayLeft(cfg, w, relay).None?) && (!w.cr.value.deleting ==> t.cr.Some?)
  {
    hide AbortStep, CancelCondition;
    AbortLeaves(cfg, w, w.st.(message := Some(DeletedBeforeCommit)));
    AbortKeepsSource(cfg, w, w.st.(message := Some(DeletedBeforeCommit)));
  }

  lemma AbortKeepsSource(cfg: Config, w: World, st: Status)
    requires st.phase.Transferring?
    ensures AbortStep(cfg, w, st, true).st.source == st.source
  {
    hide TargetDeleted, CrsCleaned, SourceUnwound, TargetIsClean;
    var t := Written(w, st.(phase := Aborting));
    SourceUnwoundKeepsCr(cfg, t);
    OnlyCrsCleaned(cfg, t, Attempt(t.st));
    DeletingTarget(cfg, t);
  }

  method Meanwhile(c: Cluster, r: Round)
    requires c.Valid() && Overtaken(c.w, c.relay)
    modifies c
    ensures c.Valid() && old(c.log) <= c.log && c.script == old(c.script) && c.w.st == old(c.w).st
    ensures Overtaken(c.w, c.relay) && c.relay.value.attempt == old(c.relay).value.attempt
  {
    hide Inv, Run, EnvStep, NothingToCome;
    for i := 0 to |r.events|
      invariant c.Valid() && old(c.log) <= c.log && c.script == old(c.script) && c.w.st == old(c.w).st
      invariant c.relay == old(c.relay) && Overtaken(c.w, c.relay)
    {
      StaysOvertaken(c.cfg, c.w, r.events[i], c.relay);
      OthersDoNotRecord(c.cfg, c.w, r.events[i]);
      c.Happen(r.events[i]);
    }
    c.RelayRuns(r.counters);
  }

  // Any number of visits, with anything at all done by others and by the
  // relay in between: as long as nobody calls the evacuation off, they change
  // nothing. The first to find it called off (k) aborts.
  method StandsStill(c: Cluster, rounds: seq<Round>) returns (k: nat)
    requires c.Valid() && c.script == [] && Stranded(c.cfg, c.w, c.relay)
    requires forall r <- rounds :: Reconciler.Fresh(c.w.st, r.pick)
    modifies c
    ensures c.Valid() && old(c.log) <= c.log && c.script == [] && k <= |rounds|
    ensures k == |rounds| ==>
              && c.w.st == old(c.w).st && Stranded(c.cfg, c.w, c.relay)
              && c.relay.value.attempt == old(c.relay).value.attempt
    ensures k < |rounds| ==> c.w.cr.None? || c.w.st.phase.Aborting?
  {
    hide Inv, Run, Overtaken, GoesOn, ReconcileStep, RelayLeft;
    OvertakenIsCopying(c.w, c.relay);
    for i := 0 to |rounds|
      invariant c.Valid() && old(c.log) <= c.log && c.script == [] && c.w.st == old(c.w).st
      invariant Stranded(c.cfg, c.w, c.relay) && c.relay.Some? && c.relay.value.attempt == old(c.relay).value.attempt
    {
      assert rounds[i] in rounds;
      Meanwhile(c, rounds[i]);
      if c.w.cr.None? { return i; }
      OvertakenIsCopying(c.w, c.relay);
      if GoesOn(c.cfg, c.w) {
        StrandedIdles(c.cfg, c.w, c.relay, rounds[i].pick);
        HeldStaysStranded(c.cfg, c.w, c.relay);
        var _ := Reconcile(c, rounds[i].pick);
      } else {
        NotYetCommitted(c.cfg, c.w);
        CallingOffAborts(c.cfg, c.w, c.relay, rounds[i].pick);
        var _ := Reconcile(c, rounds[i].pick);
        return i;
      }
    }
    return |rounds|;
  }

  lemma OvertakenIsCopying(w: World, relay: Option<RelayObs>)
    requires Overtaken(w, relay)
    ensures w.st.phase.Transferring? && relay.Some?
  {
  }

  lemma HeldStaysStranded(cfg: Config, w: World, relay: Option<RelayObs>)
    requires Stranded(cfg, w, relay)
    ensures Stranded(cfg, Held(w), relay) && Held(w).st == w.st
  {
  }

  // Calling it off does end it: two visits later there is no relay.
  method CallingOffEndsIt(c: Cluster, pick: Choice)
    requires c.Valid() && c.script == [] && Overtaken(c.w, c.relay) && c.w.cr.Some? && !GoesOn(c.cfg, c.w)
    requires Reconciler.Fresh(c.w.st, pick)
    modifies c
    ensures c.Valid() && old(c.log) <= c.log && c.relay.None? && (c.w.st.phase.Aborting? || c.w.st.phase.Failed?)
  {
    hide Inv, Run, GoesOn, ReconcileStep, NothingToCome;
    NotYetCommitted(c.cfg, c.w);
    CallingOffAborts(c.cfg, c.w, c.relay, pick);
    ghost var w0 := c.w;
    var _ := Reconcile(c, pick);
    if c.relay.Some? {
      AbortingEndsIt(c.cfg, c.w, c.relay, pick);
      var _ := Reconcile(c, pick);
    }
  }

  lemma AbortingEndsIt(cfg: Config, w: World, relay: Option<RelayObs>, pick: Choice)
    requires w.cr.Some? && w.st.phase.Aborting?
    ensures RelayLeft(cfg, w, relay).None?
    ensures var p := ReconcileStep(cfg, w, relay, pick).st.phase; p.Aborting? || p.Failed?
  {
    AbortingGoesOn(cfg, w, w.st.(message := Some(DeletedBeforeCommit)), true);
    AbortingGoesOn(cfg, Held(w), w.st, false);
    hide AbortStep, CancelCondition;
  }

  lemma AbortingGoesOn(cfg: Config, w: World, st: Status, deleting: bool)
    requires w.st.phase.Aborting? && st.phase.Aborting?
    ensures var p := AbortStep(cfg, w, st, deleting).st.phase; p.Aborting? || p.Failed?
  {
    hide TargetDeleted, CrsCleaned, SourceUnwound, TargetIsClean;
    SourceUnwoundKeepsCr(cfg, w);
    OnlyCrsCleaned(cfg, w, Attempt(w.st));
    DeletingTarget(cfg, w);
  }

  // -------------------------------------------------------------- how it begins

  // Every start whose record is lost strands the evacuation, but for the
  // retry of an attempt whose failure was already on record.
  method LosesTheRecord(c: Cluster, pick: Choice)
    requires c.Valid() && c.LosesNext() && LosesAttempt(c.cfg, c.w, c.relay) && Reconciler.Fresh(c.w.st, pick)
    modifies c
    ensures c.Valid() && old(c.log) <= c.log && c.script == [] && c.w == old(c.w)
    ensures Stranded(c.cfg, c.w, c.relay) <==>
              (c.w.st.transfer.Some? ==> c.w.st.transfer.value.failureReason.None?)
  {
    hide Inv, Run, CancelCondition, ObservedAt, Verdict;
    var _ := Reconcile(c, pick);
  }

  const LOST_CALL := Burst(LostBefore, [], RelayObs(0, 0, 0, false, false), true)

  // The very first record.
  method FirstRecordLost(cfg: Config, start: World, t: Trip, pick: Choice) returns (c: Cluster)
    requires Departing(cfg, start, t) && Picks(pick, t) && t.target.newVolumeHandle != cfg.handle
    ensures fresh(c) && c.cfg == cfg && c.start == start && Run(cfg, start, c.log, c.w) && c.script == []
    ensures Stranded(cfg, c.w, c.relay) && c.w.st.transfer.None?
  {
    hide GoesOn, Departing, Preparing, Inv, Run, Visited, Stranded;
    c := Prepare(cfg, start, t, pick);
    PreparingGoesOn(cfg, c.w, t, Transferring, pick);
    FirstIsDue(cfg, c.w, t);
    c.Expect(LOST_CALL);
    LosesTheRecord(c, pick);
  }

  lemma FirstIsDue(cfg: Config, w: World, t: Trip)
    requires Preparing(cfg, w, t, Transferring) && GoesOn(cfg, w)
    ensures LosesAttempt(cfg, w, None) && w.st.transfer.None?
  {
  }

  // A later one: the first attempt's CR is deleted by hand before its agent
  // takes it, and the process restarts, so the visit that finds the attempt
  // over starts the next one at once.
  method SecondRecordLost(cfg: Config, start: World, t: Trip, pick: Choice) returns (c: Cluster)
    requires Departing(cfg, start, t) && Picks(pick, t) && t.target.newVolumeHandle != cfg.handle
    requires cfg.maxAttempts >= 2
    ensures fresh(c) && c.cfg == cfg && c.start == start && Run(cfg, start, c.log, c.w) && c.script == []
    ensures Stranded(cfg, c.w, c.relay) && Attempt(c.w.st) == 1 && NoTransferCrs(c.w.copy)
  {
    hide GoesOn, Departing, Preparing, Carrying, Inv, Run, Visited, Stranded, EnvStep;
    c := Prepare(cfg, start, t, pick);
    PreparingGoesOn(cfg, c.w, t, Transferring, pick);
    Starts(cfg, c.w, t, c.relay, pick);
    Visit(c, pick);
    HandDeleted(cfg, c.w, t);
    c.Happen(OnCopy(UserDeleteBkp(1)));
    c.Restart();
    CopyingGoesOn(cfg, c.w, t, Transferring, UNTOUCHED, pick);
    SecondIsDue(cfg, c.w, t);
    c.Expect(LOST_CALL);
    LosesTheRecord(c, pick);
  }

  lemma HandDeleted(cfg: Config, w: World, t: Trip)
    requires Carrying(cfg, w, t, Transferring, FIRST_BACKUP)
    ensures Carrying(cfg, EnvStep(cfg, w, OnCopy(UserDeleteBkp(1))), t, Transferring, UNTOUCHED)
  {
    assert map[1 := NEW_JOB] - {1} == map[];
  }

  lemma SecondIsDue(cfg: Config, w: World, t: Trip)
    requires Carrying(cfg, w, t, Transferring, UNTOUCHED) && GoesOn(cfg, w) && cfg.maxAttempts >= 2
    ensures LosesAttempt(cfg, w, None) && Attempt(w.st) == 1 && NoTransferCrs(w.copy)
    ensures w.st.transfer.Some? && w.st.transfer.value.failureReason.None?
  {
  }
}
