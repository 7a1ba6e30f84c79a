// The settle period over any number of visits (quiescing in
// src/controller/state_machine.rs): what ends it, what breaks it off, and
// what does not.
module Settling {
  import opened Common
  import opened Pods
  import opened Status
  import opened World
  import opened Protocol
  import opened Runs
  import opened Client
  import opened TransferVerdict
  import opened Steps
  import opened Phases
  import opened Reconciler
  import opened Completion

  // Somebody stands in the way, and what the record is told about it.
  predicate Blocked(cfg: Config, g: Gate) {
    !MayProceed(cfg, RefPods(cfg, g.pods), g.srcNode)
  }

  function Blocker(cfg: Config, g: Gate): Message {
    BlockedBy(cfg, RefPods(cfg, g.pods))
  }

  // One visit after the other, each looking at its own gate.
  function Looks(cfg: Config, w: World, gates: seq<Gate>): World {
    if gates == [] then w
    else
      var before := Looks(cfg, w, gates[..|gates| - 1]);
      if before.st.phase.Quiescing? then Quiesced(cfg, before.(gate := gates[|gates| - 1])) else before
  }

  // The visits of a settle period that began at the recorded time: none in the
  // lock's grace, none before that time.
  predicate PeriodLooks(w: World, gates: seq<Gate>) {
    && w.st.phase.Quiescing? && w.st.quiescedAt.Some?
    && forall g <- gates :: GraceOver(g.now, w.st) && g.now >= w.st.quiescedAt.value * 1000
  }

  predicate PeriodOver(cfg: Config, w: World, g: Gate)
    requires w.st.quiescedAt.Some?
  {
    g.now >= (w.st.quiescedAt.value + cfg.settleSeconds) * 1000
  }

  // A look that leaves the period as it is: too early to end it, or at a
  // blocker whose message is on record already.
  predicate Passes(cfg: Config, w: World, g: Gate)
    requires w.st.quiescedAt.Some?
  {
    if Blocked(cfg, g) then w.st.message == Some(Blocker(cfg, g)) else !PeriodOver(cfg, w, g)
  }

  lemma OneLook(cfg: Config, w: World, g: Gate)
    requires PeriodLooks(w, [g])
    ensures var t := Quiesced(cfg, w.(gate := g)).st;
            && (t == w.st <==> Passes(cfg, w, g))
            && (t.phase.TargetSelecting? <==> !Blocked(cfg, g) && PeriodOver(cfg, w, g))
            && (t.phase.Quiescing? && t.quiescedAt == w.st.quiescedAt <==> Passes(cfg, w, g))
  {
    assert [g][0] in [g];
    hide MayProceed, RefPods, BlockedBy;
  }

  // At every visit so far the period that began at the recorded time was on.
  ghost predicate Unbroken(cfg: Config, w: World, gates: seq<Gate>) {
    forall i | 0 <= i <= |gates| ::
      var t := Looks(cfg, w, gates[..i]).st; t.phase.Quiescing? && t.quiescedAt == w.st.quiescedAt
  }

  // Exactly when it still is: every blocker seen meanwhile repeated the
  // message that was on record when it began.
  lemma {:induction false} UnbrokenIff(cfg: Config, w: World, gates: seq<Gate>)
    requires PeriodLooks(w, gates)
    ensures Unbroken(cfg, w, gates) <==> forall g <- gates :: Passes(cfg, w, g)
    ensures Unbroken(cfg, w, gates) ==> Looks(cfg, w, gates).st == w.st
  {
    hide Passes, Quiesced;
    if gates == [] {
      assert gates[..0] == [];
    } else {
      var rest, last := gates[..|gates| - 1], gates[|gates| - 1];
      assert gates == rest + [last];
      UnbrokenIff(cfg, w, rest);
      assert forall i | 0 <= i <= |rest| :: gates[..i] == rest[..i];
      assert gates[..|gates|] == gates && rest[..|rest|] == rest;
      assert Unbroken(cfg, w, gates) ==> Unbroken(cfg, w, rest);
      if Unbroken(cfg, w, rest) {
        var before := Looks(cfg, w, rest);
        SameLook(cfg, before, w, last);
        OneLook(cfg, w, last);
      }
    }
  }

  lemma SameLook(cfg: Config, w: World, u: World, g: Gate)
    requires w.st == u.st
    ensures Quiesced(cfg, w.(gate := g)).st == Quiesced(cfg, u.(gate := g)).st
  {
    hide MayProceed, RefPods, BlockedBy;
  }

  // Exactly when it ends, at the last of these visits: nobody is in the way
  // then, and it has run its length since the recorded time, whatever blockers
  // with that one message stood in the way in between.
  lemma PeriodEndsIff(cfg: Config, w: World, gates: seq<Gate>)
    requires PeriodLooks(w, gates) && gates != []
    ensures var rest, last := gates[..|gates| - 1], gates[|gates| - 1];
            Unbroken(cfg, w, rest) && Looks(cfg, w, gates).st.phase.TargetSelecting? <==>
              && (forall g <- rest :: Passes(cfg, w, g))
              && !Blocked(cfg, last) && PeriodOver(cfg, w, last)
  {
    var rest, last := gates[..|gates| - 1], gates[|gates| - 1];
    UnbrokenIff(cfg, w, rest);
    if Unbroken(cfg, w, rest) {
      assert rest[..|rest|] == rest;
      SameLook(cfg, Looks(cfg, w, rest), w, last);
      OneLook(cfg, w, last);
    }
    hide Passes, Quiesced, Blocked, PeriodOver;
  }

  // So a period that no blocker came before was clear at every visit of its
  // whole length; only one that follows a blocker may be cut short.
  lemma FirstPeriodIsClear(cfg: Config, w: World, gates: seq<Gate>)
    requires PeriodLooks(w, gates) && gates != [] && w.st.message.None?
    requires Unbroken(cfg, w, gates[..|gates| - 1]) && Looks(cfg, w, gates).st.phase.TargetSelecting?
    ensures forall g <- gates :: !Blocked(cfg, g)
    ensures gates[|gates| - 1].now >= (w.st.quiescedAt.value + cfg.settleSeconds) * 1000
  {
    PeriodEndsIff(cfg, w, gates);
    assert gates == gates[..|gates| - 1] + [gates[|gates| - 1]];
    hide Blocked, Looks;
  }

  // This is what the handler does, visit by visit.
  method Watch(c: Cluster, rounds: seq<seq<GateEvent>>) returns (gates: seq<Gate>)
    requires c.Valid() && c.script == [] && c.w.st.phase.Quiescing? && c.w.cr.Some?
    modifies c
    ensures c.Valid() && old(c.log) <= c.log && c.script == []
    ensures |gates| <= |rounds| && (c.w.st.phase.Quiescing? ==> |gates| == |rounds|)
    ensures c.w.st == Looks(c.cfg, old(c.w), gates).st
  {
    hide Inv, Run, Quiesced, EnvStep;
    gates := [];
    for i := 0 to |rounds|
      invariant c.Valid() && old(c.log) <= c.log && c.script == [] && c.w.cr.Some? && |gates| == i
      invariant c.w.st.phase.Quiescing? && c.w.st == Looks(c.cfg, old(c.w), gates).st
    {
      for k := 0 to |rounds[i]|
        invariant c.Valid() && old(c.log) <= c.log && c.script == [] && c.w.cr.Some?
        invariant c.w.st == Looks(c.cfg, old(c.w), gates).st
      {
        GateOnly(c.cfg, c.w, rounds[i][k]);
        c.Happen(OnGate(rounds[i][k]));
      }
      assert (gates + [c.w.gate])[..|gates|] == gates;
      SameLook(c.cfg, c.w, Looks(c.cfg, old(c.w), gates), c.w.gate);
      assert c.w == c.w.(gate := c.w.gate);
      QuiescedKeepsCr(c.cfg, c.w);
      gates := gates + [c.w.gate];
      var _ := InQuiescing(c);
      if !c.w.st.phase.Quiescing? { return; }
    }
  }

  lemma GateOnly(cfg: Config, w: World, e: GateEvent)
    ensures var t := EnvStep(cfg, w, OnGate(e)); t.st == w.st && t.cr == w.cr
  {
    hide GateEffect, GateEnabled;
  }

  lemma QuiescedKeepsCr(cfg: Config, w: World)
    ensures Quiesced(cfg, w).cr == w.cr
  {
    hide MayProceed, RefPods, BlockedBy;
  }

  // ------------------------------------------------------- a period cut short

  // Idle, past the lock's grace, waiting for the source to be shut.
  predicate Waiting(cfg: Config, w: World) {
    && cfg.mode.WhenClaimed? && cfg.srcName != ""
    && w.cr == Some(Cr(false, true)) && w.st.phase.Quiescing? && GoesOn(cfg, w)
    && !HasRefPods(cfg, w.gate.pods) && GraceOver(w.gate.now, w.st) && w.gate.srcNode.Some?
    && w.st.lockedAt.Some? && w.st.lockedAt.value * 1000 <= w.gate.now
  }

  // The source's node, and not one the evacuation is called off for.
  predicate Asks(cfg: Config, host: Node) {
    host.name == cfg.srcName && (cfg.trigger.NodeTaint? ==> HasEvacuateTaint(host, cfg.taintKey))
  }

  lemma IsWaiting(cfg: Config, w: World, t: Trip)
    requires Preparing(cfg, w, t, Quiescing) && GraceOver(w.gate.now, w.st) && GoesOn(cfg, w) && Inv(cfg, w)
    requires cfg.mode.WhenClaimed? && cfg.srcName != ""
    ensures Waiting(cfg, w) && w.gate.srcNode.Some? && Asks(cfg, w.gate.srcNode.value)
    ensures NodeRepelsPods(w.gate.srcNode.value, cfg.taintKey)
  {
    hide GoesOn, InvObjects, InvHandover, InvLock, InvLate, InvQuiet, InvFidelity, InvSnapshot;
  }

  predicate Repels(cfg: Config, w: World) {
    w.gate.srcNode.Some? && NodeRepelsPods(w.gate.srcNode.value, cfg.taintKey)
  }

  const NO_CORDON := SourceSchedulable({})

  lemma VisitLooks(cfg: Config, w: World, relay: Option<RelayObs>, pick: Choice)
    requires Waiting(cfg, w)
    ensures Blocked(cfg, w.gate) <==> !Repels(cfg, w)
    ensures Visited(cfg, w, relay, pick) ==
            if Repels(cfg, w) then Settled(cfg, w) else Waited(w, w.st.(quiescedAt := None), NO_CORDON)
  {
    hide GoesOn, NodeRepelsPods;
    assert w == w.(cr := Some(Cr(false, true)));
    var refs := RefPods(cfg, w.gate.pods);
    assert refs == map[] && NamesOf(refs, true) == {} && NamesOf(refs, false) == {};
  }

  // The source's cordon comes and goes, and time passes.
  lemma StaysWaiting(cfg: Config, w: World, e: GateEvent)
    requires Waiting(cfg, w)
    requires e.Tick? || (e.SrcNodeIs? && Asks(cfg, e.host))
    ensures var u := EnvStep(cfg, w, OnGate(e));
            && Waiting(cfg, u) && u.st == w.st
            && (e.Tick? ==> u.gate.now == w.gate.now + e.ms && u.gate.srcNode == w.gate.srcNode)
            && (e.SrcNodeIs? ==> u.gate.now == w.gate.now && u.gate.srcNode == Some(e.host))
  {
    hide HasRefPods;
  }

  lemma AnchorsNow(cfg: Config, w: World)
    requires Waiting(cfg, w) && w.st.quiescedAt.None?
    ensures var u := Settled(cfg, w);
            Waiting(cfg, u) && u.st == w.st.(quiescedAt := Some(Stamp(w.gate.now))) && u.gate == w.gate
  {
    hide HasRefPods;
  }

  lemma ToldOnce(cfg: Config, w: World)
    requires Waiting(cfg, w)
    ensures var u := Waited(w, w.st.(quiescedAt := None), NO_CORDON);
            && Waiting(cfg, u) && u.st.message == Some(NO_CORDON) && u.gate == w.gate
            && (w.st.message == Some(NO_CORDON) ==> u == w)
            && u.st == w.st.(message := u.st.message, quiescedAt := u.st.quiescedAt)
            && (w.st.quiescedAt.None? ==> u.st.quiescedAt.None?)
  {
    hide HasRefPods;
  }

  lemma LongEnough(cfg: Config, w: World, ms: nat)
    requires w.st.quiescedAt == Some(Stamp(ms)) && w.gate.now >= ms + (cfg.settleSeconds + 1) * 1000
    ensures Settled(cfg, w).st.phase.TargetSelecting? && Settled(cfg, w).gate == w.gate
  {
    assert ms >= Stamp(ms) * 1000;
  }

  // One visit after the source's node has changed.
  method LookAt(c: Cluster, host: Node, pick: Choice) returns (ghost n: nat)
    requires c.Valid() && c.script == [] && Waiting(c.cfg, c.w) && Asks(c.cfg, host)
    requires Reconciler.Fresh(c.w.st, pick)
    modifies c
    ensures c.Valid() && c.script == [] && old(c.log) <= c.log && n <= |c.log|
    ensures var u := EnvStep(c.cfg, old(c.w), OnGate(SrcNodeIs(host)));
            && At(c.cfg, c.start, c.log, n) == u && Waiting(c.cfg, u) && u.st == old(c.w).st
            && u.gate.now == old(c.w).gate.now && (Blocked(c.cfg, u.gate) <==> !NodeRepelsPods(host, c.cfg.taintKey))
            && c.w == if NodeRepelsPods(host, c.cfg.taintKey) then Settled(c.cfg, u)
                      else Waited(u, u.st.(quiescedAt := None), NO_CORDON)
  {
    hide Inv, Init, Legal, Visited, EnvStep, GoesOn, Waiting, Settled, Waited, Blocked, NodeRepelsPods, After, Asks;
    StaysWaiting(c.cfg, c.w, SrcNodeIs(host));
    c.Happen(OnGate(SrcNodeIs(host)));
    VisitLooks(c.cfg, c.w, c.relay, pick);
    MayLook(c.cfg, c.w);
    n := |c.log|;
    ghost var sofar := c.log;
    Visit(c, pick);
    assert c.log[..n] == sofar;
  }

  lemma MayLook(cfg: Config, w: World)
    requires Waiting(cfg, w)
    ensures w.cr.Some? && !Terminal(w.st.phase) && GoesOn(cfg, w) && w.st.phase.Quiescing?
  {
  }

  // The operator opens the source to pods (leaving the evacuate taint on it,
  // with a soft effect), shuts it, and opens it again. The second
  // time is not news, so the period begun in between runs on, and is over the
  // moment it is shut again: at that same instant the source was seen
  // open to every consumer.
  method EndsEarly(cfg: Config, start: World, t: Trip, pick: Choice) returns (c: Cluster, ghost n: nat)
    requires Departing(cfg, start, t) && Picks(pick, t) && t.target.newVolumeHandle != cfg.handle
    requires cfg.mode.WhenClaimed?
    ensures fresh(c) && c.cfg == cfg && c.start == start && Run(cfg, start, c.log, c.w) && n <= |c.log|
    ensures c.w.st.phase.TargetSelecting?
    ensures var w := At(cfg, start, c.log, n);
            w.st.phase.Quiescing? && Blocked(cfg, w.gate) && w.gate.now == c.w.gate.now
  {
    hide Inv, Init, Legal, After, Preparing, EnvStep, GoesOn, Asked, Departing, Waiting, Settled,
      Waited, Blocked, NodeRepelsPods, HasEvacuateTaint, Asks;
    SourceIsNamed(cfg, start, t);
    c := Lock(cfg, start, t, pick);
    PreparingGoesOn(cfg, c.w, t, Quiescing, pick);
    IsWaiting(cfg, c.w, t);
    var shut, open := c.w.gate.srcNode.value, Ajar(cfg);
    AjarIsOpen(cfg);
    StaysWaiting(cfg, c.w, SrcNodeIs(open));
    ToldOnce(cfg, EnvStep(cfg, c.w, OnGate(SrcNodeIs(open))));
    n := LookAt(c, open, pick);
    StaysWaiting(cfg, c.w, SrcNodeIs(shut));
    AnchorsNow(cfg, EnvStep(cfg, c.w, OnGate(SrcNodeIs(shut))));
    ghost var began := c.w.gate.now;
    n := LookAt(c, shut, pick);
    StaysWaiting(cfg, c.w, Tick((cfg.settleSeconds + 1) * 1000));
    c.Happen(OnGate(Tick((cfg.settleSeconds + 1) * 1000)));
    StaysWaiting(cfg, c.w, SrcNodeIs(open));
    ToldOnce(cfg, EnvStep(cfg, c.w, OnGate(SrcNodeIs(open))));
    n := LookAt(c, open, pick);
    StaysWaiting(cfg, c.w, SrcNodeIs(shut));
    MayLook(cfg, At(cfg, start, c.log, n));
    LongEnough(cfg, EnvStep(cfg, c.w, OnGate(SrcNodeIs(shut))), began);
    ghost var sofar := c.log;
    ghost var _ := LookAt(c, shut, pick);
    assert c.log[..n] == sofar[..n];
  }

  // Still tainted, but the taint keeps nobody away.
  function Ajar(cfg: Config): Node {
    Node(cfg.srcName, false, [Taint(cfg.taintKey, None, "PreferNoSchedule")])
  }

  lemma AjarIsOpen(cfg: Config)
    ensures !NodeRepelsPods(Ajar(cfg), cfg.taintKey) && Asks(cfg, Ajar(cfg))
  {
    assert Ajar(cfg).taints[0].key == cfg.taintKey;
  }

  lemma SourceIsNamed(cfg: Config, start: World, t: Trip)
    requires Departing(cfg, start, t)
    ensures cfg.srcName != ""
  {
  }
}
