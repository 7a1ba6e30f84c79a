// What the bounds and the provisos of Runs.QuietUntilUnlocked and
// Runs.FaithfulCopy are there for: runs of the handlers in which one of them
// fails, and with it the claim's quiet or the last bytes written.
module Losses {
  import opened Common
  import opened Pods
  import opened Admission
  import opened Status
  import opened World
  import opened Protocol
  import opened Runs
  import opened Fidelity
  import opened Client
  import opened Phases
  import opened Reconciler
  import opened Completion

  // A pod that uses the claim on the source.
  function Consumer(cfg: Config, name: string): Pod {
    Pod(cfg.ns, name, [PodVolume("data", Some(cfg.pvcName), false)], cfg.srcName, [])
  }

  lemma ConsumerUses(cfg: Config, name: string)
    ensures UsesSource(cfg, Consumer(cfg, name))
  {
    var pod := Consumer(cfg, name);
    assert ClaimNames(name, pod.volumes) == [cfg.pvcName] + ClaimNames(name, pod.volumes[1..]);
    assert PodPvcNames(pod)[0] == cfg.pvcName;
  }

  // Until the lock is enforced nothing keeps it out.
  lemma ConsumerComes(cfg: Config, w: World, name: string)
    requires !Enforced(cfg, w.gate) && name !in w.gate.pods
    ensures var u := EnvStep(cfg, w, OnGate(PodCreate(Consumer(cfg, name))));
            && u == w.(gate := u.gate) && u.gate.pods == w.gate.pods[name := Consumer(cfg, name)]
            && u.gate.lockSince == w.gate.lockSince && u.gate.now == w.gate.now && u.gate.srcNode == w.gate.srcNode
            && InUse(cfg, u.gate.pods) && HasRefPods(cfg, u.gate.pods)
  {
    ConsumerUses(cfg, name);
    hide ReferencesPvc, Denies;
    var u := EnvStep(cfg, w, OnGate(PodCreate(Consumer(cfg, name))));
    assert UsesSource(cfg, u.gate.pods[name]);
  }

  lemma TimePasses(cfg: Config, w: World, t: Trip, p: Phase, ms: nat)
    requires PreparingFor(cfg, w, t, p)
    ensures var u := EnvStep(cfg, w, OnGate(Tick(ms)));
            PreparingFor(cfg, u, t, p) && u == w.(gate := w.gate.(now := w.gate.now + ms))
  {
  }

  lemma IsPreparing(cfg: Config, w: World, t: Trip, p: Phase)
    requires Preparing(cfg, w, t, p)
    ensures PreparingFor(cfg, w, t, p)
    ensures p.Quiescing? ==> w.st.lockedAt.Some? && w.st.lockedAt.value * 1000 <= w.gate.now
  {
  }

  lemma StillPreparing(cfg: Config, w: World, u: World, t: Trip, p: Phase)
    requires Preparing(cfg, w, t, p) && PreparingFor(cfg, u, t, p) && u.gate.pods == w.gate.pods
    ensures Preparing(cfg, u, t, p)
  {
  }

  // The stretch to the last millisecond of a second.
  function ToSecondsEnd(now: nat): nat {
    999 - now % 1000
  }

  lemma NothingLocked(cfg: Config, start: World, t: Trip)
    requires Departing(cfg, start, t)
    ensures start.gate.lockSince.None?
  {
  }

  lemma LockIsNew(cfg: Config, w: World)
    requires Inv(cfg, w) && w.gate.lockSince.None?
    ensures var g := TakeLock(cfg, w.gate);
            && g.lockSince == Some(w.gate.now) && SamePlace(w.gate, g)
            && g.now == w.gate.now && g.lastUse == w.gate.lastUse
  {
    hide InvObjects, InvHandover, InvLate, InvQuiet, InvFidelity, InvSnapshot, InvNodes;
  }

  // ------------------------------------------- enforced later than it is waited

  lemma GraceEndsEarly(locked: nat, now: nat, s: Status)
    requires locked % 1000 == 999 && s.lockedAt == Some(Stamp(locked)) && now == locked + 4001
    ensures GraceOver(now, s)
  {
  }

  lemma GraceStaysOver(s: Status, t: Status, now: nat, later: nat)
    requires GraceOver(now, s) && now <= later && t.lockedAt == s.lockedAt
    requires s.lockedAt.Some? ==> s.lockedAt.value * 1000 <= now
    ensures GraceOver(later, t)
  {
  }

  // Locked in the last millisecond of a second, quiet is recorded 4001 ms later.
  method RecordQuiet(cfg: Config, start: World, t: Trip, pick: Choice) returns (c: Cluster)
    requires Departing(cfg, start, t) && Picks(pick, t) && t.target.newVolumeHandle != cfg.handle
    ensures fresh(c) && c.cfg == cfg && c.start == start && c.Valid() && c.script == [] && c.relay.None?
    ensures Preparing(cfg, c.w, t, Quiescing) && GraceOver(c.w.gate.now, c.w.st) && Underway(cfg, t, pick)
    ensures c.w.st.quiescedAt == Some(Stamp(c.w.gate.now)) && c.w.gate.now % 1000 == 0
    ensures c.w.gate.lockSince.Some? && c.w.gate.now == c.w.gate.lockSince.value + 4001
    ensures SamePlace(start.gate, c.w.gate)
  {
    hide Inv, Run, Visited, Departing, PreparingFor, EnvStep, GoesOn, Asked, TakeLock, HasRefPods;
    NothingLocked(cfg, start, t);
    c := Depart(cfg, start, t, pick);
    var wait := ToSecondsEnd(c.w.gate.now);
    TimePasses(cfg, c.w, t, Locking, wait);
    c.Happen(OnGate(Tick(wait)));
    PreparingGoesOn(cfg, c.w, t, Locking, pick);
    Locks(cfg, c.w, t, c.relay, pick);
    LockIsNew(cfg, c.w);
    Visit(c, pick);
    TimePasses(cfg, c.w, t, Quiescing, 4001);
    GraceEndsEarly(c.w.gate.now, c.w.gate.now + 4001, c.w.st);
    c.Happen(OnGate(Tick(4001)));
    PreparingGoesOn(cfg, c.w, t, Quiescing, pick);
    Anchors(cfg, c.w, t, c.relay, pick);
    GraceStaysOver(c.w.st, Visited(cfg, c.w, c.relay, pick).st, c.w.gate.now, c.w.gate.now);
    Visit(c, pick);
  }

  // If that is before the lock is enforced, a consumer comes all the same.
  method QuietBreaks(cfg: Config, start: World, t: Trip, pick: Choice, name: string) returns (c: Cluster)
    requires Departing(cfg, start, t) && Picks(pick, t) && t.target.newVolumeHandle != cfg.handle
    requires !LockTimely(cfg) && name !in start.gate.pods
    ensures fresh(c) && c.cfg == cfg && c.start == start && Run(cfg, start, c.log, c.w)
    ensures c.w.gate.lockSince.Some? && c.w.st.quiescedAt.Some? && InUse(cfg, c.w.gate.pods)
  {
    hide Inv, Run, Departing, Preparing, EnvStep, Consumer, HasRefPods, InUse, GraceOver, Underway;
    c := RecordQuiet(cfg, start, t, pick);
    ConsumerComes(cfg, c.w, name);
    c.Happen(OnGate(PodCreate(Consumer(cfg, name))));
  }

  // ------------------------------------------------------------ a lost write

  // The same trip with a write since the snapshot.
  function Rewritten(t: Trip): Trip {
    t.(content := t.content + 1)
  }

  // Completed, and what was written last is nowhere.
  predicate WriteLost(w: World, t: Trip) {
    && w.st.phase.Completed? && w.bound.Some? && w.bound.value.src == Whole(t.content + 1)
    && w.src.disk == Absent && w.copy.disk == Whole(t.content)
  }

  lemma ArrivedWithout(cfg: Config, w: World, t: Trip)
    requires Arrived(cfg, w, Rewritten(t)) && t.sent == t.content
    ensures WriteLost(w, t)
  {
  }

  lemma WriteGoesUnnoticed(cfg: Config, w0: World, w: World, t: Trip)
    requires Carrying(cfg, w0, t, Transferring, Landed(t, None))
    requires w == w0.(gate := w.gate, src := w.src) && w.src == w0.src.(disk := Whole(t.content + 1))
    requires SamePlace(w0.gate, w.gate) && w.gate.now == w0.gate.now
    ensures Carrying(cfg, w, Rewritten(t), Transferring, Landed(Rewritten(t), None))
  {
    hide HasRefPods;
  }

  lemma Writes(cfg: Config, w: World, content: nat)
    requires Writable(cfg, w.gate) && w.src.disk.Whole? && w.bound.None?
    ensures EnvStep(cfg, w, OnSource(SrcWrite(content))) == w.(src := w.src.(disk := Whole(content)))
  {
  }

  lemma IsCarrying(cfg: Config, w: World, t: Trip)
    requires Carrying(cfg, w, t, Transferring, Landed(t, None))
    ensures w.src.disk.Whole? && w.bound.None? && UnderLock(w.st.phase) && !HasRefPods(cfg, w.gate.pods)
  {
  }

  lemma StillUnderway(cfg: Config, t: Trip, pick: Choice)
    requires Underway(cfg, t, pick)
    ensures Underway(cfg, Rewritten(t), pick)
  {
  }

  // With a writer there once the copy is taken, its write is lost.
  method LoseWrite(c: Cluster, t: Trip, pick: Choice, ghost w0: World, guest: Option<string>)
    requires c.Valid() && c.script == [] && Underway(c.cfg, t, pick) && t.sent == t.content
    requires Carrying(c.cfg, w0, t, Transferring, Landed(t, None)) && c.w == w0.(gate := c.w.gate)
    requires Writable(c.cfg, c.w.gate) && c.w.gate.now == w0.gate.now && c.w.gate.srcNode == w0.gate.srcNode
    requires guest.None? ==> c.w.gate.pods == w0.gate.pods
    requires guest.Some? ==> guest.value in c.w.gate.pods && c.w.gate.pods - {guest.value} == w0.gate.pods
    modifies c
    ensures c.Valid() && old(c.log) <= c.log && WriteLost(c.w, t)
  {
    hide Inv, Run, EnvStep, Carrying, Underway, Writable, Arrived, WriteLost, Landed;
    IsCarrying(c.cfg, w0, t);
    Writes(c.cfg, c.w, t.content + 1);
    c.Happen(OnSource(SrcWrite(t.content + 1)));
    if guest.Some? {
      GuestGoes(c.cfg, c.w, guest.value);
      c.Happen(OnGate(PodDelete(guest.value)));
    }
    WriteGoesUnnoticed(c.cfg, w0, c.w, t);
    StillUnderway(c.cfg, t, pick);
    Arrive(c, Rewritten(t), pick);
    ArrivedWithout(c.cfg, c.w, t);
  }

  lemma GuestGoes(cfg: Config, w: World, name: string)
    requires name in w.gate.pods
    ensures var u := EnvStep(cfg, w, OnGate(PodDelete(name)));
            && u == w.(gate := u.gate) && u.gate.pods == w.gate.pods - {name}
            && u.gate.srcNode == w.gate.srcNode && u.gate.now == w.gate.now
  {
  }

  lemma SettleIsOver(cfg: Config, w: World, u: World)
    requires w.st.quiescedAt == Some(Stamp(w.gate.now)) && GraceOver(w.gate.now, w.st) && u.st == w.st
    requires w.st.lockedAt.Some? && w.st.lockedAt.value * 1000 <= w.gate.now
    requires u.gate.now == w.gate.now + cfg.settleSeconds * 1000 && w.gate.now % 1000 == 0
    ensures GraceOver(u.gate.now, u.st)
    ensures Elapsed(u.gate.now, u.st.quiescedAt).Some?
    ensures Elapsed(u.gate.now, u.st.quiescedAt).value >= cfg.settleSeconds
  {
    GraceStaysOver(w.st, u.st, w.gate.now, u.gate.now);
  }

  // If the lock is not enforced when the settle period is over either, a
  // consumer may come while the copy is made and be gone when the pods are
  // looked at again.
  method LocksTooLate(cfg: Config, start: World, t: Trip, pick: Choice, name: string) returns (c: Cluster)
    requires Departing(cfg, start, t) && Picks(pick, t) && t.target.newVolumeHandle != cfg.handle
    requires cfg.enforceMs > 4001 + cfg.settleSeconds * 1000 && name !in start.gate.pods
    ensures fresh(c) && c.cfg == cfg && c.start == start && Run(cfg, start, c.log, c.w)
    ensures WriteLost(c.w, t)
  {
    hide Inv, Run, Departing, Preparing, EnvStep, Carrying, WriteLost, Consumer, HasRefPods, GraceOver, Visited,
      GoesOn, Asked, InUse;
    c := RecordQuiet(cfg, start, t, pick);
    IsPreparing(cfg, c.w, t, Quiescing);
    TimePasses(cfg, c.w, t, Quiescing, cfg.settleSeconds * 1000);
    SettleIsOver(cfg, c.w, EnvStep(cfg, c.w, OnGate(Tick(cfg.settleSeconds * 1000))));
    StillPreparing(cfg, c.w, EnvStep(cfg, c.w, OnGate(Tick(cfg.settleSeconds * 1000))), t, Quiescing);
    c.Happen(OnGate(Tick(cfg.settleSeconds * 1000)));
    PreparingGoesOn(cfg, c.w, t, Quiescing, pick);
    Settles(cfg, c.w, t, c.relay, pick);
    Visit(c, pick);
    SendsAsIs(cfg, c.w, t, TargetSelecting);
    Select(c, t, pick);
    Copy(c, t, pick);
    ghost var w0 := c.w;
    ConsumerComes(cfg, c.w, name);
    c.Happen(OnGate(PodCreate(Consumer(cfg, name))));
    assert c.w.gate.pods - {name} == w0.gate.pods;
    LoseWrite(c, t, pick, w0, Some(name));
  }

  // ----------------------------------------------- unmounted later than settled

  lemma ConsumerGoes(cfg: Config, w: World, t: Trip, name: string, pods: map<string, Pod>)
    requires PreparingFor(cfg, w, t, Quiescing) && !HasRefPods(cfg, pods)
    requires name !in pods && w.gate.pods == pods[name := Consumer(cfg, name)]
    ensures var u := EnvStep(cfg, w, OnGate(PodDelete(name)));
            && Preparing(cfg, u, t, Quiescing) && u == w.(gate := u.gate)
            && u.gate.now == w.gate.now == u.gate.lastUse
  {
    ConsumerUses(cfg, name);
    assert pods[name := Consumer(cfg, name)] - {name} == pods;
    hide ReferencesPvc;
  }

  // How long to sit out a settle period that began in the last millisecond of
  // a second.
  function SettleLeft(cfg: Config): nat {
    if cfg.settleSeconds == 0 then 0 else cfg.settleSeconds * 1000 - 999
  }

  lemma SettleEndsEarly(cfg: Config, began: nat, now: nat, s: Status)
    requires began % 1000 == 999 && s.quiescedAt == Some(Stamp(began)) && now == began + SettleLeft(cfg)
    ensures Elapsed(now, s.quiescedAt).Some? && Elapsed(now, s.quiescedAt).value >= cfg.settleSeconds
    ensures !UnmountTimely(cfg) ==> now < began + cfg.unmountMs
  {
  }

  // A consumer that uses the claim when the lock is taken goes in the last
  // millisecond of a second, and quiet is recorded at once. If unmounting takes
  // longer than what is left of the settle period, what it still writes is lost.
  method UnmountsTooLate(cfg: Config, start: World, t: Trip, pick: Choice, name: string) returns (c: Cluster)
    requires Departing(cfg, start, t) && Picks(pick, t) && t.target.newVolumeHandle != cfg.handle
    requires !UnmountTimely(cfg) && name !in start.gate.pods
    ensures fresh(c) && c.cfg == cfg && c.start == start && Run(cfg, start, c.log, c.w)
    ensures WriteLost(c.w, t)
  {
    hide Inv, Run, Departing, Preparing, EnvStep, Carrying, WriteLost, Writable, Underway;
    c := Outlive(cfg, start, t, pick, name);
    SendsAsIs(cfg, c.w, t, TargetSelecting);
    Select(c, t, pick);
    Copy(c, t, pick);
    LateWriter(cfg, c.w.gate);
    LoseWrite(c, t, pick, c.w, None);
  }

  lemma LateWriter(cfg: Config, g: Gate)
    requires g.now < g.lastUse + cfg.unmountMs
    ensures Writable(cfg, g)
  {
  }

  // Up to the end of the settle period, with the writer still mounted.
  method Outlive(cfg: Config, start: World, t: Trip, pick: Choice, name: string) returns (c: Cluster)
    requires Departing(cfg, start, t) && Picks(pick, t) && t.target.newVolumeHandle != cfg.handle
    requires !UnmountTimely(cfg) && name !in start.gate.pods
    ensures fresh(c) && c.cfg == cfg && c.start == start && c.Valid() && c.script == [] && c.relay.None?
    ensures Preparing(cfg, c.w, t, TargetSelecting) && Underway(cfg, t, pick)
    ensures c.w.gate.now < c.w.gate.lastUse + cfg.unmountMs
  {
    hide Inv, Run, Departing, Preparing, EnvStep, Visited, GoesOn, GraceOver, UnmountTimely, Asked;
    c := LockInUse(cfg, start, t, pick, name);
    PreparingGoesOn(cfg, c.w, t, Quiescing, pick);
    Anchors(cfg, c.w, t, c.relay, pick);
    ghost var began, st := c.w.gate.now, c.w.st;
    Visit(c, pick);
    IsPreparing(cfg, c.w, t, Quiescing);
    TimePasses(cfg, c.w, t, Quiescing, SettleLeft(cfg));
    SettleEndsEarly(cfg, began, began + SettleLeft(cfg), c.w.st);
    GraceStaysOver(st, c.w.st, began, began + SettleLeft(cfg));
    StillPreparing(cfg, c.w, EnvStep(cfg, c.w, OnGate(Tick(SettleLeft(cfg)))), t, Quiescing);
    c.Happen(OnGate(Tick(SettleLeft(cfg))));
    PreparingGoesOn(cfg, c.w, t, Quiescing, pick);
    Settles(cfg, c.w, t, c.relay, pick);
    Visit(c, pick);
  }

  // Lock a claim in use; past the grace its user goes.
  method LockInUse(cfg: Config, start: World, t: Trip, pick: Choice, name: string) returns (c: Cluster)
    requires Departing(cfg, start, t) && Picks(pick, t) && t.target.newVolumeHandle != cfg.handle
    requires name !in start.gate.pods
    ensures fresh(c) && c.cfg == cfg && c.start == start && c.Valid() && c.script == [] && c.relay.None?
    ensures Preparing(cfg, c.w, t, Quiescing) && Underway(cfg, t, pick)
    ensures GraceOver(c.w.gate.now, c.w.st) && c.w.st.quiescedAt.None?
    ensures c.w.gate.lastUse == c.w.gate.now && c.w.gate.now % 1000 == 999
  {
    hide Inv, Run, Departing, PreparingFor, Visited, EnvStep, GoesOn, TakeLock, Consumer, HasRefPods, InUse, Asked;
    NothingLocked(cfg, start, t);
    c := Depart(cfg, start, t, pick);
    ConsumerComes(cfg, c.w, name);
    MorePods(cfg, c.w, EnvStep(cfg, c.w, OnGate(PodCreate(Consumer(cfg, name)))), t, Locking);
    c.Happen(OnGate(PodCreate(Consumer(cfg, name))));
    PreparingForGoesOn(cfg, c.w, t, Locking, pick);
    LocksAnyhow(cfg, c.w, t, c.relay, pick);
    LockIsNew(cfg, c.w);
    Visit(c, pick);
    var wait := 6000 + ToSecondsEnd(c.w.gate.now);
    TimePasses(cfg, c.w, t, Quiescing, wait);
    c.Happen(OnGate(Tick(wait)));
    ConsumerGoes(cfg, c.w, t, name, start.gate.pods);
    c.Happen(OnGate(PodDelete(name)));
  }

  lemma MorePods(cfg: Config, w: World, u: World, t: Trip, p: Phase)
    requires PreparingFor(cfg, w, t, p) && u == w.(gate := u.gate)
    requires u.gate.srcNode == w.gate.srcNode && u.gate.now == w.gate.now
    ensures PreparingFor(cfg, u, t, p)
  {
  }

  // ------------------------------------------- a source open to admitted pods

  lemma LockGetsEnforced(cfg: Config, w: World, t: Trip)
    requires Inv(cfg, w) && Preparing(cfg, w, t, Transferring)
    ensures var u := EnvStep(cfg, w, OnGate(Tick(cfg.enforceMs)));
            Enforced(cfg, u.gate) && Preparing(cfg, u, t, Transferring) && SamePlace(w.gate, u.gate)
  {
    TimePasses(cfg, w, t, Transferring, cfg.enforceMs);
    hide PreparingFor, HasRefPods;
  }

  lemma BoundIsUser(cfg: Config, w: World, name: string)
    requires Inv(cfg, w) && UnderLock(w.st.phase) && WaitsAtTheDoor(cfg, w.gate, name)
    ensures var u := EnvStep(cfg, w, OnGate(PodBind(name, cfg.srcName)));
            && u == w.(gate := u.gate) && Writable(cfg, u.gate) && u.gate.now == w.gate.now
            && name in u.gate.pods && u.gate.pods - {name} == w.gate.pods - {name} && u.gate.srcNode == w.gate.srcNode
  {
    var u := EnvStep(cfg, w, OnGate(PodBind(name, cfg.srcName)));
    assert name in u.gate.pods && UsesSource(cfg, u.gate.pods[name]);
    hide InvAccess, SchedulerAdmits;
  }

  // WhenClaimed, from a source that keeps pods away in the controller's eyes
  // but not from what the policy admits, as with effect NoExecute alone: a
  // consumer gets on while the copy is made, writes and goes.
  method OpenSourceLoses(cfg: Config, start: World, t: Trip, pick: Choice, name: string) returns (c: Cluster)
    requires Departing(cfg, start, t) && Picks(pick, t) && t.target.newVolumeHandle != cfg.handle
    requires cfg.mode.WhenClaimed? && !SourceShut(start.gate.srcNode) && name !in start.gate.pods
    ensures fresh(c) && c.cfg == cfg && c.start == start && Run(cfg, start, c.log, c.w)
    ensures WriteLost(c.w, t)
  {
    hide Inv, Run, Departing, Preparing, EnvStep, Carrying, WriteLost, Writable, Intruder, WaitsAtTheDoor, Underway,
      Enforced, ShutToAdmitted;
    c := Prepare(cfg, start, t, pick);
    SendsAsIs(cfg, c.w, t, Transferring);
    LockGetsEnforced(cfg, c.w, t);
    c.Happen(OnGate(Tick(cfg.enforceMs)));
    Copy(c, t, pick);
    ghost var w0 := c.w;
    IsCarrying(cfg, c.w, t);
    IntruderWaits(cfg, c.w, name);
    var pod := Intruder(cfg.ns, name, cfg.pvcName, c.w.gate.srcNode.value);
    IntruderIsNamed(cfg.ns, name, cfg.pvcName, c.w.gate.srcNode.value);
    IntruderOnly(cfg, c.w, pod, name);
    c.Happen(OnGate(PodCreate(pod)));
    BoundIsUser(cfg, c.w, name);
    c.Happen(OnGate(PodBind(name, cfg.srcName)));
    LoseWrite(c, t, pick, w0, Some(name));
  }

  lemma IntruderOnly(cfg: Config, w: World, pod: Pod, name: string)
    requires pod.name == name && name !in w.gate.pods
    ensures var u := EnvStep(cfg, w, OnGate(PodCreate(pod)));
            && u == w.(gate := u.gate) && u.gate.now == w.gate.now && u.gate.srcNode == w.gate.srcNode
            && u.gate.pods - {name} == w.gate.pods
  {
    hide Denies, ReferencesPvc, Enforced;
  }
}
