// The controller's side of the API: one object holding the cluster as it is
// now, the controller's own memory, and a script of everything that will go
// wrong or happen meanwhile. Each call is one step of a run.
module Client {
  import opened Common
  import opened Status
  import opened World
  import opened Protocol
  import opened Stability
  import opened Runs
  import opened TransferVerdict

  // How a call ends for the caller. After Lost or Died past the server, the
  // call has taken effect all the same.
  datatype Slip = Smooth | LostBefore | LostAfter | DiedBefore | DiedAfter

  // Around one call: how it ends, what others do right after it, and how far
  // the relay's own task has got by then. One that waits is for the next
  // mutation and lets the reads before it pass.
  datatype Burst = Burst(slip: Slip, events: seq<EnvEvent>, relay: RelayObs, waits: bool)

  lemma RunThenEnv(cfg: Config, start: World, log: seq<Event>, w: World, e: EnvEvent)
    requires Run(cfg, start, log, w)
    ensures Run(cfg, start, log + [Env(e)], EnvStep(cfg, w, e))
    ensures Stable(cfg, w, EnvStep(cfg, w, e))
    ensures Inv(cfg, w)
  {
    hide Inv, Stable, EnvStep, Run;
    RunGoesOn(cfg, start, log, w, Env(e));
    RunsKeepInv(cfg, start, log, w);
    EventStable(cfg, w, e);
  }

  lemma RunThenCtl(cfg: Config, start: World, log: seq<Event>, w: World, a: Act)
    requires Run(cfg, start, log, w) && Permitted(cfg, w, a) && Accepts(w, a)
    ensures Run(cfg, start, log + [Ctl(a)], Effect(cfg, w, a))
  {
    hide Inv, Permitted, Effect, Accepts, Run;
    RunGoesOn(cfg, start, log, w, Ctl(a));
  }

  lemma StableStatus(cfg: Config, w: World, t: World)
    requires Stable(cfg, w, t)
    ensures t.st == w.st
  {
  }

  // What was stable up to now is stable across a further step.
  ghost predicate Carried(cfg: Config, w: World, t: World) {
    && t.st == w.st && Stable(cfg, w, t) && Onwards(cfg, w, t)
    && forall a: World :: Inv(cfg, a) && Stable(cfg, a, w) ==> Stable(cfg, a, t)
  }

  lemma CarriedOn(cfg: Config, w: World, t: World)
    requires Inv(cfg, w) && Stable(cfg, w, t)
    ensures Carried(cfg, w, t)
  {
    hide Inv, Stable, Onward;
    forall a: World | Inv(cfg, a) && Stable(cfg, a, w) ensures Stable(cfg, a, t) {
      StableTrans(cfg, a, w, t);
    }
    StableIsOnward(cfg, w, t);
    StableStatus(cfg, w, t);
    OnwardsOn(cfg, w, t);
  }

  lemma CarriedTrans(cfg: Config, a: World, b: World, c: World)
    requires Carried(cfg, a, b) && Carried(cfg, b, c) && Inv(cfg, a)
    ensures Carried(cfg, a, c)
  {
    hide Inv, Stable, Onward;
  }

  // Nothing in a run after its first part was our doing.
  predicate OthersSince(past: seq<Event>, log: seq<Event>) {
    past <= log && forall i | |past| <= i < |log| :: log[i].Env?
  }

  lemma OthersOnly(a: seq<Event>, b: seq<Event>, c: seq<Event>)
    requires OthersSince(a, b) && OthersSince(b, c)
    ensures OthersSince(a, c)
  {
    forall i | |a| <= i < |c| ensures c[i].Env? {
      if i < |b| { assert c[i] == b[i]; }
    }
  }

  function HasConnected(relay: Option<RelayObs>): set<nat> {
    if relay.Some? && relay.value.sourceConnected then {relay.value.attempt} else {}
  }

  lemma NoNewRestore(cfg: Config, w: World, e: EnvEvent)
    ensures EnvStep(cfg, w, e).copy.rsts.Keys <= w.copy.rsts.Keys
  {
  }

  predicate Dials(a: Act, n: nat) {
    a == ToCopy(CreateRst(n))
  }

  lemma OnlyDialingRestores(cfg: Config, w: World, a: Act, connected: set<nat>)
    requires Accepts(w, a) && w.copy.rsts.Keys <= connected && forall n: nat :: Dials(a, n) ==> n in connected
    ensures Effect(cfg, w, a).copy.rsts.Keys <= connected
  {
    if a.ToCopy? && a.x.CreateRst? { assert Dials(a, a.x.n); }
  }

  class Cluster {
    const cfg: Config
    var w: World
    var relay: Option<RelayObs>
    var script: seq<Burst>
    ghost const start: World
    ghost var log: seq<Event>
    // The attempts whose relay has ever had its source connected.
    ghost var connected: set<nat>

    // No restore is ever there before the source of its attempt has connected.
    ghost predicate Valid()
      reads this
    {
      && Run(cfg, start, log, w) && Inv(cfg, w)
      && w.copy.rsts.Keys <= connected && HasConnected(relay) <= connected
    }

    constructor (cfg: Config, w: World, script: seq<Burst>)
      requires Init(cfg, w)
      ensures Valid() && this.w == w && this.cfg == cfg && start == w && relay == None && this.script == script
    {
      InitEstablishesInv(cfg, w);
      assert w.copy.rsts.Keys == {};
      hide Inv, Init;
      this.cfg, this.w, relay, this.script, start, log, connected := cfg, w, None, script, w, [], {};
    }

    // The run goes on from where it was, and a relay is the one it was.
    twostate predicate Continues()
      reads this
    {
      && old(log) <= log && old(connected) <= connected
      && RelayKept()
    }

    twostate predicate RelayKept()
      reads this
    {
      relay.Some? ==> old(relay).Some? && relay.value.attempt == old(relay).value.attempt
    }

    // Reads are undisturbed; a mutation, too, unless something waits for it.
    predicate Lull()
      reads this
    {
      script == [] || script[0].waits
    }

    // Nothing went wrong and nobody interfered.
    twostate predicate Smoothly()
      reads this
    {
      old(Lull()) && script == old(script) && relay == old(relay) && connected == old(connected)
    }

    // All that will go wrong is that the next mutation is lost on its way.
    predicate LosesNext()
      reads this
    {
      |script| == 1 && script[0].waits && script[0].slip.LostBefore? && script[0].events == []
    }

    // It was, and nothing else happened.
    twostate predicate Lost()
      reads this
    {
      script == [] && w == old(w) && RelayKept() && (old(relay).Some? ==> relay.Some?)
    }

    // Others run, and the relay's task with them; a dead process loses its
    // memory, the relay included.
    method Interfere(b: Burst)
      requires Valid()
      modifies this`w, this`log, this`relay, this`connected
      ensures Valid() && Stable(cfg, old(w), w) && Continues() && OthersSince(old(log), log)
      ensures relay.Some? <==> old(relay).Some? && !b.slip.DiedBefore? && !b.slip.DiedAfter?
      ensures b.events == [] ==> w == old(w)
    {
      hide Inv, Stable, Run, Init, EnvStep;
      StableRefl(cfg, w);
      for i := 0 to |b.events|
        invariant Valid() && Stable(cfg, old(w), w) && relay == old(relay) && OthersSince(old(log), log)
        invariant connected == old(connected)
        invariant i == 0 ==> w == old(w)
      {
        ghost var before := w;
        RunThenEnv(cfg, start, log, w, b.events[i]);
        NoNewRestore(cfg, w, b.events[i]);
        log := log + [Env(b.events[i])];
        w := EnvStep(cfg, w, b.events[i]);
        RunsKeepInv(cfg, start, log, w);
        StableTrans(cfg, old(w), before, w);
      }
      relay := if relay.None? || b.slip.DiedBefore? || b.slip.DiedAfter? then None
               else Some(b.relay.(attempt := relay.value.attempt));
      connected := connected + HasConnected(relay);
    }

    // One thing somebody else does.
    method Happen(e: EnvEvent)
      requires Valid()
      modifies this`w, this`log
      ensures Valid() && old(log) <= log && w == EnvStep(cfg, old(w), e)
      ensures !e.OnGate? ==> w.gate == old(w).gate
    {
      assert !e.OnGate? ==> EnvStep(cfg, w, e).gate == w.gate;
      hide Inv, Stable, Run, Init, EnvStep;
      RunThenEnv(cfg, start, log, w, e);
      NoNewRestore(cfg, w, e);
      log := log + [Env(e)];
      w := EnvStep(cfg, w, e);
      RunsKeepInv(cfg, start, log, w);
    }

    // What else the environment has in store.
    method Expect(b: Burst)
      modifies this`script
      ensures script == old(script) + [b]
    {
      script := script + [b];
    }

    method NextBurst(mutating: bool) returns (b: Option<Burst>)
      modifies this`script
      ensures b.None? <==> old(script) == [] || (!mutating && old(script)[0].waits)
      ensures b.None? ==> script == old(script)
      ensures b.Some? ==> [b.value] + script == old(script)
    {
      if script == [] || (!mutating && script[0].waits) {
        b := None;
      } else {
        b, script := Some(script[0]), script[1..];
      }
    }

    // A read: what the object looked like when the server answered.
    method Get<T>(part: World -> T) returns (r: Result<T>)
      requires Valid()
      modifies this`w, this`log, this`relay, this`script, this`connected
      ensures Valid() && Carried(cfg, old(w), w) && Continues() && OthersSince(old(log), log)
      ensures r.Ok? ==> r.value == part(old(w))
      ensures r.Err? ==> r.fault.Transport? || r.fault.Crashed?
      ensures r != Err(Crashed) && old(relay).Some? ==> relay.Some?
      ensures old(Lull()) ==> Smoothly() && w == old(w) && r.Ok?
    {
      hide Inv, Stable, Run, Carried;
      StableRefl(cfg, w);
      r := Ok(part(w));
      var b := NextBurst(false);
      if b.Some? {
        Interfere(b.value);
        match b.value.slip {
          case Smooth =>
          case LostBefore => r := Err(Transport);
          case LostAfter => r := Err(Transport);
          case DiedBefore => r := Err(Crashed);
          case DiedAfter => r := Err(Crashed);
        }
      }
      CarriedOn(cfg, old(w), w);
    }

    // The clock cannot fail, but time does not stand still around it.
    method Now() returns (ms: nat)
      requires Valid()
      modifies this`w, this`log, this`relay, this`script, this`connected
      ensures Valid() && Carried(cfg, old(w), w) && Continues() && OthersSince(old(log), log)
      ensures ms == old(w).gate.now
      ensures old(relay).Some? ==> relay.Some?
      ensures old(Lull()) ==> Smoothly() && w == old(w)
    {
      hide Inv, Stable, Run, Carried;
      StableRefl(cfg, w);
      ms := w.gate.now;
      var b := NextBurst(false);
      if b.Some? {
        Interfere(b.value.(slip := Smooth));
      }
      CarriedOn(cfg, old(w), w);
    }

    // A mutation: refused, lost on the way there or on the way back, or done.
    // The caller must be entitled to it at the instant it takes effect; the
    // target is dialed only once the source has connected.
    method Do(a: Act) returns (r: Result<()>)
      requires Valid() && Permitted(cfg, w, a)
      requires forall n: nat :: Dials(a, n) ==> n in connected
      modifies this`w, this`log, this`relay, this`script, this`connected
      ensures Valid() && Continues()
      ensures r.Ok? ==>
                Accepts(old(w), a) && Inv(cfg, Effect(cfg, old(w), a)) && Carried(cfg, Effect(cfg, old(w), a), w)
      ensures r.Err? ==> Carried(cfg, old(w), w) || (Accepts(old(w), a) && Carried(cfg, Effect(cfg, old(w), a), w))
      ensures r != Err(Crashed) && old(relay).Some? ==> relay.Some?
      ensures old(script) == [] ==>
                && Smoothly()
                && r == (if Accepts(old(w), a) then Ok(()) else Err(Rejected))
                && w == if Accepts(old(w), a) then Effect(cfg, old(w), a) else old(w)
      ensures old(LosesNext()) ==> Lost() && r == Err(Transport)
    {
      hide Inv, Stable, Run, Init, Permitted, Effect, Accepts, Carried;
      StableRefl(cfg, w);
      var b := NextBurst(true);
      var slip := if b.Some? then b.value.slip else Smooth;
      r := if slip.LostBefore? then Err(Transport)
           else if slip.DiedBefore? then Err(Crashed)
           else if !Accepts(w, a) then Err(Rejected)
           else Ok(());
      if r.Ok? {
        RunThenCtl(cfg, start, log, w, a);
        OnlyDialingRestores(cfg, w, a, connected);
        log := log + [Ctl(a)];
        w := Effect(cfg, w, a);
        RunsKeepInv(cfg, start, log, w);
        StableRefl(cfg, w);
      }
      ghost var done := w;
      if b.Some? {
        Interfere(b.value);
      }
      CarriedOn(cfg, done, w);
      if slip.DiedAfter? {
        r := Err(Crashed);
      } else if r.Ok? && slip.LostAfter? {
        r := Err(Transport);
      }
    }

    // ctx.transfers: dropping aborts the relay's task.
    method DropRelay()
      modifies this`relay
      ensures relay == None
    {
      relay := None;
    }

    // The process dies between two visits, and its memory with it.
    method Restart()
      modifies this`relay
      ensures relay == None
    {
      relay := None;
    }

    // How far the relay's own task has got.
    method RelayRuns(counters: RelayObs)
      requires Valid()
      modifies this`relay, this`connected
      ensures Valid()
      ensures connected == old(connected) + HasConnected(relay)
      ensures relay == if old(relay).Some? then Some(counters.(attempt := old(relay).value.attempt)) else None
    {
      relay := if relay.Some? then Some(counters.(attempt := relay.value.attempt)) else None;
      connected := connected + HasConnected(relay);
    }

    // Relay::spawn, and its registration in place of any older one.
    method SpawnRelay(attempt: nat) returns (r: Result<()>)
      requires Valid()
      modifies this`w, this`log, this`relay, this`script, this`connected
      ensures Valid() && Carried(cfg, old(w), w) && old(log) <= log && old(connected) <= connected
      ensures r.Ok? ==> relay.Some? && relay.value.attempt == attempt
      ensures r.Err? ==> RelayKept()
      ensures old(Lull()) ==>
                && script == old(script) && w == old(w) && r == Ok(())
                && relay == Some(RelayObs(attempt, 0, Stamp(w.gate.now), false, false))
    {
      var bound := Get((w: World) => Stamp(w.gate.now));
      if bound.IsFailure() { return bound.PropagateFailure(); }
      relay := Some(RelayObs(attempt, 0, bound.value, false, false));
      r := Ok(());
    }
  }
}
