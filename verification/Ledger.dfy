// Many evacuations choosing targets against shared pools: selections under one
// lock, everything else interleaved with them. What no interleaving can break.
module Ledger {
  import opened Common
  import opened Manifests
  import opened Status
  import opened Selection

  // ---------------------------------------------------------- distinct bytes

  // The fixed capacity of each PV, by name.
  ghost function SumOver(names: set<string>, cap: string -> nat): nat {
    if names == {} then 0
    else
      var x :| x in names;
      cap(x) + SumOver(names - {x}, cap)
  }

  lemma {:induction false} SumWith(names: set<string>, x: string, cap: string -> nat)
    requires x in names
    ensures SumOver(names, cap) == cap(x) + SumOver(names - {x}, cap)
    decreases names
  {
    var y :| y in names && SumOver(names, cap) == cap(y) + SumOver(names - {y}, cap);
    if y != x {
      SumWith(names - {y}, x, cap);
      SumWith(names - {x}, y, cap);
      assert names - {y} - {x} == names - {x} - {y};
    }
  }

  lemma {:induction false} SumMonotone(a: set<string>, b: set<string>, cap: string -> nat)
    requires a <= b
    ensures SumOver(a, cap) <= SumOver(b, cap)
    decreases b
  {
    if a != {} {
      var x :| x in a;
      SumWith(a, x, cap);
      SumWith(b, x, cap);
      SumMonotone(a - {x}, b - {x}, cap);
    }
  }

  lemma {:induction false} SumUnion(a: set<string>, b: set<string>, cap: string -> nat)
    ensures SumOver(a + b, cap) <= SumOver(a, cap) + SumOver(b, cap)
    decreases b
  {
    if b == {} {
      assert a + b == a;
    } else {
      var x :| x in b;
      SumWith(b, x, cap);
      SumUnion(a, b - {x}, cap);
      if x in a {
        assert a + b == a + (b - {x});
      } else {
        SumWith(a + b, x, cap);
        assert a + b - {x} == a + (b - {x});
      }
    }
  }

  // ------------------------------------------------------------- accounting

  predicate Sized(evacs: seq<Evac>, cap: string -> nat) {
    && (forall e <- evacs :: e.capacity == cap(e.name))
    && (forall e <- evacs, m <- e.members :: m.capacity == cap(m.pvName))
  }

  function MemberNames(members: seq<Member>): set<string> {
    set m | m in members :: m.pvName
  }

  // Bytes already moved there.
  function LandedOn(evacs: seq<Evac>, slot: Slot): nat {
    if evacs == [] then 0
    else
      var last := evacs[|evacs| - 1];
      LandedOn(evacs[..|evacs| - 1], slot) + if OnSlot(last, slot) && last.phase.Completed? then last.capacity else 0
  }

  // Each unplaced member of a group that has not failed, once.
  function OwedOn(evacs: seq<Evac>, placed: set<string>, slot: Slot): set<string> {
    if evacs == [] then {}
    else
      var last := evacs[|evacs| - 1];
      OwedOn(evacs[..|evacs| - 1], placed, slot) +
      if OnSlot(last, slot) && !last.phase.Failed? then MemberNames(last.members) - placed else {}
  }

  ghost function Load(evacs: seq<Evac>, cap: string -> nat, slot: Slot): nat {
    LandedOn(evacs, slot) + InFlightOn(evacs, slot) + SumOver(OwedOn(evacs, Placed(evacs), slot), cap)
  }

  // A group's hold is at least the distinct bytes it owes.
  lemma {:induction false} HoldCovers(
    members: seq<Member>, holder: string, me: string, placed: set<string>, cap: string -> nat)
    requires forall m <- members :: m.capacity == cap(m.pvName)
    ensures SumOver(MemberNames(members) - placed - {me, holder}, cap) <= GroupHold(members, holder, me, placed)
  {
    if members == [] {
      assert MemberNames(members) == {};
    } else {
      var rest, last := members[..|members| - 1], members[|members| - 1];
      HoldCovers(rest, holder, me, placed, cap);
      assert members == rest + [last];
      var owed, before := MemberNames(members) - placed - {me, holder}, MemberNames(rest) - placed - {me, holder};
      if Owing(last, holder, me, placed) {
        assert owed == before + {last.pvName};
        SumUnion(before, {last.pvName}, cap);
        SumWith({last.pvName}, last.pvName, cap);
        assert {last.pvName} - {last.pvName} == {};
      } else {
        assert owed == before;
      }
    }
  }

  // So the ledger covers everything in flight and everything owed by others.
  lemma {:induction false} LedgerCovers(
    evacs: seq<Evac>, me: string, placed: set<string>, slot: Slot, cap: string -> nat)
    requires Sized(evacs, cap)
    requires forall e <- evacs :: e.target.Some? ==> e.name in placed && e.name != me
    ensures InFlightOn(evacs, slot) + SumOver(OwedOn(evacs, placed, slot) - {me}, cap) <=
            ReservedOn(evacs, me, placed, slot)
  {
    if evacs != [] {
      var rest, last := evacs[..|evacs| - 1], evacs[|evacs| - 1];
      assert evacs == rest + [last];
      LedgerCovers(rest, me, placed, slot, cap);
      var before, owed := OwedOn(rest, placed, slot), OwedOn(evacs, placed, slot);
      if OnSlot(last, slot) && !last.phase.Failed? {
        HoldCovers(last.members, last.name, me, placed, cap);
        var own := MemberNames(last.members) - placed;
        assert own - {me} == MemberNames(last.members) - placed - {me, last.name};
        assert owed - {me} == (before - {me}) + (own - {me});
        SumUnion(before - {me}, own - {me}, cap);
      } else {
        assert owed == before;
      }
    }
  }

  // ------------------------------------------------------------------ system

  // A selection under way holds the lock and works on what it listed: once for
  // the busy sources, and later once more for the ledger.
  datatype Selecting =
    | Locked(i: nat) | Checked(i: nat, first: seq<Evac>) | Listed(i: nat, first: seq<Evac>, seen: seq<Evac>)

  datatype System = System(evacs: seq<Evac>, selecting: Option<Selecting>)

  // free: what the chosen pool reports.
  datatype Step =
    | Arrive(e: Evac) | Move(i: nat, phase: Phase)
    | Lock(i: nat) | ListSources | ListLedger | GiveUp
    | Choose(target: TargetInfo, members: seq<Member>, free: nat, headroomPercent: nat)

  predicate MovesTo(q: Phase, p: Phase) {
    && !Terminal(q) && Rank(q) < Rank(p) && !p.Transferring?
    && (Rank(Adopting) <= Rank(p) <= Rank(Completed) ==> Rank(p) == Rank(q) + 1)
  }

  function BytesNeeded(e: Evac, members: seq<Member>, headroomPercent: nat): nat {
    var bytes := e.capacity + GroupHold(members, e.name, e.name, {});
    bytes + bytes * headroomPercent / 100
  }

  // The guards of a selection, on what was listed under the lock. A pool's
  // report already lacks what completed moves put there by then.
  predicate MayChoose(size: Slot -> nat, cap: string -> nat, x: Selecting, e: Step)
    requires e.Choose?
  {
    x.Listed? && x.i < |x.seen| &&
    var me, slot := x.seen[x.i], SlotOf(e.target);
    && !BusySource(x.first, me.name, me.sourceNodeId) && !BusyTarget(x.seen, me.name, e.target.nodeId)
    && (forall m <- e.members :: m.capacity == cap(m.pvName))
    && e.free + LandedOn(x.seen, slot) <= size(slot)
    && e.free >= ReservedOn(x.seen, me.name, Placed(x.seen), slot) + BytesNeeded(me, e.members, e.headroomPercent)
  }

  predicate CanStep(size: Slot -> nat, cap: string -> nat, s: System, e: Step) {
    match e
    case Arrive(x) =>
      && x.target.None? && x.members == [] && x.phase.Pending? && x.capacity == cap(x.name)
      && forall y <- s.evacs :: y.name != x.name
    case Move(i, p) =>
      && i < |s.evacs| && MovesTo(s.evacs[i].phase, p) && !(s.selecting.Some? && s.selecting.value.i == i)
      && (Rank(Adopting) <= Rank(p) <= Rank(Completed) ==> s.evacs[i].target.Some?)
    case Lock(i) => s.selecting.None? && i < |s.evacs| && s.evacs[i].phase.TargetSelecting? && s.evacs[i].target.None?
    case ListSources => s.selecting.Some? && s.selecting.value.Locked?
    case ListLedger => s.selecting.Some? && s.selecting.value.Checked?
    case GiveUp => s.selecting.Some?
    case Choose(_, _, _, _) => s.selecting.Some? && MayChoose(size, cap, s.selecting.value, e)
  }

  function Next(s: System, e: Step): System
    requires e.Move? ==> e.i < |s.evacs|
    requires e.ListSources? ==> s.selecting.Some?
    requires e.ListLedger? ==> s.selecting.Some? && s.selecting.value.Checked?
    requires e.Choose? ==> s.selecting.Some? && s.selecting.value.i < |s.evacs|
  {
    match e
    case Arrive(x) => s.(evacs := s.evacs + [x])
    case Move(i, p) => s.(evacs := s.evacs[i := s.evacs[i].(phase := p)])
    case Lock(i) => s.(selecting := Some(Locked(i)))
    case ListSources => s.(selecting := Some(Checked(s.selecting.value.i, s.evacs)))
    case ListLedger => s.(selecting := Some(Listed(s.selecting.value.i, s.selecting.value.first, s.evacs)))
    case GiveUp => s.(selecting := None)
    case Choose(target, members, _, _) =>
      var i := s.selecting.value.i;
      System(s.evacs[i := s.evacs[i].(target := Some(target), members := members, phase := Transferring)], None)
  }

  // What a later listing may differ in: phases have moved on, newcomers have
  // no target yet.
  predicate Later(e: Evac, f: Evac) {
    && f == e.(phase := f.phase)
    && (f.phase == e.phase || (!Terminal(e.phase) && Rank(e.phase) < Rank(f.phase)))
    && (f.phase.Transferring? || f.phase.Adopting? ==> e.phase.Transferring? || e.phase.Adopting?)
  }

  predicate Since(seen: seq<Evac>, now: seq<Evac>) {
    && |seen| <= |now|
    && (forall k | 0 <= k < |seen| :: Later(seen[k], now[k]))
    && (forall k | |seen| <= k < |now| :: now[k].target.None?)
  }

  predicate Distinct(evacs: seq<Evac>) {
    forall j, k | 0 <= j < k < |evacs| :: evacs[j].name != evacs[k].name
  }

  // At most one evacuation is on its way to a node, and at most one is
  // copying off it.
  predicate OnePerTarget(evacs: seq<Evac>) {
    forall j, k | 0 <= j < k < |evacs| :: Active(evacs[j]) && Active(evacs[k]) ==>
      evacs[j].target.value.nodeId != evacs[k].target.value.nodeId
  }

  predicate CopiesOff(e: Evac) {
    e.phase.Transferring? || e.phase.Adopting?
  }

  predicate OnePerSource(evacs: seq<Evac>) {
    forall j, k | 0 <= j < k < |evacs| :: CopiesOff(evacs[j]) && CopiesOff(evacs[k]) ==>
      evacs[j].sourceNodeId != evacs[k].sourceNodeId
  }

  predicate Kept(e: Evac) {
    && (e.target.None? ==> e.members == [])
    && (Rank(Transferring) <= Rank(e.phase) <= Rank(Completed) ==> e.target.Some?)
  }

  // A listing made under the lock, and what has become of it.
  predicate ListedBy(seen: seq<Evac>, now: seq<Evac>, i: nat) {
    i < |seen| && Since(seen, now) && seen[i] == now[i]
  }

  predicate Ongoing(now: seq<Evac>, x: Selecting) {
    && x.i < |now| && now[x.i].target.None? && now[x.i].phase.TargetSelecting?
    && (!x.Locked? ==> ListedBy(x.first, now, x.i))
    && (x.Listed? ==> ListedBy(x.seen, now, x.i))
  }

  ghost predicate Inv(size: Slot -> nat, cap: string -> nat, s: System) {
    && Distinct(s.evacs) && Sized(s.evacs, cap) && (forall e <- s.evacs :: Kept(e))
    && OnePerTarget(s.evacs) && OnePerSource(s.evacs)
    && (forall slot :: Load(s.evacs, cap, slot) <= size(slot))
    && (s.selecting.Some? ==> Ongoing(s.evacs, s.selecting.value))
  }

  // ------------------------------------------------------- loads over time

  lemma {:induction false} PlacedSince(seen: seq<Evac>, now: seq<Evac>)
    requires Since(seen, now)
    ensures Placed(now) == Placed(seen)
  {
    forall x | x in Placed(seen) ensures x in Placed(now) {
      var k :| 0 <= k < |seen| && seen[k].target.Some? && seen[k].name == x;
      assert Later(seen[k], now[k]) && now[k] in now;
    }
    forall x | x in Placed(now) ensures x in Placed(seen) {
      var k :| 0 <= k < |now| && now[k].target.Some? && now[k].name == x;
      assert k < |seen| && Later(seen[k], now[k]) && seen[k] in seen;
    }
  }

  // Time only takes load away: bytes in flight land or are given up, and a
  // failed group owes nothing.
  lemma {:induction false} LoadSince(seen: seq<Evac>, now: seq<Evac>, placed: set<string>, slot: Slot)
    requires Since(seen, now)
    ensures LandedOn(now, slot) + InFlightOn(now, slot) <= LandedOn(seen, slot) + InFlightOn(seen, slot)
    ensures OwedOn(now, placed, slot) <= OwedOn(seen, placed, slot)
    decreases |now|
  {
    if |seen| < |now| {
      assert now[|now| - 1].target.None?;
      LoadSince(seen, now[..|now| - 1], placed, slot);
    } else if now != [] {
      assert Later(seen[|now| - 1], now[|now| - 1]);
      LoadSince(seen[..|seen| - 1], now[..|now| - 1], placed, slot);
    }
  }

  // Setting a target where there was none adds its own bytes, and nothing else.
  lemma {:induction false} LoadOfChoice(evacs: seq<Evac>, i: nat, e: Evac, placed: set<string>, slot: Slot)
    requires i < |evacs| && evacs[i].target.None? && Active(e) && e.name == evacs[i].name
    ensures LandedOn(evacs[i := e], slot) == LandedOn(evacs, slot)
    ensures InFlightOn(evacs[i := e], slot) == InFlightOn(evacs, slot) + if OnSlot(e, slot) then e.capacity else 0
    ensures OwedOn(evacs[i := e], placed + {e.name}, slot) <=
              OwedOn(evacs, placed, slot) - {e.name} + if OnSlot(e, slot) then MemberNames(e.members) - {e.name} else {}
  {
    var n := |evacs| - 1;
    var after := evacs[i := e];
    if i == n {
      assert after[..n] == evacs[..n];
      OwedWithMorePlaced(evacs[..n], placed, e.name, slot);
    } else {
      assert after[..n] == evacs[..n][i := e];
      LoadOfChoice(evacs[..n], i, e, placed, slot);
    }
  }

  lemma {:induction false} OwedWithMorePlaced(evacs: seq<Evac>, placed: set<string>, x: string, slot: Slot)
    ensures OwedOn(evacs, placed + {x}, slot) == OwedOn(evacs, placed, slot) - {x}
  {
    if evacs != [] { OwedWithMorePlaced(evacs[..|evacs| - 1], placed, x, slot); }
  }

  lemma MoveIsLater(evacs: seq<Evac>, i: nat, p: Phase)
    requires i < |evacs| && MovesTo(evacs[i].phase, p)
    ensures Since(evacs, evacs[i := evacs[i].(phase := p)])
  {
  }

  lemma SinceMove(seen: seq<Evac>, evacs: seq<Evac>, i: nat, p: Phase)
    requires Since(seen, evacs) && i < |evacs| && MovesTo(evacs[i].phase, p)
    ensures Since(seen, evacs[i := evacs[i].(phase := p)])
  {
  }

  lemma LighterSince(seen: seq<Evac>, now: seq<Evac>, cap: string -> nat, slot: Slot)
    requires Since(seen, now)
    ensures Load(now, cap, slot) <= Load(seen, cap, slot)
  {
    PlacedSince(seen, now);
    LoadSince(seen, now, Placed(seen), slot);
    SumMonotone(OwedOn(now, Placed(now), slot), OwedOn(seen, Placed(seen), slot), cap);
  }

  lemma SinceKeeps(seen: seq<Evac>, now: seq<Evac>, cap: string -> nat)
    requires Since(seen, now) && |seen| == |now|
    requires Distinct(seen) && Sized(seen, cap) && OnePerTarget(seen) && OnePerSource(seen)
    ensures Distinct(now) && Sized(now, cap) && OnePerTarget(now) && OnePerSource(now)
  {
    forall e | e in now ensures e.capacity == cap(e.name) && forall m <- e.members :: m.capacity == cap(m.pvName) {
      var k :| 0 <= k < |now| && now[k] == e;
      assert Later(seen[k], now[k]) && seen[k] in seen;
    }
    forall j, k | 0 <= j < k < |now|
      ensures now[j].name != now[k].name
      ensures Active(now[j]) && Active(now[k]) ==> now[j].target.value.nodeId != now[k].target.value.nodeId
      ensures CopiesOff(now[j]) && CopiesOff(now[k]) ==> now[j].sourceNodeId != now[k].sourceNodeId
    {
      assert Later(seen[j], now[j]) && Later(seen[k], now[k]);
    }
  }

  lemma MoveKeepsInv(size: Slot -> nat, cap: string -> nat, s: System, i: nat, p: Phase)
    requires Inv(size, cap, s) && CanStep(size, cap, s, Move(i, p))
    ensures Inv(size, cap, Next(s, Move(i, p)))
  {
    var now := s.evacs[i := s.evacs[i].(phase := p)];
    MoveIsLater(s.evacs, i, p);
    SinceKeeps(s.evacs, now, cap);
    forall slot: Slot ensures Load(now, cap, slot) <= size(slot) {
      LighterSince(s.evacs, now, cap, slot);
    }
    if s.selecting.Some? {
      var x := s.selecting.value;
      if !x.Locked? { SinceMove(x.first, s.evacs, i, p); }
      if x.Listed? { SinceMove(x.seen, s.evacs, i, p); }
    }
    forall e | e in now ensures Kept(e) {
      assert Kept(s.evacs[i]);
    }
  }

  lemma ArrivalLoad(evacs: seq<Evac>, x: Evac, cap: string -> nat, slot: Slot)
    requires x.target.None?
    ensures Load(evacs + [x], cap, slot) == Load(evacs, cap, slot)
  {
    var now := evacs + [x];
    assert now[..|evacs|] == evacs;
    PlacedSince(evacs, now);
    var o, p := OwedOn(now, Placed(now), slot), OwedOn(evacs, Placed(evacs), slot);
    assert o == p + {} == p;
    assert LandedOn(now, slot) == LandedOn(evacs, slot) && InFlightOn(now, slot) == InFlightOn(evacs, slot);
  }

  lemma ArrivalKeepsInv(size: Slot -> nat, cap: string -> nat, s: System, x: Evac)
    requires Inv(size, cap, s) && CanStep(size, cap, s, Arrive(x))
    ensures Inv(size, cap, Next(s, Arrive(x)))
  {
    hide Load;
    forall slot: Slot ensures Load(s.evacs + [x], cap, slot) <= size(slot) {
      ArrivalLoad(s.evacs, x, cap, slot);
    }
  }

  lemma SinceSelf(evacs: seq<Evac>)
    ensures Since(evacs, evacs)
  {
  }

  // What is owed after a choice: what was, less the chooser, and its group.
  lemma OwedAfterChoice(x: Selecting, now: seq<Evac>, chosen: Evac, cap: string -> nat, slot: Slot)
    requires x.Listed? && Since(x.seen, now) && x.i < |x.seen| && now[x.i].target.None?
    requires Active(chosen) && chosen.name == now[x.i].name && OnSlot(chosen, slot)
    ensures var (owed, me) := (OwedOn(x.seen, Placed(x.seen), slot) - {chosen.name}, chosen.name);
            SumOver(OwedOn(now[x.i := chosen], Placed(now[x.i := chosen]), slot), cap) <=
              SumOver(owed, cap) + SumOver(MemberNames(chosen.members) - {me}, cap)
  {
    hide LandedOn, InFlightOn, OwedOn, SumOver, Placed, MemberNames, Later;
    var placed, group := Placed(x.seen), MemberNames(chosen.members) - {chosen.name};
    PlacedSince(x.seen, now);
    PlacedAfter(now, x.i, chosen);
    LoadOfChoice(now, x.i, chosen, placed, slot);
    LoadSince(x.seen, now, placed, slot);
    var after := OwedOn(now[x.i := chosen], placed + {chosen.name}, slot);
    var rest := OwedOn(x.seen, placed, slot) - {chosen.name};
    SumMonotone(after, rest + group, cap);
    SumUnion(rest, group, cap);
  }

  // On the chosen pool: the listing's ledger and the bytes needed bound it.
  lemma ChosenPoolFits(x: Selecting, now: seq<Evac>, chosen: Evac, cap: string -> nat, slot: Slot)
    requires x.Listed? && ListedBy(x.seen, now, x.i) && now[x.i].target.None?
    requires Distinct(now) && Sized(now, cap) && Active(chosen) && chosen.name == now[x.i].name && OnSlot(chosen, slot)
    requires forall m <- chosen.members :: m.capacity == cap(m.pvName)
    ensures Load(now[x.i := chosen], cap, slot) <=
              LandedOn(x.seen, slot) + ReservedOn(x.seen, chosen.name, Placed(x.seen), slot) + chosen.capacity
              + GroupHold(chosen.members, chosen.name, chosen.name, {})
  {
    hide LandedOn, InFlightOn, OwedOn, ReservedOn, SumOver, GroupHold, Placed, MemberNames, Sized, Later, Distinct;
    var placed := Placed(x.seen);
    LoadOfChoice(now, x.i, chosen, placed, slot);
    OwedAfterChoice(x, now, chosen, cap, slot);
    LoadSince(x.seen, now, placed, slot);
    SeenSized(x.seen, now, cap);
    NoneIsMe(x.seen, x.i);
    LedgerCovers(x.seen, chosen.name, placed, slot, cap);
    GroupCovers(chosen.members, chosen.name, cap);
  }

  // On any other pool nothing is added.
  lemma OtherPoolsFit(x: Selecting, now: seq<Evac>, chosen: Evac, cap: string -> nat, slot: Slot)
    requires x.i < |now| && now[x.i].target.None? && Active(chosen) && chosen.name == now[x.i].name
    requires !OnSlot(chosen, slot)
    ensures Load(now[x.i := chosen], cap, slot) <= Load(now, cap, slot)
  {
    hide LandedOn, InFlightOn, OwedOn, SumOver, Placed, MemberNames;
    PlacedAfter(now, x.i, chosen);
    LoadOfChoice(now, x.i, chosen, Placed(now), slot);
    SumMonotone(OwedOn(now[x.i := chosen], Placed(now) + {chosen.name}, slot), OwedOn(now, Placed(now), slot), cap);
  }

  // The choice fits, whatever completed or failed since the listing.
  lemma ChoiceFits(size: Slot -> nat, cap: string -> nat, s: System, e: Step, slot: Slot)
    requires Inv(size, cap, s) && e.Choose? && CanStep(size, cap, s, e)
    ensures Load(Next(s, e).evacs, cap, slot) <= size(slot)
  {
    hide LandedOn, ReservedOn, GroupHold, BusySource, BusyTarget, Load, OnePerTarget, OnePerSource, Placed, Kept,
      Sized, Since, Distinct;
    var x := s.selecting.value;
    var me := x.seen[x.i];
    var chosen := me.(target := Some(e.target), members := e.members, phase := Transferring);
    if OnSlot(chosen, slot) {
      ChosenPoolFits(x, s.evacs, chosen, cap, slot);
    } else {
      OtherPoolsFit(x, s.evacs, chosen, cap, slot);
    }
  }

  lemma GroupCovers(members: seq<Member>, me: string, cap: string -> nat)
    requires forall m <- members :: m.capacity == cap(m.pvName)
    ensures SumOver(MemberNames(members) - {me}, cap) <= GroupHold(members, me, me, {})
  {
    HoldCovers(members, me, me, {}, cap);
    assert MemberNames(members) - {} - {me, me} == MemberNames(members) - {me};
  }

  lemma NoneIsMe(evacs: seq<Evac>, i: nat)
    requires Distinct(evacs) && i < |evacs| && evacs[i].target.None?
    ensures forall e <- evacs :: e.target.Some? ==> e.name in Placed(evacs) && e.name != evacs[i].name
  {
  }

  lemma SeenSized(seen: seq<Evac>, now: seq<Evac>, cap: string -> nat)
    requires Since(seen, now) && Sized(now, cap) && Distinct(now)
    ensures Sized(seen, cap) && Distinct(seen)
  {
    forall e | e in seen ensures e.capacity == cap(e.name) && forall m <- e.members :: m.capacity == cap(m.pvName) {
      var k :| 0 <= k < |seen| && seen[k] == e;
      assert Later(seen[k], now[k]) && now[k] in now;
    }
    forall j, k | 0 <= j < k < |seen| ensures seen[j].name != seen[k].name {
      assert Later(seen[j], now[j]) && Later(seen[k], now[k]);
    }
  }

  lemma PlacedAfter(evacs: seq<Evac>, i: nat, e: Evac)
    requires i < |evacs| && evacs[i].target.None? && e.target.Some? && e.name == evacs[i].name
    ensures Placed(evacs[i := e]) == Placed(evacs) + {e.name}
  {
    var after := evacs[i := e];
    assert after[i] in after;
    forall x | x in Placed(evacs) ensures x in Placed(after) {
      var k :| 0 <= k < |evacs| && evacs[k].target.Some? && evacs[k].name == x;
      assert after[k] in after;
    }
  }

  lemma ChoiceKeepsCaps(size: Slot -> nat, cap: string -> nat, s: System, e: Step)
    requires Inv(size, cap, s) && e.Choose? && CanStep(size, cap, s, e)
    ensures var now := Next(s, e).evacs; Distinct(now) && OnePerTarget(now) && OnePerSource(now)
  {
    hide Load, Sized, ReservedOn, LandedOn, GroupHold, Placed;
    var x := s.selecting.value;
    var now, me := Next(s, e).evacs, x.seen[x.i];
    forall j | 0 <= j < |now| && j != x.i
      ensures now[j].name != me.name
      ensures Active(now[j]) ==> now[j].target.value.nodeId != e.target.nodeId
      ensures CopiesOff(now[j]) ==> now[j].sourceNodeId != me.sourceNodeId
    {
      assert Kept(s.evacs[j]);
      if j < |x.first| { assert Later(x.first[j], now[j]) && x.first[j] in x.first; }
      if j < |x.seen| { assert Later(x.seen[j], now[j]) && x.seen[j] in x.seen; }
    }
  }

  lemma ChoiceKeepsInv(size: Slot -> nat, cap: string -> nat, s: System, e: Step)
    requires Inv(size, cap, s) && e.Choose? && CanStep(size, cap, s, e)
    ensures Inv(size, cap, Next(s, e))
  {
    ChoiceKeepsCaps(size, cap, s, e);
    forall slot: Slot ensures Load(Next(s, e).evacs, cap, slot) <= size(slot) {
      ChoiceFits(size, cap, s, e, slot);
    }
    var x := s.selecting.value;
    forall f | f in Next(s, e).evacs
      ensures Kept(f) && f.capacity == cap(f.name) && forall m <- f.members :: m.capacity == cap(m.pvName)
    {
      assert s.evacs[x.i] in s.evacs;
    }
  }

  lemma StepKeepsInv(size: Slot -> nat, cap: string -> nat, s: System, e: Step)
    requires Inv(size, cap, s) && CanStep(size, cap, s, e)
    ensures Inv(size, cap, Next(s, e))
  {
    match e
    case Arrive(x) => ArrivalKeepsInv(size, cap, s, x);
    case Move(i, p) => MoveKeepsInv(size, cap, s, i, p);
    case Lock(i) =>
    case ListSources => SinceSelf(s.evacs);
    case ListLedger => SinceSelf(s.evacs);
    case GiveUp =>
    case Choose(_, _, _, _) => ChoiceKeepsInv(size, cap, s, e);
  }

  // ----------------------------------------------------------------- runs

  function After(size: Slot -> nat, cap: string -> nat, steps: seq<Step>): System {
    if steps == [] then System([], None)
    else
      var s, e := After(size, cap, steps[..|steps| - 1]), steps[|steps| - 1];
      if CanStep(size, cap, s, e) && (e.Choose? ==> s.selecting.value.i < |s.evacs|) then Next(s, e) else s
  }

  lemma {:induction false} RunsKeepInv(size: Slot -> nat, cap: string -> nat, steps: seq<Step>)
    ensures Inv(size, cap, After(size, cap, steps))
  {
    if steps == [] {
      forall slot: Slot ensures Load([], cap, slot) <= size(slot) {}
    } else {
      RunsKeepInv(size, cap, steps[..|steps| - 1]);
      var s, e := After(size, cap, steps[..|steps| - 1]), steps[|steps| - 1];
      if CanStep(size, cap, s, e) { StepKeepsInv(size, cap, s, e); }
    }
  }

  // Capacity is never oversold: on every zpool, what has landed, what is on
  // its way and what is owed to distinct unplaced group members stay within
  // its size, in every interleaving.
  lemma NeverOversold(size: Slot -> nat, cap: string -> nat, steps: seq<Step>, slot: Slot)
    ensures var evacs := After(size, cap, steps).evacs;
            LandedOn(evacs, slot) + InFlightOn(evacs, slot) + SumOver(OwedOn(evacs, Placed(evacs), slot), cap) <=
              size(slot)
  {
    RunsKeepInv(size, cap, steps);
    assert Load(After(size, cap, steps).evacs, cap, slot) <= size(slot);
  }

  // The concurrency caps: one evacuation copying off a node, one on its way
  // to a node.
  lemma CapsHold(size: Slot -> nat, cap: string -> nat, steps: seq<Step>, j: nat, k: nat)
    requires var evacs := After(size, cap, steps).evacs; j < k < |evacs|
    ensures var evacs := After(size, cap, steps).evacs;
            && (CopiesOff(evacs[j]) && CopiesOff(evacs[k]) ==> evacs[j].sourceNodeId != evacs[k].sourceNodeId)
            && (Active(evacs[j]) && Active(evacs[k]) ==> evacs[j].target.value.nodeId != evacs[k].target.value.nodeId)
  {
    RunsKeepInv(size, cap, steps);
  }

  // ------------------------------------------- what selection answers is a choice

  // Under the lock and after the source check, an answer of SelectTarget for
  // this evacuation and its group is a step of the system above, provided no
  // pool reports more than its size less what has landed.
  lemma AnswersMayBeChosen(
    size: Slot -> nat, cap: string -> nat, x: Selecting, members: seq<Member>,
    inp: Input, nodes: seq<HostNode>, admits: HostNode -> bool, zfs: seq<ZfsNode>, t: TargetInfo)
    returns (free: nat)
    requires x.Listed? && x.i < |x.seen| && BestFit(inp, nodes, x.seen, admits, zfs, t)
    requires var e := x.seen[x.i];
             && inp.me == e.name && inp.capacity == e.capacity && !BusySource(x.first, e.name, e.sourceNodeId)
             && inp.groupExtra == GroupHold(members, e.name, e.name, {})
    requires forall m <- members :: m.capacity == cap(m.pvName)
    requires forall zn <- zfs, pool <- zn.pools ::
               pool.free + LandedOn(x.seen, Slot(zn.name, pool.name)) <= size(Slot(zn.name, pool.name))
    ensures MayChoose(size, cap, x, Choose(t, members, free, inp.headroomPercent))
  {
    var zn, pool :| zn in zfs && pool in zn.pools && MayTake(inp, nodes, x.seen, admits, zn, pool) &&
      t == TargetInfo(FirstWithId(nodes, zn.name).value.node.name, zn.name, Dest(inp), "");
    free := pool.free;
    assert SlotOf(t) == Slot(zn.name, pool.name);
    ReservedIs(x.seen, inp.me, Placed(x.seen), SlotOf(t));
    assert !BusyTarget(x.seen, inp.me, zn.name);
    hide BestFit, GroupHold, LandedOn, BusySource, BusyTarget, InFlightOn, ListedOn, Others, ReservedOn;
  }
}
