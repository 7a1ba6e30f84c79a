// Target selection (src/controller/target.rs): the reservation ledger rebuilt
// from the other evacuations, the candidate filter, and the choice.
module Selection {
  import opened Common
  import opened Manifests
  import opened Pods
  import opened Status

  // A volume of a co-location group still to be moved.
  datatype Member = Member(pvName: string, capacity: nat)

  // What selection reads of an evacuation; members is empty outside a group.
  datatype Evac = Evac(
    name: string, phase: Phase, sourceNodeId: string, capacity: nat, target: Option<TargetInfo>, members: seq<Member>)

  // A zpool of a node.
  datatype Slot = Slot(nodeId: string, pool: string)

  // ------------------------------------------------------------ destination

  // The part of a poolname before the first slash.
  function PoolComponent(poolname: string): (r: string)
    ensures '/' !in r && r <= poolname && (r == poolname || poolname[|r|] == '/')
  {
    if poolname == "" || poolname[0] == '/' then "" else [poolname[0]] + PoolComponent(poolname[1..])
  }

  function ResolveDestPoolname(targetPool: Option<string>, scPoolname: Option<string>, sourcePool: string): string {
    match (targetPool, scPoolname)
    case (Some(pool), _) => pool
    case (None, Some(pool)) => pool
    case (None, None) => sourcePool
  }

  // ----------------------------------------------------------------- ledger

  function SlotOf(t: TargetInfo): Slot {
    Slot(t.nodeId, PoolComponent(t.pool))
  }

  predicate OnSlot(e: Evac, slot: Slot) {
    e.target.Some? && SlotOf(e.target.value) == slot
  }

  // Committed to a target and neither finished nor failed.
  predicate Active(e: Evac) {
    e.target.Some? && !e.phase.Completed? && !e.phase.Failed?
  }

  function Placed(evacs: seq<Evac>): set<string> {
    set e | e in evacs && e.target.Some? :: e.name
  }

  // The members a group's share counts: not itself, not the one choosing, none
  // that has a target of its own.
  predicate Owing(m: Member, holder: string, me: string, placed: set<string>) {
    m.pvName != holder && m.pvName != me && m.pvName !in placed
  }

  function GroupHold(members: seq<Member>, holder: string, me: string, placed: set<string>): nat {
    if members == [] then 0
    else
      GroupHold(members[..|members| - 1], holder, me, placed) +
      if Owing(members[|members| - 1], holder, me, placed) then members[|members| - 1].capacity else 0
  }

  // What one evacuation holds on its target's pool against me: its own bytes
  // until it completes, its group's unplaced ones even after that.
  function HeldBy(e: Evac, me: string, placed: set<string>): nat {
    if e.name == me || e.phase.Failed? || e.target.None? then 0
    else (if e.phase.Completed? then 0 else e.capacity) + GroupHold(e.members, e.name, me, placed)
  }

  function ReservedOn(evacs: seq<Evac>, me: string, placed: set<string>, slot: Slot): nat {
    if evacs == [] then 0
    else
      var last := evacs[|evacs| - 1];
      ReservedOn(evacs[..|evacs| - 1], me, placed, slot) + if OnSlot(last, slot) then HeldBy(last, me, placed) else 0
  }

  // Everybody else's evacuations.
  function Others(evacs: seq<Evac>, me: string): seq<Evac> {
    if evacs == [] then []
    else
      var last := evacs[|evacs| - 1];
      Others(evacs[..|evacs| - 1], me) + if last.name == me then [] else [last]
  }

  // Bytes of evacuations on their way there.
  function InFlightOn(evacs: seq<Evac>, slot: Slot): nat {
    if evacs == [] then 0
    else
      var last := evacs[|evacs| - 1];
      InFlightOn(evacs[..|evacs| - 1], slot) + if OnSlot(last, slot) && Active(last) then last.capacity else 0
  }

  // Bytes of the volumes a group lists, but for those spared.
  function ListedBytes(members: seq<Member>, spared: set<string>): nat {
    if members == [] then 0
    else (if members[0].pvName in spared then 0 else members[0].capacity) + ListedBytes(members[1..], spared)
  }

  // Bytes the groups of evacuations there that have not failed list beside
  // their own volumes and those spared.
  function ListedOn(evacs: seq<Evac>, spared: set<string>, slot: Slot): nat {
    if evacs == [] then 0
    else
      var last := evacs[|evacs| - 1];
      ListedOn(evacs[..|evacs| - 1], spared, slot) +
      if OnSlot(last, slot) && !last.phase.Failed? then ListedBytes(last.members, spared + {last.name}) else 0
  }

  lemma {:induction false} ListedSnoc(members: seq<Member>, m: Member, spared: set<string>)
    ensures ListedBytes(members + [m], spared) ==
            ListedBytes(members, spared) + if m.pvName in spared then 0 else m.capacity
  {
    if members == [] {
      assert [m][1..] == [];
    } else {
      assert (members + [m])[1..] == members[1..] + [m];
      ListedSnoc(members[1..], m, spared);
    }
  }

  lemma {:induction false} HoldIsListed(members: seq<Member>, holder: string, me: string, placed: set<string>)
    ensures GroupHold(members, holder, me, placed) == ListedBytes(members, placed + {me} + {holder})
  {
    if members != [] {
      var rest, last := members[..|members| - 1], members[|members| - 1];
      HoldIsListed(rest, holder, me, placed);
      ListedSnoc(rest, last, placed + {me} + {holder});
      assert members == rest + [last];
    }
  }

  // What is reserved against one evacuation, neither more nor less: what is on
  // its way there for others, and what the groups there list of volumes that
  // have no target and are not its own.
  lemma {:induction false} ReservedIs(evacs: seq<Evac>, me: string, placed: set<string>, slot: Slot)
    ensures ReservedOn(evacs, me, placed, slot) ==
            InFlightOn(Others(evacs, me), slot) + ListedOn(Others(evacs, me), placed + {me}, slot)
  {
    if evacs != [] {
      var rest, last := evacs[..|evacs| - 1], evacs[|evacs| - 1];
      ReservedIs(rest, me, placed, slot);
      HoldIsListed(last.members, last.name, me, placed);
      if last.name == me {
        assert Others(evacs, me) == Others(rest, me);
      } else {
        assert Others(evacs, me)[..|Others(rest, me)|] == Others(rest, me);
      }
    }
  }

  lemma {:induction false} NothingListed(evacs: seq<Evac>, spared: set<string>, slot: Slot)
    requires forall e <- evacs :: e.members == []
    ensures ListedOn(evacs, spared, slot) == 0
  {
    if evacs != [] { NothingListed(evacs[..|evacs| - 1], spared, slot); }
  }

  lemma {:induction false} OthersAreOf(evacs: seq<Evac>, me: string)
    ensures forall e :: e in Others(evacs, me) <==> e in evacs && e.name != me
  {
    if evacs != [] {
      OthersAreOf(evacs[..|evacs| - 1], me);
      assert evacs == evacs[..|evacs| - 1] + [evacs[|evacs| - 1]];
    }
  }

  // Without groups only what is on its way counts.
  lemma GrouplessReserve(evacs: seq<Evac>, me: string, placed: set<string>, slot: Slot)
    requires forall e <- evacs :: e.members == []
    ensures ReservedOn(evacs, me, placed, slot) == InFlightOn(Others(evacs, me), slot)
  {
    ReservedIs(evacs, me, placed, slot);
    OthersAreOf(evacs, me);
    NothingListed(Others(evacs, me), placed + {me}, slot);
  }

  lemma {:induction false} UnlistedSpared(members: seq<Member>, spared: set<string>, x: string)
    requires forall m <- members :: m.pvName != x
    ensures ListedBytes(members, spared + {x}) == ListedBytes(members, spared)
  {
    if members != [] { UnlistedSpared(members[1..], spared, x); }
  }

  lemma {:induction false} UnlistedPlaced(evacs: seq<Evac>, spared: set<string>, x: string, slot: Slot)
    requires forall e <- evacs, m <- e.members :: m.pvName != x
    ensures ListedOn(evacs, spared + {x}, slot) == ListedOn(evacs, spared, slot)
  {
    if evacs != [] {
      var last := evacs[|evacs| - 1];
      UnlistedPlaced(evacs[..|evacs| - 1], spared, x, slot);
      UnlistedSpared(last.members, spared + {last.name}, x);
      assert spared + {x} + {last.name} == spared + {last.name} + {x};
    }
  }

  // And what has completed outside a group reserves nothing any more.
  lemma CompletedReservesNothing(evacs: seq<Evac>, e: Evac, me: string, slot: Slot)
    requires e.phase.Completed? && e.members == []
    requires forall x <- evacs, m <- x.members :: m.pvName != e.name
    ensures ReservedOn(evacs + [e], me, Placed(evacs + [e]), slot) == ReservedOn(evacs, me, Placed(evacs), slot)
  {
    var all := evacs + [e];
    assert all[..|evacs|] == evacs;
    ReservedIs(evacs, me, Placed(evacs), slot);
    ReservedIs(evacs, me, Placed(all), slot);
    OthersAreOf(evacs, me);
    if e.target.Some? {
      assert Placed(all) == Placed(evacs) + {e.name};
      UnlistedPlaced(Others(evacs, me), Placed(evacs) + {me}, e.name, slot);
      assert Placed(all) + {me} == Placed(evacs) + {me} + {e.name};
    } else {
      assert Placed(all) == Placed(evacs);
    }
  }

  predicate BusyTarget(evacs: seq<Evac>, me: string, nodeId: string) {
    exists e <- evacs :: e.name != me && Active(e) && e.target.value.nodeId == nodeId
  }

  function HeldByOthers(evacs: seq<Evac>, me: string, slot: Slot): nat {
    var targeted := set e | e in evacs && e.target.Some? :: e.name;
    InFlightOn(Others(evacs, me), slot) + ListedOn(Others(evacs, me), targeted + {me}, slot)
  }

  predicate BusySource(evacs: seq<Evac>, me: string, nodeId: string) {
    exists e <- evacs :: e.name != me && (e.phase.Transferring? || e.phase.Adopting?) && e.sourceNodeId == nodeId
  }

  function Entry(reserved: map<Slot, nat>, slot: Slot): nat {
    if slot in reserved then reserved[slot] else 0
  }

  method SumGroup(members: seq<Member>, holder: string, me: string, placed: set<string>) returns (bytes: nat)
    ensures bytes == GroupHold(members, holder, me, placed)
  {
    bytes := 0;
    for i := 0 to |members|
      invariant bytes == GroupHold(members[..i], holder, me, placed)
    {
      assert members[..i + 1][..i] == members[..i];
      if members[i].pvName != holder && members[i].pvName != me && members[i].pvName !in placed {
        bytes := bytes + members[i].capacity;
      }
    }
    assert members[..|members|] == members;
  }

  // One pass over the evacuations: bytes reserved per zpool, and the nodes
  // already receiving.
  method BuildLedger(evacs: seq<Evac>, me: string) returns (reserved: map<Slot, nat>, busy: set<string>)
    ensures forall slot :: Entry(reserved, slot) == ReservedOn(evacs, me, Placed(evacs), slot)
    ensures forall slot :: Entry(reserved, slot) == HeldByOthers(evacs, me, slot)
    ensures forall nodeId :: nodeId in busy <==> BusyTarget(evacs, me, nodeId)
  {
    var placed := set e | e in evacs && e.target.Some? :: e.name;
    reserved, busy := map[], {};
    for i := 0 to |evacs|
      invariant forall slot :: Entry(reserved, slot) == ReservedOn(evacs[..i], me, placed, slot)
      invariant forall nodeId :: nodeId in busy <==> BusyTarget(evacs[..i], me, nodeId)
    {
      var e := evacs[i];
      assert evacs[..i + 1][..i] == evacs[..i];
      BusyTargetSnoc(evacs, i, me);
      if e.name == me || e.phase.Failed? || e.target.None? { continue; }
      var slot := SlotOf(e.target.value);
      var held := Entry(reserved, slot);
      if !e.phase.Completed? {
        busy := busy + {e.target.value.nodeId};
        held := held + e.capacity;
      }
      var group := SumGroup(e.members, e.name, me, placed);
      reserved := reserved[slot := held + group];
    }
    assert evacs[..|evacs|] == evacs;
    forall slot: Slot ensures Entry(reserved, slot) == HeldByOthers(evacs, me, slot) {
      ReservedIs(evacs, me, placed, slot);
    }
  }

  lemma BusyTargetSnoc(evacs: seq<Evac>, i: nat, me: string)
    requires i < |evacs|
    ensures forall nodeId :: BusyTarget(evacs[..i + 1], me, nodeId) <==>
              BusyTarget(evacs[..i], me, nodeId) ||
              (evacs[i].name != me && Active(evacs[i]) && evacs[i].target.value.nodeId == nodeId)
  {
    assert evacs[..i + 1] == evacs[..i] + [evacs[i]];
  }

  // -------------------------------------------------------------- candidates

  // A Kubernetes node with its zfs-localpv identity label and Ready condition.
  datatype HostNode = HostNode(node: Node, idLabel: Option<string>, ready: bool)

  datatype ZPool = ZPool(name: string, free: nat)

  datatype ZfsNode = ZfsNode(name: string, pools: seq<ZPool>)

  function NodeIdOf(n: HostNode): string {
    if n.idLabel.Some? then n.idLabel.value else n.node.name
  }

  predicate NodeIsReady(n: HostNode) {
    n.ready && !n.node.unschedulable
  }

  function FirstNamed(nodes: seq<HostNode>, name: string): Option<HostNode> {
    if nodes == [] then None else if nodes[0].node.name == name then Some(nodes[0]) else FirstNamed(nodes[1..], name)
  }

  function FirstWithId(nodes: seq<HostNode>, id: string): (r: Option<HostNode>)
    ensures r.Some? ==> r.value in nodes && NodeIdOf(r.value) == id
    ensures r.None? ==> forall n <- nodes :: NodeIdOf(n) != id
  {
    if nodes == [] then None else if NodeIdOf(nodes[0]) == id then Some(nodes[0]) else FirstWithId(nodes[1..], id)
  }

  // An explicit target may be a node name or a node id.
  predicate MatchesExplicit(nodes: seq<HostNode>, explicit: string, id: string) {
    var named := FirstNamed(nodes, explicit);
    (named.Some? && NodeIdOf(named.value) == id) || explicit == id
  }

  // Which are the node's label, or its name without one.
  predicate Identifies(n: HostNode, id: string) {
    n.idLabel == Some(id) || (n.idLabel.None? && n.node.name == id)
  }

  // A node is found by identity, or by name: the first that has it.
  lemma {:induction false} HostIs(nodes: seq<HostNode>, id: string)
    ensures match FirstWithId(nodes, id)
            case None => forall n <- nodes :: !Identifies(n, id)
            case Some(h) => exists k ::
              && 0 <= k < |nodes| && nodes[k] == h && Identifies(h, id)
              && forall j | 0 <= j < k :: !Identifies(nodes[j], id)
  {
    if nodes != [] && NodeIdOf(nodes[0]) != id {
      HostIs(nodes[1..], id);
      var found := FirstWithId(nodes[1..], id);
      if found.Some? {
        var k :| 0 <= k < |nodes| - 1 && nodes[1..][k] == found.value && Identifies(found.value, id) &&
                 forall j | 0 <= j < k :: !Identifies(nodes[1..][j], id);
        assert nodes[k + 1] == found.value;
        assert forall j | 0 < j < k + 1 :: nodes[j] == nodes[1..][j - 1];
      }
    }
  }

  lemma {:induction false} NamedIs(nodes: seq<HostNode>, name: string)
    ensures match FirstNamed(nodes, name)
            case None => forall n <- nodes :: n.node.name != name
            case Some(h) => exists k ::
              && 0 <= k < |nodes| && nodes[k] == h && h.node.name == name
              && forall j | 0 <= j < k :: nodes[j].node.name != name
  {
    if nodes != [] && nodes[0].node.name != name {
      NamedIs(nodes[1..], name);
      var found := FirstNamed(nodes[1..], name);
      if found.Some? {
        var k :| 0 <= k < |nodes| - 1 && nodes[1..][k] == found.value && found.value.node.name == name &&
                 forall j | 0 <= j < k :: nodes[1..][j].node.name != name;
        assert nodes[k + 1] == found.value;
        assert forall j | 0 < j < k + 1 :: nodes[j] == nodes[1..][j - 1];
      }
    }
  }

  // An explicit target is an identity, or the name of a node that has it.
  lemma ExplicitIff(nodes: seq<HostNode>, explicit: string, id: string)
    ensures MatchesExplicit(nodes, explicit, id) <==>
              || explicit == id
              || exists k ::
                   && 0 <= k < |nodes| && nodes[k].node.name == explicit && Identifies(nodes[k], id)
                   && forall j | 0 <= j < k :: nodes[j].node.name != explicit
  {
    NamedIs(nodes, explicit);
    hide FirstNamed;
  }

  datatype Input = Input(
    me: string, targetNode: Option<string>, targetPool: Option<string>, scPool: Option<string>, headroomPercent: nat,
    sourceNodeId: string, sourcePool: string, capacity: nat, groupExtra: nat, anchor: Option<string>,
    allowedIds: Option<set<string>>, taintKey: string)

  function Explicit(inp: Input): Option<string> {
    if inp.targetNode.Some? then inp.targetNode else inp.anchor
  }

  function Need(inp: Input): nat {
    var bytes := inp.capacity + inp.groupExtra;
    bytes + bytes * inp.headroomPercent / 100
  }

  function Dest(inp: Input): string {
    ResolveDestPoolname(inp.targetPool, inp.scPool, inp.sourcePool)
  }

  predicate NodeEligible(inp: Input, nodes: seq<HostNode>, busy: set<string>, admits: HostNode -> bool, id: string) {
    && id != inp.sourceNodeId
    && (Explicit(inp).Some? ==> MatchesExplicit(nodes, Explicit(inp).value, id))
    && (inp.allowedIds.Some? ==> id in inp.allowedIds.value)
    && id !in busy
    && var host := FirstWithId(nodes, id);
       host.Some? && NodeIsReady(host.value) && !HasEvacuateTaint(host.value.node, inp.taintKey) && admits(host.value)
  }

  predicate PoolEligible(inp: Input, reserved: map<Slot, nat>, id: string, pool: ZPool) {
    pool.name == PoolComponent(Dest(inp)) && pool.free >= Entry(reserved, Slot(id, pool.name)) + Need(inp)
  }

  // What would be left on a pool beside the reservations.
  function Spare(reserved: map<Slot, nat>, id: string, pool: ZPool): int {
    pool.free - Entry(reserved, Slot(id, pool.name))
  }

  datatype Candidate = Candidate(node: string, nodeId: string, spare: nat)

  // The candidates of one node's first pools, in order.
  function PoolCandidates(
    inp: Input, reserved: map<Slot, nat>, host: string, id: string, pools: seq<ZPool>): seq<Candidate> {
    if pools == [] then []
    else
      var pool := pools[|pools| - 1];
      PoolCandidates(inp, reserved, host, id, pools[..|pools| - 1]) +
      if PoolEligible(inp, reserved, id, pool) then [Candidate(host, id, Spare(reserved, id, pool))] else []
  }

  function Candidates(
    inp: Input, nodes: seq<HostNode>, reserved: map<Slot, nat>, busy: set<string>, admits: HostNode -> bool,
    zfs: seq<ZfsNode>)
    : seq<Candidate>
  {
    if zfs == [] then []
    else
      var zn := zfs[|zfs| - 1];
      Candidates(inp, nodes, reserved, busy, admits, zfs[..|zfs| - 1]) +
      if NodeEligible(inp, nodes, busy, admits, zn.name)
      then PoolCandidates(inp, reserved, FirstWithId(nodes, zn.name).value.node.name, zn.name, zn.pools)
      else []
  }

  // Where a candidate comes from, and that every eligible pool is one.
  predicate ComesFrom(inp: Input, reserved: map<Slot, nat>, id: string, pools: seq<ZPool>, c: Candidate) {
    && c.nodeId == id
    && exists pool <- pools :: PoolEligible(inp, reserved, id, pool) && c.spare == Spare(reserved, id, pool)
  }

  lemma {:induction false} PoolCandidatesAre(
    inp: Input, reserved: map<Slot, nat>, host: string, id: string, pools: seq<ZPool>)
    ensures forall c <- PoolCandidates(inp, reserved, host, id, pools) ::
              c.node == host && ComesFrom(inp, reserved, id, pools, c)
    ensures forall pool <- pools :: PoolEligible(inp, reserved, id, pool) ==>
              Candidate(host, id, Spare(reserved, id, pool)) in PoolCandidates(inp, reserved, host, id, pools)
  {
    if pools != [] {
      var rest, pool := pools[..|pools| - 1], pools[|pools| - 1];
      PoolCandidatesAre(inp, reserved, host, id, rest);
      assert pools == rest + [pool];
      forall c <- PoolCandidates(inp, reserved, host, id, pools)
        ensures c.node == host && ComesFrom(inp, reserved, id, pools, c)
      {
        if c in PoolCandidates(inp, reserved, host, id, rest) {
          assert ComesFrom(inp, reserved, id, rest, c);
        }
      }
    }
  }

  // The destination pool of some node, fit to take the bytes.
  predicate Fits(
    inp: Input, nodes: seq<HostNode>, reserved: map<Slot, nat>, busy: set<string>, admits: HostNode -> bool,
    zn: ZfsNode, pool: ZPool)
  {
    pool in zn.pools && NodeEligible(inp, nodes, busy, admits, zn.name) && PoolEligible(inp, reserved, zn.name, pool)
  }

  lemma {:induction false} CandidatesAre(
    inp: Input, nodes: seq<HostNode>, reserved: map<Slot, nat>, busy: set<string>, admits: HostNode -> bool,
    zfs: seq<ZfsNode>)
    ensures forall c <- Candidates(inp, nodes, reserved, busy, admits, zfs) ::
              exists zn <- zfs, pool <- zn.pools ::
                && Fits(inp, nodes, reserved, busy, admits, zn, pool) && c.nodeId == zn.name
                && c.spare == Spare(reserved, zn.name, pool)
                && c.node == FirstWithId(nodes, zn.name).value.node.name
    ensures forall zn <- zfs, pool <- zn.pools :: Fits(inp, nodes, reserved, busy, admits, zn, pool) ==>
              exists c <- Candidates(inp, nodes, reserved, busy, admits, zfs) ::
                c.nodeId == zn.name && c.spare == Spare(reserved, zn.name, pool)
  {
    if zfs != [] {
      var rest, zn := zfs[..|zfs| - 1], zfs[|zfs| - 1];
      CandidatesAre(inp, nodes, reserved, busy, admits, rest);
      assert zfs == rest + [zn];
      var all := Candidates(inp, nodes, reserved, busy, admits, zfs);
      if NodeEligible(inp, nodes, busy, admits, zn.name) {
        PoolCandidatesAre(inp, reserved, FirstWithId(nodes, zn.name).value.node.name, zn.name, zn.pools);
      }
    }
  }

  // The bytes and their headroom, rounded down.
  lemma NeedIs(inp: Input)
    ensures var bytes := inp.capacity + inp.groupExtra;
            && bytes <= Need(inp)
            && 100 * (Need(inp) - bytes) <= bytes * inp.headroomPercent < 100 * (Need(inp) - bytes) + 100
  {
    assert (inp.capacity + inp.groupExtra) * inp.headroomPercent >= 0;
  }

  lemma NeedIsPositive(inp: Input)
    requires inp.capacity > 0
    ensures Need(inp) > 0
  {
    assert (inp.capacity + inp.groupExtra) * inp.headroomPercent >= 0;
  }

  // The inner loop over one node's pools. Since something is always needed,
  // the subtraction that makes the entry cannot go below zero.
  method CollectPools(inp: Input, reserved: map<Slot, nat>, host: string, id: string, pools: seq<ZPool>)
    returns (found: seq<Candidate>)
    requires inp.capacity > 0
    ensures found == PoolCandidates(inp, reserved, host, id, pools)
  {
    var wanted, need := PoolComponent(Dest(inp)), Need(inp);
    NeedIsPositive(inp);
    found := [];
    for i := 0 to |pools|
      invariant found == PoolCandidates(inp, reserved, host, id, pools[..i])
    {
      assert pools[..i + 1][..i] == pools[..i];
      var pool := pools[i];
      if pool.name == wanted {
        var held := Entry(reserved, Slot(id, pool.name));
        if SaturatingSub(pool.free, held) >= need {
          found := found + [Candidate(host, id, pool.free - held)];
        }
      }
    }
    assert pools[..|pools|] == pools;
  }

  method Collect(
    inp: Input, nodes: seq<HostNode>, reserved: map<Slot, nat>, busy: set<string>, admits: HostNode -> bool,
    zfs: seq<ZfsNode>)
    returns (found: seq<Candidate>)
    requires inp.capacity > 0
    ensures found == Candidates(inp, nodes, reserved, busy, admits, zfs)
  {
    found := [];
    var explicit := if inp.targetNode.Some? then inp.targetNode else inp.anchor;
    for i := 0 to |zfs|
      invariant found == Candidates(inp, nodes, reserved, busy, admits, zfs[..i])
    {
      assert zfs[..i + 1][..i] == zfs[..i];
      var id := zfs[i].name;
      if id == inp.sourceNodeId { continue; }
      if explicit.Some? && !MatchesExplicit(nodes, explicit.value, id) { continue; }
      if inp.allowedIds.Some? && id !in inp.allowedIds.value { continue; }
      var host := FirstWithId(nodes, id);
      if host.None? || !NodeIsReady(host.value) { continue; }
      if HasEvacuateTaint(host.value.node, inp.taintKey) || id in busy || !admits(host.value) { continue; }
      var more := CollectPools(inp, reserved, host.value.node.name, id, zfs[i].pools);
      found := found + more;
    }
    assert zfs[..|zfs|] == zfs;
  }

  // A stable sort by free space, largest first, and its first entry.
  method MostSpare(found: seq<Candidate>) returns (best: Option<Candidate>)
    ensures best.None? <==> found == []
    ensures best.Some? ==> exists k ::
              && 0 <= k < |found| && found[k] == best.value
              && (forall j | 0 <= j < |found| :: found[j].spare <= best.value.spare)
              && (forall j | 0 <= j < k :: found[j].spare < best.value.spare)
  {
    if found == [] { return None; }
    var k := 0;
    for i := 1 to |found|
      invariant 0 <= k < i && forall j | 0 <= j < i :: found[j].spare <= found[k].spare
      invariant forall j | 0 <= j < k :: found[j].spare < found[k].spare
    {
      if found[i].spare > found[k].spare { k := i; }
    }
    best := Some(found[k]);
  }

  // Is this the answer: the pool it names fits, beside every reservation, and
  // none that fits has more to spare?
  ghost predicate BestFit(
    inp: Input, nodes: seq<HostNode>, evacs: seq<Evac>, admits: HostNode -> bool, zfs: seq<ZfsNode>, t: TargetInfo)
  {
    exists zn <- zfs, pool <- zn.pools ::
      && MayTake(inp, nodes, evacs, admits, zn, pool)
      && t == TargetInfo(FirstWithId(nodes, zn.name).value.node.name, zn.name, Dest(inp), "")
      && forall other <- zfs, rival <- other.pools :: MayTake(inp, nodes, evacs, admits, other, rival) ==>
           SpareOn(inp, evacs, other.name, rival) <= SpareOn(inp, evacs, zn.name, pool)
  }

  ghost predicate MayTake(
    inp: Input, nodes: seq<HostNode>, evacs: seq<Evac>, admits: HostNode -> bool, zn: ZfsNode, pool: ZPool)
  {
    && pool in zn.pools && pool.name == PoolComponent(Dest(inp))
    && zn.name != inp.sourceNodeId
    && (inp.targetNode.Some? ==> MatchesExplicit(nodes, inp.targetNode.value, zn.name))
    && (inp.targetNode.None? && inp.anchor.Some? ==> MatchesExplicit(nodes, inp.anchor.value, zn.name))
    && (inp.allowedIds.Some? ==> zn.name in inp.allowedIds.value)
    && (forall e <- evacs | e.name != inp.me && e.target.Some? && e.target.value.nodeId == zn.name ::
          e.phase.Completed? || e.phase.Failed?)
    && (var host := FirstWithId(nodes, zn.name);
        && host.Some? && host.value.ready && !host.value.node.unschedulable && admits(host.value)
        && forall t <- host.value.node.taints :: t.key != inp.taintKey)
    && SpareOn(inp, evacs, zn.name, pool) >= Need(inp)
  }

  function SpareOn(inp: Input, evacs: seq<Evac>, id: string, pool: ZPool): int {
    pool.free - HeldByOthers(evacs, inp.me, Slot(id, pool.name))
  }

  // A target is found exactly when some pool may take the bytes, and it is
  // one with the most to spare.
  method SelectTarget(inp: Input, nodes: seq<HostNode>, evacs: seq<Evac>, admits: HostNode -> bool, zfs: seq<ZfsNode>)
    returns (r: Option<TargetInfo>)
    requires inp.capacity > 0
    ensures r.Some? <==> exists zn <- zfs, pool <- zn.pools :: MayTake(inp, nodes, evacs, admits, zn, pool)
    ensures r.Some? ==> BestFit(inp, nodes, evacs, admits, zfs, r.value)
    ensures r.Some? ==>
              r.value.pool == if inp.targetPool.Some? then inp.targetPool.value
                              else if inp.scPool.Some? then inp.scPool.value
                              else inp.sourcePool
  {
    var reserved, busy := BuildLedger(evacs, inp.me);
    var found := Collect(inp, nodes, reserved, busy, admits, zfs);
    CandidatesAre(inp, nodes, reserved, busy, admits, zfs);
    forall zn <- zfs, pool <- zn.pools
      ensures Fits(inp, nodes, reserved, busy, admits, zn, pool) <==> MayTake(inp, nodes, evacs, admits, zn, pool)
      ensures Spare(reserved, zn.name, pool) == SpareOn(inp, evacs, zn.name, pool)
    {
      var slot := Slot(zn.name, pool.name);
      assert Entry(reserved, slot) == HeldByOthers(evacs, inp.me, slot);
    }
    var best := MostSpare(found);
    match best
    case None => return None;
    case Some(c) => return Some(TargetInfo(c.node, c.nodeId, Dest(inp), ""));
  }
}
