// Keeping a consumer's volumes together (src/controller/colocation.rs): which
// of them still have to move, where the others already are, and why no
// interleaving of their evacuations splits the group.
module Colocation {
  import opened Common
  import opened Manifests
  import opened Pods
  import opened Status
  import opened Selection

  // A sibling that has, or is heading for, a node off the source.
  datatype Anchor = Anchor(node: string, pvName: string)

  // ------------------------------------------------------------- pick_anchor

  function Votes(anchors: seq<Anchor>, node: string): nat {
    if anchors == [] then 0
    else Votes(anchors[..|anchors| - 1], node) + if anchors[|anchors| - 1].node == node then 1 else 0
  }

  // More votes, or as many and first by name.
  predicate Beats(anchors: seq<Anchor>, m: string, n: string) {
    Votes(anchors, m) > Votes(anchors, n) || (Votes(anchors, m) == Votes(anchors, n) && NameLe(m, n))
  }

  predicate Wins(anchors: seq<Anchor>, node: string) {
    (exists a <- anchors :: a.node == node) && forall a <- anchors :: Beats(anchors, node, a.node)
  }

  lemma WinnerIsUnique(anchors: seq<Anchor>, m: string, n: string)
    requires Wins(anchors, m) && Wins(anchors, n)
    ensures m == n
  {
    var a :| a in anchors && a.node == m;
    var b :| b in anchors && b.node == n;
    NameLeTotal(m, n);
  }

  lemma {:induction false} VotesAreCounts(anchors: seq<Anchor>, node: string)
    ensures Votes(anchors, node) > 0 <==> exists a <- anchors :: a.node == node
  {
    if anchors != [] {
      VotesAreCounts(anchors[..|anchors| - 1], node);
      assert anchors == anchors[..|anchors| - 1] + [anchors[|anchors| - 1]];
    }
  }

  lemma {:induction false} VotesWithout(anchors: seq<Anchor>, i: nat, node: string)
    requires i < |anchors|
    ensures Votes(anchors, node) ==
            Votes(anchors[..i] + anchors[i + 1..], node) + if anchors[i].node == node then 1 else 0
  {
    var n := |anchors| - 1;
    var rest := anchors[..i] + anchors[i + 1..];
    if i == n {
      assert rest == anchors[..n];
    } else {
      VotesWithout(anchors[..n], i, node);
      assert rest[..n - 1] == anchors[..n][..i] + anchors[..n][i + 1..];
      assert rest[n - 1] == anchors[n];
    }
  }

  lemma MultisetSplit(b: seq<Anchor>, i: nat)
    requires i < |b|
    ensures multiset(b[..i] + b[i + 1..]) == multiset(b) - multiset{b[i]}
  {
    assert b == b[..i] + [b[i]] + b[i + 1..];
    assert multiset(b) == multiset(b[..i]) + multiset{b[i]} + multiset(b[i + 1..]);
  }

  lemma {:induction false} VotesIgnoreOrder(a: seq<Anchor>, b: seq<Anchor>, node: string)
    requires multiset(a) == multiset(b)
    ensures Votes(a, node) == Votes(b, node)
    decreases |a|
  {
    if a == [] {
      assert |b| == |multiset(b)| == 0;
    } else {
      var last := a[|a| - 1];
      assert last in multiset(b);
      var i :| 0 <= i < |b| && b[i] == last;
      assert a == a[..|a| - 1] + [last];
      MultisetSplit(b, i);
      assert multiset(a[..|a| - 1]) == multiset(a) - multiset{last};
      VotesIgnoreOrder(a[..|a| - 1], b[..i] + b[i + 1..], node);
      VotesWithout(b, i, node);
    }
  }

  // Whatever order the siblings are listed in, the winner is the same.
  lemma WinnerIgnoresOrder(a: seq<Anchor>, b: seq<Anchor>, node: string)
    requires multiset(a) == multiset(b) && Wins(a, node)
    ensures Wins(b, node)
  {
    forall x | x in b ensures x in a && Beats(b, node, x.node) {
      assert x in multiset(b);
      VotesIgnoreOrder(a, b, node);
      VotesIgnoreOrder(a, b, x.node);
    }
    var w :| w in a && w.node == node;
    assert w in multiset(a);
    assert w in b;
  }

  method CountVotes(anchors: seq<Anchor>) returns (votes: map<string, nat>)
    ensures forall n :: n in votes <==> exists a <- anchors :: a.node == n
    ensures forall n <- votes :: votes[n] == Votes(anchors, n)
  {
    votes := map[];
    for i := 0 to |anchors|
      invariant forall n :: n in votes <==> Votes(anchors[..i], n) > 0
      invariant forall n <- votes :: votes[n] == Votes(anchors[..i], n)
    {
      var n := anchors[i].node;
      assert anchors[..i + 1][..i] == anchors[..i];
      votes := votes[n := (if n in votes then votes[n] else 0) + 1];
    }
    assert anchors[..|anchors|] == anchors;
    forall n ensures n in votes <==> exists a <- anchors :: a.node == n { VotesAreCounts(anchors, n); }
  }

  // Votes are counted into a map, the map is visited in any order, and the
  // first sibling on the winning node stands for it.
  method PickAnchor(anchors: seq<Anchor>) returns (r: Option<Anchor>)
    ensures r.None? <==> anchors == []
    ensures r.Some? ==> Wins(anchors, r.value.node)
    ensures r.Some? ==> exists k ::
              0 <= k < |anchors| && anchors[k] == r.value && forall j | 0 <= j < k :: anchors[j].node != r.value.node
  {
    var votes := CountVotes(anchors);
    assert forall a <- anchors :: a.node in votes;
    assert anchors != [] ==> anchors[0].node in votes;
    var best := BestVoted(anchors, votes);
    if best.None? { return None; }
    for k := 0 to |anchors|
      invariant forall j | 0 <= j < k :: anchors[j].node != best.value
    {
      if anchors[k].node == best.value { return Some(anchors[k]); }
    }
    assert false;
  }

  method BestVoted(anchors: seq<Anchor>, votes: map<string, nat>) returns (best: Option<string>)
    requires forall n <- votes :: votes[n] == Votes(anchors, n)
    ensures best.None? <==> votes == map[]
    ensures best.Some? ==> best.value in votes && forall n <- votes :: Beats(anchors, best.value, n)
  {
    best := None;
    var left := votes.Keys;
    while left != {}
      invariant left <= votes.Keys
      invariant best.None? <==> left == votes.Keys
      invariant best.Some? ==> best.value in votes && forall n <- votes :: n !in left ==> Beats(anchors, best.value, n)
      decreases left
    {
      var n :| n in left;
      left := left - {n};
      NameLeReflexive(n);
      if best.None? {
        best := Some(n);
      } else if votes[n] > votes[best.value] || (votes[n] == votes[best.value] && !NameLe(best.value, n)) {
        NameLeTotal(n, best.value);
        forall m | m in votes && m !in left && m != n ensures Beats(anchors, n, m) {
          if NameLe(n, best.value) && NameLe(best.value, m) { NameLeTransitive(n, best.value, m); }
        }
        best := Some(n);
      }
    }
  }

  lemma {:induction false} NameLeReflexive(n: string)
    ensures NameLe(n, n)
  {
    if n != "" { NameLeReflexive(n[1..]); }
  }

  // ----------------------------------------------------------------- resolve

  datatype PvView = PvView(ours: bool, handle: string)

  datatype ZvView = ZvView(owner: string, capacity: nat)

  datatype EvacView = EvacView(phase: Phase, targetNode: Option<string>, target: Option<TargetInfo>)

  // What resolve looks up, object by object: the claims' PVs, each PV's volume
  // handle, ZFSVolumes by handle, evacuations by PV.
  datatype View = View(
    claims: map<string, string>, pvs: map<string, PvView>, zvs: map<string, ZvView>, evacs: map<string, EvacView>)

  datatype Group = Group(pod: string, members: seq<Member>, anchor: Option<Anchor>)

  // The evacuation counts while it may still deliver.
  predicate Delivering(e: EvacView) {
    !e.phase.Completed? && !e.phase.Failed? && !e.phase.Aborting?
  }

  // A resolve under way: at which of the consumer's claims, what it looks up
  // next, what it has found.
  datatype Stage = AtClaim | AtPv(pv: string) | AtZv(pv: string, handle: string) | AtEvac(pv: string, zv: ZvView)

  datatype Looking = Looking(i: nat, stage: Stage, members: seq<Member>, anchors: seq<Anchor>)

  const START := Looking(0, AtClaim, [], [])

  function NextClaim(x: Looking): Looking {
    x.(i := x.i + 1, stage := AtClaim)
  }

  datatype Sighting = Joins(m: Member) | IsAt(a: Anchor)

  // A sibling's evacuation knows more than its volume; without one, or past
  // it, the volume's owner decides.
  function Judge(v: View, source: string, pv: string, zv: ZvView): Sighting {
    var sibling := if pv in v.evacs && Delivering(v.evacs[pv]) then Some(v.evacs[pv]) else None;
    if sibling.Some? && sibling.value.targetNode.Some? then IsAt(Anchor(sibling.value.targetNode.value, pv))
    else if sibling.Some? && sibling.value.target.Some? then IsAt(Anchor(sibling.value.target.value.nodeId, pv))
    else if zv.owner != source then IsAt(Anchor(zv.owner, pv))
    else Joins(Member(pv, zv.capacity))
  }

  // A sibling is where its evacuation, while it may still deliver, is ordered
  // to, or else has its target; failing both, where its volume is. It joins the
  // group when that is the source.
  lemma JudgedIff(v: View, source: string, pv: string, zv: ZvView, node: string)
    ensures var live := pv in v.evacs && v.evacs[pv].phase !in {Completed, Failed, Aborting};
            var ordered := live && v.evacs[pv].targetNode.Some?;
            var chosen := live && v.evacs[pv].target.Some?;
            && (Judge(v, source, pv, zv) == Joins(Member(pv, zv.capacity)) <==>
                  !ordered && !chosen && zv.owner == source)
            && (Judge(v, source, pv, zv) == IsAt(Anchor(node, pv)) <==>
                  || (ordered && v.evacs[pv].targetNode == Some(node))
                  || (!ordered && chosen && v.evacs[pv].target.value.nodeId == node)
                  || (!ordered && !chosen && zv.owner == node != source))
  {
  }

  // One lookup; what is not there, or not ours, is passed over.
  function LookOnce(v: View, me: string, source: string, claims: seq<string>, x: Looking): Looking
    requires x.i < |claims|
  {
    match x.stage
    case AtClaim => if claims[x.i] in v.claims then x.(stage := AtPv(v.claims[claims[x.i]])) else NextClaim(x)
    case AtPv(pv) => if pv in v.pvs && v.pvs[pv].ours then x.(stage := AtZv(pv, v.pvs[pv].handle)) else NextClaim(x)
    case AtZv(pv, handle) =>
      if handle !in v.zvs then NextClaim(x)
      else if pv == me then NextClaim(x.(members := x.members + [Member(pv, v.zvs[handle].capacity)]))
      else x.(stage := AtEvac(pv, v.zvs[handle]))
    case AtEvac(pv, zv) =>
      match Judge(v, source, pv, zv)
      case Joins(m) => NextClaim(x.(members := x.members + [m]))
      case IsAt(a) => NextClaim(x.(anchors := x.anchors + [a]))
  }

  // After n lookups, the k-th of which meets the cluster as look(k).
  function Looked(look: nat -> View, me: string, source: string, claims: seq<string>, n: nat): Looking {
    if n == 0 then START
    else
      var x := Looked(look, me, source, claims, n - 1);
      if x.i < |claims| then LookOnce(look(n - 1), me, source, claims, x) else x
  }

  // The never-scheduled pod that comes first by name.
  method FirstUnscheduled(pods: seq<Pod>) returns (r: Option<Pod>)
    ensures r.None? <==> forall p <- pods :: IsScheduled(p)
    ensures r.Some? ==> r.value in pods && !IsScheduled(r.value)
    ensures r.Some? ==> forall p <- pods :: !IsScheduled(p) ==> NameLe(r.value.name, p.name)
  {
    r := None;
    for i := 0 to |pods|
      invariant r.None? <==> forall p <- pods[..i] :: IsScheduled(p)
      invariant r.Some? ==> r.value in pods && !IsScheduled(r.value)
      invariant r.Some? ==> forall p <- pods[..i] :: !IsScheduled(p) ==> NameLe(r.value.name, p.name)
    {
      assert pods[..i + 1] == pods[..i] + [pods[i]];
      if !IsScheduled(pods[i]) {
        NameLeReflexive(pods[i].name);
        if r.None? {
          r := Some(pods[i]);
        } else if !NameLe(r.value.name, pods[i].name) {
          NameLeTotal(r.value.name, pods[i].name);
          forall p | p in pods[..i] && !IsScheduled(p) ensures NameLe(pods[i].name, p.name) {
            NameLeTransitive(pods[i].name, r.value.name, p.name);
          }
          r := Some(pods[i]);
        }
      }
    }
    assert pods[..|pods|] == pods;
  }

  // What one claim adds; nothing when it is passed over.
  function With(x: Looking, s: Option<Sighting>): Looking {
    match s
    case None => NextClaim(x)
    case Some(Joins(m)) => NextClaim(x.(members := x.members + [m]))
    case Some(IsAt(a)) => NextClaim(x.(anchors := x.anchors + [a]))
  }

  lemma LookedNext(look: nat -> View, me: string, source: string, claims: seq<string>, n: nat)
    requires Looked(look, me, source, claims, n).i < |claims|
    ensures Looked(look, me, source, claims, n + 1) ==
            LookOnce(look(n), me, source, claims, Looked(look, me, source, claims, n))
  {
  }

  // What a claim shows in a cluster that stands still: the volume of its PV, if
  // that is one of ours and all of it is there; the one to be moved joins the
  // group whatever there is about it.
  function SightOf(v: View, me: string, source: string, claim: string): Option<Sighting> {
    if claim in v.claims && v.claims[claim] in v.pvs && v.pvs[v.claims[claim]].ours &&
       v.pvs[v.claims[claim]].handle in v.zvs
    then
      var (pv, zv) := (v.claims[claim], v.zvs[v.pvs[v.claims[claim]].handle]);
      Some(if pv == me then Joins(Member(me, zv.capacity)) else Judge(v, source, pv, zv))
    else None
  }

  function SightsOf(v: View, me: string, source: string, claims: seq<string>): Looking {
    if claims == [] then START
    else With(SightsOf(v, me, source, claims[..|claims| - 1]), SightOf(v, me, source, claims[|claims| - 1]))
  }

  // What the stage has already looked up.
  predicate AsFarAs(v: View, me: string, claims: seq<string>, x: Looking) {
    x.i <= |claims| &&
    match x.stage
    case AtClaim => true
    case AtPv(pv) => x.i < |claims| && claims[x.i] in v.claims && v.claims[claims[x.i]] == pv
    case AtZv(pv, handle) =>
      && x.i < |claims| && claims[x.i] in v.claims && v.claims[claims[x.i]] == pv
      && pv in v.pvs && v.pvs[pv] == PvView(true, handle)
    case AtEvac(pv, zv) =>
      && x.i < |claims| && claims[x.i] in v.claims && v.claims[claims[x.i]] == pv && pv != me
      && pv in v.pvs && v.pvs[pv].ours && v.pvs[pv].handle in v.zvs && v.zvs[v.pvs[pv].handle] == zv
  }

  lemma StartsThere(v: View, me: string, claims: seq<string>)
    ensures AsFarAs(v, me, claims, START)
  {
  }

  lemma LooksOn(v: View, me: string, source: string, claims: seq<string>, x: Looking)
    requires x.i < |claims| && AsFarAs(v, me, claims, x)
    ensures var y := LookOnce(v, me, source, claims, x);
            && AsFarAs(v, me, claims, y)
            && x.i <= y.i <= x.i + 1
            && y.(stage := AtClaim) == if y.i == x.i then x.(stage := AtClaim)
                                       else With(x.(stage := AtClaim), SightOf(v, me, source, claims[x.i]))
  {
    hide Judge;
  }

  // While nothing changes, the lookups see what there is: claim by claim, in
  // order, and nothing twice.
  lemma {:induction false} StillLook(v: View, me: string, source: string, claims: seq<string>, n: nat)
    ensures var x := Looked(_ => v, me, source, claims, n);
            AsFarAs(v, me, claims, x) && x.(stage := AtClaim) == SightsOf(v, me, source, claims[..x.i])
  {
    hide LookOnce, SightOf, AsFarAs;
    if n > 0 {
      StillLook(v, me, source, claims, n - 1);
      var x := Looked(_ => v, me, source, claims, n - 1);
      if x.i < |claims| {
        LooksOn(v, me, source, claims, x);
        assert claims[..x.i + 1][..x.i] == claims[..x.i];
      }
    } else {
      assert AsFarAs(v, me, claims, START) by { StartsThere(v, me, claims); }
    }
  }

  // One of the consumer's claims, in up to four lookups.
  method ResolveClaim(
    look: nat -> View, k: nat, me: string, source: string, claims: seq<string>, i: nat, ghost x: Looking)
    returns (s: Option<Sighting>, next: nat)
    requires Looked(look, me, source, claims, k) == x && x.i == i < |claims| && x.stage.AtClaim?
    ensures Looked(look, me, source, claims, next) == With(x, s)
  {
    hide Judge, Looked;
    LookedNext(look, me, source, claims, k);
    next := k + 1;
    var claim := claims[i];
    if claim !in look(k).claims { return None, next; }
    var pv := look(k).claims[claim];
    LookedNext(look, me, source, claims, k + 1);
    next := k + 2;
    if pv !in look(k + 1).pvs || !look(k + 1).pvs[pv].ours { return None, next; }
    var handle := look(k + 1).pvs[pv].handle;
    LookedNext(look, me, source, claims, k + 2);
    next := k + 3;
    if handle !in look(k + 2).zvs { return None, next; }
    var zv := look(k + 2).zvs[handle];
    if pv == me { return Some(Joins(Member(pv, zv.capacity))), next; }
    LookedNext(look, me, source, claims, k + 3);
    next := k + 4;
    s := Some(Judge(look(k + 3), source, pv, zv));
  }

  // Members and anchors in the order of the consumer's volumes, from n
  // lookups, each of the cluster as it is by then.
  method Resolve(look: nat -> View, me: string, source: string, pods: seq<Pod>)
    returns (g: Option<Group>, ghost n: nat)
    ensures g.None? <==> forall p <- pods :: IsScheduled(p)
    ensures g.Some? ==> exists pod <- pods ::
              && !IsScheduled(pod) && pod.name == g.value.pod
              && (forall p <- pods :: !IsScheduled(p) ==> NameLe(pod.name, p.name))
              && var x := Looked(look, me, source, PodPvcNames(pod), n);
                 && x.i == |PodPvcNames(pod)| && g.value.members == x.members
                 && if x.anchors == [] then g.value.anchor.None?
                    else
                      var anchor := g.value.anchor;
                      anchor.Some? && anchor.value in x.anchors && Wins(x.anchors, anchor.value.node)
  {
    n := 0;
    var pod := FirstUnscheduled(pods);
    if pod.None? { return None, n; }
    var claims, k := PodPvcNames(pod.value), 0;
    var members: seq<Member>, anchors: seq<Anchor> := [], [];
    for i := 0 to |claims|
      invariant Looked(look, me, source, claims, k) == Looking(i, AtClaim, members, anchors)
    {
      var s;
      s, k := ResolveClaim(look, k, me, source, claims, i, Looking(i, AtClaim, members, anchors));
      match s {
        case None =>
        case Some(Joins(m)) => members := members + [m];
        case Some(IsAt(a)) => anchors := anchors + [a];
      }
    }
    n := k;
    var anchor := PickAnchor(anchors);
    return Some(Group(pod.value.name, members, anchor)), n;
  }

  // ------------------------------------------------------- groups stay whole

  // Where a volume is by its PV, as far as all of it is there.
  function VolumeNode(v: View, pv: string): Option<string> {
    if pv in v.pvs && v.pvs[pv].handle in v.zvs then Some(v.zvs[v.pvs[pv].handle].owner) else None
  }

  predicate HeadsFor(v: View, pv: string) {
    pv in v.evacs && Delivering(v.evacs[pv]) && v.evacs[pv].target.Some?
  }

  // Where a volume of the group is, or is heading for, off the source.
  function Heading(v: View, source: string, pv: string): Option<string> {
    if HeadsFor(v, pv) then Some(v.evacs[pv].target.value.nodeId)
    else if VolumeNode(v, pv) == Some(source) then None
    else VolumeNode(v, pv)
  }

  // The group's fixed circumstances: one source, one consumer's claims, and
  // the PV each of them is bound to for good, whether it is there or not.
  datatype Setting = Setting(source: string, claims: seq<string>, binds: map<string, string>, ids: set<string>)

  predicate InGroup(g: Setting, pv: string) {
    exists claim <- g.claims :: claim in g.binds && g.binds[claim] == pv
  }

  predicate BoundAsEver(g: Setting, v: View) {
    forall claim <- v.claims :: claim in g.binds && v.claims[claim] == g.binds[claim]
  }

  predicate OffSource(g: Setting, v: View, pv: string) {
    InGroup(g, pv) && Heading(v, g.source, pv).Some?
  }

  ghost predicate Together(g: Setting, v: View) {
    forall p, q :: OffSource(g, v, p) && OffSource(g, v, q) ==> Heading(v, g.source, p) == Heading(v, g.source, q)
  }

  // Everybody off the source is on this node or on the way there.
  ghost predicate AllAt(g: Setting, v: View, node: string) {
    node in g.ids && forall p :: OffSource(g, v, p) ==> Heading(v, g.source, p) == Some(node)
  }

  // No node is named like another node's identity.
  predicate NoClash(nodes: seq<HostNode>, ids: set<string>) {
    forall n <- nodes :: n.node.name in ids ==> NodeIdOf(n) == n.node.name
  }

  lemma {:induction false} FirstNamedIs(nodes: seq<HostNode>, name: string)
    ensures var r := FirstNamed(nodes, name); r.Some? ==> r.value in nodes && r.value.node.name == name
  {
    if nodes != [] { FirstNamedIs(nodes[1..], name); }
  }

  // Then an anchor given as a node's identity matches that identity alone.
  lemma AnchorMatchesItself(nodes: seq<HostNode>, ids: set<string>, id: string, other: string)
    requires NoClash(nodes, ids) && id in ids
    ensures MatchesExplicit(nodes, id, other) <==> other == id
  {
    FirstNamedIs(nodes, id);
  }

  datatype Choosing = Choosing(me: string, x: Looking)

  datatype State = State(v: View, choosing: Option<Choosing>)

  // What evacuations, node agents and users do, one object at a time; a
  // resolve takes its lookups one by one among all that.
  datatype Step =
    | Create(pv: string) | Move(pv: string, phase: Phase) | Drop(pv: string)
    | ClaimAppears(claim: string) | ClaimGone(claim: string)
    | ZvAppears(pv: string) | ZvGone(handle: string) | PvAppears(pv: string) | PvGone(pv: string)
    | Lock(pv: string) | Look | GiveUp | Choose(t: TargetInfo, nodes: seq<HostNode>)

  // Before the commit point the PV, if there, is where it was; Completed means
  // it is at its target.
  predicate MayMove(g: Setting, v: View, pv: string, p: Phase) {
    pv in v.evacs &&
    var e, at := v.evacs[pv], VolumeNode(v, pv);
    && !Terminal(e.phase) && Rank(e.phase) < Rank(p) && !p.Transferring?
    && (p.Aborting? || p.Failed? ==> at.None? || at == Some(g.source))
    && (p.Completed? ==> Delivering(e) && e.target.Some? && (at.None? || at == Some(e.target.value.nodeId)))
  }

  predicate CanStep(g: Setting, s: State, e: Step) {
    var v := s.v;
    match e
    case Create(pv) => pv !in v.evacs && VolumeNode(v, pv) == Some(g.source)
    case Move(pv, p) => MayMove(g, v, pv, p) && !(s.choosing.Some? && s.choosing.value.me == pv)
    case Drop(pv) => pv in v.evacs && Terminal(v.evacs[pv].phase)
    case ClaimAppears(claim) => claim in g.binds && claim !in v.claims
    case ClaimGone(claim) => claim in v.claims
    // Handles are fresh: nobody has met this one yet.
    case ZvAppears(pv) =>
      pv in v.evacs && v.evacs[pv].target.Some? &&
      var handle := v.evacs[pv].target.value.newVolumeHandle;
      && handle !in v.zvs && (forall p <- v.pvs :: v.pvs[p].handle != handle)
      && (s.choosing.Some? && s.choosing.value.x.stage.AtZv? ==> s.choosing.value.x.stage.handle != handle)
    case ZvGone(handle) => handle in v.zvs
    case PvAppears(pv) =>
      HeadsFor(v, pv) &&
      var t := v.evacs[pv].target.value;
      pv !in v.pvs && (t.newVolumeHandle in v.zvs ==> v.zvs[t.newVolumeHandle].owner == t.nodeId)
    case PvGone(pv) => pv in v.pvs
    case Lock(pv) =>
      && s.choosing.None? && InGroup(g, pv) && pv in v.evacs
      && v.evacs[pv].phase.TargetSelecting? && v.evacs[pv].target.None?
    case Look => s.choosing.Some? && s.choosing.value.x.i < |g.claims|
    case GiveUp => s.choosing.Some?
    case Choose(t, nodes) =>
      && s.choosing.Some? && s.choosing.value.x.i == |g.claims| && s.choosing.value.me in v.evacs
      && t.nodeId in g.ids && NoClash(nodes, g.ids) && Followed(s.choosing.value.x.anchors, nodes, t.nodeId)
  }

  // The choice follows the anchor resolve came up with, if any.
  predicate Followed(anchors: seq<Anchor>, nodes: seq<HostNode>, id: string) {
    anchors != [] ==> exists a <- anchors :: Wins(anchors, a.node) && MatchesExplicit(nodes, a.node, id)
  }

  function Next(g: Setting, s: State, e: Step): State
    requires CanStep(g, s, e)
  {
    var v := s.v;
    match e
    case Create(pv) => s.(v := v.(evacs := v.evacs[pv := EvacView(Pending, None, None)]))
    case Move(pv, p) => s.(v := v.(evacs := v.evacs[pv := v.evacs[pv].(phase := p)]))
    case Drop(pv) => s.(v := v.(evacs := v.evacs - {pv}))
    case ClaimAppears(claim) => s.(v := v.(claims := v.claims[claim := g.binds[claim]]))
    case ClaimGone(claim) => s.(v := v.(claims := v.claims - {claim}))
    case ZvAppears(pv) =>
      var t := v.evacs[pv].target.value;
      s.(v := v.(zvs := v.zvs[t.newVolumeHandle := ZvView(t.nodeId, 0)]))
    case ZvGone(handle) => s.(v := v.(zvs := v.zvs - {handle}))
    case PvAppears(pv) => s.(v := v.(pvs := v.pvs[pv := PvView(true, v.evacs[pv].target.value.newVolumeHandle)]))
    case PvGone(pv) => s.(v := v.(pvs := v.pvs - {pv}))
    case Lock(pv) => s.(choosing := Some(Choosing(pv, START)))
    case Look =>
      var c := s.choosing.value;
      s.(choosing := Some(c.(x := LookOnce(v, c.me, g.source, g.claims, c.x))))
    case GiveUp => s.(choosing := None)
    case Choose(t, _) =>
      var me := s.choosing.value.me;
      State(v.(evacs := v.evacs[me := v.evacs[me].(target := Some(t), phase := Transferring)]), None)
  }

  // ---------------------------------------------------------------- invariant

  // Where a volume may be while it has an evacuation.
  predicate OnItsWay(g: Setting, v: View, pv: string)
    requires pv in v.evacs
  {
    var e, at := v.evacs[pv], VolumeNode(v, pv);
    && e.targetNode.None?
    && (HeadsFor(v, pv) ==> at.None? || at == Some(g.source) || at == Some(e.target.value.nodeId))
    && (e.target.None? && !Terminal(e.phase) ==> at.None? || at == Some(g.source))
  }

  // What a resolve has found so far is where everybody off the source is.
  ghost predicate FoundRight(g: Setting, v: View, x: Looking) {
    && (forall a <- x.anchors :: AllAt(g, v, a.node))
    && match x.stage
       case AtClaim => true
       case AtPv(pv) => InGroup(g, pv)
       case AtZv(pv, handle) =>
         InGroup(g, pv) && (handle in v.zvs && v.zvs[handle].owner != g.source ==> AllAt(g, v, v.zvs[handle].owner))
       case AtEvac(pv, zv) => InGroup(g, pv) && (zv.owner != g.source ==> AllAt(g, v, zv.owner))
  }

  ghost predicate Inv(g: Setting, s: State) {
    && Together(g, s.v) && BoundAsEver(g, s.v)
    && (forall p :: OffSource(g, s.v, p) ==> Heading(s.v, g.source, p).value in g.ids)
    && (forall p <- s.v.evacs :: OnItsWay(g, s.v, p))
    && (s.choosing.Some? ==>
          var c := s.choosing.value;
          && InGroup(g, c.me) && FoundRight(g, s.v, c.x)
          && c.me in s.v.evacs && s.v.evacs[c.me].target.None? && s.v.evacs[c.me].phase.TargetSelecting?)
  }

  // Everything but a choice leaves headings as they are or takes them away.
  lemma DriftShrinks(g: Setting, s: State, e: Step, p: string)
    requires (forall q <- s.v.evacs :: OnItsWay(g, s.v, q)) && CanStep(g, s, e) && !e.Choose?
    requires Heading(Next(g, s, e).v, g.source, p).Some?
    ensures Heading(s.v, g.source, p) == Heading(Next(g, s, e).v, g.source, p)
  {
    hide LookOnce, InGroup, NoClash, Followed;
  }

  lemma DriftKeepsWay(g: Setting, s: State, e: Step, p: string)
    requires (forall q <- s.v.evacs :: OnItsWay(g, s.v, q)) && CanStep(g, s, e) && !e.Choose?
    requires p in Next(g, s, e).v.evacs
    ensures OnItsWay(g, Next(g, s, e).v, p)
  {
    hide LookOnce, InGroup, NoClash, Followed;
  }

  lemma DriftOffSource(g: Setting, s: State, e: Step, p: string)
    requires (forall q <- s.v.evacs :: OnItsWay(g, s.v, q)) && CanStep(g, s, e) && !e.Choose?
    requires OffSource(g, Next(g, s, e).v, p)
    ensures OffSource(g, s.v, p) && Heading(s.v, g.source, p) == Heading(Next(g, s, e).v, g.source, p)
  {
    DriftShrinks(g, s, e, p);
    hide LookOnce, Heading, NoClash, Followed;
  }

  lemma DriftKeepsAllAt(g: Setting, s: State, e: Step, node: string)
    requires (forall q <- s.v.evacs :: OnItsWay(g, s.v, q)) && CanStep(g, s, e) && !e.Choose? && AllAt(g, s.v, node)
    ensures AllAt(g, Next(g, s, e).v, node)
  {
    hide OffSource, CanStep, Next, Heading, OnItsWay;
    forall p | OffSource(g, Next(g, s, e).v, p) ensures Heading(Next(g, s, e).v, g.source, p) == Some(node) {
      DriftOffSource(g, s, e, p);
    }
  }

  lemma DriftKeepsFound(g: Setting, s: State, e: Step, x: Looking)
    requires (forall q <- s.v.evacs :: OnItsWay(g, s.v, q)) && CanStep(g, s, e) && !e.Choose? && !e.Look?
    requires FoundRight(g, s.v, x)
    requires s.choosing.Some? ==> s.choosing.value.x == x
    ensures s.choosing.Some? ==> FoundRight(g, Next(g, s, e).v, x)
  {
    hide AllAt, OnItsWay, NoClash, Followed, LookOnce, MayMove;
    var v, t := s.v, Next(g, s, e).v;
    forall a | a in x.anchors ensures AllAt(g, t, a.node) { DriftKeepsAllAt(g, s, e, a.node); }
    match x.stage
    case AtZv(pv, handle) =>
      if handle in v.zvs && v.zvs[handle].owner != g.source { DriftKeepsAllAt(g, s, e, v.zvs[handle].owner); }
    case AtEvac(pv, zv) => if zv.owner != g.source { DriftKeepsAllAt(g, s, e, zv.owner); }
    case _ =>
  }

  lemma DriftKeepsInv(g: Setting, s: State, e: Step)
    requires Inv(g, s) && CanStep(g, s, e) && !e.Choose? && !e.Look?
    ensures Inv(g, Next(g, s, e))
  {
    var t := Next(g, s, e);
    forall p | OffSource(g, t.v, p)
      ensures OffSource(g, s.v, p) && Heading(s.v, g.source, p) == Heading(t.v, g.source, p)
    {
      DriftOffSource(g, s, e, p);
    }
    forall p | p in t.v.evacs ensures OnItsWay(g, t.v, p) { DriftKeepsWay(g, s, e, p); }
    if s.choosing.Some? { DriftKeepsFound(g, s, e, s.choosing.value.x); }
    hide OnItsWay, OffSource, Heading, NoClash, Followed, LookOnce;
  }

  // A volume met off the source is where everybody off the source is.
  lemma MetIsRight(g: Setting, v: View, pv: string)
    requires Together(g, v) && (forall p :: OffSource(g, v, p) ==> Heading(v, g.source, p).value in g.ids)
    requires OffSource(g, v, pv)
    ensures AllAt(g, v, Heading(v, g.source, pv).value)
  {
    hide Heading, InGroup;
  }

  lemma ByVolume(g: Setting, v: View, pv: string)
    requires pv in v.evacs ==> OnItsWay(g, v, pv)
    requires InGroup(g, pv) && VolumeNode(v, pv).Some? && VolumeNode(v, pv) != Some(g.source)
    ensures OffSource(g, v, pv) && Heading(v, g.source, pv) == VolumeNode(v, pv)
  {
    hide InGroup;
  }

  lemma LookKeepsFound(g: Setting, v: View, me: string, x: Looking)
    requires Together(g, v) && (forall p :: OffSource(g, v, p) ==> Heading(v, g.source, p).value in g.ids)
    requires (forall p <- v.evacs :: OnItsWay(g, v, p)) && FoundRight(g, v, x) && x.i < |g.claims| && BoundAsEver(g, v)
    ensures FoundRight(g, v, LookOnce(v, me, g.source, g.claims, x))
  {
    hide AllAt, OffSource;
    match x.stage
    case AtClaim =>
    case AtPv(pv) =>
      if VolumeNode(v, pv).Some? && VolumeNode(v, pv) != Some(g.source) {
        ByVolume(g, v, pv);
        MetIsRight(g, v, pv);
      }
    case AtZv(pv, handle) =>
    case AtEvac(pv, zv) =>
      if HeadsFor(v, pv) {
        HeadingCounts(g, v, pv);
        MetIsRight(g, v, pv);
      }
  }

  lemma HeadingCounts(g: Setting, v: View, pv: string)
    requires InGroup(g, pv) && HeadsFor(v, pv)
    ensures OffSource(g, v, pv)
  {
  }

  lemma LookKeepsInv(g: Setting, s: State)
    requires Inv(g, s) && CanStep(g, s, Look)
    ensures Inv(g, Next(g, s, Look))
  {
    hide FoundRight, OffSource, OnItsWay, LookOnce, Heading;
    LookKeepsFound(g, s.v, s.choosing.value.me, s.choosing.value.x);
  }

  // The resolve has seen nobody, and somebody is off the source all the same.
  ghost predicate Blind(g: Setting, s: State) {
    s.choosing.Some? && s.choosing.value.x.anchors == [] &&
    exists p :: p != s.choosing.value.me && OffSource(g, s.v, p)
  }

  // A choice with anything to follow goes where everybody is.
  lemma ChoiceFollows(g: Setting, s: State, e: Step)
    requires Inv(g, s) && e.Choose? && CanStep(g, s, e) && s.choosing.value.x.anchors != []
    ensures AllAt(g, s.v, e.t.nodeId)
  {
    hide AllAt, OffSource, OnItsWay, NoClash, MatchesExplicit;
    var anchors := s.choosing.value.x.anchors;
    var a :| a in anchors && Wins(anchors, a.node) && MatchesExplicit(e.nodes, a.node, e.t.nodeId);
    AllAtKnown(g, s.v, a.node);
    AnchorMatchesItself(e.nodes, g.ids, a.node, e.t.nodeId);
  }

  lemma AllAtKnown(g: Setting, v: View, node: string)
    requires AllAt(g, v, node)
    ensures node in g.ids
  {
  }

  lemma ChoosingMoves(g: Setting, s: State, e: Step, p: string)
    requires Inv(g, s) && e.Choose? && CanStep(g, s, e)
    ensures var (me, t) := (s.choosing.value.me, Next(g, s, e).v);
            && Heading(t, g.source, me) == Some(e.t.nodeId) && OffSource(g, t, me)
            && (p != me ==> Heading(t, g.source, p) == Heading(s.v, g.source, p))
            && (OffSource(g, t, p) <==> p == me || OffSource(g, s.v, p))
            && (forall q <- t.evacs :: OnItsWay(g, t, q))
  {
    hide FoundRight, NoClash, Followed;
    var me, t := s.choosing.value.me, Next(g, s, e).v;
    assert forall q :: VolumeNode(t, q) == VolumeNode(s.v, q);
    assert OnItsWay(g, s.v, me);
  }

  lemma ChoiceKeepsInv(g: Setting, s: State, e: Step)
    requires Inv(g, s) && e.Choose? && CanStep(g, s, e) && !Blind(g, s)
    ensures Inv(g, Next(g, s, e))
  {
    var me, t := s.choosing.value.me, Next(g, s, e).v;
    if s.choosing.value.x.anchors != [] { ChoiceFollows(g, s, e); }
    ChoosingMoves(g, s, e, me);
    forall p | OffSource(g, t, p) ensures Heading(t, g.source, p) == Some(e.t.nodeId) {
      ChoosingMoves(g, s, e, p);
    }
    hide OffSource, OnItsWay, Heading, NoClash, FoundRight;
  }

  function After(g: Setting, v: View, steps: seq<Step>): State {
    if steps == [] then State(v, None)
    else
      var s, e := After(g, v, steps[..|steps| - 1]), steps[|steps| - 1];
      if CanStep(g, s, e) then Next(g, s, e) else s
  }

  // Nobody chooses blindly.
  ghost predicate NeverBlind(g: Setting, v: View, steps: seq<Step>) {
    forall i | 0 <= i < |steps| ::
      var s := After(g, v, steps[..i]); steps[i].Choose? && CanStep(g, s, steps[i]) ==> !Blind(g, s)
  }

  // All steps but the last, and the last.
  lemma NeverBlindBefore(g: Setting, v: View, rest: seq<Step>, e: Step)
    ensures NeverBlind(g, v, rest + [e]) <==>
            && NeverBlind(g, v, rest)
            && (e.Choose? && CanStep(g, After(g, v, rest), e) ==> !Blind(g, After(g, v, rest)))
  {
    hide After, Blind, CanStep;
    assert (rest + [e])[..|rest|] == rest;
    assert forall i | 0 <= i < |rest| :: (rest + [e])[..i] == rest[..i];
  }

  // A group that is not split yet never is, as long as nobody chooses blindly:
  // in every interleaving of its evacuations and their lookups, all live
  // targets and landed volumes share one node.
  lemma {:induction false} GroupNeverSplits(g: Setting, v: View, steps: seq<Step>)
    requires Inv(g, State(v, None)) && NeverBlind(g, v, steps)
    ensures Inv(g, After(g, v, steps)) && Together(g, After(g, v, steps).v)
  {
    if steps != [] {
      var rest, s, e := steps[..|steps| - 1], After(g, v, steps[..|steps| - 1]), steps[|steps| - 1];
      assert steps == rest + [e];
      NeverBlindBefore(g, v, rest, e);
      GroupNeverSplits(g, v, rest);
      hide Inv, CanStep, Next, Blind, NeverBlind, Together;
      if CanStep(g, s, e) {
        if e.Choose? {
          ChoiceKeepsInv(g, s, e);
        } else if e.Look? {
          LookKeepsInv(g, s);
        } else {
          DriftKeepsInv(g, s, e);
        }
      }
    }
  }

  // Somebody else is off the source, and not on the only node there is.
  ghost predicate Avoidable(g: Setting, s: State)
    requires s.choosing.Some?
  {
    exists p, id <- g.ids ::
      p != s.choosing.value.me && OffSource(g, s.v, p) && Heading(s.v, g.source, p) != Some(id)
  }

  ghost predicate MaySplit(g: Setting, s: State) {
    exists e: Step :: e.Choose? && CanStep(g, s, e) && !Together(g, Next(g, s, e).v)
  }

  // Exactly then may it split: some admissible choice takes the volume away
  // from the others if and only if none of them was seen and the node of one
  // of them is not the only one.
  lemma BlindSplitsIff(g: Setting, s: State)
    requires Inv(g, s) && s.choosing.Some? && s.choosing.value.x.i == |g.claims|
    ensures MaySplit(g, s) <==> Blind(g, s) && Avoidable(g, s)
  {
    if MaySplit(g, s) {
      var e: Step :| e.Choose? && CanStep(g, s, e) && !Together(g, Next(g, s, e).v);
      SplitsOnlyBlind(g, s, e);
    }
    if Blind(g, s) && Avoidable(g, s) { BlindMaySplit(g, s); }
  }

  lemma SplitsOnlyBlind(g: Setting, s: State, e: Step)
    requires Inv(g, s) && e.Choose? && CanStep(g, s, e) && !Together(g, Next(g, s, e).v)
    ensures Blind(g, s) && Avoidable(g, s)
  {
    hide Next, OffSource, Heading, Blind, FoundRight, Together, NoClash, Followed;
    if !Blind(g, s) {
      ChoiceKeepsInv(g, s, e);
    }
    SplitFrom(g, s, e);
  }

  lemma BlindMaySplit(g: Setting, s: State)
    requires Inv(g, s) && Blind(g, s) && s.choosing.value.x.i == |g.claims| && Avoidable(g, s)
    ensures MaySplit(g, s)
  {
    var me := s.choosing.value.me;
    var p, id :| id in g.ids && p != me && OffSource(g, s.v, p) && Heading(s.v, g.source, p) != Some(id);
    var e := Choose(TargetInfo(id, id, "", ""), []);
    ChoosingMoves(g, s, e, p);
    hide OffSource, Heading, Inv, Next;
    assert !Together(g, Next(g, s, e).v);
  }

  lemma SplitFrom(g: Setting, s: State, e: Step)
    requires Inv(g, s) && e.Choose? && CanStep(g, s, e) && !Together(g, Next(g, s, e).v)
    ensures exists p ::
              p != s.choosing.value.me && OffSource(g, s.v, p) && Heading(s.v, g.source, p) != Some(e.t.nodeId)
  {
    var me, t := s.choosing.value.me, Next(g, s, e).v;
    var p, q :| OffSource(g, t, p) && OffSource(g, t, q) && Heading(t, g.source, p) != Heading(t, g.source, q);
    ChoosingMoves(g, s, e, p);
    ChoosingMoves(g, s, e, q);
    hide Inv, OffSource, Heading, CanStep, Next;
    if Heading(t, g.source, p) != Some(e.t.nodeId) {
      assert p != me;
    } else {
      assert q != me;
    }
  }

  // A group nobody has moved yet is whole, so it stays whole.
  lemma UnmovedNeverSplits(g: Setting, v: View, steps: seq<Step>)
    requires v.evacs == map[] && BoundAsEver(g, v) && forall h <- v.zvs :: v.zvs[h].owner == g.source
    requires NeverBlind(g, v, steps)
    ensures Together(g, After(g, v, steps).v)
  {
    assert Inv(g, State(v, None));
    GroupNeverSplits(g, v, steps);
  }

  // ------------------------------------------------------------ what is missed

  // The sibling the resolve is at.
  function SiblingAt(g: Setting, x: Looking): Option<string>
    requires x.i < |g.claims|
  {
    match x.stage
    case AtClaim => if g.claims[x.i] in g.binds then Some(g.binds[g.claims[x.i]]) else None
    case AtPv(pv) => Some(pv)
    case AtZv(pv, _) => Some(pv)
    case AtEvac(pv, _) => Some(pv)
  }

  // It is done with it, and no anchor came of it.
  predicate PassesOver(x: Looking, y: Looking) {
    y.i == x.i + 1 && y.anchors == x.anchors
  }

  // A sibling off the source is passed over exactly when its claim, PV or
  // volume is gone at that moment, as the PV is in mid-swap, or when its
  // evacuation came to an end after its volume was still seen on the source.
  lemma MissedIff(g: Setting, s: State)
    requires Inv(g, s) && s.choosing.Some? && s.choosing.value.x.i < |g.claims|
    requires var pv := SiblingAt(g, s.choosing.value.x);
             pv.Some? && pv.value != s.choosing.value.me && OffSource(g, s.v, pv.value)
    ensures var c := s.choosing.value;
            PassesOver(c.x, LookOnce(s.v, c.me, g.source, g.claims, c.x)) <==>
              match c.x.stage
              case AtClaim => g.claims[c.x.i] !in s.v.claims
              case AtPv(pv) => pv !in s.v.pvs || !s.v.pvs[pv].ours
              case AtZv(pv, handle) => handle !in s.v.zvs
              case AtEvac(pv, zv) => zv.owner == g.source && (pv !in s.v.evacs || !Delivering(s.v.evacs[pv]))
  {
    hide FoundRight, Together, InGroup;
    var pv := SiblingAt(g, s.choosing.value.x).value;
    if pv in s.v.evacs { assert OnItsWay(g, s.v, pv); }
  }

  ghost predicate Misses(g: Setting, s: State) {
    s.choosing.Some? && s.choosing.value.x.i < |g.claims| &&
    var c := s.choosing.value;
    var pv := SiblingAt(g, c.x);
    && pv.Some? && pv.value != c.me && OffSource(g, s.v, pv.value)
    && PassesOver(c.x, LookOnce(s.v, c.me, g.source, g.claims, c.x))
  }

  // No sibling off the source is ever passed over.
  ghost predicate Attentive(g: Setting, v: View, steps: seq<Step>) {
    forall i | 0 <= i < |steps| :: steps[i].Look? ==> !Misses(g, After(g, v, steps[..i]))
  }

  lemma AttentiveBefore(g: Setting, v: View, rest: seq<Step>, e: Step)
    requires Attentive(g, v, rest + [e])
    ensures Attentive(g, v, rest) && (e.Look? ==> !Misses(g, After(g, v, rest)))
  {
    hide After, Misses;
    assert (rest + [e])[..|rest|] == rest;
    assert forall i | 0 <= i < |rest| :: (rest + [e])[..i] == rest[..i] && (rest + [e])[i] == rest[i];
  }

  // Of the claims done with, every one off the source has been found.
  ghost predicate Covered(g: Setting, v: View, me: string, x: Looking) {
    && x.i <= |g.claims|
    && (x.i < |g.claims| && SiblingAt(g, x).Some? ==>
          g.claims[x.i] in g.binds && g.binds[g.claims[x.i]] == SiblingAt(g, x).value)
    && forall j | 0 <= j < x.i ::
         g.claims[j] in g.binds && g.binds[g.claims[j]] != me && OffSource(g, v, g.binds[g.claims[j]]) ==>
           x.anchors != []
  }

  lemma LookKeepsCovered(g: Setting, s: State)
    requires Inv(g, s) && CanStep(g, s, Look) && !Misses(g, s)
    requires Covered(g, s.v, s.choosing.value.me, s.choosing.value.x)
    ensures var c := s.choosing.value; Covered(g, s.v, c.me, LookOnce(s.v, c.me, g.source, g.claims, c.x))
  {
    assert BoundAsEver(g, s.v);
    hide Inv, OffSource, Judge;
  }

  lemma DriftKeepsCovered(g: Setting, s: State, e: Step)
    requires Inv(g, s) && CanStep(g, s, e) && !e.Choose? && !e.Look?
    requires s.choosing.Some? ==> Covered(g, s.v, s.choosing.value.me, s.choosing.value.x)
    ensures var t := Next(g, s, e); t.choosing.Some? ==> Covered(g, t.v, t.choosing.value.me, t.choosing.value.x)
  {
    var t := Next(g, s, e);
    assert forall p <- s.v.evacs :: OnItsWay(g, s.v, p);
    forall p | OffSource(g, t.v, p) ensures OffSource(g, s.v, p) { DriftOffSource(g, s, e, p); }
    hide OffSource, Inv, MayMove, NoClash, Followed;
  }

  lemma CoveredIsNotBlind(g: Setting, s: State, e: Step)
    requires CanStep(g, s, e) && e.Choose? && Covered(g, s.v, s.choosing.value.me, s.choosing.value.x)
    ensures !Blind(g, s)
  {
  }

  // What is true while nobody is passed over.
  ghost predicate Watchful(g: Setting, s: State) {
    Inv(g, s) && (s.choosing.Some? ==> Covered(g, s.v, s.choosing.value.me, s.choosing.value.x))
  }

  lemma StaysWatchful(g: Setting, s: State, e: Step)
    requires Watchful(g, s) && CanStep(g, s, e) && (e.Look? ==> !Misses(g, s))
    ensures Watchful(g, Next(g, s, e)) && (e.Choose? ==> !Blind(g, s))
  {
    hide Inv, Blind, Misses, Covered;
    if e.Choose? {
      CoveredIsNotBlind(g, s, e);
      ChoiceKeepsInv(g, s, e);
    } else if e.Look? {
      LookKeepsCovered(g, s);
      LookKeepsInv(g, s);
    } else {
      DriftKeepsCovered(g, s, e);
      DriftKeepsInv(g, s, e);
    }
  }

  // So a resolve that passes over nobody is never blind, whatever goes on
  // between its lookups, and the group stays whole.
  lemma {:induction false} AttentiveNeverSplits(g: Setting, v: View, steps: seq<Step>)
    requires Inv(g, State(v, None)) && Attentive(g, v, steps)
    ensures NeverBlind(g, v, steps) && Watchful(g, After(g, v, steps)) && Together(g, After(g, v, steps).v)
  {
    if steps != [] {
      var rest, s, e := steps[..|steps| - 1], After(g, v, steps[..|steps| - 1]), steps[|steps| - 1];
      assert steps == rest + [e];
      AttentiveBefore(g, v, rest, e);
      NeverBlindBefore(g, v, rest, e);
      AttentiveNeverSplits(g, v, rest);
      hide Inv, CanStep, Next, Blind, Misses, Watchful, Together, NeverBlind, Attentive;
      if CanStep(g, s, e) { StaysWatchful(g, s, e); }
    }
    WatchfulIsTogether(g, After(g, v, steps));
  }

  lemma WatchfulIsTogether(g: Setting, s: State)
    requires Watchful(g, s)
    ensures Together(g, s.v)
  {
  }

  // --------------------------------------------------- a sibling in mid-swap

  lemma Take(g: Setting, v: View, steps: seq<Step>, s: State, e: Step) returns (more: seq<Step>, t: State)
    requires s == After(g, v, steps) && CanStep(g, s, e)
    ensures more == steps + [e] && t == Next(g, s, e) == After(g, v, more)
  {
    hide CanStep, Next;
    more, t := steps + [e], Next(g, s, e);
    assert more[..|steps|] == steps;
  }

  // What one claim's lookups find when nothing happens between them.
  function SightNow(v: View, me: string, source: string, claim: string): Option<Sighting> {
    if claim !in v.claims || v.claims[claim] !in v.pvs || !v.pvs[v.claims[claim]].ours then None
    else
      var pv, handle := v.claims[claim], v.pvs[v.claims[claim]].handle;
      if handle !in v.zvs then None
      else if pv == me then Some(Joins(Member(pv, v.zvs[handle].capacity)))
      else Some(Judge(v, source, pv, v.zvs[handle]))
  }

  function Seen(g: Setting, s: State): State
    requires s.choosing.Some? && s.choosing.value.x.i < |g.claims|
  {
    var c := s.choosing.value;
    s.(choosing := Some(c.(x := With(c.x, SightNow(s.v, c.me, g.source, g.claims[c.x.i])))))
  }

  lemma SeeClaim(g: Setting, v: View, steps: seq<Step>, s: State) returns (more: seq<Step>, t: State)
    requires s == After(g, v, steps) && s.choosing.Some? && s.choosing.value.x.i < |g.claims|
    requires s.choosing.value.x.stage.AtClaim?
    ensures t == Seen(g, s) == After(g, v, more)
  {
    hide Judge, After;
    more, t := Take(g, v, steps, s, Look);
    if t.choosing.value.x.stage.AtPv? {
      more, t := Take(g, v, more, t, Look);
      if t.choosing.value.x.stage.AtZv? {
        more, t := Take(g, v, more, t, Look);
        if t.choosing.value.x.stage.AtEvac? { more, t := Take(g, v, more, t, Look); }
      }
    }
  }

  // Two volumes of one consumer, both at home.
  function Pair(source: string, p: string, q: string): View {
    View(map[p := p, q := q], map[p := PvView(true, p), q := PvView(true, q)],
         map[p := ZvView(source, 1), q := ZvView(source, 1)], map[])
  }

  function HeadingFor(x: string, handle: string): EvacView {
    EvacView(Transferring, None, Some(TargetInfo(x, x, "", handle)))
  }

  // An evacuation gets as far as the selection lock and sees nobody.
  lemma SeesNobody(g: Setting, v: View, steps: seq<Step>, u: View, me: string)
    returns (more: seq<Step>, t: State)
    requires After(g, v, steps) == State(u, None) && |g.claims| == 2
    requires me !in u.evacs && VolumeNode(u, me) == Some(g.source) && InGroup(g, me)
    requires var w := u.(evacs := u.evacs[me := EvacView(TargetSelecting, None, None)]);
             forall claim <- g.claims :: !IsAnAnchor(SightNow(w, me, g.source, claim))
    ensures After(g, v, more) == t && t.v == u.(evacs := u.evacs[me := EvacView(TargetSelecting, None, None)])
    ensures t.choosing.Some? && t.choosing.value.me == me
    ensures t.choosing.value.x.i == 2 && t.choosing.value.x.anchors == []
  {
    hide After, SightNow, InGroup;
    var s := State(u, None);
    more, s := Take(g, v, steps, s, Create(me));
    HomeStays(u, me, Pending);
    more, s := Take(g, v, more, s, Move(me, TargetSelecting));
    HomeStays(u, me, TargetSelecting);
    more, s := Take(g, v, more, s, Lock(me));
    assert s.v.evacs == u.evacs[me := EvacView(TargetSelecting, None, None)];
    assert g.claims[0] in g.claims && g.claims[1] in g.claims;
    more, s := SeeClaim(g, v, more, s);
    more, s := SeeClaim(g, v, more, s);
    t := s;
  }

  predicate IsAnAnchor(s: Option<Sighting>) {
    s.Some? && s.value.IsAt?
  }

  lemma HomeStays(u: View, me: string, p: Phase)
    ensures VolumeNode(u.(evacs := u.evacs[me := EvacView(p, None, None)]), me) == VolumeNode(u, me)
  {
  }

  // The second of them chooses first: nobody to follow.
  lemma SecondChooses(g: Setting, p: string, q: string, x: string, handle: string) returns (steps: seq<Step>)
    requires g.claims == [p, q] && g.binds == map[p := p, q := q] && x in g.ids && p != q
    ensures After(g, Pair(g.source, p, q), steps) ==
            State(Pair(g.source, p, q).(evacs := map[q := HeadingFor(x, handle)]), None)
  {
    var v, s := Pair(g.source, p, q), State(Pair(g.source, p, q), None);
    assert After(g, v, []) == s;
    assert g.claims[1] == q && q in v.claims && v.claims[q] == q;
    steps, s := SeesNobody(g, v, [], v, q);
    hide After, InGroup, SightNow;
    steps, s := Take(g, v, steps, s, Choose(TargetInfo(x, x, "", handle), []));
    assert s.v.evacs == map[q := HeadingFor(x, handle)];
  }

  // The second one in mid-swap: its old PV is deleted, the new one not there.
  function MidSwap(source: string, p: string, q: string, x: string, handle: string): View {
    View(map[p := p, q := q], map[p := PvView(true, p)], map[p := ZvView(source, 1), q := ZvView(source, 1)],
         map[q := HeadingFor(x, handle).(phase := Swapping)])
  }

  lemma SwapBegins(g: Setting, p: string, q: string, x: string, handle: string) returns (steps: seq<Step>)
    requires g.claims == [p, q] && g.binds == map[p := p, q := q] && x in g.ids && p != q
    ensures After(g, Pair(g.source, p, q), steps) == State(MidSwap(g.source, p, q, x, handle), None)
  {
    var v := Pair(g.source, p, q);
    steps := SecondChooses(g, p, q, x, handle);
    hide After;
    var s := After(g, v, steps);
    steps, s := Take(g, v, steps, s, Move(q, Swapping));
    steps, s := Take(g, v, steps, s, Step.PvGone(q));
    assert s.v.pvs == map[p := PvView(true, p)];
    assert s.v.evacs == map[q := HeadingFor(x, handle).(phase := Swapping)];
  }

  lemma NobodyInSight(g: Setting, p: string, q: string, x: string, handle: string)
    requires g.claims == [p, q] && g.binds == map[p := p, q := q] && p != q
    ensures var u := MidSwap(g.source, p, q, x, handle);
            && VolumeNode(u, p) == Some(g.source) && InGroup(g, p) && InGroup(g, q)
            && var w := u.(evacs := u.evacs[p := EvacView(TargetSelecting, None, None)]);
               forall claim <- g.claims :: !IsAnAnchor(SightNow(w, p, g.source, claim))
  {
    var u := MidSwap(g.source, p, q, x, handle);
    assert g.claims[0] == p && g.claims[1] == q && p in u.claims && q in u.claims;
  }

  lemma SplitWhen(g: Setting, v: View, p: string, q: string)
    requires InGroup(g, p) && InGroup(g, q) && HeadsFor(v, p) && HeadsFor(v, q)
    requires v.evacs[p].target.value.nodeId != v.evacs[q].target.value.nodeId
    ensures !Together(g, v)
  {
    assert OffSource(g, v, p) && OffSource(g, v, q);
  }

  // Then the first finds nobody either, and goes elsewhere: the group is split.
  lemma MidSwapSplits(g: Setting, p: string, q: string, x: string, y: string, handle: string) returns (steps: seq<Step>)
    requires g.claims == [p, q] && g.binds == map[p := p, q := q] && {x, y} <= g.ids && p != q && x != y
    ensures !Together(g, After(g, Pair(g.source, p, q), steps).v)
  {
    var v, u := Pair(g.source, p, q), MidSwap(g.source, p, q, x, handle);
    steps := SwapBegins(g, p, q, x, handle);
    NobodyInSight(g, p, q, x, handle);
    hide After, Pair, SightNow, InGroup, VolumeNode, Together;
    var s;
    steps, s := SeesNobody(g, v, steps, u, p);
    steps, s := Take(g, v, steps, s, Choose(TargetInfo(y, y, "", ""), []));
    SplitWhen(g, s.v, p, q);
  }

  // Resolve's anchor handed to SelectTarget is what a choice needs: the answer
  // is on a node the anchor matches.
  lemma AnswersFollow(
    anchors: seq<Anchor>, ids: set<string>, inp: Input, nodes: seq<HostNode>, evacs: seq<Evac>,
    admits: HostNode -> bool,
    zfs: seq<ZfsNode>, t: TargetInfo)
    requires BestFit(inp, nodes, evacs, admits, zfs, t) && inp.targetNode.None?
    requires anchors != [] ==> exists a <- anchors :: Wins(anchors, a.node) && inp.anchor == Some(a.node)
    requires forall zn <- zfs :: zn.name in ids
    ensures t.nodeId in ids && Followed(anchors, nodes, t.nodeId)
  {
  }
}
