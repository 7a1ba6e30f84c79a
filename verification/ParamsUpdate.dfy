// update_params (src/controller/mod.rs): an optimistic read-modify-write loop
// against one shared object. First the loop as it runs among rivals, then the
// system of any number of such loops interleaved call by call.
module ParamsUpdate {
  import opened Common
  import opened AttachLock

  datatype Op = LockOp(key: string, mode: Mode) | UnlockOp(key: string)

  function Mutated(s: ParamsSpec, op: Op): ParamsSpec {
    match op
    case LockOp(key, mode) => Locked(s, key, mode)
    case UnlockOp(key) => Unlocked(s, key)
  }

  // An operation on one key leaves every other where it is.
  lemma OthersUntouched(s: ParamsSpec, op: Op, key: string)
    requires op.key != key
    ensures forall m :: HeldIn(Mutated(s, op), key, m) == HeldIn(s, key, m)
    ensures Free(Mutated(s, op), key) == Free(s, key)
  {
    LockMembership(s, op.key, if op.LockOp? then op.mode else WhenIdle, key);
  }

  // The lists after a sequence of operations, one at a time, from none.
  function Replay(ops: seq<Op>): ParamsSpec {
    if ops == [] then NO_LOCKS else Mutated(Replay(ops[..|ops| - 1]), ops[|ops| - 1])
  }

  lemma ReplaySnoc(ops: seq<Op>, op: Op)
    ensures Replay(ops + [op]) == Mutated(Replay(ops), op)
  {
    assert (ops + [op])[..|ops|] == ops;
  }

  // From empty lists a key occurs at most once across both, whatever happened.
  lemma {:induction false} KeysStayUnique(ops: seq<Op>, key: string)
    ensures Count(Replay(ops).pvcKeys, key) + Count(Replay(ops).claimableKeys, key) <= 1
  {
    if ops != [] {
      var s, op := Replay(ops[..|ops| - 1]), ops[|ops| - 1];
      KeysStayUnique(ops[..|ops| - 1], key);
      WithoutCount(s.pvcKeys, op.key, key);
      WithoutCount(s.claimableKeys, op.key, key);
      CountZero(s.pvcKeys, key);
      CountZero(s.claimableKeys, key);
      CountAppend(s.pvcKeys, [op.key], key);
      CountAppend(s.claimableKeys, [op.key], key);
      assert Count([op.key], key) <= 1;
      assert [op.key][1..] == [];
    }
  }

  // The last operation on a key decides where it is: locked under one mode, in
  // exactly that mode's list; unlocked or never touched, in neither.
  lemma {:induction false} LastOpDecides(ops: seq<Op>, key: string)
    ensures match LastOn(ops, key)
            case Some(LockOp(_, mode)) => HeldIn(Replay(ops), key, mode)
            case _ => Free(Replay(ops), key)
  {
    if ops != [] {
      var op := ops[|ops| - 1];
      LastOpDecides(ops[..|ops| - 1], key);
      if op.key != key {
        LockMembership(Replay(ops[..|ops| - 1]), op.key, if op.LockOp? then op.mode else WhenIdle, key);
      }
    }
  }

  function LastOn(ops: seq<Op>, key: string): Option<Op> {
    if ops == [] then None
    else if ops[|ops| - 1].key == key then Some(ops[|ops| - 1])
    else LastOn(ops[..|ops| - 1], key)
  }

  // ------------------------------------------------- one caller among rivals

  datatype Object = Object(version: nat, spec: ParamsSpec)

  function SpecOf(o: Option<Object>): ParamsSpec {
    match o
    case Some(obj) => obj.spec
    case None => NO_LOCKS
  }

  // Who performed an operation that took effect.
  datatype Entry = Mine(op: Op) | Rival(op: Op)

  function OpsOf(order: seq<Entry>): seq<Op> {
    seq(|order|, i requires 0 <= i < |order| => order[i].op)
  }

  function MineOf(order: seq<Entry>): seq<Op> {
    if order == [] then []
    else
      var before := MineOf(order[..|order| - 1]);
      var last := order[|order| - 1];
      if last.Mine? then before + [last.op] else before
  }

  // What becomes of a call on its way: answered, lost before it got there, or
  // its answer lost.
  datatype Wire = Answered | Unsent | Unanswered

  // Around one of our calls: the rival updates that land before it, and the
  // wire.
  datatype Gust = Gust(ops: seq<Op>, wire: Wire)

  // What happens around the k-th call from now; past the end, nothing.
  function GustAt(gusts: seq<Gust>, k: nat): Gust {
    if k < |gusts| then gusts[k] else Gust([], Answered)
  }

  // What is left after n calls.
  ghost predicate LeftOf(left: seq<Gust>, gusts: seq<Gust>, n: nat) {
    forall k: nat :: GustAt(left, k) == GustAt(gusts, k + n)
  }

  lemma LeftLater(last: seq<Gust>, left: seq<Gust>, gusts: seq<Gust>, n: nat, m: nat)
    requires LeftOf(left, gusts, n) && LeftOf(last, left, m)
    ensures LeftOf(last, gusts, n + m)
  {
    hide GustAt;
    forall k: nat ensures GustAt(last, k) == GustAt(gusts, k + (n + m)) {
      assert GustAt(last, k) == GustAt(left, k + m) == GustAt(gusts, k + m + n);
    }
  }

  lemma AllLeft(gusts: seq<Gust>)
    ensures LeftOf(gusts, gusts, 0)
  {
  }

  // What rivals do up to and around the first k calls.
  function Rivals(gusts: seq<Gust>, k: nat): seq<Op> {
    if k == 0 then [] else Rivals(gusts, k - 1) + GustAt(gusts, k - 1).ops
  }

  // What the t-th try reads, if nothing of ours has taken effect since past.
  function ReadAt(past: seq<Op>, gusts: seq<Gust>, t: nat): ParamsSpec {
    Replay(past + Rivals(gusts, 2 * t + 1))
  }

  // It reads something to change and, before its write is there, a rival has
  // written.
  predicate Overtaken(past: seq<Op>, op: Op, gusts: seq<Gust>, t: nat) {
    var (get, put, was) := (GustAt(gusts, 2 * t), GustAt(gusts, 2 * t + 1), ReadAt(past, gusts, t));
    get.wire.Answered? && Mutated(was, op) != was && put.wire.Answered? && put.ops != []
  }

  // That happens to all of the first n tries.
  ghost predicate AllOvertaken(past: seq<Op>, op: Op, gusts: seq<Gust>, n: nat) {
    forall t: nat | t < n :: Overtaken(past, op, gusts, t)
  }

  // It reads that there is nothing to do, or writes undisturbed and hears of it.
  predicate Succeeds(past: seq<Op>, op: Op, gusts: seq<Gust>, t: nat) {
    var (get, put, was) := (GustAt(gusts, 2 * t), GustAt(gusts, 2 * t + 1), ReadAt(past, gusts, t));
    get.wire.Answered? && (Mutated(was, op) == was || (put.wire.Answered? && put.ops == []))
  }

  // The API server's copy, with what happens around each of our calls given in
  // advance.
  class ParamsStore {
    var obj: Option<Object>
    var nextVersion: nat
    var gusts: seq<Gust>
    ghost var order: seq<Entry>

    ghost predicate Valid()
      reads this
    {
      && (obj.Some? ==> obj.value.version < nextVersion)
      && SpecOf(obj) == Replay(OpsOf(order))
    }

    constructor (gusts: seq<Gust>)
      ensures Valid() && order == [] && this.gusts == gusts
    {
      obj, nextVersion, this.gusts, order := None, 0, gusts, [];
    }

    method Write(spec: ParamsSpec, ghost e: Entry)
      requires Valid() && spec == Mutated(SpecOf(obj), e.op)
      modifies this`obj, this`nextVersion, this`order
      ensures Valid() && order == old(order) + [e]
      ensures obj == Some(Object(old(nextVersion), spec)) && nextVersion == old(nextVersion) + 1
    {
      ReplaySnoc(OpsOf(order), e.op);
      assert OpsOf(order + [e]) == OpsOf(order) + [e.op];
      obj := Some(Object(nextVersion, spec));
      nextVersion := nextVersion + 1;
      order := order + [e];
    }

    // An operation that changes nothing takes effect where it was read.
    ghost method NoteNoOp(op: Op)
      requires Valid() && Mutated(SpecOf(obj), op) == SpecOf(obj)
      modifies this`order
      ensures Valid() && order == old(order) + [Mine(op)]
      ensures MineOf(order) == MineOf(old(order)) + [op]
    {
      ReplaySnoc(OpsOf(order), op);
      assert OpsOf(order + [Mine(op)]) == OpsOf(order) + [op];
      assert (order + [Mine(op)])[..|order|] == order;
      order := order + [Mine(op)];
    }

    // The gusts move on by one.
    twostate predicate Passed()
      reads this
    {
      LeftOf(gusts, old(gusts), 1)
    }

    // Only rivals did anything, and only those of the first gust.
    twostate predicate RivalsOnly()
      reads this
    {
      && old(order) <= order && MineOf(order) == MineOf(old(order))
      && OpsOf(order) == OpsOf(old(order)) + GustAt(old(gusts), 0).ops
    }

    method RivalWrite(op: Op)
      requires Valid()
      modifies this`obj, this`nextVersion, this`order
      ensures Valid() && order == old(order) + [Rival(op)]
      ensures MineOf(order) == MineOf(old(order)) && OpsOf(order) == OpsOf(old(order)) + [op]
      ensures obj.Some? && obj.value.version >= old(nextVersion) && nextVersion >= old(nextVersion)
    {
      assert (order + [Rival(op)])[..|order|] == order;
      Write(Mutated(SpecOf(obj), op), Rival(op));
      assert OpsOf(order) == OpsOf(old(order)) + [op];
    }

    method RivalsWrite(ops: seq<Op>)
      requires Valid()
      modifies this`obj, this`nextVersion, this`order
      ensures Valid() && old(order) <= order
      ensures MineOf(order) == MineOf(old(order)) && OpsOf(order) == OpsOf(old(order)) + ops
      ensures if ops == [] then obj == old(obj) && nextVersion == old(nextVersion)
              else obj.Some? && obj.value.version >= old(nextVersion)
    {
      hide Replay, MineOf, OpsOf, Mutated;
      assert OpsOf(order) + [] == OpsOf(order);
      for i := 0 to |ops|
        invariant Valid() && old(order) <= order
        invariant MineOf(order) == MineOf(old(order)) && OpsOf(order) == OpsOf(old(order)) + ops[..i]
        invariant nextVersion >= old(nextVersion)
        invariant if i == 0 then obj == old(obj) && nextVersion == old(nextVersion)
                  else obj.Some? && obj.value.version >= old(nextVersion)
      {
        RivalWrite(ops[i]);
        assert ops[..i + 1] == ops[..i] + [ops[i]];
      }
      assert ops[..|ops|] == ops;
    }

    method Interfere() returns (wire: Wire)
      requires Valid()
      modifies this
      ensures Valid() && Passed() && RivalsOnly() && wire == GustAt(old(gusts), 0).wire
      ensures if GustAt(old(gusts), 0).ops == [] then obj == old(obj) && nextVersion == old(nextVersion)
              else obj.Some? && obj.value.version >= old(nextVersion)
    {
      hide Replay, MineOf, OpsOf, Mutated;
      assert OpsOf(order) + [] == OpsOf(order);
      wire := Answered;
      if gusts == [] { return; }
      RivalsWrite(gusts[0].ops);
      wire, gusts := gusts[0].wire, gusts[1..];
    }

    method Get() returns (seen: Result<Option<Object>>)
      requires Valid()
      modifies this
      ensures Valid() && Passed() && RivalsOnly()
      ensures seen == if GustAt(old(gusts), 0).wire.Answered? then Ok(obj) else Err(Transport)
    {
      var wire := Interfere();
      seen := if wire.Answered? then Ok(obj) else Err(Transport);
    }

    // Create (expecting nothing) or replace (expecting the version read):
    // refused with a conflict when the object is no longer what was read.
    method Put(seen: Option<Object>, spec: ParamsSpec, ghost op: Op) returns (r: Result<()>)
      requires Valid() && seen == obj && spec == Mutated(SpecOf(seen), op)
      modifies this
      ensures Valid() && old(order) <= order && Passed()
      ensures var gust := GustAt(old(gusts), 0);
              r == if !gust.wire.Answered? then Err(Transport) else if gust.ops == [] then Ok(()) else Err(Rejected)
      ensures r.Ok? ==>
                && MineOf(order) == MineOf(old(order)) + [op] && order != [] && order[|order| - 1] == Mine(op)
                && SpecOf(obj) == spec
      ensures r == Err(Rejected) ==> RivalsOnly()
      ensures MineOf(order) == MineOf(old(order)) || MineOf(order) == MineOf(old(order)) + [op]
    {
      var wire := Interfere();
      if wire.Unsent? { return Err(Transport); }
      if SameVersion(seen, obj) {
        assert (order + [Mine(op)])[..|order|] == order;
        Write(spec, Mine(op));
        r := Ok(());
      } else {
        r := Err(Rejected);
      }
      if wire.Unanswered? { r := Err(Transport); }
    }
  }

  method MutateInPlace(p: EvacuationParams, op: Op) returns (changed: bool)
    modifies p
    ensures p.Spec() == Mutated(old(p.Spec()), op)
    ensures changed <==> p.Spec() != old(p.Spec())
  {
    match op
    case LockOp(key, mode) => changed := p.Lock(key, mode);
    case UnlockOp(key) => changed := p.Unlock(key);
  }

  lemma RivalsNext(past: seq<Op>, gusts: seq<Gust>, k: nat)
    ensures past + Rivals(gusts, k + 1) == past + Rivals(gusts, k) + GustAt(gusts, k).ops
  {
  }

  lemma RivalsTwice(past: seq<Op>, gusts: seq<Gust>)
    ensures past + Rivals(gusts, 1) == past + GustAt(gusts, 0).ops
    ensures past + Rivals(gusts, 2) == past + GustAt(gusts, 0).ops + GustAt(gusts, 1).ops
  {
    assert Rivals(gusts, 0) == [];
    assert Rivals(gusts, 1) == GustAt(gusts, 0).ops;
    assert Rivals(gusts, 2) == GustAt(gusts, 0).ops + GustAt(gusts, 1).ops;
  }

  lemma SameTry(past: seq<Op>, op: Op, gusts: seq<Gust>, t: nat, now: seq<Op>, left: seq<Gust>)
    requires now + Rivals(left, 1) == past + Rivals(gusts, 2 * t + 1)
    requires GustAt(left, 0) == GustAt(gusts, 2 * t) && GustAt(left, 1) == GustAt(gusts, 2 * t + 1)
    ensures Overtaken(now, op, left, 0) <==> Overtaken(past, op, gusts, t)
    ensures Succeeds(now, op, left, 0) <==> Succeeds(past, op, gusts, t)
  {
    hide Rivals, GustAt, Replay, Mutated;
  }

  // The t-th try is the first one of what is left by then.
  lemma LaterTry(past: seq<Op>, op: Op, gusts: seq<Gust>, t: nat, now: seq<Op>, left: seq<Gust>)
    requires now == past + Rivals(gusts, 2 * t) && LeftOf(left, gusts, 2 * t)
    ensures GustAt(left, 0) == GustAt(gusts, 2 * t) && GustAt(left, 1) == GustAt(gusts, 2 * t + 1)
    ensures Overtaken(now, op, left, 0) <==> Overtaken(past, op, gusts, t)
    ensures Succeeds(now, op, left, 0) <==> Succeeds(past, op, gusts, t)
    ensures now + Rivals(left, 2) == past + Rivals(gusts, 2 * (t + 1))
  {
    assert GustAt(left, 0) == GustAt(gusts, 0 + 2 * t) && GustAt(left, 1) == GustAt(gusts, 1 + 2 * t);
    hide Rivals, GustAt, Overtaken, Succeeds;
    RivalsNext(past, gusts, 2 * t);
    RivalsNext(past, gusts, 2 * t + 1);
    RivalsTwice(now, left);
    SameTry(past, op, gusts, t, now, left);
  }

  // Ok exactly when one of eight tries succeeds and rivals overtook all before
  // it, a conflict exactly when they overtook all eight, anything else only
  // because a call or its answer was lost. So left alone it is Ok.
  ghost predicate Outcome(past: seq<Op>, op: Op, gusts: seq<Gust>, r: Result<()>) {
    && (r.Ok? <==> exists t: nat | t < 8 :: Succeeds(past, op, gusts, t) && AllOvertaken(past, op, gusts, t))
    && (r == Err(Rejected) <==> AllOvertaken(past, op, gusts, 8))
    && (r.Err? && r != Err(Rejected) ==>
          r.fault.Transport? && exists k: nat | k < 16 :: !GustAt(gusts, k).wire.Answered?)
    && (gusts == [] ==> r.Ok?)
  }

  // Where an operation puts its key.
  predicate KeyIsPut(s: ParamsSpec, op: Op) {
    match op
    case LockOp(key, WhenIdle) => key in s.pvcKeys && key !in s.claimableKeys
    case LockOp(key, WhenClaimed) => key in s.claimableKeys && key !in s.pvcKeys
    case UnlockOp(key) => key !in s.pvcKeys && key !in s.claimableKeys
  }

  lemma MutatedKey(s: ParamsSpec, op: Op)
    ensures KeyIsPut(Mutated(s, op), op)
  {
    LockMembership(s, op.key, if op.LockOp? then op.mode else WhenIdle, op.key + "x");
  }

  // Between the entries was and now, after which the object says s: after Ok the
  // operation has taken effect once, last of all, and its key is where it puts
  // it; after a conflict it has not; otherwise at most once.
  ghost predicate Took(was: seq<Entry>, now: seq<Entry>, s: ParamsSpec, op: Op, r: Result<()>) {
    && was <= now && (MineOf(now) == MineOf(was) || MineOf(now) == MineOf(was) + [op])
    && (r == Err(Rejected) ==> MineOf(now) == MineOf(was))
    && (r.Ok? ==>
          MineOf(now) == MineOf(was) + [op] && now != [] && now[|now| - 1] == Mine(op) && KeyIsPut(s, op))
  }

  lemma TookLater(
    was: seq<Entry>, so: seq<Entry>, now: seq<Entry>, s: ParamsSpec, s': ParamsSpec, op: Op, r: Result<()>)
    requires Took(was, so, s, op, Err(Rejected)) && Took(so, now, s', op, r)
    ensures Took(was, now, s', op, r)
  {
  }

  // One round: read, mutate, and write back what was read, if that changes it.
  method TryUpdate(store: ParamsStore, op: Op) returns (r: Result<()>)
    requires store.Valid()
    modifies store
    ensures store.Valid() && old(store.order) <= store.order
    ensures r.Ok? <==> Succeeds(OpsOf(old(store.order)), op, old(store.gusts), 0)
    ensures r == Err(Rejected) <==> Overtaken(OpsOf(old(store.order)), op, old(store.gusts), 0)
    ensures r == Err(Transport) ==>
              !GustAt(old(store.gusts), 0).wire.Answered? || !GustAt(old(store.gusts), 1).wire.Answered?
    ensures r.Err? ==> r.fault.Rejected? || r.fault.Transport?
    ensures Took(old(store.order), store.order, SpecOf(store.obj), op, r)
    ensures r == Err(Rejected) ==>
              && OpsOf(store.order) == OpsOf(old(store.order)) + Rivals(old(store.gusts), 2)
              && LeftOf(store.gusts, old(store.gusts), 2)
  {
    ghost var past, gusts := OpsOf(store.order), store.gusts;
    RivalsTwice(past, gusts);
    hide Replay, MineOf, OpsOf, Mutated, KeyIsPut, Rivals, GustAt;
    var seen := store.Get();
    if seen.IsFailure() { return seen.PropagateFailure(); }
    assert SpecOf(store.obj) == ReadAt(past, gusts, 0);
    assert GustAt(store.gusts, 0) == GustAt(gusts, 0 + 1);
    ghost var left := store.gusts;
    hide LeftOf;
    var params := new EvacuationParams(SpecOf(seen.value));
    var changed := MutateInPlace(params, op);
    MutatedKey(SpecOf(store.obj), op);
    if !changed {
      store.NoteNoOp(op);
      return Ok(());
    }
    r := store.Put(seen.value, params.Spec(), op);
    LeftLater(store.gusts, left, gusts, 1, 1);
  }

  // Ok means the operation took effect exactly once, atomically, at some
  // point between call and return, when the key was where the operation puts
  // it; a persistent conflict means it never did; a call that got lost, that it
  // did at most once.
  method UpdateParams(store: ParamsStore, op: Op) returns (r: Result<()>)
    requires store.Valid()
    modifies store
    ensures store.Valid()
    ensures Outcome(OpsOf(old(store.order)), op, old(store.gusts), r)
    ensures Took(old(store.order), store.order, SpecOf(store.obj), op, r)
  {
    ghost var order, past, gusts := store.order, OpsOf(store.order), store.gusts;
    BeforeTrying(past, op, gusts);
    hide Replay, MineOf, OpsOf, Mutated, Overtaken, Succeeds, GustAt, Rivals, LeftOf, Trying, Outcome, Took,
      ParamsStore.Valid;
    for tries := 0 to 8
      invariant store.Valid() && Took(order, store.order, SpecOf(store.obj), op, Err(Rejected))
      invariant Trying(past, op, gusts, tries, OpsOf(store.order), store.gusts)
    {
      ghost var so, now, left := store.order, OpsOf(store.order), store.gusts;
      ghost var spec := SpecOf(store.obj);
      r := TryUpdate(store, op);
      TookLater(order, so, store.order, spec, SpecOf(store.obj), op, r);
      if r == Err(Rejected) {
        TryAgain(past, op, gusts, tries, now, left, store.gusts);
      } else {
        TryDecides(past, op, gusts, tries, now, left, r);
        return;
      }
    }
    NoneSucceeds(past, op, gusts, OpsOf(store.order), store.gusts);
    return Err(Rejected);
  }

  // Before the n-th try, with all others overtaken.
  ghost predicate Trying(past: seq<Op>, op: Op, gusts: seq<Gust>, n: nat, now: seq<Op>, left: seq<Gust>) {
    LeftOf(left, gusts, 2 * n) && now == past + Rivals(gusts, 2 * n) && AllOvertaken(past, op, gusts, n)
  }

  lemma BeforeTrying(past: seq<Op>, op: Op, gusts: seq<Gust>)
    ensures Trying(past, op, gusts, 0, past, gusts)
  {
    AllLeft(gusts);
    assert past + Rivals(gusts, 0) == past;
  }

  lemma TryAgain(
    past: seq<Op>, op: Op, gusts: seq<Gust>, n: nat, now: seq<Op>, left: seq<Gust>, last: seq<Gust>)
    requires Trying(past, op, gusts, n, now, left) && Overtaken(now, op, left, 0) && LeftOf(last, left, 2)
    ensures Trying(past, op, gusts, n + 1, now + Rivals(left, 2), last)
  {
    LaterTry(past, op, gusts, n, now, left);
    LeftLater(last, left, gusts, 2 * n, 2);
    hide Overtaken, LeftOf, Rivals;
  }

  lemma NotBoth(past: seq<Op>, op: Op, gusts: seq<Gust>, t: nat)
    ensures !(Overtaken(past, op, gusts, t) && Succeeds(past, op, gusts, t))
  {
  }

  // The first try that is not overtaken decides.
  lemma TryDecides(
    past: seq<Op>, op: Op, gusts: seq<Gust>, n: nat, now: seq<Op>, left: seq<Gust>, r: Result<()>)
    requires n < 8 && Trying(past, op, gusts, n, now, left) && !Overtaken(now, op, left, 0)
    requires (r.Ok? <==> Succeeds(now, op, left, 0)) && (r.Err? ==> r.fault.Transport?)
    requires r.Err? ==> !GustAt(left, 0).wire.Answered? || !GustAt(left, 1).wire.Answered?
    ensures Outcome(past, op, gusts, r)
  {
    LaterTry(past, op, gusts, n, now, left);
    QuietSucceeds(past, op, gusts);
    hide Overtaken, Succeeds, GustAt, LeftOf, Rivals;
    forall t: nat | t < 8 && Succeeds(past, op, gusts, t) && AllOvertaken(past, op, gusts, t) ensures t == n {
      if t < n { NotBoth(past, op, gusts, t); }
    }
  }

  lemma NoneSucceeds(past: seq<Op>, op: Op, gusts: seq<Gust>, now: seq<Op>, left: seq<Gust>)
    requires Trying(past, op, gusts, 8, now, left)
    ensures Outcome(past, op, gusts, Err(Rejected))
  {
    QuietSucceeds(past, op, gusts);
    hide Overtaken, Succeeds, LeftOf, Rivals;
    forall t: nat | t < 8 ensures !Succeeds(past, op, gusts, t) { NotBoth(past, op, gusts, t); }
  }

  lemma QuietSucceeds(past: seq<Op>, op: Op, gusts: seq<Gust>)
    ensures gusts == [] ==> Succeeds(past, op, gusts, 0) && !Overtaken(past, op, gusts, 0)
  {
  }

  // ------------------------------------------------ any number of callers

  // One caller's position: about to read, holding what it read (and about to
  // write), or returned.
  datatype Caller =
    | Ready(op: Op, tries: nat)
    | Holding(op: Op, tries: nat, seen: Option<Object>)
    | Returned(op: Op, end: End)

  // Ok; an error after which nothing has happened; or an error although the
  // write has taken effect, its answer lost.
  datatype End = Done | Refused | Unheard

  // order lists the callers whose operation took effect, in effect order.
  datatype System = System(obj: Option<Object>, nextVersion: nat, callers: map<nat, Caller>, order: seq<nat>)

  // The next call of a caller, one whose answer is lost, or no more of them.
  datatype Step = Advance(id: nat) | LoseAnswer(id: nat) | GiveUp(id: nat)

  const MAX_TRIES: nat := 8

  function TakesEffect(s: System, id: nat, seen: Option<Object>, end: End): System
    requires id in s.callers
  {
    var op := s.callers[id].op;
    System(Some(Object(s.nextVersion, Mutated(SpecOf(seen), op))), s.nextVersion + 1,
           s.callers[id := Returned(op, end)], s.order + [id])
  }

  function Next(s: System, step: Step): System {
    if step.id !in s.callers then s
    else
      var c := s.callers[step.id];
      match (step, c)
      case (_, Returned(_, _)) => s
      case (GiveUp(id), _) => s.(callers := s.callers[id := Returned(c.op, Refused)])
      case (LoseAnswer(id), Ready(op, _)) => s.(callers := s.callers[id := Returned(op, Refused)])
      case (LoseAnswer(id), Holding(op, _, seen)) =>
        if SameVersion(seen, s.obj) then TakesEffect(s, id, seen, Unheard)
        else s.(callers := s.callers[id := Returned(op, Refused)])
      case (Advance(id), Ready(op, tries)) =>
        if tries >= MAX_TRIES then s.(callers := s.callers[id := Returned(op, Refused)])
        else if Mutated(SpecOf(s.obj), op) == SpecOf(s.obj)
        then s.(callers := s.callers[id := Returned(op, Done)], order := s.order + [id])
        else s.(callers := s.callers[id := Holding(op, tries, s.obj)])
      case (Advance(id), Holding(op, tries, seen)) =>
        if SameVersion(seen, s.obj) then TakesEffect(s, id, seen, Done)
        else s.(callers := s.callers[id := Ready(op, tries + 1)])
  }

  predicate SameVersion(a: Option<Object>, b: Option<Object>) {
    match (a, b)
    case (None, None) => true
    case (Some(x), Some(y)) => x.version == y.version
    case _ => false
  }

  function RunSystem(s: System, steps: seq<Step>): System {
    if steps == [] then s else Next(RunSystem(s, steps[..|steps| - 1]), steps[|steps| - 1])
  }

  predicate Starting(s: System) {
    s.obj.None? && s.order == [] && forall id <- s.callers :: s.callers[id].Ready?
  }

  function OrderedOps(s: System): seq<Op>
    requires forall id <- s.order :: id in s.callers
  {
    seq(|s.order|, i requires 0 <= i < |s.order| => s.callers[s.order[i]].op)
  }

  ghost predicate Linearized(s: System) {
    && (forall id <- s.order :: id in s.callers)
    && (forall id <- s.callers :: id in s.order <==> s.callers[id].Returned? && !s.callers[id].end.Refused?)
    && (forall i, j | 0 <= i < j < |s.order| :: s.order[i] != s.order[j])
    && SpecOf(s.obj) == Replay(OrderedOps(s))
  }

  ghost predicate SystemInv(s: System) {
    && Linearized(s)
    && (s.obj.Some? ==> s.obj.value.version < s.nextVersion)
    && (forall id <- s.callers ::
          var c := s.callers[id];
          c.Holding? && c.seen.Some? ==>
            && c.seen.value.version < s.nextVersion
            && (SameVersion(c.seen, s.obj) ==> c.seen == s.obj))
  }

  // A caller moves without an effect: it reads, conflicts or gives up.
  lemma MoveKeepsInv(s: System, id: nat, c: Caller)
    requires SystemInv(s) && id in s.callers && !s.callers[id].Returned?
    requires c.op == s.callers[id].op && (c.Returned? ==> c.end.Refused?)
    requires c.Holding? ==> c.seen == s.obj
    ensures SystemInv(s.(callers := s.callers[id := c]))
  {
    var t := s.(callers := s.callers[id := c]);
    assert id !in s.order;
    assert OrderedOps(t) == OrderedOps(s);
  }

  // A caller's operation takes effect, as a write of a new version or as a
  // no-op on the current one.
  lemma EffectKeepsInv(s: System, id: nat, obj: Option<Object>, nextVersion: nat, end: End)
    requires !end.Refused?
    requires SystemInv(s) && id in s.callers && !s.callers[id].Returned?
    requires SpecOf(obj) == Mutated(SpecOf(s.obj), s.callers[id].op)
    requires || (obj == s.obj && nextVersion == s.nextVersion)
             || (obj.Some? && obj.value.version == s.nextVersion && nextVersion == s.nextVersion + 1)
    ensures SystemInv(System(obj, nextVersion, s.callers[id := Returned(s.callers[id].op, end)], s.order + [id]))
  {
    var op := s.callers[id].op;
    var t := System(obj, nextVersion, s.callers[id := Returned(op, end)], s.order + [id]);
    assert id !in s.order;
    assert OrderedOps(t) == OrderedOps(s) + [op];
    ReplaySnoc(OrderedOps(s), op);
    assert id == t.order[|s.order|];
    forall k <- t.callers ensures k in t.order <==> t.callers[k].Returned? && !t.callers[k].end.Refused? {
      assert k in t.order <==> k in s.order || k == id;
    }
  }

  lemma NextKeepsInv(s: System, step: Step)
    requires SystemInv(s)
    ensures SystemInv(Next(s, step))
  {
    if step.id in s.callers && !s.callers[step.id].Returned? {
      var id, c := step.id, s.callers[step.id];
      var t := Next(s, step);
      if t.order == s.order {
        MoveKeepsInv(s, id, t.callers[id]);
      } else {
        EffectKeepsInv(s, id, t.obj, t.nextVersion, t.callers[id].end);
      }
    }
  }

  // Any interleaving of any number of callers equals a sequential order of the
  // calls that returned Ok and of those whose write went unheard: each of them
  // is in the order exactly once, nobody else is, and the object is that
  // order's replay.
  lemma {:induction false} CallsLinearize(s: System, steps: seq<Step>)
    requires Starting(s)
    ensures Linearized(RunSystem(s, steps))
  {
    RunKeepsInv(s, steps);
  }

  lemma {:induction false} RunKeepsInv(s: System, steps: seq<Step>)
    requires Starting(s)
    ensures SystemInv(RunSystem(s, steps))
  {
    if steps == [] {
      assert OrderedOps(s) == [];
    } else {
      RunKeepsInv(s, steps[..|steps| - 1]);
      NextKeepsInv(RunSystem(s, steps[..|steps| - 1]), steps[|steps| - 1]);
    }
  }

  // And a caller left alone for two of its calls gets through.
  lemma LeftAloneSucceeds(s: System, id: nat)
    requires SystemInv(s) && id in s.callers && s.callers[id].Ready? && s.callers[id].tries < MAX_TRIES
    ensures var (op, t) := (s.callers[id].op, Next(Next(s, Advance(id)), Advance(id)));
            t.callers[id] == Returned(op, Done) && SpecOf(t.obj) == Mutated(SpecOf(s.obj), op)
  {
  }

  // So under any interleaving a key never occurs twice across the two lists.
  lemma NoKeyTwice(s: System, steps: seq<Step>, key: string)
    requires Starting(s)
    ensures var spec := SpecOf(RunSystem(s, steps).obj);
            Count(spec.pvcKeys, key) + Count(spec.claimableKeys, key) <= 1
  {
    CallsLinearize(s, steps);
    KeysStayUnique(OrderedOps(RunSystem(s, steps)), key);
  }
}
