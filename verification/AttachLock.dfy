// The attach lock: the singleton params object listing the claims under
// evacuation, and the optimistic read-modify-write loop that maintains it
// (src/crd/zfs_evacuation.rs, src/controller/mod.rs).
module AttachLock {
  datatype Mode = WhenIdle | WhenClaimed

  datatype ParamsSpec = ParamsSpec(pvcKeys: seq<string>, claimableKeys: seq<string>)

  const NO_LOCKS := ParamsSpec([], [])

  function PvcKey(ns: string, pvc: string): string {
    ns + "/" + pvc
  }

  // What is left of a list once every occurrence of a key is dropped.
  function Without(keys: seq<string>, key: string): (r: seq<string>)
    ensures key !in r
    ensures forall k :: k in r <==> k in keys && k != key
  {
    if keys == [] then []
    else
      var rest := Without(keys[1..], key);
      if keys[0] == key then rest else [keys[0]] + rest
  }

  function Including(keys: seq<string>, key: string): seq<string> {
    if key in keys then keys else keys + [key]
  }

  function Locked(s: ParamsSpec, key: string, mode: Mode): ParamsSpec {
    match mode
    case WhenIdle => ParamsSpec(Including(s.pvcKeys, key), Without(s.claimableKeys, key))
    case WhenClaimed => ParamsSpec(Without(s.pvcKeys, key), Including(s.claimableKeys, key))
  }

  function Unlocked(s: ParamsSpec, key: string): ParamsSpec {
    ParamsSpec(Without(s.pvcKeys, key), Without(s.claimableKeys, key))
  }

  // The list a mode's keys live in, and the other one.
  function ListFor(s: ParamsSpec, mode: Mode): seq<string> {
    if mode.WhenIdle? then s.pvcKeys else s.claimableKeys
  }

  function OtherList(s: ParamsSpec, mode: Mode): seq<string> {
    if mode.WhenIdle? then s.claimableKeys else s.pvcKeys
  }

  predicate HeldIn(s: ParamsSpec, key: string, mode: Mode) {
    key in ListFor(s, mode) && key !in OtherList(s, mode)
  }

  predicate Free(s: ParamsSpec, key: string) {
    key !in s.pvcKeys && key !in s.claimableKeys
  }

  function Count(keys: seq<string>, key: string): nat {
    if keys == [] then 0 else (if keys[0] == key then 1 else 0) + Count(keys[1..], key)
  }

  lemma {:induction false} CountAppend(a: seq<string>, b: seq<string>, key: string)
    ensures Count(a + b, key) == Count(a, key) + Count(b, key)
  {
    if a == [] {
      assert a + b == b;
    } else {
      assert (a + b)[1..] == a[1..] + b;
      CountAppend(a[1..], b, key);
    }
  }

  lemma {:induction false} CountZero(keys: seq<string>, key: string)
    ensures Count(keys, key) == 0 <==> key !in keys
  {
    if keys != [] {
      CountZero(keys[1..], key);
    }
  }

  lemma {:induction false} WithoutCount(keys: seq<string>, key: string, k: string)
    ensures Count(Without(keys, key), k) == if k == key then 0 else Count(keys, k)
  {
    if keys != [] {
      WithoutCount(keys[1..], key, k);
      var rest := Without(keys[1..], key);
      if keys[0] != key {
        assert ([keys[0]] + rest)[1..] == rest;
      }
    }
  }

  lemma {:induction false} WithoutAbsent(keys: seq<string>, key: string)
    ensures |Without(keys, key)| == |keys| - Count(keys, key)
    ensures key !in keys ==> Without(keys, key) == keys
  {
    if keys != [] {
      WithoutAbsent(keys[1..], key);
    }
  }

  // Locking one claim puts its key in its mode's list and nowhere else, and
  // leaves every other key exactly where it was; unlocking takes it out of
  // both. Either is idempotent.
  lemma LockMembership(s: ParamsSpec, key: string, mode: Mode, other: string)
    requires other != key
    ensures HeldIn(Locked(s, key, mode), key, mode)
    ensures Free(Unlocked(s, key), key)
    ensures Locked(Locked(s, key, mode), key, mode) == Locked(s, key, mode)
    ensures Unlocked(Locked(s, key, mode), key) == Unlocked(s, key)
    ensures forall m :: HeldIn(Locked(s, key, mode), other, m) == HeldIn(s, other, m)
    ensures forall m :: HeldIn(Unlocked(s, key), other, m) == HeldIn(s, other, m)
  {
    WithoutAbsent(Without(s.pvcKeys, key), key);
    WithoutAbsent(Without(s.claimableKeys, key), key);
    WithoutIncluding(s.pvcKeys, key);
    WithoutIncluding(s.claimableKeys, key);
  }

  lemma {:induction false} WithoutIncluding(keys: seq<string>, key: string)
    ensures Without(Including(keys, key), key) == Without(keys, key)
  {
    if key !in keys {
      WithoutAppend(keys, [key], key);
      assert Without([key], key) == [];
      assert Without(keys, key) + [] == Without(keys, key);
    }
  }

  lemma {:induction false} WithoutAppend(a: seq<string>, b: seq<string>, key: string)
    ensures Without(a + b, key) == Without(a, key) + Without(b, key)
  {
    if a == [] {
      assert a + b == b;
    } else {
      assert (a + b)[1..] == a[1..] + b;
      WithoutAppend(a[1..], b, key);
    }
  }

  // ------------------------------------------------------- the object itself

  // EvacuationParamsSpec: the two lists, updated in place.
  class EvacuationParams {
    var pvcKeys: seq<string>
    var claimablePvcKeys: seq<string>

    constructor (s: ParamsSpec)
      ensures Spec() == s
    {
      pvcKeys := s.pvcKeys;
      claimablePvcKeys := s.claimableKeys;
    }

    function Spec(): ParamsSpec
      reads this
    {
      ParamsSpec(pvcKeys, claimablePvcKeys)
    }

    method Lock(key: string, mode: Mode) returns (changed: bool)
      modifies this
      ensures Spec() == Locked(old(Spec()), key, mode)
      ensures changed <==> Spec() != old(Spec())
    {
      changed := false;
      match mode
      case WhenIdle =>
        if key !in pvcKeys {
          pvcKeys := pvcKeys + [key];
          changed := true;
        }
        var before := |claimablePvcKeys|;
        WithoutAbsent(claimablePvcKeys, key);
        CountZero(claimablePvcKeys, key);
        claimablePvcKeys := Retain(claimablePvcKeys, key);
        changed := changed || |claimablePvcKeys| != before;
      case WhenClaimed =>
        if key !in claimablePvcKeys {
          claimablePvcKeys := claimablePvcKeys + [key];
          changed := true;
        }
        var before := |pvcKeys|;
        WithoutAbsent(pvcKeys, key);
        CountZero(pvcKeys, key);
        pvcKeys := Retain(pvcKeys, key);
        changed := changed || |pvcKeys| != before;
    }

    method Unlock(key: string) returns (changed: bool)
      modifies this
      ensures Spec() == Unlocked(old(Spec()), key)
      ensures changed <==> Spec() != old(Spec())
    {
      var before := |pvcKeys| + |claimablePvcKeys|;
      WithoutAbsent(pvcKeys, key);
      WithoutAbsent(claimablePvcKeys, key);
      CountZero(pvcKeys, key);
      CountZero(claimablePvcKeys, key);
      pvcKeys := Retain(pvcKeys, key);
      claimablePvcKeys := Retain(claimablePvcKeys, key);
      changed := |pvcKeys| + |claimablePvcKeys| != before;
    }
  }

  // Vec::retain(|k| k != key).
  method Retain(keys: seq<string>, key: string) returns (kept: seq<string>)
    ensures kept == Without(keys, key)
  {
    kept := [];
    for i := 0 to |keys|
      invariant kept == Without(keys[..i], key)
    {
      assert keys[..i + 1] == keys[..i] + [keys[i]];
      WithoutAppend(keys[..i], [keys[i]], key);
      if keys[i] != key {
        assert [keys[i]][1..] == [];
        assert Without([keys[i]], key) == [keys[i]] + Without([], key);
        kept := kept + [keys[i]];
      } else {
        assert Without([keys[i]], key) == [];
      }
    }
    assert keys[..|keys|] == keys;
  }
}
