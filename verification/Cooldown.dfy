/** The two cooldown stores: an in-process map with expiry times and Redis `SET NX` with a TTL. */
module Cooldown {
  import opened Common

  datatype CooldownKey = CooldownKey(deviceId: Uuid, alertType: string)

  type Expiries = map<CooldownKey, Time>

  predicate Cooling(expires: Expiries, key: CooldownKey, now: Time) {
    key in expires && now < expires[key]
  }

  class MemoryCooldownStore {
    var expires: Expiries

    constructor ()
      ensures expires == map[]
    {
      expires := map[];
    }

    method ClaimEscalation(key: CooldownKey, ttl: int, now: Time) returns (claimed: bool)
      modifies this
      ensures claimed <==> !Cooling(old(expires), key, now)
      ensures expires == if claimed then old(expires)[key := now + ttl] else old(expires)
    {
      if key in expires && now < expires[key] {
        return false;
      }
      expires := expires[key := now + ttl];
      return true;
    }
  }

  // ---------------------------------------------------------------- runs of both stores

  datatype Request = Request(key: CooldownKey, now: Time)

  ghost predicate ClockMovesForward(reqs: seq<Request>) {
    forall i, j :: 0 <= i < j < |reqs| ==> reqs[i].now <= reqs[j].now
  }

  /** The answers the memory store gives to a series of claims, and the map it ends with. */
  function MemoryRun(reqs: seq<Request>, ttl: int): (r: (seq<bool>, Expiries))
    ensures |r.0| == |reqs|
  {
    if reqs == [] then ([], map[])
    else
      var (answers, expires) := MemoryRun(reqs[..|reqs| - 1], ttl);
      var req := reqs[|reqs| - 1];
      if Cooling(expires, req.key, req.now) then (answers + [false], expires)
      else (answers + [true], expires[req.key := req.now + ttl])
  }

  // A Redis key either has a deadline, at which the server removes it, or lives forever.
  type RedisKeys = map<CooldownKey, Option<Time>>

  function LiveKeys(keys: RedisKeys, now: Time): RedisKeys {
    map k | k in keys && (keys[k].None? || now < keys[k].value) :: keys[k]
  }

  /** `SET key 1 NX` with a TTL; a zero TTL is sent as plain SETNX, which sets no deadline. */
  function RedisRun(reqs: seq<Request>, ttl: nat): (r: (seq<bool>, RedisKeys))
    ensures |r.0| == |reqs|
  {
    if reqs == [] then ([], map[])
    else
      var (answers, keys) := RedisRun(reqs[..|reqs| - 1], ttl);
      var req := reqs[|reqs| - 1];
      var live := LiveKeys(keys, req.now);
      if req.key in live then (answers + [false], live)
      else (answers + [true], live[req.key := if ttl == 0 then None else Some(req.now + ttl)])
  }

  // ---------------------------------------------------------------- what a run of claims means

  ghost predicate Blocks(reqs: seq<Request>, answers: seq<bool>, ttl: int, j: nat, key: CooldownKey, now: Time)
    requires j < |reqs| == |answers|
  {
    answers[j] && reqs[j].key == key && now < reqs[j].now + ttl
  }

  lemma {:induction false} ExpiresTracksGrants(reqs: seq<Request>, ttl: nat, key: CooldownKey, now: Time)
    requires ClockMovesForward(reqs)
    ensures var (answers, expires) := MemoryRun(reqs, ttl);
      Cooling(expires, key, now) <==> exists j :: 0 <= j < |reqs| && Blocks(reqs, answers, ttl, j, key, now)
  {
    if reqs != [] {
      var n := |reqs| - 1;
      var front, req := reqs[..n], reqs[n];
      ExpiresTracksGrants(front, ttl, key, now);
      var (answers, expires) := MemoryRun(front, ttl);
      var (answers', expires') := MemoryRun(reqs, ttl);
      assert forall j :: 0 <= j < n ==>
        (Blocks(front, answers, ttl, j, key, now) <==> Blocks(reqs, answers', ttl, j, key, now));
      if answers'[n] && req.key == key {
        assert Cooling(expires', key, now) <==> Blocks(reqs, answers', ttl, n, key, now);
      } else {
        assert !Blocks(reqs, answers', ttl, n, key, now);
      }
    }
  }

  /** A claim is granted exactly when no earlier granted claim on its key is less than one TTL
      old: neither a second grant inside the cooldown nor a refusal outside it is possible. */
  lemma {:induction false} GrantedExactlyOutsideCooldown(reqs: seq<Request>, ttl: nat, i: nat)
    requires ClockMovesForward(reqs) && i < |reqs|
    ensures var answers := MemoryRun(reqs, ttl).0;
      answers[i] <==> !exists j :: 0 <= j < i && Blocks(reqs, answers, ttl, j, reqs[i].key, reqs[i].now)
  {
    var n := |reqs| - 1;
    var front := reqs[..n];
    var before := MemoryRun(front, ttl).0;
    var answers := MemoryRun(reqs, ttl).0;
    if i == n {
      ExpiresTracksGrants(front, ttl, reqs[n].key, reqs[n].now);
    } else {
      GrantedExactlyOutsideCooldown(front, ttl, i);
    }
    assert forall j :: 0 <= j < i ==>
      (Blocks(front, before, ttl, j, reqs[i].key, reqs[i].now) <==> Blocks(reqs, answers, ttl, j, reqs[i].key, reqs[i].now));
  }

  lemma {:induction false} PositiveTtlAgrees(reqs: seq<Request>, ttl: nat)
    requires ttl > 0 && ClockMovesForward(reqs)
    ensures MemoryRun(reqs, ttl).0 == RedisRun(reqs, ttl).0
    ensures reqs != [] ==>
      var now := reqs[|reqs| - 1].now;
      var (expires, keys) := (MemoryRun(reqs, ttl).1, RedisRun(reqs, ttl).1);
      && (forall k :: k in keys <==> Cooling(expires, k, now))
      && (forall k :: k in keys ==> keys[k] == Some(expires[k]))
  {
    if reqs != [] {
      var n := |reqs| - 1;
      var front, req := reqs[..n], reqs[n];
      PositiveTtlAgrees(front, ttl);
      var (expires, keys) := (MemoryRun(front, ttl).1, RedisRun(front, ttl).1);
      var live := LiveKeys(keys, req.now);
      forall k ensures k in live <==> Cooling(expires, k, req.now) {
        if n > 0 {
          assert front[n - 1].now <= req.now;
        }
      }
    }
  }

  ghost predicate StoresAgree(reqs: seq<Request>, ttl: nat) {
    MemoryRun(reqs, ttl).0 == RedisRun(reqs, ttl).0
  }

  /** The two stores answer every series of claims alike exactly when the TTL is positive: with
      a zero TTL the memory store grants at once again and Redis never does. */
  lemma StoresAgreeIff(ttl: nat)
    ensures (forall reqs :: ClockMovesForward(reqs) ==> StoresAgree(reqs, ttl)) <==> ttl > 0
  {
    if ttl > 0 {
      forall reqs | ClockMovesForward(reqs) ensures StoresAgree(reqs, ttl) {
        PositiveTtlAgrees(reqs, ttl);
      }
    } else {
      var req := Request(CooldownKey(1, "t"), 0);
      var reqs := [req, req];
      assert reqs[..1] == [req] && [req][..0] == [];
      assert MemoryRun([req], 0).1 == map[req.key := 0];
      assert RedisRun([req], 0).1 == map[req.key := None];
      assert MemoryRun(reqs, 0).0[1] && !RedisRun(reqs, 0).0[1];
      assert !StoresAgree(reqs, 0);
    }
  }
}
