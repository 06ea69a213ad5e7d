/**
 * Token revocation with expiring keys. Times are in milliseconds; `exp` is the numeric date in
 * seconds of section 4.1.4 of RFC 7519, and a token stops verifying once the second reaches it.
 */
module TokenRevocation {
  import opened Prelude

  /** A key with its deadline, None when it does not expire. */
  datatype Entry = Entry(deadline: Option<int>)
  type Keys = map<string, Entry>

  function RevokedKey(token: string): string { "revoked_token:" + token }

  lemma RevokedKeysDiffer(t: string, u: string)
    requires t != u
    ensures RevokedKey(t) != RevokedKey(u)
  {
    assert RevokedKey(t)[14..] == t && RevokedKey(u)[14..] == u;
  }

  /** SET at time `now`: `ttl` 0 leaves EX out, and Redis refuses a negative EX. */
  function SetKey(keys: Keys, key: string, ttl: int, now: nat): Keys {
    if ttl == 0 then keys[key := Entry(None)]
    else if ttl < 0 then keys
    else keys[key := Entry(Some(now + 1000 * ttl))]
  }

  /** A key is readable strictly before its deadline. */
  predicate Readable(keys: Keys, key: string, now: nat) {
    key in keys && (keys[key].deadline.None? || now < keys[key].deadline.value)
  }

  /** The TTL `revokeToken` computes at time `now`; an explicit expiry of 0 and an `exp` of 0 do not count. */
  function Ttl(expiry: Option<int>, exp: Option<int>, now: nat): int {
    if expiry.Some? && expiry.value != 0 then expiry.value
    else if exp.Some? && exp.value != 0 then exp.value - now / 1000 + 10
    else 3600
  }

  /** The signature is good and the second of `now` is before `exp`. */
  predicate Verifies(exp: Option<int>, now: nat) {
    exp.None? || now / 1000 < exp.value
  }

  /**
   * One `revokeToken`: its TTL is computed at `issued`, its SET executed at `applied`; with Redis
   * unavailable (`up` false) the error is swallowed. `exp` is what decoding the token gives.
   */
  datatype Revocation = Revocation(token: string, expiry: Option<int>, exp: Option<int>, issued: nat, applied: nat, up: bool)

  predicate WellTimed(r: Revocation) {
    r.issued <= r.applied
  }

  function Apply(keys: Keys, r: Revocation): Keys {
    if r.up then SetKey(keys, RevokedKey(r.token), Ttl(r.expiry, r.exp, r.issued), r.applied) else keys
  }

  function ApplyAll(keys: Keys, rs: seq<Revocation>): Keys {
    if rs == [] then keys else Apply(ApplyAll(keys, rs[..|rs| - 1]), rs[|rs| - 1])
  }

  /** `validateToken` verifies at time `v` and reads the key at time `g`; a failed read counts as absent. */
  predicate Accepts(keys: Keys, token: string, exp: Option<int>, v: nat, g: nat, up: bool) {
    Verifies(exp, v) && !(up && Readable(keys, RevokedKey(token), g))
  }

  /**
   * A token is accepted exactly while it is not over and no key for it can be read: a failed read,
   * a missing key and one whose deadline has come all count as not revoked.
   */
  lemma AcceptedIff(keys: Keys, token: string, exp: Option<int>, v: nat, g: nat, up: bool)
    ensures var key := "revoked_token:" + token;
      Accepts(keys, token, exp, v, g, up) <==>
      && (exp.None? || v < 1000 * exp.value)
      && !(up && key in keys && (keys[key].deadline.None? || g < keys[key].deadline.value))
  {
  }

  /** What one revocation does to any key. */
  lemma RevocationIs(keys: Keys, r: Revocation, k: string)
    ensures var keys', key := Apply(keys, r), "revoked_token:" + r.token;
      var explicit := r.expiry.Some? && r.expiry.value != 0;
      var seconds := if explicit then r.expiry.value
                     else if r.exp.Some? && r.exp.value != 0 then r.exp.value - r.issued / 1000 + 10
                     else 3600;
      && (k != key || !r.up || seconds < 0 ==> (k in keys' <==> k in keys) && (k in keys ==> keys'[k] == keys[k]))
      && (r.up && seconds == 0 ==> key in keys' && keys'[key].deadline == None)
      && (r.up && seconds > 0 ==> key in keys' && keys'[key].deadline == Some(r.applied + 1000 * seconds))
  {
  }

  // ----- Revoked tokens stay rejected -----

  /** The key outlives the token by ten seconds, or the token had expired by `since`. */
  ghost predicate Protected(keys: Keys, token: string, exp: int, since: nat) {
    var key := RevokedKey(token);
    || (key in keys && (keys[key].deadline.None? || keys[key].deadline.value >= 1000 * exp + 10000))
    || since / 1000 >= exp
  }

  predicate NoExplicitExpiry(r: Revocation, token: string, exp: int) {
    r.token == token ==> (r.expiry.None? || r.expiry.value == 0) && r.exp == Some(exp)
  }

  lemma RevocationProtects(keys: Keys, r: Revocation, exp: int)
    requires WellTimed(r) && r.up && NoExplicitExpiry(r, r.token, exp)
    ensures Protected(Apply(keys, r), r.token, exp, r.applied)
    ensures Ttl(r.expiry, r.exp, r.issued) < 0 ==> !Verifies(r.exp, r.issued)
  {
    var ttl := Ttl(r.expiry, r.exp, r.issued);
    if ttl > 0 && exp != 0 {
      assert r.applied + 1000 * ttl >= 1000 * exp + 10000;
    } else if ttl < 0 {
      assert r.applied / 1000 >= r.issued / 1000;
    }
  }

  lemma LaterKeepsProtected(keys: Keys, r: Revocation, token: string, exp: int, since: nat)
    requires Protected(keys, token, exp, since) && WellTimed(r) && NoExplicitExpiry(r, token, exp)
    ensures Protected(Apply(keys, r), token, exp, since)
  {
    if r.token != token {
      RevokedKeysDiffer(token, r.token);
    } else if exp != 0 && Ttl(r.expiry, r.exp, r.issued) > 0 {
      assert r.applied + 1000 * Ttl(r.expiry, r.exp, r.issued) >= 1000 * exp + 10000;
    }
  }

  lemma {:induction false} ApplyAllKeepsProtected(keys: Keys, rs: seq<Revocation>, token: string, exp: int, since: nat)
    requires Protected(keys, token, exp, since)
    requires forall r :: r in rs ==> WellTimed(r) && NoExplicitExpiry(r, token, exp)
    ensures Protected(ApplyAll(keys, rs), token, exp, since)
  {
    if rs != [] {
      ApplyAllKeepsProtected(keys, rs[..|rs| - 1], token, exp, since);
      assert rs[|rs| - 1] in rs;
      LaterKeepsProtected(ApplyAll(keys, rs[..|rs| - 1]), rs[|rs| - 1], token, exp, since);
    }
  }

  /**
   * With Redis available, once a revocation without explicit expiry has returned, the token is
   * rejected at every later millisecond, across any later revocations that give this token no
   * explicit expiry, even when up to ten seconds pass between verifying the token and reading
   * the key.
   */
  lemma RevokedStaysRejected(before: Keys, r: Revocation, later: seq<Revocation>, exp: int, v: nat, g: nat)
    requires WellTimed(r) && r.up && NoExplicitExpiry(r, r.token, exp)
    requires forall x :: x in later ==> WellTimed(x) && NoExplicitExpiry(x, r.token, exp)
    requires r.applied <= v <= g <= v + 10000
    ensures !Accepts(ApplyAll(Apply(before, r), later), r.token, Some(exp), v, g, true)
  {
    RevocationProtects(before, r, exp);
    ApplyAllKeepsProtected(Apply(before, r), later, r.token, exp, r.applied);
    if v / 1000 < exp {
      assert g < 1000 * exp + 10000;
      assert r.applied / 1000 <= v / 1000;
    }
  }

  // ----- Exactly when -----

  /** A validation at one instant `u` at or after `t` accepts the token. */
  ghost predicate AcceptedLater(keys: Keys, token: string, exp: Option<int>, t: nat) {
    exists u: nat :: u >= t && Accepts(keys, token, exp, u, u, true)
  }

  /** The key, as the revocation leaves it, is there for as long as the token verifies. */
  predicate Outlasts(e: Entry, exp: Option<int>) {
    e.deadline.None? || (exp.Some? && e.deadline.value >= 1000 * exp.value)
  }

  /**
   * Any revocation, explicit expiry or not, on any keys: the token is rejected for good iff it is
   * over when the revocation is applied, or the key outlasts it, which is the key just written or,
   * when Redis refused the negative TTL, the one an earlier revocation left.
   */
  lemma RejectedForGoodIff(before: Keys, r: Revocation)
    requires r.up
    ensures var ttl, key := Ttl(r.expiry, r.exp, r.issued), RevokedKey(r.token);
      !AcceptedLater(Apply(before, r), r.token, r.exp, r.applied) <==>
      || (r.exp.Some? && r.applied >= 1000 * r.exp.value)
      || ttl == 0
      || (ttl > 0 && r.exp.Some? && r.applied + 1000 * ttl >= 1000 * r.exp.value)
      || (ttl < 0 && key in before && Outlasts(before[key], r.exp))
  {
    var keys, key := Apply(before, r), RevokedKey(r.token);
    var expired := r.exp.Some? && r.applied >= 1000 * r.exp.value;
    if !expired && !(key in keys && Outlasts(keys[key], r.exp)) {
      var u := if key in keys && keys[key].deadline.value > r.applied then keys[key].deadline.value else r.applied;
      assert Accepts(keys, r.token, r.exp, u, u, true);
    } else {
      forall u: nat | u >= r.applied ensures !Accepts(keys, r.token, r.exp, u, u, true) {}
    }
  }

  /** A token without `exp` is accepted again an hour after it was revoked. */
  lemma NoExpComesBack(before: Keys, r: Revocation)
    requires r.up && r.exp.None? && r.expiry.None?
    ensures Accepts(Apply(before, r), r.token, None, r.applied + 3600000, r.applied + 3600000, true)
  {
  }

  /** A validation verifies at `v` and reads the key `delay` ms later. */
  predicate AcceptsSlowly(keys: Keys, token: string, exp: Option<int>, v: nat, delay: nat) {
    Accepts(keys, token, exp, v, v + delay, true)
  }

  /**
   * The margin is exact: for a token revoked while still valid, a validation that reads the key
   * `delay` ms after verifying can accept it iff `delay` exceeds ten seconds by more than the time
   * between the full second the TTL was computed from and the write of the key.
   */
  lemma MarginIsExact(before: Keys, r: Revocation, exp: int, delay: nat)
    requires WellTimed(r) && r.up && NoExplicitExpiry(r, r.token, exp) && r.applied < 1000 * exp
    ensures (exists v: nat :: v >= r.applied && AcceptsSlowly(Apply(before, r), r.token, r.exp, v, delay)) <==>
            delay > 10000 + (r.applied - 1000 * (r.issued / 1000))
  {
    var keys := Apply(before, r);
    var margin := 10000 + (r.applied - 1000 * (r.issued / 1000));
    assert keys[RevokedKey(r.token)].deadline == Some(1000 * exp + margin);
    if delay > margin {
      assert AcceptsSlowly(keys, r.token, r.exp, 1000 * exp - 1, delay);
    } else {
      forall v: nat | v >= r.applied ensures !AcceptsSlowly(keys, r.token, r.exp, v, delay) {}
    }
  }

  // ----- The services -----

  /** The part of the Redis service the revocation list uses. */
  class RedisService {
    var keys: Keys

    constructor ()
      ensures keys == map[]
    {
      keys := map[];
    }

    /** `set`: EX only for a TTL that is not 0; errors are swallowed. */
    method Set(key: string, ttl: Option<int>, now: nat, up: bool)
      modifies this
      ensures keys == if !up then old(keys) else SetKey(old(keys), key, if ttl.Some? then ttl.value else 0, now)
      ensures up && (ttl.None? || ttl.value == 0) ==> keys == old(keys)[key := Entry(None)]
      ensures up && ttl.Some? && ttl.value > 0 ==> keys == old(keys)[key := Entry(Some(now + 1000 * ttl.value))]
      ensures !up || (ttl.Some? && ttl.value < 0) ==> keys == old(keys)
    {
      if !up { return; }
      if ttl.Some? && ttl.value != 0 {
        if ttl.value < 0 { return; }
        keys := keys[key := Entry(Some(now + 1000 * ttl.value))];
      } else {
        keys := keys[key := Entry(None)];
      }
    }

    /** `get`: null when the key is absent, expired, or Redis fails. */
    method Get(key: string, now: nat, up: bool) returns (found: bool)
      ensures found <==> up && Readable(keys, key, now)
    {
      found := up && key in keys && (keys[key].deadline.None? || now < keys[key].deadline.value);
    }
  }

  class ClientAuthService {
    const redis: RedisService

    constructor (redis: RedisService)
      ensures this.redis == redis
    {
      this.redis := redis;
    }

    method RevokeToken(token: string, expiry: Option<int>, exp: Option<int>, issued: nat, applied: nat, up: bool)
      requires issued <= applied
      modifies redis
      ensures redis.keys == Apply(old(redis.keys), Revocation(token, expiry, exp, issued, applied, up))
      ensures !up ==> redis.keys == old(redis.keys)
      ensures up && expiry.Some? && expiry.value > 0 ==>
        redis.keys == old(redis.keys)["revoked_token:" + token := Entry(Some(applied + 1000 * expiry.value))]
      ensures up && (expiry.None? || expiry.value == 0) && exp.None? ==>
        redis.keys == old(redis.keys)["revoked_token:" + token := Entry(Some(applied + 3600000))]
    {
      var ttl;
      if expiry.Some? && expiry.value != 0 {
        ttl := expiry.value;
      } else if exp.Some? && exp.value != 0 {
        ttl := exp.value - issued / 1000 + 10;
      } else {
        ttl := 3600;
      }
      redis.Set("revoked_token:" + token, Some(ttl), applied, up);
    }

    /** True when the token's payload is returned, false when an UnauthorizedException is thrown. */
    method ValidateToken(token: string, signed: bool, exp: Option<int>, v: nat, g: nat, up: bool) returns (ok: bool)
      ensures var key := "revoked_token:" + token; var keys := redis.keys;
        ok <==>
        && signed && (exp.None? || v < 1000 * exp.value)
        && !(up && key in keys && (keys[key].deadline.None? || g < keys[key].deadline.value))
      ensures ok <==> signed && Accepts(redis.keys, token, exp, v, g, up)
    {
      if !signed || (exp.Some? && v / 1000 >= exp.value) { return false; }
      var isRevoked := redis.Get("revoked_token:" + token, g, up);
      ok := !isRevoked;
    }
  }
}
