/** Access tokens: what is signed into one, what the denylist remembers, and what `validate` accepts. */
module AccessTokens {
  import opened Common
  import opened UserEntity

  type Jti = nat

  /** `iat` and `exp` are whole seconds (section 4.1 of RFC 7519); every other time is milliseconds. */
  datatype Claims = Claims(sub: UserId, tv: nat, adm: bool, jti: Jti, iat: int, exp: int)

  /** `issueAccessToken`: the version and the privilege are copied from the snapshot in hand. */
  function Signed(jti: Jti, user: UserSnapshot, ttlSeconds: int, now: int): Claims {
    Claims(user.id, user.profile.tokenVersion, user.profile.isPlatformAdmin, jti,
           now / 1000, now / 1000 + ttlSeconds)
  }

  /** The expiry half of signature verification, with no clock tolerance. */
  predicate Unexpired(c: Claims, now: int) {
    now / 1000 < c.exp
  }

  lemma ExpiryInMilliseconds(c: Claims, now: int)
    ensures Unexpired(c, now) <==> now < c.exp * 1000
  {
  }

  /** No access token outlives its configured lifetime, and none falls a whole second short of it. */
  lemma AccessLifetime(jti: Jti, user: UserSnapshot, ttlSeconds: nat, now: int, t: int)
    ensures now + ttlSeconds * 1000 <= t ==> !Unexpired(Signed(jti, user, ttlSeconds, now), t)
    ensures t <= now + ttlSeconds * 1000 - 1000 ==> Unexpired(Signed(jti, user, ttlSeconds, now), t)
    ensures var c := Signed(jti, user, ttlSeconds, now); c.iat * 1000 <= now < c.iat * 1000 + 1000
  {
    ExpiryInMilliseconds(Signed(jti, user, ttlSeconds, now), t);
  }

  // ----- The Redis denylist -----

  /** Each entry with the instant Redis drops it. */
  type Denylist = map<Jti, int>

  predicate Denied(d: Denylist, jti: Jti, now: int) {
    jti in d && now < d[jti]
  }

  function DenyTtl(expiresAt: int, now: int): int {
    CeilDiv(expiresAt - now, 1000)
  }

  /**
   * Rounding up to whole seconds never shortens an entry, however late Redis runs the write that was
   * computed at `now`; and an `add` that writes nothing had nothing left to deny.
   */
  lemma DenyOutlivesToken(expiresAt: int, now: int, writtenAt: int)
    requires now <= writtenAt
    ensures expiresAt <= writtenAt + DenyTtl(expiresAt, now) * 1000
    ensures DenyTtl(expiresAt, now) <= 0 <==> expiresAt <= now
  {
  }

  class TokenDenylistService {
    var entries: Denylist

    constructor ()
      ensures entries == map[]
    {
      entries := map[];
    }

    /** The synchronous half of `add`: None when the token has expired already. */
    method TtlFor(expiresAt: int, now: int) returns (ttlSeconds: Option<int>)
      ensures ttlSeconds.None? <==> expiresAt <= now
      ensures ttlSeconds.Some? ==>
                && ttlSeconds.value == DenyTtl(expiresAt, now)
                && ttlSeconds.value * 1000 - 1000 < expiresAt - now <= ttlSeconds.value * 1000
    {
      var ttl := CeilDiv(expiresAt - now, 1000);
      if ttl <= 0 { return None; }
      return Some(ttl);
    }

    /** The awaited half of `add`: `SET key 1 EX ttl`. */
    method Write(jti: Jti, ttlSeconds: int, now: int)
      modifies this
      ensures entries == old(entries)[jti := now + ttlSeconds * 1000]
    {
      entries := entries[jti := now + ttlSeconds * 1000];
    }

    /** Fails closed: an unreachable Redis answers "revoked". */
    method Has(jti: Jti, now: int, reachable: bool) returns (denied: bool)
      ensures denied <==> !reachable || (jti in entries && now < entries[jti])
    {
      if !reachable { return true; }
      return jti in entries && now < entries[jti];
    }
  }

  // ----- The JWT strategy -----

  datatype Rejection = MissingClaims | Denylisted | UnknownAccount | SessionEnded | NotActive(status: UserStatus)

  datatype Principal = Principal(userId: UserId, isPlatformAdmin: bool, jti: Jti, tokenExpiresAt: int)

  function Validate(sub: Option<UserId>, jti: Option<Jti>, tv: nat, exp: int,
                    denied: bool, snapshot: Option<UserSnapshot>): (r: Result<Principal, Rejection>)
    ensures r.Ok? <==>
              && sub.Some? && jti.Some? && !denied && snapshot.Some?
              && snapshot.value.profile.deletedAt.None? && snapshot.value.profile.status == ACTIVE
              && snapshot.value.profile.tokenVersion == tv
    ensures r.Ok? ==>
              && r.value.userId == snapshot.value.id && r.value.jti == jti.value
              && r.value.isPlatformAdmin == snapshot.value.profile.isPlatformAdmin
              && r.value.tokenExpiresAt == exp * 1000
    ensures r == Err(MissingClaims) <==> sub.None? || jti.None?
    ensures r == Err(Denylisted) <==> denied && sub.Some? && jti.Some?
    ensures r == Err(UnknownAccount) <==>
              !denied && sub.Some? && jti.Some? && (snapshot.None? || snapshot.value.profile.deletedAt.Some?)
    ensures r.Err? && r.error.SessionEnded? ==>
              snapshot.Some? && snapshot.value.profile.tokenVersion != tv && snapshot.value.profile.deletedAt.None?
    ensures r.Err? && r.error.NotActive? ==>
              && snapshot.Some? && snapshot.value.profile.tokenVersion == tv
              && snapshot.value.profile.status == r.error.status != ACTIVE
  {
    if sub.None? || jti.None? then Err(MissingClaims)
    else if denied then Err(Denylisted)
    else if snapshot.None? || snapshot.value.profile.deletedAt.Some? then Err(UnknownAccount)
    else if snapshot.value.profile.tokenVersion != tv then Err(SessionEnded)
    else if snapshot.value.profile.status != ACTIVE then Err(NotActive(snapshot.value.profile.status))
    else Ok(Principal(snapshot.value.id, snapshot.value.profile.isPlatformAdmin, jti.value, exp * 1000))
  }

  /** What passing `validate` amounts to for a well-formed token. */
  predicate PassesValidate(c: Claims, denied: bool, snapshot: Option<UserSnapshot>) {
    Validate(Some(c.sub), Some(c.jti), c.tv, c.exp, denied, snapshot).Ok?
  }
}
