/** The refresh-token entity and the conditional updates of its table. */
module RefreshTokens {
  import opened Common
  import opened UserEntity

  /** A row's id and the hash it is looked up by are both fresh random values, so one name stands for both. */
  type TokenId = nat
  type FamilyId = nat

  datatype Reason = Rotated | Logout | LogoutAll | ReuseDetected | PasswordChanged | AdminRevoked | ExpiredSweep

  datatype TokenRow = TokenRow(
    id: TokenId,
    userId: UserId,
    familyId: FamilyId,
    expiresAt: int,
    revokedAt: Option<int>,
    revokedReason: Option<Reason>,
    createdAt: int)

  type TokenRows = map<TokenId, TokenRow>

  function Issued(id: TokenId, userId: UserId, family: FamilyId, ttlSeconds: int, now: int): TokenRow {
    TokenRow(id, userId, family, now + ttlSeconds * 1000, None, None, now)
  }

  predicate IsRevoked(r: TokenRow) {
    r.revokedAt.Some?
  }

  predicate IsExpired(r: TokenRow, now: int) {
    r.expiresAt <= now
  }

  predicate IsUsable(r: TokenRow, now: int) {
    !IsRevoked(r) && !IsExpired(r, now)
  }

  function Revoked(r: TokenRow, reason: Reason, at: int): TokenRow {
    if IsRevoked(r) then r else r.(revokedAt := Some(at), revokedReason := Some(reason))
  }

  /** A token is usable from its issue for exactly its lifetime, and for no time at all once revoked. */
  lemma TokenLifetime(id: TokenId, u: UserId, f: FamilyId, ttlSeconds: nat, now: int, reason: Reason, at: int, t: int)
    ensures IsUsable(Issued(id, u, f, ttlSeconds, now), t) <==> t < now + ttlSeconds * 1000
    ensures !IsUsable(Revoked(Issued(id, u, f, ttlSeconds, now), reason, at), t)
  {
  }

  /** `UPDATE … WHERE <condition> AND revoked_at IS NULL`: the shape all three revocations share. */
  function RevokedWhere(rows: TokenRows, hit: TokenRow -> bool, reason: Reason, at: int): TokenRows {
    map id | id in rows :: if hit(rows[id]) then Revoked(rows[id], reason, at) else rows[id]
  }

  /** A row with its revocation fields set and every other column as it was. */
  function Stamped(r: TokenRow, reason: Reason, at: int): TokenRow {
    TokenRow(r.id, r.userId, r.familyId, r.expiresAt, Some(at), Some(reason), r.createdAt)
  }

  function ById(id: TokenId): TokenRow -> bool {
    (r: TokenRow) => r.id == id
  }

  function OfFamily(family: FamilyId): TokenRow -> bool {
    (r: TokenRow) => r.familyId == family
  }

  function OfUser(userId: UserId): TokenRow -> bool {
    (r: TokenRow) => r.userId == userId
  }

  function SweptBefore(rows: TokenRows, cutoff: int): TokenRows {
    map id | id in rows && !(rows[id].expiresAt < cutoff) :: rows[id]
  }

  /** The entity: everything but the revocation fields is set at issue time for good. */
  class RefreshToken {
    const id: TokenId
    const userId: UserId
    const familyId: FamilyId
    const expiresAt: int
    const createdAt: int
    var revokedAt: Option<int>
    var revokedReason: Option<Reason>

    function ToSnapshot(): TokenRow
      reads this
    {
      TokenRow(id, userId, familyId, expiresAt, revokedAt, revokedReason, createdAt)
    }

    constructor FromSnapshot(s: TokenRow)
      ensures ToSnapshot() == s
    {
      id, userId, familyId, expiresAt, createdAt := s.id, s.userId, s.familyId, s.expiresAt, s.createdAt;
      revokedAt, revokedReason := s.revokedAt, s.revokedReason;
    }

    constructor Issue(tokenId: TokenId, user: UserId, family: FamilyId, ttlSeconds: int, now: int)
      ensures ToSnapshot() == Issued(tokenId, user, family, ttlSeconds, now)
      ensures id == tokenId && userId == user && familyId == family && createdAt == now
      ensures expiresAt == now + ttlSeconds * 1000 && revokedAt.None? && revokedReason.None?
    {
      id, userId, familyId, createdAt := tokenId, user, family, now;
      expiresAt := now + ttlSeconds * 1000;
      revokedAt, revokedReason := None, None;
    }

    /** First revocation wins: a later one must not overwrite the reason that matters. */
    method Revoke(reason: Reason, now: int)
      modifies this
      ensures ToSnapshot() == Revoked(old(ToSnapshot()), reason, now)
      ensures if old(revokedAt).Some? then revokedAt == old(revokedAt) && revokedReason == old(revokedReason)
              else revokedAt == Some(now) && revokedReason == Some(reason)
    {
      if revokedAt.Some? { return; }
      revokedAt := Some(now);
      revokedReason := Some(reason);
    }
  }

  class PrismaRefreshTokenRepository {
    var rows: TokenRows

    constructor ()
      ensures rows == map[]
    {
      rows := map[];
    }

    method FindByHash(hash: TokenId) returns (token: RefreshToken?)
      ensures token == null <==> hash !in rows
      ensures token != null ==> fresh(token) && token.ToSnapshot() == rows[hash]
    {
      if hash !in rows { return null; }
      token := new RefreshToken.FromSnapshot(rows[hash]);
    }

    method Create(token: RefreshToken)
      requires token.id !in rows
      modifies this
      ensures rows == old(rows)[token.id := old(token.ToSnapshot())]
    {
      rows := rows[token.id := token.ToSnapshot()];
    }

    /** The compare-and-swap: true for the one caller that found the row unrevoked. */
    method Consume(id: TokenId, reason: Reason, at: int) returns (won: bool)
      requires forall k :: k in rows ==> rows[k].id == k
      modifies this
      ensures rows == RevokedWhere(old(rows), ById(id), reason, at)
      ensures won <==> id in old(rows) && old(rows)[id].revokedAt.None?
      ensures if won then rows == old(rows)[id := Stamped(old(rows)[id], reason, at)] else rows == old(rows)
    {
      if id in rows && rows[id].revokedAt.None? {
        rows := rows[id := rows[id].(revokedAt := Some(at), revokedReason := Some(reason))];
        return true;
      }
      return false;
    }

    method RevokeFamily(family: FamilyId, reason: Reason, at: int) returns (count: nat)
      modifies this
      ensures rows == RevokedWhere(old(rows), OfFamily(family), reason, at)
      ensures count == |set id | id in old(rows) && old(rows)[id].familyId == family && old(rows)[id].revokedAt.None?|
      ensures rows.Keys == old(rows.Keys)
      ensures forall id :: id in rows ==>
                rows[id] == if old(rows)[id].familyId == family && old(rows)[id].revokedAt.None?
                            then Stamped(old(rows)[id], reason, at) else old(rows)[id]
    {
      var live := set id | id in rows && rows[id].familyId == family && rows[id].revokedAt.None?;
      rows := map id | id in rows ::
        if id in live then rows[id].(revokedAt := Some(at), revokedReason := Some(reason)) else rows[id];
      count := |live|;
    }

    method RevokeAllForUser(userId: UserId, reason: Reason, at: int) returns (count: nat)
      modifies this
      ensures rows == RevokedWhere(old(rows), OfUser(userId), reason, at)
      ensures count == |set id | id in old(rows) && old(rows)[id].userId == userId && old(rows)[id].revokedAt.None?|
      ensures rows.Keys == old(rows.Keys)
      ensures forall id :: id in rows ==>
                rows[id] == if old(rows)[id].userId == userId && old(rows)[id].revokedAt.None?
                            then Stamped(old(rows)[id], reason, at) else old(rows)[id]
    {
      var live := set id | id in rows && rows[id].userId == userId && rows[id].revokedAt.None?;
      rows := map id | id in rows ::
        if id in live then rows[id].(revokedAt := Some(at), revokedReason := Some(reason)) else rows[id];
      count := |live|;
    }

    method DeleteExpiredBefore(cutoff: int) returns (count: nat)
      modifies this
      ensures rows == SweptBefore(old(rows), cutoff)
      ensures forall id :: id in rows <==> id in old(rows) && cutoff <= old(rows)[id].expiresAt
      ensures forall id :: id in rows ==> rows[id] == old(rows)[id]
      ensures count == |old(rows).Keys - rows.Keys|
    {
      var before := rows;
      rows := map id | id in rows && !(rows[id].expiresAt < cutoff) :: rows[id];
      count := |before.Keys - rows.Keys|;
    }
  }
}
