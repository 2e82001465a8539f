/** Token rotation as the use case performs it, statement by statement, and the run of the protocol it makes. */
module TokenRotation {
  import opened Common
  import opened UserEntity
  import opened UserRepository
  import opened RefreshTokens
  import opened AccessTokens
  import opened Session
  import opened SessionInvariant
  import opened FamilyInvariant
  import opened SessionTheorems
  import opened Interleaving
  import opened Backend

  datatype RefreshError = UnknownToken | TokenExpired | TokenReused | AccountGone | CannotSignIn(reason: AuthError)

  datatype TokenPair = TokenPair(access: Claims, refresh: TokenId)

  // What each statement does to the protocol's state.

  lemma Finds(s: State, r: ReqId, hash: TokenId, at: int)
    requires r !in s.reqs && at <= s.now
    ensures Enabled(s, Refresh(r, Find(hash, at)))
    ensures Next(s, Refresh(r, Find(hash, at))) == if hash in s.tokens
            then Goto(s, r, RefreshFound(s.tokens[hash], at)) else s
  {
  }

  lemma Reuses(s: State, r: ReqId, f: FamilyId, at: int)
    requires r in s.reqs
    requires s.reqs[r] == RefreshLost(f, at)
          || (s.reqs[r].RefreshFound? && IsRevoked(s.reqs[r].row) && s.reqs[r].row.familyId == f
              && s.reqs[r].startedAt == at)
    ensures Enabled(s, Refresh(r, RevokeReused))
    ensures Next(s, Refresh(r, RevokeReused)) == Done(RevokedIn(s, OfFamily(f), ReuseDetected, at), r)
  {
  }

  lemma Abandons(s: State, r: ReqId)
    requires r in s.reqs && s.reqs[r].RefreshFound?
    ensures Enabled(s, Abandon(r)) && Next(s, Abandon(r)) == Done(s, r)
  {
  }

  /** The statement does to the table what the protocol's step does, whether it wins or loses. */
  lemma Consumes(s: State, r: ReqId, row: TokenRow, at: int, supply: nat)
    requires RowsOK(s) && r in s.reqs && s.reqs[r] == RefreshFound(row, at) && IsUsable(row, at) && Unused(s, supply)
    ensures Enabled(s, Refresh(r, Consume)) && Next(s, Refresh(r, Consume)) == ConsumeNext(s, r, row, at)
    ensures (forall k :: k in s.tokens ==> s.tokens[k].id == k)
    ensures ConsumeNext(s, r, row, at).tokens == RevokedWhere(s.tokens, ById(row.id), Rotated, at)
    ensures Unused(ConsumeNext(s, r, row, at), supply)
  {
    forall k | k in s.tokens ensures s.tokens[k].id == k { assert RowOK(s, k, s.tokens[k]); }
    hide RowsOK;
    if row.id in s.tokens && !IsRevoked(s.tokens[row.id]) {
    } else {
      assert RevokedWhere(s.tokens, ById(row.id), Rotated, at) == s.tokens;
    }
  }

  lemma Loads(s: State, r: ReqId, owner: UserId, f: FamilyId, at: int, supply: nat)
    requires r in s.reqs && s.reqs[r] == RefreshWon(owner, f, at) && Unused(s, supply)
    ensures Enabled(s, Refresh(r, Load))
    ensures Next(s, Refresh(r, Load)) ==
              if Findable(s.users, owner) && CanAuthenticate(s.users[owner].row.profile)
              then Goto(s, r, RefreshLoaded(s.users[owner].row, f, at)) else Dropped(s, r)
    ensures Unused(Next(s, Refresh(r, Load)), supply)
    ensures OnlyLeaves(s, r, Dropped(s, r))
  {
    if owner in s.users { assert Unused(Goto(s, r, RefreshLoaded(s.users[owner].row, f, at)), supply); }
    hide CanAuthenticate, Dropped, Unused, OnlyLeaves;
    DropOnlyLeaves(s, r, supply);
  }

  lemma DropOnlyLeaves(s: State, r: ReqId, supply: nat)
    requires r in s.reqs && Unused(s, supply)
    ensures OnlyLeaves(s, r, Dropped(s, r)) && Unused(Dropped(s, r), supply)
  {
  }

  /** The request is gone; what the stores and the clock hold is as it was. */
  ghost predicate OnlyLeaves(s: State, r: ReqId, s': State) {
    && s'.users == s.users && s'.tokens == s.tokens && s'.denylist == s.denylist
    && s'.now == s.now && s'.config == s.config && r !in s'.reqs
  }

  lemma Signs(s: State, r: ReqId, user: UserSnapshot, f: FamilyId, at: int, jti: Jti)
    requires r in s.reqs && s.reqs[r] == RefreshLoaded(user, f, at) && jti !in s.issued
    ensures Enabled(s, Refresh(r, Sign(jti)))
    ensures Next(s, Refresh(r, Sign(jti))) == SignNext(s, r, jti, user, RefreshSigned(user.id, f, at))
  {
  }

  lemma Stores(s: State, r: ReqId, owner: UserId, f: FamilyId, at: int, token: TokenId, supply: nat)
    requires r in s.reqs && s.reqs[r] == RefreshSigned(owner, f, at) && token !in s.minted
    requires Unused(s, supply) && token < supply
    ensures Enabled(s, Refresh(r, Store(token)))
    ensures Next(s, Refresh(r, Store(token))) == StoreNext(s, r, owner, f, at, token)
    ensures Unused(StoreNext(s, r, owner, f, at, token), supply)
  {
  }

  /** Why a refresh past its compare-and-swap is refused: the account is gone, or its status forbids it. */
  ghost predicate RefreshRefused(t: UserTable, owner: UserId, error: RefreshError) {
    match error
    case AccountGone => !Findable(t, owner)
    case CannotSignIn(reason) => Findable(t, owner) && AuthenticationError(t[owner].row.profile) == Some(reason)
    case _ => false
  }

  /** The pair handed to the caller is the one on record, both halves for the same account. */
  ghost predicate Delivered(pair: TokenPair, s: State) {
    && pair.refresh in s.tokens && s.tokens[pair.refresh].userId == pair.access.sub
    && pair.access.jti in s.issued && s.issued[pair.access.jti].claims == pair.access
  }

  function RotationPath(r: ReqId, result: Result<TokenPair, RefreshError>): seq<Event> {
    if result.Ok? then [Refresh(r, Load), Refresh(r, Sign(result.value.access.jti)), Refresh(r,
        Store(result.value.refresh))]
    else [Refresh(r, Load)]
  }

  /** The steps a request takes on the way to each answer. */
  function Path(r: ReqId, presented: TokenId, at: int, result: Result<TokenPair, RefreshError>): seq<Event> {
    match result
    case Ok(_) => [Refresh(r, Find(presented, at)), Refresh(r, Consume)] + RotationPath(r, result)
    case Err(UnknownToken) => [Refresh(r, Find(presented, at))]
    case Err(TokenExpired) => [Refresh(r, Find(presented, at)), Abandon(r)]
    case Err(TokenReused) => [Refresh(r, Find(presented, at)), Refresh(r, RevokeReused)]
    case Err(_) => [Refresh(r, Find(presented, at)), Refresh(r, Consume)] + RotationPath(r, result)
  }

  /** Reuse found only by losing the compare-and-swap. */
  function LostPath(r: ReqId, presented: TokenId, at: int): seq<Event> {
    [Refresh(r, Find(presented, at)), Refresh(r, Consume), Refresh(r, RevokeReused)]
  }

  class RefreshTokensUseCase {
    const db: Backend

    constructor (db: Backend)
      ensures this.db == db
    {
      this.db := db;
    }

    method FindByHash(ghost r: ReqId, hash: TokenId, at: int) returns (stored: RefreshToken?)
      requires db.Valid() && r !in db.model.reqs && at <= db.now
      modifies db, db.users, db.refreshTokens, db.denylist
      ensures db.Valid() && db.History(r) == old(db.History(r)) + [Refresh(r, Find(hash, at))]
      ensures stored == null <==> hash !in db.refreshTokens.rows
      ensures stored == null ==> r !in db.model.reqs
      ensures stored != null ==>
                && stored.ToSnapshot() == db.refreshTokens.rows[hash] && fresh(stored)
                && r in db.model.reqs && db.model.reqs[r] == RefreshFound(stored.ToSnapshot(), at)
    {
      hide Tracks, Own, Serial, Grows, Enabled, Next;
      db.Await(r);
      Finds(db.model, r, hash, at);
      db.Commit(Refresh(r, Find(hash, at)), r);
      stored := db.refreshTokens.FindByHash(hash);
    }

    method Consume(ghost r: ReqId, stored: RefreshToken, at: int) returns (won: bool)
      requires db.Valid() && r in db.model.reqs && db.model.reqs[r] == RefreshFound(stored.ToSnapshot(), at)
      requires IsUsable(stored.ToSnapshot(), at)
      modifies db, db.users, db.refreshTokens, db.denylist
      ensures db.Valid() && db.History(r) == old(db.History(r)) + [Refresh(r, RefreshStep.Consume)]
      ensures r in db.model.reqs
      ensures db.model.reqs[r] == if won then RefreshWon(stored.userId, stored.familyId, at)
              else RefreshLost(stored.familyId, at)
      ensures won ==>
                && stored.id in db.refreshTokens.rows && db.refreshTokens.rows[stored.id].revokedAt == Some(at)
                && db.refreshTokens.rows[stored.id].revokedReason == Some(Rotated)
    {
      hide Tracks, Own, Serial, Grows, Enabled, Next, RevokedWhere, Unused, RowsOK, ById;
      ghost var row := stored.ToSnapshot();
      db.Await(r);
      TracksParts(db.origin, db.trace, db.model);
      Consumes(db.model, r, row, at, db.supply);
      db.Commit(Refresh(r, RefreshStep.Consume), r);
      won := db.refreshTokens.Consume(stored.id, Rotated, at);
    }

    /** Revokes the family and fails. The statement is committed on its own, so the failure cannot undo it. */
    method DetectedReuse(ghost r: ReqId, family: FamilyId, at: int) returns (error: RefreshError)
      requires db.Valid() && r in db.model.reqs
      requires db.model.reqs[r] == RefreshLost(family, at)
            || (db.model.reqs[r].RefreshFound? && IsRevoked(db.model.reqs[r].row)
                && db.model.reqs[r].row.familyId == family && db.model.reqs[r].startedAt == at)
      modifies db, db.users, db.refreshTokens, db.denylist
      ensures db.Valid() && db.History(r) == old(db.History(r)) + [Refresh(r, RevokeReused)]
      ensures error == TokenReused && r !in db.model.reqs
      ensures forall id :: id in db.refreshTokens.rows && db.refreshTokens.rows[id].familyId == family ==>
                IsRevoked(db.refreshTokens.rows[id])
    {
      hide Tracks, Own, Serial, Grows, Enabled, Next, RevokedWhere;
      db.Await(r);
      Reuses(db.model, r, family, at);
      db.Commit(Refresh(r, RevokeReused), r);
      var _ := db.refreshTokens.RevokeFamily(family, ReuseDetected, at);
      error := TokenReused;
    }

    /** `findById` and, on what it returned, `assertCanAuthenticate`. */
    method LoadOwner(ghost r: ReqId, owner: UserId, ghost f: FamilyId, ghost at: int)
      returns (user: User?, error: Option<RefreshError>)
      requires db.Valid() && r in db.model.reqs && db.model.reqs[r] == RefreshWon(owner, f, at)
      modifies db, db.users, db.refreshTokens, db.denylist
      ensures db.Valid() && db.History(r) == old(db.History(r)) + [Refresh(r, Load)]
      ensures error.None? ==>
                && user != null && fresh(user) && r in db.model.reqs
                && db.model.reqs[r] == RefreshLoaded(user.ToSnapshot(), f, at)
      ensures error.Some? ==> r !in db.model.reqs && RefreshRefused(db.users.accounts, owner, error.value)
    {
      hide Tracks, Own, Serial, Grows, Enabled, Next, Unused, AuthenticationError, Dropped;
      db.Await(r);
      Loads(db.model, r, owner, f, at, db.supply);
      db.Commit(Refresh(r, Load), r);
      user := db.users.FindById(owner);
      if user == null { return user, Some(AccountGone); }
      var refused := user.AssertCanAuthenticate();
      if refused.Some? { return user, Some(CannotSignIn(refused.value)); }
      error := None;
    }

    method SignAccess(ghost r: ReqId, user: User, ghost f: FamilyId, ghost at: int) returns (claims: Claims)
      requires db.Valid() && r in db.model.reqs && db.model.reqs[r] == RefreshLoaded(user.ToSnapshot(), f, at)
      modifies db, db.users, db.refreshTokens, db.denylist
      ensures db.Valid() && db.History(r) == old(db.History(r)) + [Refresh(r, Sign(claims.jti))]
      ensures r in db.model.reqs && db.model.reqs[r] == RefreshSigned(user.id, f, at)
      ensures claims.sub == user.id && claims.jti in db.model.issued
              && db.model.issued[claims.jti] == Issue(claims, user.ToSnapshot())
      ensures claims.tv == user.tokenVersion && claims.adm == user.isPlatformAdmin
      ensures claims.iat * 1000 <= db.now < claims.iat * 1000 + 1000 && claims.exp == claims.iat + db.config.accessTtlS
      ensures user.ToSnapshot() == old(user.ToSnapshot())
    {
      hide Tracks, Own, Serial, Grows, Enabled, Next;
      db.Await(r);
      var jti := db.GenerateId();
      Signs(db.model, r, user.ToSnapshot(), f, at, jti);
      db.Commit(Refresh(r, Sign(jti)), r);
      claims := Signed(jti, user.ToSnapshot(), db.config.accessTtlS, db.now);
    }

    method StoreSuccessor(ghost r: ReqId, owner: UserId, family: FamilyId, at: int) returns (token: TokenId)
      requires db.Valid() && r in db.model.reqs && db.model.reqs[r] == RefreshSigned(owner, family, at)
      modifies db, db.users, db.refreshTokens, db.denylist
      ensures db.Valid() && db.History(r) == old(db.History(r)) + [Refresh(r, Store(token))]
      ensures forall id :: id in old(db.model.issued) ==>
                id in db.model.issued && db.model.issued[id] == old(db.model.issued)[id]
      ensures r !in db.model.reqs
      ensures token in db.refreshTokens.rows
      ensures db.refreshTokens.rows[token] == Issued(token, owner, family, db.config.refreshTtlS, at)
    {
      hide Tracks, Own, Serial, Grows, Enabled, Next, Unused, RowsOK, AccessInv;
      db.Await(r);
      token := db.GenerateId();
      Stores(db.model, r, owner, family, at, token, db.supply);
      TracksParts(db.origin, db.trace, db.model);
      db.Commit(Refresh(r, Store(token)), r);
      var successor := new RefreshToken.Issue(token, owner, family, db.config.refreshTtlS, at);
      db.refreshTokens.Create(successor);
    }

    /**
     * The use case. Whatever ran in between, the request itself took exactly the steps of one of the
     * protocol's paths, and the answer says which: one rotation and nothing else on success; a revoked
     * family, committed before the error, on reuse; and no write at all when it fails earlier.
     */
    method Execute(ghost r: ReqId, presented: TokenId)
      returns (result: Result<TokenPair, RefreshError>, ghost found: Option<TokenRow>)
      requires db.Valid() && r !in db.model.reqs
      modifies db, db.users, db.refreshTokens, db.denylist
      ensures db.Valid() && r !in db.model.reqs
      ensures db.History(r) == old(db.History(r)) + Path(r, presented, old(db.now), result)
           || (result == Err(TokenReused) && db.History(r) == old(db.History(r)) + LostPath(r, presented, old(db.now)))
      ensures result == Err(UnknownToken) <==> found.None?
      ensures result == Err(TokenExpired) <==>
                found.Some? && !IsRevoked(found.value) && IsExpired(found.value, old(db.now))
      ensures found.Some? && IsRevoked(found.value) ==> result == Err(TokenReused)
      ensures result == Err(TokenReused) && !IsRevoked(found.value) ==>
                db.History(r) == old(db.History(r)) + LostPath(r, presented, old(db.now))
      ensures result.Ok? ==> Delivered(result.value, db.model)
    {
      hide Tracks, Own, Serial, Grows, Enabled, Next, Unused;
      var now := db.now;
      var stored := FindByHash(r, presented, now);
      if stored == null { return Err(UnknownToken), None; }
      found := Some(stored.ToSnapshot());
      if stored.revokedAt.Some? {
        var error := DetectedReuse(r, stored.familyId, now);
        return Err(error), found;
      }
      if stored.expiresAt <= now {
        Fail(r);
        return Err(TokenExpired), found;
      }
      var won := Consume(r, stored, now);
      if !won {
        var error := DetectedReuse(r, stored.familyId, now);
        return Err(error), found;
      }
      result := Rotate(r, stored.userId, stored.familyId, now);
    }

    /** The rest of the use case, once this request is the one that consumed the token. */
    method Rotate(ghost r: ReqId, owner: UserId, family: FamilyId, now: int)
      returns (result: Result<TokenPair, RefreshError>)
      requires db.Valid() && r in db.model.reqs && db.model.reqs[r] == RefreshWon(owner, family, now)
      modifies db, db.users, db.refreshTokens, db.denylist
      ensures db.Valid() && r !in db.model.reqs
      ensures db.History(r) == old(db.History(r)) + RotationPath(r, result)
      ensures result.Err? ==> result.error.AccountGone? || result.error.CannotSignIn?
      ensures result.Ok? ==> Delivered(result.value, db.model)
    {
      hide Tracks, Own, Serial, Grows, Enabled, Next, Unused;
      var user, refused := LoadOwner(r, owner, family, now);
      if refused.Some? { return Err(refused.value); }
      var access := SignAccess(r, user, family, now);
      var refresh := StoreSuccessor(r, user.id, family, now);
      return Ok(TokenPair(access, refresh));
    }

    ghost method Fail(r: ReqId)
      requires db.Valid() && r in db.model.reqs && db.model.reqs[r].RefreshFound?
      modifies db`model, db`trace
      ensures db.Valid() && db.History(r) == old(db.History(r)) + [Abandon(r)] && r !in db.model.reqs
    {
      hide Tracks, Own, Enabled, Next;
      Abandons(db.model, r);
      db.Commit(Abandon(r), r);
    }
  }
}
