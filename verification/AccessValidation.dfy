/** Accepting an access token, statement by statement: the denylist first, the account only after it. */
module AccessValidation {
  import opened Common
  import opened UserEntity
  import opened UserRepository
  import opened RefreshTokens
  import opened AccessTokens
  import opened Session
  import opened SessionInvariant
  import opened FamilyInvariant
  import opened SessionTheorems
  import opened Interleaving
  import opened Backend

  /** The look-up saw `s1`, the account was read from `s2`: what got through both was to be accepted at `s0`. */
  lemma Decided(s0: State, s1: State, s2: State, claims: Claims, denied: bool, ok: bool)
    requires Inv(s0) && Inv(s1) && Inv(s2) && Ahead(s0, s1) && Ahead(s0, s2)
    requires claims.jti in s0.issued && s0.issued[claims.jti].claims == claims && Unexpired(claims, s0.now)
    requires !denied && !Denied(s1.denylist, claims.jti, s1.now)
    requires ok == PassesValidate(claims, denied, AuthSnapshot(s2, claims.sub))
    ensures ok ==> Accepts(s0, claims.jti)
                   || (Denied(s0.denylist, claims.jti, s0.now) && claims.exp * 1000 <= s1.now)
  {
    hide Inv, Accepts, AccessInv, FamilyInv, OwnersOK, Serial;
    InvParts(s0);
    AheadSame(s0, s0);
    hide Ahead;
    if !Accepts(s0, claims.jti) { SpreadStep(s0, claims.jti, s0, s1, s2); }
  }

  class JwtStrategy {
    const db: Backend

    constructor (db: Backend)
      ensures this.db == db
    {
      this.db := db;
    }

    /**
     * `validate`, for a token whose signature and expiry were just verified. However much happens between the
     * statements, a token that was to be rejected when it began is rejected, unless it was denylisted and the
     * look-up came only after its own expiry; and a principal has the privilege its account has at the end.
     */
    method Validate(ghost r: ReqId, claims: Claims, reachable: bool)
      returns (result: Result<Principal, Rejection>, ghost askedAt: int)
      requires db.Valid() && claims.jti in db.model.issued && db.model.issued[claims.jti].claims == claims
      requires Unexpired(claims, db.now)
      modifies db, db.users, db.refreshTokens, db.denylist
      ensures db.Valid() && db.History(r) == old(db.History(r)) && old(db.now) <= askedAt <= db.now
      ensures result.Ok? ==>
                || Accepts(old(db.model), claims.jti)
                || (Denied(old(db.model).denylist, claims.jti, old(db.now)) && claims.exp * 1000 <= askedAt)
      ensures result.Ok? ==>
                && reachable && claims.sub in db.users.accounts
                && var p := db.users.accounts[claims.sub].row.profile;
                   p.tokenVersion == claims.tv && p.status == ACTIVE && p.deletedAt.None?
                   && result.value.isPlatformAdmin == p.isPlatformAdmin
      ensures result.Ok? ==>
                && result.value.userId == claims.sub && result.value.jti == claims.jti
                && result.value.tokenExpiresAt == claims.exp * 1000
      ensures claims.jti in db.model.issued && db.model.issued[claims.jti].claims == claims
      ensures r in db.model.reqs <==> r in old(db.model.reqs)
      ensures result.Err? && !reachable ==> result.error == Denylisted
    {
      hide Tracks, Own, Serial, Grows, Accepts, Unused, Inv, AccessInv, FamilyInv, OwnersOK;
      ghost var s0 := db.model;
      Since(db.origin, db.trace, s0, db.trace, s0);
      db.Await(r);
      ghost var s1 := db.model;
      Since(db.origin, db.trace, s1, db.trace, s1);
      askedAt := db.now;
      assert s0.now <= s1.now;
      var denied := db.denylist.Has(claims.jti, db.now, reachable);
      if denied { return Err(Denylisted), askedAt; }
      db.Await(r);
      Since(db.origin, db.trace, db.model, db.trace, db.model);
      assert s1.now <= db.now && claims.jti in db.model.issued && db.model.issued[claims.jti].claims == claims;
      hide Ahead;
      var snapshot := db.users.FindAuthSnapshot(claims.sub);
      result := AccessTokens.Validate(Some(claims.sub), Some(claims.jti), claims.tv, claims.exp, denied, snapshot);
      AheadTransitive(s0, s1, db.model);
      Decided(s0, s1, db.model, claims, denied, result.Ok?);
      InvParts(db.model);
      if snapshot.Some? { RowHasId(db.model.users, claims.sub); }
    }
  }
}
