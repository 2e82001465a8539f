/** Signing out over the wire: the guard accepts the access token, and the use case is given what it found. */
module AuthController {
  import opened Common
  import opened UserEntity
  import opened UserRepository
  import opened RefreshTokens
  import opened AccessTokens
  import opened Session
  import opened SessionInvariant
  import opened FamilyInvariant
  import opened SessionTheorems
  import opened Interleaving
  import opened Backend
  import opened AccessValidation
  import opened SignOut

  lemma NoLongerAccepted(s: State, userId: UserId, access: AccessRef)
    requires Authenticated(s, userId, Some(access)) && NoLongerGood(access, s.denylist, s.now)
    ensures access.jti in s.issued && !Accepts(s, access.jti)
  {
    ExpiryInMilliseconds(s.issued[access.jti].claims, s.now);
  }

  class AuthController {
    const db: Backend
    const jwtStrategy: JwtStrategy
    const logoutUseCase: LogoutUseCase

    constructor (db: Backend)
      ensures this.db == db && jwtStrategy.db == db && logoutUseCase.db == db
    {
      this.db := db;
      jwtStrategy := new JwtStrategy(db);
      logoutUseCase := new LogoutUseCase(db);
    }

    /**
     * The principal the guard hands on names the very token it accepted, so the token that signed out is not
     * accepted when the answer goes out, whatever else ran in between and with Redis there to take the entry;
     * and no continuation accepts it again.
     */
    method Logout(ghost r: ReqId, claims: Claims, presented: Option<TokenId>, answers: bool, reachable: bool)
      returns (result: Result<Principal, Rejection>)
      requires jwtStrategy.db == db && logoutUseCase.db == db && db.Valid() && r !in db.model.reqs
      requires claims.jti in db.model.issued && db.model.issued[claims.jti].claims == claims
      requires Unexpired(claims, db.now)
      modifies db, db.users, db.refreshTokens, db.denylist
      ensures db.Valid() && r !in db.model.reqs
      ensures result.Err? ==> db.History(r) == old(db.History(r))
      ensures result.Ok? && reachable ==> claims.jti in db.model.issued && !Accepts(db.model, claims.jti)
      ensures result.Ok? && reachable ==>
                forall es, t :: Run(db.model, es) == Some(t) ==> claims.jti in t.issued && !Accepts(t, claims.jti)
    {
      hide Tracks, Own, Serial, Grows, Enabled, Next, Unused, Accepts, Run, NoLongerGood, DenyPath;
      ghost var askedAt;
      result, askedAt := jwtStrategy.Validate(r, claims, answers);
      if result.Err? { return; }
      var access := AccessRef(result.value.jti, result.value.tokenExpiresAt);
      ghost var revoked, asked, denial :=
        logoutUseCase.Execute(r, result.value.userId, presented, Some(access), reachable);
      if reachable {
        NoLongerAccepted(db.model, result.value.userId, access);
        Since(db.origin, db.trace, db.model, db.trace, db.model);
        hide Inv;
        forall es, t | Run(db.model, es) == Some(t) ensures claims.jti in t.issued && !Accepts(t, claims.jti) {
          RejectionIsPermanent(db.model, claims.jti, es, t);
        }
      }
    }
  }
}
