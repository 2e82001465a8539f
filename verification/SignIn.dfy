/** Signing in with a password: the use case, statement by statement, and the run of the protocol it makes. */
module SignIn {
  import opened Common
  import opened UserEntity
  import opened UserRepository
  import opened RefreshTokens
  import opened AccessTokens
  import opened Session
  import opened SessionInvariant
  import opened FamilyInvariant
  import opened SessionTheorems
  import opened Interleaving
  import opened Backend
  import opened TokenRotation

  datatype LoginError = InvalidCredentials | Refused(reason: AuthError) | NotSaved(error: SaveError)

  // What each statement does to the protocol's state.

  lemma Verifies(s: State, r: ReqId, id: UserId, password: string)
    requires r !in s.reqs && Findable(s.users, id) && CanAuthenticate(s.users[id].row.profile)
    requires Verify(s.users[id].row.profile.passwordHash.value, password)
    ensures Enabled(s, Login(r, VerifyPassword(id, password)))
    ensures Next(s, Login(r, VerifyPassword(id, password))) == Goto(s, r, LoginVerified(s.users[id].row, password))
  {
  }

  function Rehashed(password: string, cost: nat, at: int): Edit {
    Edit(UpgradePasswordHash(PasswordHash(password, cost)), at)
  }

  lemma Rehashes(s: State, r: ReqId, u: UserSnapshot, password: string, at: int)
    requires r in s.reqs && s.reqs[r] == LoginVerified(u, password) && NeedsRehash(s.config, u)
    ensures Enabled(s, Login(r, Rehash(at)))
    ensures var e := Rehashed(password, s.config.hashCost, at);
            Next(s, Login(r, Rehash(at))) ==
              SavedState(s, r, Saved(s.users, Apply(u, e), [e]), Some(LoginReady(Apply(u, e))))
  {
    var e := Rehashed(password, s.config.hashCost, at);
    ApplyOne(u, e);
    assert RehashEdit(s, s.reqs[r], at) == e;
    hide ApplyAll, Apply, Saved;
  }

  lemma SignsIn(s: State, r: ReqId, u: UserSnapshot, jti: Jti)
    requires r in s.reqs && jti !in s.issued
    requires s.reqs[r] == LoginReady(u)
          || (s.reqs[r].LoginVerified? && s.reqs[r].user == u && !NeedsRehash(s.config, u))
    ensures Enabled(s, Login(r, SignLogin(jti)))
    ensures Next(s, Login(r, SignLogin(jti))) == SignNext(s, r, jti, u, LoginSigned(u.id))
  {
  }

  lemma Opens(s: State, r: ReqId, owner: UserId, token: TokenId, family: FamilyId, at: int, supply: nat)
    requires r in s.reqs && s.reqs[r] == LoginSigned(owner) && at <= s.now
    requires token !in s.minted && family !in s.families && Unused(s, supply) && token < supply && family < supply
    ensures Enabled(s, Login(r, OpenFamily(token, family, at)))
    ensures Next(s, Login(r, OpenFamily(token, family, at))) == OpenNext(s, r, owner, token, family, at)
    ensures Unused(OpenNext(s, r, owner, token, family, at), supply)
  {
  }

  lemma Touches(s: State, r: ReqId, owner: UserId, at: int)
    requires r in s.reqs && s.reqs[r] == LoginStored(owner)
    ensures Enabled(s, Login(r, TouchLogin(at)))
    ensures Next(s, Login(r, TouchLogin(at))) == Done(s.(users := Touched(s.users, owner, at, s.now)), r)
  {
  }

  /** The row that answers for an address: undeleted, and by the unique index the only one. */
  ghost predicate AnswersFor(t: UserTable, id: UserId, email: string) {
    Findable(t, id) && t[id].row.profile.email == email
  }

  ghost predicate HasPassword(t: UserTable, id: UserId, password: string)
    requires id in t
  {
    t[id].row.profile.passwordHash.Some? && Verify(t[id].row.profile.passwordHash.value, password)
  }

  /** Why a login is refused: no such account or not its password; only after that, its status. */
  ghost predicate LoginRefused(t: UserTable, email: string, password: string, error: LoginError) {
    match error
    case InvalidCredentials => forall k :: AnswersFor(t, k, email) ==> !HasPassword(t, k, password)
    case Refused(reason) =>
      exists k :: AnswersFor(t, k, email) && HasPassword(t, k, password)
                  && AuthenticationError(t[k].row.profile) == Some(reason)
    case NotSaved(_) => false
  }

  /** One token pair signed and one new family opened for it, then the login time; all dated as they happened. */
  ghost predicate OpeningPath(r: ReqId, pair: TokenPair, path: seq<Event>, from: int, until: int) {
    exists family, at, at' ::
      from <= at <= at' <= until &&
      path == [Login(r, SignLogin(pair.access.jti)), Login(r, OpenFamily(pair.refresh, family, at)),
               Login(r, TouchLogin(at'))]
  }

  ghost predicate IsRehash(r: ReqId, e: Event, from: int, until: int) {
    e.Login? && e.r == r && e.login.Rehash? && from <= e.login.at <= until
  }

  /** The steps of a login that got through: the password was right, and perhaps re-hashed, before the opening. */
  ghost predicate LoginPath(r: ReqId, u: UserId, password: string, pair: TokenPair, path: seq<Event>, from: int,
                            until: int) {
    && path != [] && path[0] == Login(r, VerifyPassword(u, password))
    && (OpeningPath(r, pair, path[1..], from, until)
        || (|path| > 1 && IsRehash(r, path[1], from, until) && OpeningPath(r, pair, path[2..], from, until)))
  }

  /**
   * What a login makes of the hash it verified: the same when it was made with at least the configured cost, and
   * otherwise one of that cost for the same password.
   */
  ghost predicate HashUpToDate(before: Option<PasswordHash>, after: Option<PasswordHash>, password: string, cost: nat,
                               rehashed: bool)
  {
    && before.Some? && before.value.secret == password
    && (rehashed <==> before.value.cost < cost)
    && after == (if rehashed then Some(PasswordHash(password, cost)) else before)
  }

  predicate LoggedInWithin(u: UserSnapshot, from: int, until: int) {
    u.lastLoginAt.Some? && from <= u.lastLoginAt.value <= until
  }

  lemma OneAnswer(t: UserTable, id: UserId, email: string)
    requires Serial(t) && AnswersFor(t, id, email)
    ensures forall k :: AnswersFor(t, k, email) ==> k == id
  {
    hide SerialAccount;
  }

  /** A row as it was stays a past state of the account. */
  lemma LoadedSince(origin: State, trace: seq<Event>, s: State, trace': seq<Event>, s': State, id: UserId)
    requires Tracks(origin, trace, s) && Tracks(origin, trace', s') && trace <= trace' && id in s.users
    ensures Loaded(s'.users, s.users[id].row)
  {
    TracksParts(origin, trace, s);
    RowIsLoaded(s.users, id);
    Since(origin, trace, s, trace', s');
    LoadedStays(s.users, s'.users, s.users[id].row);
  }

  class LoginUseCase {
    const db: Backend

    constructor (db: Backend)
      ensures this.db == db
    {
      this.db := db;
    }

    /** Look-up, password check and status check, in that order; all three read the row as loaded. */
    method FindAndVerify(ghost r: ReqId, email: string, password: string)
      returns (id: UserId, user: User?, error: Option<LoginError>)
      requires db.Valid() && r !in db.model.reqs
      modifies db, db.users, db.refreshTokens, db.denylist
      ensures db.Valid() && old(db.now) <= db.now
      ensures error.Some? ==>
                && r !in db.model.reqs && db.History(r) == old(db.History(r))
                && !error.value.NotSaved? && LoginRefused(db.users.accounts, email, password, error.value)
      ensures error.None? ==>
                && AnswersFor(db.users.accounts, id, email) && CanAuthenticate(db.users.accounts[id].row.profile)
                && user != null && fresh(user) && user.ToSnapshot() == db.users.accounts[id].row && user.id == id
                && r in db.model.reqs && db.model.reqs[r] == LoginVerified(user.ToSnapshot(), password)
                && user.passwordHash.Some? && user.passwordHash.value.secret == password
                && db.History(r) == old(db.History(r)) + [Login(r, VerifyPassword(id, password))]
    {
      hide Tracks, Own, Serial, Grows, Enabled, Next, AccessInv, RowsOK;
      db.Await(r);
      TracksParts(db.origin, db.trace, db.model);
      id, user := db.users.FindByEmail(email);
      if user == null { return id, user, Some(InvalidCredentials); }
      OneAnswer(db.users.accounts, id, email);
      if user.passwordHash.None? { return id, user, Some(InvalidCredentials); }
      if !Verify(user.passwordHash.value, password) { return id, user, Some(InvalidCredentials); }
      var refused := user.AssertCanAuthenticate();
      if refused.Some? {
        assert HasPassword(db.users.accounts, id, password);
        return id, user, Some(Refused(refused.value));
      }
      RowHasId(db.model.users, id);
      Verifies(db.model, r, id, password);
      db.Commit(Login(r, VerifyPassword(id, password)), r);
      error := None;
    }

    /** The upgraded hash is saved under the optimistic lock; losing it fails the login. */
    method SaveRehash(ghost r: ReqId, user: User, ghost loaded: UserSnapshot, password: string, at: int)
      returns (error: Option<SaveError>)
      requires db.Valid() && r in db.model.reqs && db.model.reqs[r] == LoginVerified(loaded, password)
      requires NeedsRehash(db.config, loaded)
      requires user.ToSnapshot() == Apply(loaded, Rehashed(password, db.config.hashCost, at))
      modifies db, db.users, db.refreshTokens, db.denylist
      ensures db.Valid() && user.ToSnapshot() == old(user.ToSnapshot())
      ensures db.History(r) == old(db.History(r)) + [Login(r, Rehash(at))]
      ensures old(db.trace) <= db.trace && old(db.now) <= db.now
      ensures error.Some? ==> r !in db.model.reqs
      ensures error.None? ==> r in db.model.reqs && db.model.reqs[r] == LoginReady(user.ToSnapshot())
    {
      hide Tracks, Own, Serial, Grows, Enabled, Next, Apply, Saved, NeedsRehash;
      db.Await(r);
      Rehashes(db.model, r, loaded, password, at);
      db.Commit(Login(r, Rehash(at)), r);
      var _, failed := db.users.Save(user, [Rehashed(password, db.config.hashCost, at)]);
      error := failed;
    }

    method SignAccess(ghost r: ReqId, user: User) returns (claims: Claims)
      requires db.Valid() && r in db.model.reqs
      requires db.model.reqs[r] == LoginReady(user.ToSnapshot())
            || (db.model.reqs[r].LoginVerified? && db.model.reqs[r].user == user.ToSnapshot()
                && !NeedsRehash(db.config, user.ToSnapshot()))
      modifies db, db.users, db.refreshTokens, db.denylist
      ensures db.Valid() && db.History(r) == old(db.History(r)) + [Login(r, SignLogin(claims.jti))]
      ensures old(db.trace) <= db.trace && old(db.now) <= db.now
      ensures r in db.model.reqs && db.model.reqs[r] == LoginSigned(user.id)
      ensures claims.sub == user.id && claims.jti in db.model.issued
              && db.model.issued[claims.jti] == Issue(claims, user.ToSnapshot())
      ensures claims.tv == user.tokenVersion && claims.adm == user.isPlatformAdmin
      ensures claims.iat * 1000 <= db.now < claims.iat * 1000 + 1000 && claims.exp == claims.iat + db.config.accessTtlS
    {
      hide Tracks, Own, Serial, Grows, Enabled, Next, NeedsRehash;
      db.Await(r);
      var jti := db.GenerateId();
      SignsIn(db.model, r, user.ToSnapshot(), jti);
      db.Commit(Login(r, SignLogin(jti)), r);
      claims := Signed(jti, user.ToSnapshot(), db.config.accessTtlS, db.now);
    }

    method StoreFirst(ghost r: ReqId, owner: UserId) returns (token: TokenId, ghost step: LoginStep)
      requires db.Valid() && r in db.model.reqs && db.model.reqs[r] == LoginSigned(owner)
      modifies db, db.users, db.refreshTokens, db.denylist
      ensures db.Valid() && db.History(r) == old(db.History(r)) + [Login(r, step)]
      ensures old(db.trace) <= db.trace && old(db.now) <= db.now
      ensures step.OpenFamily? && step.token == token && step.at == old(db.now)
      ensures forall id :: id in old(db.model.issued) ==>
                id in db.model.issued && db.model.issued[id] == old(db.model.issued)[id]
      ensures r in db.model.reqs && db.model.reqs[r] == LoginStored(owner)
      ensures token in db.refreshTokens.rows
      ensures db.refreshTokens.rows[token] == Issued(token, owner, step.family, db.config.refreshTtlS, step.at)
    {
      hide Tracks, Own, Serial, Grows, Enabled, Next, Unused, RowsOK, AccessInv;
      var at := db.now;
      db.Await(r);
      token := db.GenerateId();
      var family := db.GenerateId();
      Opens(db.model, r, owner, token, family, at, db.supply);
      TracksParts(db.origin, db.trace, db.model);
      step := OpenFamily(token, family, at);
      db.Commit(Login(r, step), r);
      var first := new RefreshToken.Issue(token, owner, family, db.config.refreshTtlS, at);
      db.refreshTokens.Create(first);
    }

    method TouchLastLogin(ghost r: ReqId, owner: UserId, at: int)
      requires db.Valid() && r in db.model.reqs && db.model.reqs[r] == LoginStored(owner)
      modifies db, db.users, db.refreshTokens, db.denylist
      ensures db.Valid() && db.History(r) == old(db.History(r)) + [Login(r, TouchLogin(at))]
      ensures old(db.trace) <= db.trace && old(db.now) <= db.now
      ensures r !in db.model.reqs
      ensures owner in db.users.accounts ==> db.users.accounts[owner].row.lastLoginAt == Some(at)
      ensures forall id :: id in old(db.model.issued) ==>
                id in db.model.issued && db.model.issued[id] == old(db.model.issued)[id]
    {
      hide Tracks, Own, Serial, Grows, Enabled, Next, Touched;
      db.Await(r);
      Touches(db.model, r, owner, at);
      db.Commit(Login(r, TouchLogin(at)), r);
      db.users.TouchLastLogin(owner, at, db.now);
    }

    /** Mints the token pair and opens its family; the login time is recorded last. */
    method OpenSession(ghost r: ReqId, user: User, ghost since: int) returns (pair: TokenPair, ghost path: seq<Event>)
      requires db.Valid() && r in db.model.reqs
      requires db.model.reqs[r] == LoginReady(user.ToSnapshot())
            || (db.model.reqs[r].LoginVerified? && db.model.reqs[r].user == user.ToSnapshot()
                && !NeedsRehash(db.config, user.ToSnapshot()))
      requires since <= db.now
      modifies db, db.users, db.refreshTokens, db.denylist
      ensures db.Valid() && r !in db.model.reqs && db.History(r) == old(db.History(r)) + path
      ensures OpeningPath(r, pair, path, since, db.now) && pair.access.sub == user.id
      ensures |path| == 3 && path[0] == Login(r, SignLogin(pair.access.jti))
      ensures user.id in db.users.accounts ==> LoggedInWithin(db.users.accounts[user.id].row, old(db.now), db.now)
      ensures old(db.trace) <= db.trace && old(db.now) <= db.now
      ensures pair.access.jti in db.model.issued
              && db.model.issued[pair.access.jti] == Issue(pair.access, old(user.ToSnapshot()))
    {
      hide Tracks, Own, Serial, Grows, Enabled, Next, Unused, NeedsRehash;
      var access := SignAccess(r, user);
      ghost var step;
      var refresh;
      refresh, step := StoreFirst(r, user.id);
      var at := db.now;
      TouchLastLogin(r, user.id, at);
      pair := TokenPair(access, refresh);
      path := [Login(r, SignLogin(access.jti)), Login(r, step), Login(r, TouchLogin(at))];
    }

    /**
     * `if (needsRehash) …`: exactly a hash cheaper than configured is replaced, by one of the configured cost for
     * the same password; a stronger one stays.
     */
    method UpgradeHash(ghost r: ReqId, user: User, password: string)
      returns (error: Option<SaveError>, ghost steps: seq<Event>)
      requires db.Valid() && r in db.model.reqs && db.model.reqs[r] == LoginVerified(user.ToSnapshot(), password)
      requires user.passwordHash.Some? && user.passwordHash.value.secret == password
      modifies db, db.users, db.refreshTokens, db.denylist, user
      ensures db.Valid() && db.History(r) == old(db.History(r)) + steps
      ensures old(db.trace) <= db.trace && old(db.now) <= db.now
      ensures user.email == old(user.email)
      ensures user.passwordHash == if old(user.passwordHash.value.cost) < db.config.hashCost
                                   then Some(PasswordHash(password, db.config.hashCost)) else old(user.passwordHash)
      ensures if old(user.passwordHash.value.cost) < db.config.hashCost
              then |steps| == 1 && IsRehash(r, steps[0], old(db.now), db.now) else steps == [] && error.None?
      ensures error.Some? ==> r !in db.model.reqs
      ensures error.None? ==>
                && r in db.model.reqs
                && (db.model.reqs[r] == LoginReady(user.ToSnapshot())
                    || (db.model.reqs[r].LoginVerified? && db.model.reqs[r].user == user.ToSnapshot()
                        && !NeedsRehash(db.config, user.ToSnapshot())))
    {
      hide Tracks, Own, Serial, Grows, Enabled, Next, Unused;
      error, steps := None, [];
      if user.passwordHash.value.cost < db.config.hashCost {
        ghost var loaded := user.ToSnapshot();
        var at := db.now;
        user.UpgradePasswordHash(PasswordHash(password, db.config.hashCost), at);
        error := SaveRehash(r, user, loaded, password, at);
        steps := [Login(r, Rehash(at))];
      }
    }

    /** The rest of the login, once the password was verified: the hash brought up to date, then the session. */
    method Proceed(ghost r: ReqId, user: User, password: string, ghost since: int)
      returns (result: Result<TokenPair, LoginError>, ghost path: seq<Event>)
      requires db.Valid() && r in db.model.reqs && db.model.reqs[r] == LoginVerified(user.ToSnapshot(), password)
      requires user.passwordHash.Some? && user.passwordHash.value.secret == password && since <= db.now
      modifies db, db.users, db.refreshTokens, db.denylist, user
      ensures db.Valid() && r !in db.model.reqs && db.History(r) == old(db.History(r)) + path
      ensures old(db.trace) <= db.trace && old(db.now) <= db.now
      ensures path != []
      ensures IsRehash(r, path[0], since, db.now) <==> old(user.passwordHash.value.cost) < db.config.hashCost
      ensures match result
              case Ok(pair) =>
                && OpeningPath(r, pair, if IsRehash(r, path[0], since, db.now) then path[1..] else path, since, db.now)
                && pair.access.sub == user.id && pair.access.jti in db.model.issued
                && db.model.issued[pair.access.jti].claims == pair.access
                && var basis := db.model.issued[pair.access.jti].basis;
                   && basis.id == user.id && basis.version == user.version && basis.profile.email == old(user.email)
                   && HashUpToDate(old(user.passwordHash), basis.profile.passwordHash, password, db.config.hashCost,
                                   IsRehash(r, path[0], since, db.now))
                   && (user.id in db.users.accounts ==>
                         LoggedInWithin(db.users.accounts[user.id].row, since, db.now))
              case Err(NotSaved(_)) => |path| == 1 && IsRehash(r, path[0], since, db.now)
              case Err(_) => false
    {
      hide Tracks, Own, Serial, Grows, Enabled, Next, Unused, OpeningPath, NeedsRehash;
      ghost var opening;
      var failed, pair;
      failed, path := UpgradeHash(r, user, password);
      if failed.Some? { return Err(NotSaved(failed.value)), path; }
      ghost var steps := path;
      pair, opening := OpenSession(r, user, since);
      path := steps + opening;
      assert if steps == [] then path == opening else path[1..] == opening;
      result := Ok(pair);
    }

    method Execute(ghost r: ReqId, email: string, password: string)
      returns (result: Result<TokenPair, LoginError>, ghost path: seq<Event>)
      requires db.Valid() && r !in db.model.reqs
      modifies db, db.users, db.refreshTokens, db.denylist
      ensures db.Valid() && r !in db.model.reqs && db.History(r) == old(db.History(r)) + path
      ensures match result
              case Ok(pair) =>
                && LoginPath(r, pair.access.sub, password, pair, path, old(db.now), db.now)
                && pair.access.jti in db.model.issued && db.model.issued[pair.access.jti].claims == pair.access
                && db.model.issued[pair.access.jti].basis.id == pair.access.sub
                && db.model.issued[pair.access.jti].basis.profile.email == email
                && (var basis := db.model.issued[pair.access.jti].basis;
                    && basis.id in db.users.accounts && Versioned(db.users.accounts[basis.id], basis.version)
                    && HashUpToDate(AsOf(db.users.accounts[basis.id], basis.version).passwordHash,
                                    basis.profile.passwordHash, password, db.config.hashCost,
                                    IsRehash(r, path[1], old(db.now), db.now)))
                && pair.access.sub in db.users.accounts
                && LoggedInWithin(db.users.accounts[pair.access.sub].row, old(db.now), db.now)
              case Err(NotSaved(_)) => |path| == 2 && IsRehash(r, path[1], old(db.now), db.now)
              case Err(e) => path == [] && LoginRefused(db.users.accounts, email, password, e)
    {
      hide Tracks, Own, Serial, Grows, Enabled, Next, Unused, OpeningPath, LoginRefused, Ahead, Inv,
          NeedsRehash, HashUpToDate, LoggedInWithin;
      var id, user, refused := FindAndVerify(r, email, password);
      if refused.Some? { return Err(refused.value), []; }
      ghost var trace, model := db.trace, db.model;
      ghost var rest;
      result, rest := Proceed(r, user, password, old(db.now));
      path := [Login(r, VerifyPassword(id, password))] + rest;
      assert path[1..] == rest && path[2..] == rest[1..];
      LoadedSince(db.origin, trace, model, db.trace, db.model, id);
    }
  }
}
