/** Signing out of one session or of all of them, statement by statement. */
module SignOut {
  import opened Common
  import opened UserEntity
  import opened UserRepository
  import opened RefreshTokens
  import opened AccessTokens
  import opened Session
  import opened SessionInvariant
  import opened FamilyInvariant
  import opened SessionTheorems
  import opened Interleaving
  import opened Backend

  /** What the request knows of the access token it came with. */
  datatype AccessRef = AccessRef(jti: Jti, expiresAt: int)

  function JtiOf(access: Option<AccessRef>): Option<Jti> {
    if access.Some? then Some(access.value.jti) else None
  }

  ghost predicate Authenticated(s: State, userId: UserId, access: Option<AccessRef>) {
    access.Some? ==>
      && access.value.jti in s.issued && s.issued[access.value.jti].claims.sub == userId
      && access.value.expiresAt == s.issued[access.value.jti].claims.exp * 1000
  }

  // What each statement does to the protocol's state.

  lemma LooksUp(s: State, r: ReqId, userId: UserId, presented: Option<TokenId>, jti: Option<Jti>, at: int)
    requires r !in s.reqs && at <= s.now && OwnToken(s, userId, jti)
    ensures Enabled(s, Event.Logout(r, FindSession(userId, presented, jti, at)))
    ensures Next(s, Event.Logout(r, FindSession(userId, presented, jti, at))) ==
              if presented.Some? && presented.value in s.tokens && s.tokens[presented.value].userId == userId
              then Goto(s, r, LogoutFound(s.tokens[presented.value].familyId, jti, at)) else Goto(s, r, Denying(jti))
  {
  }

  lemma EndsSession(s: State, r: ReqId, f: FamilyId, jti: Option<Jti>, at: int)
    requires r in s.reqs && s.reqs[r] == LogoutFound(f, jti, at)
    ensures Enabled(s, Event.Logout(r, RevokeSession))
    ensures Next(s, Event.Logout(r, RevokeSession)) ==
              Goto(RevokedIn(s, OfFamily(f), Reason.Logout, at), r, Denying(jti))
  {
  }

  lemma EndsAll(s: State, r: ReqId, userId: UserId, access: Option<AccessRef>, at: int)
    requires r !in s.reqs && Authenticated(s, userId, access)
    ensures var e := Event.Logout(r, RevokeAll(userId, JtiOf(access), at));
            && Enabled(s, e)
            && Next(s, e) == Goto(RevokedIn(s, OfUser(userId), Reason.LogoutAll, at), r, LogoutAllStarted(userId,
                JtiOf(access)))
  {
  }

  lemma LoadsOwner(s: State, r: ReqId, owner: UserId, jti: Option<Jti>)
    requires r in s.reqs && s.reqs[r] == LogoutAllStarted(owner, jti)
    ensures Enabled(s, Event.Logout(r, LoadAll))
    ensures Next(s, Event.Logout(r, LoadAll)) ==
              if Findable(s.users, owner) then Goto(s, r, LogoutAllLoaded(s.users[owner].row, jti))
                  else Goto(s, r, Denying(jti))
  {
  }

  lemma SavesEpoch(s: State, r: ReqId, u: UserSnapshot, jti: Option<Jti>, at: int)
    requires r in s.reqs && s.reqs[r] == LogoutAllLoaded(u, jti)
    ensures Enabled(s, Event.Logout(r, SaveAll(at)))
    ensures var e := Edit(InvalidateSessions, at);
            Next(s, Event.Logout(r, SaveAll(at))) ==
              SavedState(s, r, Saved(s.users, Apply(u, e), [e]), Some(Denying(jti)))
  {
    ApplyOne(u, Edit(InvalidateSessions, at));
    hide ApplyAll, Apply, Saved;
  }

  lemma Computes(s: State, r: ReqId, jti: Option<Jti>)
    requires r in s.reqs && s.reqs[r] == Denying(jti) && (jti.Some? ==> jti.value in s.issued)
    ensures Enabled(s, Event.Logout(r, ComputeTtl))
    ensures Next(s, Event.Logout(r, ComputeTtl)) ==
              if jti.None? || s.issued[jti.value].claims.exp * 1000 <= s.now then Done(s, r)
              else Goto(s, r, DenyWriting(jti.value, DenyTtl(s.issued[jti.value].claims.exp * 1000, s.now)))
  {
  }

  lemma Denies(s: State, r: ReqId, jti: Jti, ttl: int)
    requires r in s.reqs && s.reqs[r] == DenyWriting(jti, ttl)
    ensures Enabled(s, Event.Logout(r, WriteDeny)) && Enabled(s, Abandon(r)) && Next(s, Abandon(r)) == Done(s, r)
    ensures Next(s, Event.Logout(r, WriteDeny)) == Done(s.(denylist := s.denylist[jti := s.now + ttl * 1000]), r)
  {
  }

  /** The token has expired, or the denylist answers for it. */
  predicate NoLongerGood(access: AccessRef, entries: Denylist, now: int) {
    access.expiresAt <= now || Denied(entries, access.jti, now)
  }

  /** The denylist half: nothing to write for an expired token, and an unreachable Redis is only logged. */
  ghost predicate DenyPath(r: ReqId, expired: bool, reachable: bool, path: seq<Event>) {
    path == [Event.Logout(r, ComputeTtl)] +
            (if expired then [] else if reachable then [Event.Logout(r, WriteDeny)] else [Abandon(r)])
  }

  /** The account is loaded and, if it is there, saved with a new epoch; only that save can fail. */
  ghost predicate EpochPath(r: ReqId, failed: bool, path: seq<Event>, from: int, until: int) {
    (path == [Event.Logout(r, LoadAll)] && !failed)
    || exists at :: from <= at <= until && path == [Event.Logout(r, LoadAll), Event.Logout(r, SaveAll(at))]
  }

  class LogoutUseCase {
    const db: Backend

    constructor (db: Backend)
      ensures this.db == db
    {
      this.db := db;
    }

    method DenylistAccessToken(ghost r: ReqId, ghost userId: UserId, access: Option<AccessRef>, reachable: bool)
      returns (ghost path: seq<Event>)
      requires db.Valid() && r in db.model.reqs && db.model.reqs[r] == Denying(JtiOf(access))
      requires Authenticated(db.model, userId, access)
      modifies db, db.users, db.refreshTokens, db.denylist
      ensures db.Valid() && r !in db.model.reqs && db.History(r) == old(db.History(r)) + path
      ensures Authenticated(db.model, userId, access)
      ensures DenyPath(r, access.None? || access.value.expiresAt <= old(db.now), reachable, path)
      ensures old(db.now) <= db.now
      ensures access.Some? && reachable ==> NoLongerGood(access.value, db.denylist.entries, db.now)
    {
      hide Tracks, Own, Serial, Grows, Enabled, Next, DenyTtl;
      Computes(db.model, r, JtiOf(access));
      db.Commit(Event.Logout(r, ComputeTtl), r);
      path := [Event.Logout(r, ComputeTtl)];
      if access.None? { return; }
      var ttl := db.denylist.TtlFor(access.value.expiresAt, db.now);
      if ttl.None? { return; }
      ghost var asked := db.now;
      ghost var more := WriteDenial(r, access.value.jti, ttl.value, reachable);
      DenyOutlivesToken(access.value.expiresAt, asked, db.now);
      path := path + more;
    }

    method WriteDenial(ghost r: ReqId, jti: Jti, ttlSeconds: int, reachable: bool) returns (ghost path: seq<Event>)
      requires db.Valid() && r in db.model.reqs && db.model.reqs[r] == DenyWriting(jti, ttlSeconds)
      modifies db, db.users, db.refreshTokens, db.denylist
      ensures db.Valid() && r !in db.model.reqs && db.History(r) == old(db.History(r)) + path
      ensures old(db.now) <= db.now && path == if reachable then [Event.Logout(r, WriteDeny)] else [Abandon(r)]
      ensures reachable ==> jti in db.denylist.entries && db.denylist.entries[jti] == db.now + ttlSeconds * 1000
      ensures forall id :: id in old(db.model.issued) ==>
                id in db.model.issued && db.model.issued[id] == old(db.model.issued)[id]
    {
      hide Tracks, Own, Serial, Grows, Enabled, Next;
      db.Await(r);
      Denies(db.model, r, jti, ttlSeconds);
      if reachable {
        path := [Event.Logout(r, WriteDeny)];
        db.Commit(Event.Logout(r, WriteDeny), r);
        db.denylist.Write(jti, ttlSeconds, db.now);
      } else {
        path := [Abandon(r)];
        db.Commit(Abandon(r), r);
      }
    }

    method FindByHash(ghost r: ReqId, userId: UserId, presented: Option<TokenId>, access: Option<AccessRef>, at: int)
      returns (stored: RefreshToken?)
      requires db.Valid() && r !in db.model.reqs && at <= db.now && Authenticated(db.model, userId, access)
      modifies db, db.users, db.refreshTokens, db.denylist
      ensures db.Valid() && Authenticated(db.model, userId, access) && r in db.model.reqs
      ensures db.History(r) == old(db.History(r)) + [Event.Logout(r, FindSession(userId, presented, JtiOf(access), at))]
      ensures old(db.now) <= db.now
      ensures stored != null <==>
                presented.Some? && presented.value in db.refreshTokens.rows
                && db.refreshTokens.rows[presented.value].userId == userId
      ensures stored != null ==>
                && stored.ToSnapshot() == db.refreshTokens.rows[presented.value]
                && db.model.reqs[r] == LogoutFound(stored.familyId, JtiOf(access), at)
      ensures stored == null ==> db.model.reqs[r] == Denying(JtiOf(access))
    {
      hide Tracks, Own, Serial, Grows, Enabled, Next;
      if presented.Some? { db.Await(r); }
      LooksUp(db.model, r, userId, presented, JtiOf(access), at);
      db.Commit(Event.Logout(r, FindSession(userId, presented, JtiOf(access), at)), r);
      if presented.None? { return null; }
      stored := db.refreshTokens.FindByHash(presented.value);
      if stored != null && stored.userId != userId { stored := null; }
    }

    method RevokeFamily(ghost r: ReqId, ghost userId: UserId, family: FamilyId, access: Option<AccessRef>, at: int)
      requires db.Valid() && r in db.model.reqs && db.model.reqs[r] == LogoutFound(family, JtiOf(access), at)
      requires Authenticated(db.model, userId, access)
      modifies db, db.users, db.refreshTokens, db.denylist
      ensures db.Valid() && Authenticated(db.model, userId, access) && old(db.now) <= db.now
      ensures db.History(r) == old(db.History(r)) + [Event.Logout(r, RevokeSession)]
      ensures forall id :: id in db.refreshTokens.rows && db.refreshTokens.rows[id].familyId == family ==>
                db.refreshTokens.rows[id].revokedAt.Some?
      ensures r in db.model.reqs && db.model.reqs[r] == Denying(JtiOf(access))
    {
      hide Tracks, Own, Serial, Grows, Enabled, Next, RevokedWhere;
      db.Await(r);
      EndsSession(db.model, r, family, JtiOf(access), at);
      db.Commit(Event.Logout(r, RevokeSession), r);
      var _ := db.refreshTokens.RevokeFamily(family, Reason.Logout, at);
    }

    /**
     * Signs out one session: revokes its whole family if the caller owns it, then denies the access token. Which
     * family that is the look-up in the history says: see `RevokedSessionIsCallers`.
     */
    method Execute(ghost r: ReqId, userId: UserId, presented: Option<TokenId>, access: Option<AccessRef>,
                   reachable: bool)
      returns (ghost revoked: bool, ghost asked: int, ghost denial: seq<Event>)
      requires db.Valid() && r !in db.model.reqs && Authenticated(db.model, userId, access)
      modifies db, db.users, db.refreshTokens, db.denylist
      ensures db.Valid() && r !in db.model.reqs
      ensures db.History(r) == old(db.History(r))
                + [Event.Logout(r, FindSession(userId, presented, JtiOf(access), old(db.now)))]
                + (if revoked then [Event.Logout(r, RevokeSession)] else []) + denial
      ensures presented.None? ==> !revoked
      ensures old(db.now) <= asked <= db.now
      ensures DenyPath(r, access.None? || access.value.expiresAt <= asked, reachable, denial)
      ensures Authenticated(db.model, userId, access)
      ensures access.Some? && reachable ==> NoLongerGood(access.value, db.denylist.entries, db.now)
    {
      hide Tracks, Own, Serial, Grows, Enabled, Next, Unused, DenyPath, NoLongerGood;
      var now := db.now;
      var stored := FindByHash(r, userId, presented, access, now);
      revoked := stored != null;
      if stored != null {
        RevokeFamily(r, userId, stored.familyId, access, now);
      }
      asked := db.now;
      denial := DenylistAccessToken(r, userId, access, reachable);
    }

    method RevokeAllForUser(ghost r: ReqId, userId: UserId, access: Option<AccessRef>, at: int)
      requires db.Valid() && r !in db.model.reqs && Authenticated(db.model, userId, access)
      modifies db, db.users, db.refreshTokens, db.denylist
      ensures db.Valid() && Authenticated(db.model, userId, access)
      ensures old(db.now) <= db.now
      ensures db.History(r) == old(db.History(r)) + [Event.Logout(r, RevokeAll(userId, JtiOf(access), at))]
      ensures forall id :: id in db.refreshTokens.rows && db.refreshTokens.rows[id].userId == userId ==>
                db.refreshTokens.rows[id].revokedAt.Some?
      ensures r in db.model.reqs && db.model.reqs[r] == LogoutAllStarted(userId, JtiOf(access))
    {
      hide Tracks, Own, Serial, Grows, Enabled, Next, RevokedWhere;
      db.Await(r);
      EndsAll(db.model, r, userId, access, at);
      db.Commit(Event.Logout(r, RevokeAll(userId, JtiOf(access), at)), r);
      var _ := db.refreshTokens.RevokeAllForUser(userId, Reason.LogoutAll, at);
    }

    method LoadOwner(ghost r: ReqId, owner: UserId, ghost access: Option<AccessRef>) returns (user: User?)
      requires db.Valid() && r in db.model.reqs && db.model.reqs[r] == LogoutAllStarted(owner, JtiOf(access))
      requires Authenticated(db.model, owner, access)
      modifies db, db.users, db.refreshTokens, db.denylist
      ensures db.Valid() && Authenticated(db.model, owner, access)
      ensures old(db.now) <= db.now
      ensures db.History(r) == old(db.History(r)) + [Event.Logout(r, LoadAll)] && r in db.model.reqs
      ensures user == null ==> db.model.reqs[r] == Denying(JtiOf(access))
      ensures user != null ==> fresh(user) && db.model.reqs[r] == LogoutAllLoaded(user.ToSnapshot(), JtiOf(access))
    {
      hide Tracks, Own, Serial, Grows, Enabled, Next;
      db.Await(r);
      LoadsOwner(db.model, r, owner, JtiOf(access));
      db.Commit(Event.Logout(r, LoadAll), r);
      user := db.users.FindById(owner);
    }

    method SaveOwner(ghost r: ReqId, ghost owner: UserId, user: User, ghost loaded: UserSnapshot,
                     ghost access: Option<AccessRef>, at: int)
      returns (error: Option<SaveError>)
      requires db.Valid() && r in db.model.reqs && db.model.reqs[r] == LogoutAllLoaded(loaded, JtiOf(access))
      requires Authenticated(db.model, owner, access)
      requires user.ToSnapshot() == Apply(loaded, Edit(InvalidateSessions, at))
      modifies db, db.users, db.refreshTokens, db.denylist
      ensures db.Valid() && Authenticated(db.model, owner, access)
      ensures old(db.now) <= db.now
      ensures db.History(r) == old(db.History(r)) + [Event.Logout(r, SaveAll(at))]
      ensures error.Some? ==> r !in db.model.reqs
      ensures error.None? ==> r in db.model.reqs && db.model.reqs[r] == Denying(JtiOf(access))
    {
      hide Tracks, Own, Serial, Grows, Enabled, Next, Apply, Saved;
      db.Await(r);
      SavesEpoch(db.model, r, loaded, JtiOf(access), at);
      db.Commit(Event.Logout(r, SaveAll(at)), r);
      var _, failed := db.users.Save(user, [Edit(InvalidateSessions, at)]);
      error := failed;
    }

    /** Opens a new token epoch for the account, unless it is gone. */
    method BumpEpoch(ghost r: ReqId, owner: UserId, ghost access: Option<AccessRef>)
      returns (error: Option<SaveError>, ghost path: seq<Event>)
      requires db.Valid() && r in db.model.reqs && db.model.reqs[r] == LogoutAllStarted(owner, JtiOf(access))
      requires Authenticated(db.model, owner, access)
      modifies db, db.users, db.refreshTokens, db.denylist
      ensures db.Valid() && Authenticated(db.model, owner, access) && db.History(r) == old(db.History(r)) + path
      ensures old(db.now) <= db.now && EpochPath(r, error.Some?, path, old(db.now), db.now)
      ensures if error.Some? then r !in db.model.reqs
              else r in db.model.reqs && db.model.reqs[r] == Denying(JtiOf(access))
    {
      hide Tracks, Own, Serial, Grows, Enabled, Next, Unused;
      error, path := None, [Event.Logout(r, LoadAll)];
      var user := LoadOwner(r, owner, access);
      if user == null { return; }
      ghost var loaded := user.ToSnapshot();
      var at := db.now;
      user.InvalidateSessions(at);
      error := SaveOwner(r, owner, user, loaded, access, at);
      path := path + [Event.Logout(r, SaveAll(at))];
    }

    /** Signs out everywhere: every refresh row first, then the token epoch, then the denylist. */
    method ExecuteAll(ghost r: ReqId, userId: UserId, access: Option<AccessRef>, reachable: bool)
      returns (error: Option<SaveError>, ghost epoch: seq<Event>, ghost asked: int, ghost denial: seq<Event>)
      requires db.Valid() && r !in db.model.reqs && Authenticated(db.model, userId, access)
      modifies db, db.users, db.refreshTokens, db.denylist
      ensures db.Valid() && r !in db.model.reqs
      ensures db.History(r) == old(db.History(r))
                + [Event.Logout(r, RevokeAll(userId, JtiOf(access), old(db.now)))] + epoch + denial
      ensures EpochPath(r, error.Some?, epoch, old(db.now), db.now)
      ensures error.Some? ==> denial == []
      ensures error.None? ==>
                && old(db.now) <= asked <= db.now
                && DenyPath(r, access.None? || access.value.expiresAt <= asked, reachable, denial)
                && Authenticated(db.model, userId, access)
                && (access.Some? && reachable ==> NoLongerGood(access.value, db.denylist.entries, db.now))
    {
      hide Tracks, Own, Serial, Grows, Enabled, Next, Unused, DenyPath, NoLongerGood;
      RevokeAllForUser(r, userId, access, db.now);
      error, epoch := BumpEpoch(r, userId, access);
      asked := db.now;
      if error.Some? { return error, epoch, asked, []; }
      denial := DenylistAccessToken(r, userId, access, reachable);
    }
  }

  /**
   * Whatever other requests did in between, the family a logout goes on to revoke is the one its presented token
   * was minted in, and the caller's own; and the step revokes every row of it there is.
   */
  lemma RevokedSessionIsCallers(s: State, r: ReqId, userId: UserId, presented: Option<TokenId>, jti: Option<Jti>,
                                at: int, es: seq<Event>, t: State)
    requires Inv(s) && r !in s.reqs && at <= s.now && OwnToken(s, userId, jti)
    requires Enabled(s, Event.Logout(r, FindSession(userId, presented, jti, at)))
    requires Run(Next(s, Event.Logout(r, FindSession(userId, presented, jti, at))), es) == Some(t) && Own(es, r) == []
    requires r in t.reqs && t.reqs[r].LogoutFound?
    ensures var f := t.reqs[r].sessionFamily;
            && presented.Some? && presented.value in s.minted && s.minted[presented.value] == f
            && f in s.families && s.families[f].owner == userId
            && Enabled(t, Event.Logout(r, RevokeSession))
            && Next(t, Event.Logout(r, RevokeSession)).tokens == RevokedWhere(t.tokens, OfFamily(f), Reason.Logout, at)
  {
    hide Inv, Ahead, Enabled, Next, Run, RevokedWhere, Serial, Grows, OwnToken;
    var e := Event.Logout(r, FindSession(userId, presented, jti, at));
    var s' := Next(s, e);
    LooksUp(s, r, userId, presented, jti, at);
    StepKeepsInv(s, e);
    OthersRun(s', es, t, r);
    FoundSession(s, presented);
    EndsSession(t, r, t.reqs[r].sessionFamily, t.reqs[r].jti, at);
  }

  lemma FoundSession(s: State, presented: Option<TokenId>)
    requires Inv(s)
    ensures presented.Some? && presented.value in s.tokens ==>
              var row := s.tokens[presented.value];
              && presented.value in s.minted && s.minted[presented.value] == row.familyId
              && row.familyId in s.families && s.families[row.familyId].owner == row.userId
  {
    if presented.Some? && presented.value in s.tokens {
      assert RowOK(s, presented.value, s.tokens[presented.value]);
    }
  }
}
