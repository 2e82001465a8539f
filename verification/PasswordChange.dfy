/** Changing one's own password, statement by statement: the save comes before the revocation. */
module PasswordChange {
  import opened Common
  import opened UserEntity
  import opened UserRepository
  import opened RefreshTokens
  import opened AccessTokens
  import opened Session
  import opened SessionInvariant
  import opened FamilyInvariant
  import opened SessionTheorems
  import opened Interleaving
  import opened Backend

  datatype ChangeError =
    | UnknownUser | NoPassword | CurrentPasswordIncorrect | PolicyViolation | PasswordReused
    | NotSaved(error: SaveError)

  // What each statement does to the protocol's state.

  lemma Proves(s: State, r: ReqId, id: UserId, password: string, newPassword: string)
    requires r !in s.reqs && Findable(s.users, id) && s.users[id].row.profile.passwordHash.Some?
    requires Verify(s.users[id].row.profile.passwordHash.value, password)
    requires !Verify(s.users[id].row.profile.passwordHash.value, newPassword)
    ensures var e := Manage(r, VerifyChange(id, password, newPassword));
            Enabled(s, e) && Next(s, e) == Goto(s, r, PasswordVerified(s.users[id].row, PasswordHash(newPassword,
                s.config.hashCost)))
  {
  }

  lemma Changes(s: State, r: ReqId, u: UserSnapshot, hash: PasswordHash, at: int)
    requires r in s.reqs && s.reqs[r] == PasswordVerified(u, hash)
    ensures Enabled(s, Manage(r, SaveChange(at)))
    ensures var e := Edit(SetPasswordHash(hash), at);
            Next(s, Manage(r, SaveChange(at))) == SavedState(s, r, Saved(s.users, Apply(u, e), [e]),
                Some(PasswordSaved(u.id)))
  {
    ApplyOne(u, Edit(SetPasswordHash(hash), at));
    hide ApplyAll, Apply, Saved;
  }

  lemma EndsAll(s: State, r: ReqId, owner: UserId, at: int)
    requires r in s.reqs && s.reqs[r] == PasswordSaved(owner)
    ensures Enabled(s, Manage(r, RevokeAfterChange(at)))
    ensures Next(s, Manage(r, RevokeAfterChange(at))) ==
              Done(RevokedIn(s, OfUser(owner), Reason.PasswordChanged, at), r)
  {
  }

  /** Why a change is refused, each cause only after those before it were ruled out; all judge the row as loaded. */
  ghost predicate ChangeRefused(t: UserTable, id: UserId, current: string, newPassword: string, acceptable: bool,
                             error: ChangeError) {
    if !Findable(t, id) then error == UnknownUser
    else match t[id].row.profile.passwordHash
      case None => error == NoPassword
      case Some(hash) =>
        match error
        case CurrentPasswordIncorrect => !Verify(hash, current)
        case PolicyViolation => Verify(hash, current) && !acceptable
        case PasswordReused => Verify(hash, current) && acceptable && Verify(hash, newPassword)
        case _ => false
  }

  ghost predicate ChangePath(r: ReqId, userId: UserId, current: string, newPassword: string,
                             error: Option<ChangeError>, path: seq<Event>, from: int, until: int) {
    var first := Manage(r, VerifyChange(userId, current, newPassword));
    match error
    case None =>
      exists at, at' ::
        from <= at <= at' <= until && path == [first, Manage(r, SaveChange(at)), Manage(r, RevokeAfterChange(at'))]
    case Some(NotSaved(_)) => exists at :: from <= at <= until && path == [first, Manage(r, SaveChange(at))]
    case Some(_) => path == []
  }

  /** The account had that hash at some point of its history. */
  ghost predicate HashStored(t: UserTable, id: UserId, hash: PasswordHash) {
    id in t && exists k :: 0 <= k < |t[id].past| && t[id].past[k].passwordHash == Some(hash)
  }

  /** What the row holds at one moment its history holds at every later one. */
  lemma StoredSince(origin: State, trace: seq<Event>, s: State, trace': seq<Event>, s': State, id: UserId,
                    hash: PasswordHash)
    requires Tracks(origin, trace, s) && Tracks(origin, trace', s') && trace <= trace'
    requires id in s.users && s.users[id].row.profile.passwordHash == Some(hash)
    ensures HashStored(s'.users, id, hash)
  {
    TracksParts(origin, trace, s);
    assert SerialAccount(s.users[id]) && s.users[id].past[|s.users[id].log|] == s.users[id].row.profile;
    hide Serial, Tracks;
    Since(origin, trace, s, trace', s');
    assert AccountGrows(s.users[id], s'.users[id]);
    assert s'.users[id].past[|s.users[id].log|] == s.users[id].row.profile;
  }

  class UpdateUserUseCase {
    const db: Backend

    constructor (db: Backend)
      ensures this.db == db
    {
      this.db := db;
    }

    /** Every check before the save, in the source's order; all of them read the row as loaded. */
    method LoadAndVerify(ghost r: ReqId, userId: UserId, current: string, newPassword: string, acceptable: bool)
      returns (user: User?, error: Option<ChangeError>)
      requires db.Valid() && r !in db.model.reqs
      modifies db, db.users, db.refreshTokens, db.denylist
      ensures db.Valid() && old(db.now) <= db.now
      ensures error.Some? ==>
                && r !in db.model.reqs && db.History(r) == old(db.History(r))
                && ChangeRefused(db.users.accounts, userId, current, newPassword, acceptable, error.value)
                && !error.value.NotSaved?
      ensures error.None? ==>
                && acceptable && user != null && fresh(user) && r in db.model.reqs && user.id == userId
                && user.passwordHash.Some? && user.passwordHash.value.secret == current != newPassword
                && db.model.reqs[r] ==
                     PasswordVerified(user.ToSnapshot(), PasswordHash(newPassword, db.config.hashCost))
                && db.History(r) == old(db.History(r)) + [Manage(r, VerifyChange(userId, current, newPassword))]
    {
      hide Tracks, Own, Serial, Grows, Enabled, Next, AccessInv, RowsOK;
      db.Await(r);
      TracksParts(db.origin, db.trace, db.model);
      user := db.users.FindById(userId);
      if user == null { return user, Some(UnknownUser); }
      if user.passwordHash.None? { return user, Some(NoPassword); }
      if !Verify(user.passwordHash.value, current) { return user, Some(CurrentPasswordIncorrect); }
      if !acceptable { return user, Some(PolicyViolation); }
      if Verify(user.passwordHash.value, newPassword) { return user, Some(PasswordReused); }
      RowHasId(db.model.users, userId);
      Proves(db.model, r, userId, current, newPassword);
      db.Commit(Manage(r, VerifyChange(userId, current, newPassword)), r);
      error := None;
    }

    method SaveChanged(ghost r: ReqId, user: User, ghost loaded: UserSnapshot, hash: PasswordHash, at: int)
      returns (error: Option<SaveError>)
      requires db.Valid() && r in db.model.reqs && db.model.reqs[r] == PasswordVerified(loaded, hash)
              && loaded.id == user.id
      requires user.ToSnapshot() == Apply(loaded, Edit(SetPasswordHash(hash), at)) && user.passwordHash == Some(hash)
      modifies db, db.users, db.refreshTokens, db.denylist
      ensures db.Valid() && db.History(r) == old(db.History(r)) + [Manage(r, SaveChange(at))] && old(db.now) <= db.now
      ensures if error.Some? then r !in db.model.reqs
              else r in db.model.reqs && db.model.reqs[r] == PasswordSaved(user.id)
      ensures error.None? ==>
                user.id in db.users.accounts && db.users.accounts[user.id].row.profile.passwordHash == Some(hash)
    {
      hide Tracks, Own, Serial, Grows, Enabled, Next, Apply, Saved;
      db.Await(r);
      Changes(db.model, r, loaded, hash, at);
      db.Commit(Manage(r, SaveChange(at)), r);
      var _, failed := db.users.Save(user, [Edit(SetPasswordHash(hash), at)]);
      error := failed;
    }

    method RevokeAllForUser(ghost r: ReqId, owner: UserId, at: int)
      requires db.Valid() && r in db.model.reqs && db.model.reqs[r] == PasswordSaved(owner)
      modifies db, db.users, db.refreshTokens, db.denylist
      ensures db.Valid() && r !in db.model.reqs
      ensures db.History(r) == old(db.History(r)) + [Manage(r, RevokeAfterChange(at))]
      ensures old(db.trace) <= db.trace && old(db.now) <= db.now
      ensures forall id :: id in db.refreshTokens.rows && db.refreshTokens.rows[id].userId == owner ==>
                IsRevoked(db.refreshTokens.rows[id])
    {
      hide Tracks, Own, Serial, Grows, Enabled, Next, RevokedWhere;
      db.Await(r);
      EndsAll(db.model, r, owner, at);
      db.Commit(Manage(r, RevokeAfterChange(at)), r);
      var _ := db.refreshTokens.RevokeAllForUser(owner, Reason.PasswordChanged, at);
    }

    /** The account's rows are revoked only after the new password is stored, and not at all if that fails. */
    method ChangePassword(ghost r: ReqId, userId: UserId, current: string, newPassword: string, acceptable: bool)
      returns (error: Option<ChangeError>, ghost path: seq<Event>)
      requires db.Valid() && r !in db.model.reqs
      modifies db, db.users, db.refreshTokens, db.denylist
      ensures db.Valid() && r !in db.model.reqs && db.History(r) == old(db.History(r)) + path
      ensures ChangePath(r, userId, current, newPassword, error, path, old(db.now), db.now)
      ensures error.Some? && !error.value.NotSaved? ==>
                ChangeRefused(db.users.accounts, userId, current, newPassword, acceptable, error.value)
      ensures error.None? ==>
                && acceptable && current != newPassword
                && HashStored(db.users.accounts, userId, PasswordHash(newPassword, db.config.hashCost))
                && forall id :: id in db.refreshTokens.rows && db.refreshTokens.rows[id].userId == userId ==>
                     IsRevoked(db.refreshTokens.rows[id])
    {
      hide Tracks, Own, Serial, Grows, Enabled, Next, Unused, ChangeRefused, Ahead, Inv, HashStored;
      var user, refused := LoadAndVerify(r, userId, current, newPassword, acceptable);
      if refused.Some? { return refused, []; }
      var hash := PasswordHash(newPassword, db.config.hashCost);
      ghost var loaded := user.ToSnapshot();
      var savedAt := db.now;
      user.SetPasswordHash(hash, savedAt);
      var failed := SaveChanged(r, user, loaded, hash, savedAt);
      path := [Manage(r, VerifyChange(userId, current, newPassword)), Manage(r, SaveChange(savedAt))];
      if failed.Some? { return Some(NotSaved(failed.value)), path; }
      var revokedAt := db.now;
      ghost var trace, model := db.trace, db.model;
      RevokeAllForUser(r, userId, revokedAt);
      StoredSince(db.origin, trace, model, db.trace, db.model, userId, hash);
      path := path + [Manage(r, RevokeAfterChange(revokedAt))];
      error := None;
    }
  }
}
