/** What holds of access tokens and accounts over whole runs, whatever the interleaving. */
module SessionTheorems {
  import opened Common
  import opened UserEntity
  import opened UserRepository
  import opened RefreshTokens
  import opened AccessTokens
  import opened Session
  import opened SessionInvariant
  import opened FamilyInvariant

  ghost predicate Inv(s: State) {
    AccessInv(s) && FamilyInv(s) && OwnersOK(s)
  }

  lemma InvParts(s: State)
    requires Inv(s)
    ensures AccessInv(s) && FamilyInv(s) && OwnersOK(s) && Serial(s.users) && LoginsKnown(s)
  {
    forall r | r in s.reqs && s.reqs[r].LoginSigned? ensures s.reqs[r].owner in s.users {
      assert RequestOK(s, s.reqs[r]);
    }
  }

  /** A deployment before its first request. */
  function Start(config: Config, now: int): State {
    State(config, map[], map[], map[], map[], map[], map[], now, map[])
  }

  lemma StartInv(config: Config, now: int)
    ensures Inv(Start(config, now))
  {
    var s := Start(config, now);
    assert forall r, f :: !ClaimedBy(s, r, f);
  }

  lemma StepKeepsInv(s: State, e: Event)
    requires Inv(s) && Enabled(s, e)
    ensures Inv(Next(s, e)) && Ahead(s, Next(s, e)) && s.families.Keys <= Next(s, e).families.Keys
  {
    InvParts(s);
    hide AccessInv, FamilyInv, OwnersOK, LoginsKnown, Serial, Enabled, Next, Ahead;
    NextKeepsAccess(s, e);
    NextKeepsFamilies(s, e);
    AheadKeepsAccounts(s, Next(s, e));
    NextKeepsOwners(s, e);
  }

  lemma AheadKeepsAccounts(s: State, s': State)
    requires Ahead(s, s')
    ensures s.users.Keys <= s'.users.Keys
  {
    hide Serial, AccountGrows;
  }

  lemma AheadTransitive(s0: State, s1: State, s2: State)
    requires Ahead(s0, s1) && Ahead(s1, s2)
    ensures Ahead(s0, s2)
  {
    hide Serial, Grows;
    GrowsTransitive(s0.users, s1.users, s2.users);
  }

  lemma {:induction false} RunKeepsInv(s: State, es: seq<Event>, t: State)
    requires Inv(s) && Run(s, es) == Some(t)
    ensures Inv(t) && Ahead(s, t)
    decreases |es|
  {
    if es == [] {
      AheadSame(s, s);
    } else {
      hide Inv, Ahead, Enabled, Next;
      StepKeepsInv(s, es[0]);
      RunKeepsInv(Next(s, es[0]), es[1..], t);
      AheadTransitive(s, Next(s, es[0]), t);
    }
  }

  /** Every state a deployment can reach satisfies the invariant the theorems below assume. */
  lemma ReachableInv(config: Config, now: int, es: seq<Event>, t: State)
    requires Run(Start(config, now), es) == Some(t)
    ensures Inv(t)
  {
    StartInv(config, now);
    RunKeepsInv(Start(config, now), es, t);
  }

  // ----- Epochs -----

  function Subject(s: State, id: Jti): UserId
    requires id in s.issued
  {
    s.issued[id].claims.sub
  }

  lemma VouchedIsEarlier(t: UserTable, u: UserSnapshot)
    requires Serial(t) && Vouched(t, u)
    ensures u.profile.tokenVersion <= t[u.id].row.profile.tokenVersion
    ensures u.profile.tokenVersion == t[u.id].row.profile.tokenVersion ==>
              SameIdentity(u.profile, t[u.id].row.profile) && t[u.id].row.profile.status == ACTIVE
  {
    var a := t[u.id];
    HistoryMovesForward(a, u.version - a.origin.version, |a.log|);
  }

  /**
   * The epoch invariant. No token is ever ahead of its account; and as long as the account is still in
   * the token's epoch it is active and undeleted, holds exactly the privilege the token claims, and has
   * the address and the password it had when the token was signed — although the token may have been
   * signed from a snapshot any number of saves old.
   */
  lemma EpochInvariant(s: State, id: Jti)
    requires Inv(s) && id in s.issued
    ensures Subject(s, id) in s.users
    ensures var i, now := s.issued[id], s.users[Subject(s, id)].row.profile;
            && i.claims.tv <= now.tokenVersion
            && (i.claims.tv == now.tokenVersion ==>
                  && now.status == ACTIVE && now.deletedAt.None?
                  && now.isPlatformAdmin == i.claims.adm
                  && now.email == i.basis.profile.email
                  && SecretOf(now) == SecretOf(i.basis.profile))
  {
    assert IssueOK(s.users, id, s.issued[id]);
    VouchedIsEarlier(s.users, s.issued[id].basis);
  }

  // ----- Acceptance -----

  function AuthSnapshot(s: State, userId: UserId): Option<UserSnapshot> {
    if userId in s.users then Some(s.users[userId].row) else None
  }

  /** Passport verifies the expiry, then `validate` asks the denylist and reads the account. */
  predicate Accepts(s: State, id: Jti)
    requires id in s.issued
  {
    var c := s.issued[id].claims;
    Unexpired(c, s.now) && PassesValidate(c, Denied(s.denylist, id, s.now), AuthSnapshot(s, c.sub))
  }

  /** In a reachable state the epoch comparison alone already implies every other check on the account. */
  lemma AcceptanceMeaning(s: State, id: Jti)
    requires Inv(s) && id in s.issued
    ensures Subject(s, id) in s.users
    ensures Accepts(s, id) <==>
              && s.now < s.issued[id].claims.exp * 1000
              && !Denied(s.denylist, id, s.now)
              && s.issued[id].claims.tv == s.users[Subject(s, id)].row.profile.tokenVersion
  {
    hide FamilyInv;
    assert IssueOK(s.users, id, s.issued[id]);
    hide AccessInv;
    EpochInvariant(s, id);
    ExpiryInMilliseconds(s.issued[id].claims, s.now);
  }

  /**
   * Revocation is permanent: a token that would be rejected now — for expiry, a denylist entry, deletion,
   * suspension or a stale epoch — is rejected in every state any continuation leads to. With Redis
   * unreachable `has` denies everything, so an outage can only reject more.
   */
  lemma RejectionIsPermanent(s: State, id: Jti, es: seq<Event>, t: State)
    requires Inv(s) && id in s.issued && !Accepts(s, id) && Run(s, es) == Some(t)
    ensures id in t.issued && !Accepts(t, id)
  {
    RunKeepsInv(s, es, t);
    RejectedStaysRejected(s, id, t);
  }

  lemma RejectedStaysRejected(s: State, id: Jti, t: State)
    requires Inv(s) && Inv(t) && Ahead(s, t) && id in s.issued && !Accepts(s, id)
    ensures id in t.issued && !Accepts(t, id)
  {
    AcceptanceMeaning(s, id);
    AcceptanceMeaning(t, id);
    EpochInvariant(s, id);
    var u := Subject(s, id);
    if id in s.denylist { DenialLasts(s, t, id); }
    EpochKeepsGrowing(s, t, u);
  }

  lemma AccountMovesForward(a: Account, a': Account)
    requires SerialAccount(a) && SerialAccount(a') && AccountGrows(a, a')
    ensures Later(a.row.profile, a'.row.profile)
  {
    assert a'.past[|a.log|] == a.past[|a.log|];
    HistoryMovesForward(a', |a.log|, |a'.log|);
  }

  /**
   * `validate` reads three things at three moments. Spread over a run, it still rejects whatever was
   * rejected before it began, unless the rejection was a denylist entry and the lookup came only after
   * the token's own expiry.
   */
  lemma SpreadValidationRejects(s: State, id: Jti, s0: State, s1: State, s2: State,
                                es0: seq<Event>, es1: seq<Event>, es2: seq<Event>)
    requires Inv(s) && id in s.issued && !Accepts(s, id)
    requires Run(s, es0) == Some(s0) && Run(s0, es1) == Some(s1) && Run(s1, es2) == Some(s2)
    ensures var c := s.issued[id].claims;
            Unexpired(c, s0.now) && PassesValidate(c, Denied(s1.denylist, id, s1.now), AuthSnapshot(s2, c.sub)) ==>
              Denied(s.denylist, id, s.now) && c.exp * 1000 <= s1.now
  {
    RunKeepsInv(s, es0, s0);
    RunKeepsInv(s0, es1, s1);
    RunKeepsInv(s1, es2, s2);
    hide Inv, Serial, Grows, AccessInv, FamilyInv, Run;
    AheadTransitive(s, s0, s1);
    AheadTransitive(s, s1, s2);
    SpreadStep(s, id, s0, s1, s2);
  }

  lemma SpreadStep(s: State, id: Jti, s0: State, s1: State, s2: State)
    requires Inv(s) && Inv(s1) && Inv(s2) && id in s.issued && !Accepts(s, id)
    requires Ahead(s, s0) && Ahead(s, s1) && Ahead(s, s2)
    ensures var c := s.issued[id].claims;
            Unexpired(c, s0.now) && PassesValidate(c, Denied(s1.denylist, id, s1.now), AuthSnapshot(s2, c.sub)) ==>
              Denied(s.denylist, id, s.now) && c.exp * 1000 <= s1.now
  {
    hide Inv, AccessInv, Serial, Grows, SameIdentity;
    AcceptanceMeaning(s, id);
    EpochInvariant(s, id);
    ExpiryInMilliseconds(s.issued[id].claims, s0.now);
    EpochKeepsGrowing(s, s2, Subject(s, id));
    if Denied(s.denylist, id, s.now) {
      assert AccessInv(s1) by { InvParts(s1); }
      DenialLasts(s, s1, id);
    }
  }

  lemma DenialLasts(s: State, t: State, id: Jti)
    requires AccessInv(t) && Ahead(s, t) && id in s.issued && id in s.denylist
    ensures t.now < s.issued[id].claims.exp * 1000 ==> Denied(t.denylist, id, t.now)
  {
    assert Covers(t, id, t.denylist[id]);
  }

  lemma EpochKeepsGrowing(s: State, t: State, u: UserId)
    requires Inv(s) && Inv(t) && Ahead(s, t) && u in s.users
    ensures u in t.users && Later(s.users[u].row.profile, t.users[u].row.profile)
  {
    assert AccountGrows(s.users[u], t.users[u]);
    AccountMovesForward(s.users[u], t.users[u]);
  }

  /**
   * That exception is real: a denylisted token whose account is otherwise in order is accepted by a
   * validation that checks the signature just before the token expires and the denylist after the
   * entry has gone.
   */
  lemma SlowValidationAccepts(s: State, id: Jti) returns (ms: nat)
    requires Inv(s) && id in s.issued && Denied(s.denylist, id, s.now)
    requires Unexpired(s.issued[id].claims, s.now)
    requires Subject(s, id) in s.users
    requires s.issued[id].claims.tv == s.users[Subject(s, id)].row.profile.tokenVersion
    ensures !Accepts(s, id) && Run(s, [Tick(ms)]) == Some(s.(now := s.now + ms))
    ensures PassesValidate(s.issued[id].claims, Denied(s.denylist, id, s.now + ms), AuthSnapshot(s, Subject(s, id)))
  {
    hide Inv, SecretOf, Run, Enabled;
    EpochInvariant(s, id);
    ms := s.denylist[id] - s.now;
    assert Enabled(s, Tick(ms)) by { TickEnabled(s, ms); }
    RunOne(s, Tick(ms));
  }

  lemma TickEnabled(s: State, ms: nat)
    ensures Enabled(s, Tick(ms)) && Next(s, Tick(ms)) == s.(now := s.now + ms)
  {
  }

  // ----- Bulk revocation -----

  /**
   * Once the account's epoch has moved on, every token signed from an earlier load of the account is
   * rejected for good — also one that is signed only later, by a request still holding that load.
   */
  lemma EpochBumpRejects(s: State, t: State, id: Jti)
    requires Inv(s) && Inv(t) && Ahead(s, t) && id in t.issued && Subject(t, id) in s.users
    requires t.issued[id].basis.version <= s.users[Subject(t, id)].row.version
    requires s.users[Subject(t, id)].row.profile.tokenVersion < t.users[Subject(t, id)].row.profile.tokenVersion
    ensures !Accepts(t, id)
  {
    hide FamilyInv;
    var u := Subject(t, id);
    assert IssueOK(t.users, id, t.issued[id]);
    var a, a', k := s.users[u], t.users[u], t.issued[id].basis.version;
    assert AccountGrows(a, a');
    assert a'.past[|a.log|] == a.past[|a.log|];
    HistoryMovesForward(a', k - a'.origin.version, |a.log|);
    AcceptanceMeaning(t, id);
  }

  /** The save of `changePassword` went through, leading from `s` to `s'`. */
  ghost predicate ChangesPassword(s: State, r: ReqId, at: int, s': State) {
    && AccountEnabled(s, r, SaveChange(at)) && s' == AccountNext(s, r, SaveChange(at))
    && s'.users != s.users
  }

  lemma ChangeBumps(s: State, r: ReqId, at: int, s': State)
    requires AccessInv(s) && ChangesPassword(s, r, at, s')
    ensures var u := s.reqs[r].user.id;
            && u in s.users && u in s'.users
            && s'.users[u].row.profile.tokenVersion == s.users[u].row.profile.tokenVersion + 1
            && SecretOf(s'.users[u].row.profile) == Some(s.reqs[r].newHash.secret)
            && s'.reqs == s.reqs[r := PasswordSaved(u)]
  {
    hide AccessInv, Serial, Loaded, Verify, Apply, Saved, ApplyAll, SecretOf, RevokedWhere, KeepSecrets;
    var q := s.reqs[r];
    PasswordLoaded(s, r);
    var e := Edit(SetPasswordHash(q.newHash), at);
    ApplyOne(q.user, e);
    ChangedRow(s.users, q.user, q.newHash, at);
    var saved := Saved(s.users, Apply(q.user, e), [e]);
    hide SaveThen;
    SaveOutcome(s, r, q.user, [e], Some(PasswordSaved(q.user.id)));
  }

  lemma PasswordLoaded(s: State, r: ReqId)
    requires AccessInv(s) && r in s.reqs && s.reqs[r].PasswordVerified?
    ensures Serial(s.users) && Loaded(s.users, s.reqs[r].user)
  {
    hide Serial, Loaded;
    assert RequestOK(s, s.reqs[r]);
  }

  /** Setting the password of the row as loaded opens an epoch of its own. */
  lemma ChangedRow(t: UserTable, loaded: UserSnapshot, hash: PasswordHash, at: int)
    requires Serial(t) && Loaded(t, loaded)
    ensures var e := Edit(SetPasswordHash(hash), at);
            var r := Saved(t, Apply(loaded, e), [e]);
            r.Ok? ==>
              && loaded.id in t && loaded.id in r.value
              && r.value[loaded.id].row.profile.tokenVersion == t[loaded.id].row.profile.tokenVersion + 1
              && SecretOf(r.value[loaded.id].row.profile) == Some(hash.secret)
  {
    hide Serial, Loaded, Saved;
    var e := Edit(SetPasswordHash(hash), at);
    SavedProfile(t, Apply(loaded, e), [e]);
    if Saved(t, Apply(loaded, e), [e]).Ok? { LoadedCurrent(t, loaded); }
  }

  lemma ChangeRaisesEpoch(s: State, r: ReqId, at: int, s': State)
    requires Inv(s) && ChangesPassword(s, r, at, s')
    ensures var u := s.reqs[r].user.id;
            && Inv(s') && Ahead(s, s') && u in s.users && u in s'.users
            && s.users[u].row.profile.tokenVersion < s'.users[u].row.profile.tokenVersion
  {
    hide AccessInv, FamilyInv, OwnersOK, Inv, Ahead, SecretOf, AccountEnabled, AccountNext, Serial, LoginsKnown;
    hide RefreshEnabled, RefreshNext, LoginEnabled, LoginNext, LogoutEnabled, LogoutNext, Saved, ApplyAll;
    InvParts(s);
    ChangeBumps(s, r, at, s');
    assert Enabled(s, Manage(r, SaveChange(at))) && Next(s, Manage(r, SaveChange(at))) == s';
    StepKeepsInv(s, Manage(r, SaveChange(at)));
  }

  /** A loaded snapshot whose version is the row's has the row's profile. */
  lemma LoadedCurrent(t: UserTable, u: UserSnapshot)
    requires Serial(t) && Loaded(t, u) && t[u.id].row.version == u.version
    ensures u.profile == t[u.id].row.profile
  {
    assert SerialAccount(t[u.id]);
  }

  /**
   * Whatever step raises an account's epoch, no access token signed from a load made before that step is
   * accepted again: not one in circulation, and not one a request still in flight goes on to sign.
   */
  lemma RaisedEpochEndsOldTokens(s: State, e: Event, u: UserId, es: seq<Event>, t: State, id: Jti)
    requires Inv(s) && Enabled(s, e) && u in s.users && u in Next(s, e).users
    requires s.users[u].row.profile.tokenVersion < Next(s, e).users[u].row.profile.tokenVersion
    requires Run(Next(s, e), es) == Some(t) && id in t.issued && Subject(t, id) == u
    requires t.issued[id].basis.version <= s.users[u].row.version
    ensures !Accepts(t, id)
  {
    hide Inv, Ahead, Run, Enabled, Next, SameIdentity;
    StepKeepsInv(s, e);
    RunKeepsInv(Next(s, e), es, t);
    AheadTransitive(s, Next(s, e), t);
    EpochKeepsGrowing(Next(s, e), t, u);
    EpochBumpRejects(s, t, id);
  }

  /**
   * After `changePassword` has committed its save, no access token signed from a load made before that
   * save is accepted again, under every interleaving with refreshes and re-hashing logins.
   */
  lemma ChangePasswordEndsOldTokens(s: State, r: ReqId, at: int, s': State, es: seq<Event>, t: State, id: Jti)
    requires Inv(s) && ChangesPassword(s, r, at, s') && Run(s', es) == Some(t)
    requires id in t.issued && Subject(t, id) == s.reqs[r].user.id && Subject(t, id) in s.users
    requires t.issued[id].basis.version <= s.users[Subject(t, id)].row.version
    ensures !Accepts(t, id)
  {
    hide Inv, Ahead, Run, AccountEnabled, AccountNext;
    ChangeRaisesEpoch(s, r, at, s');
    RaisedEpochEndsOldTokens(s, Manage(r, SaveChange(at)), Subject(t, id), es, t, id);
  }

  /** The save of `executeAll` went through, leading from `s` to `s'`. */
  ghost predicate SignsOutEverywhere(s: State, r: ReqId, at: int, s': State) {
    LogoutEnabled(s, r, SaveAll(at)) && s' == LogoutNext(s, r, SaveAll(at)) && s'.users != s.users
  }

  lemma LogoutAllLoads(s: State, r: ReqId)
    requires AccessInv(s) && r in s.reqs && s.reqs[r].LogoutAllLoaded?
    ensures Serial(s.users) && Loaded(s.users, s.reqs[r].user)
  {
    hide Serial, Loaded;
    assert RequestOK(s, s.reqs[r]);
  }

  lemma EndedRow(t: UserTable, loaded: UserSnapshot, at: int)
    requires Serial(t) && Loaded(t, loaded)
    ensures var e := Edit(InvalidateSessions, at);
            var r := Saved(t, Apply(loaded, e), [e]);
            r.Ok? ==> loaded.id in t && loaded.id in r.value
                      && r.value[loaded.id].row.profile.tokenVersion == t[loaded.id].row.profile.tokenVersion + 1
  {
    hide Serial, Loaded, Saved;
    var e := Edit(InvalidateSessions, at);
    SavedProfile(t, Apply(loaded, e), [e]);
    if Saved(t, Apply(loaded, e), [e]).Ok? { LoadedCurrent(t, loaded); }
  }

  lemma LogoutAllRaisesEpoch(s: State, r: ReqId, at: int, s': State)
    requires AccessInv(s) && SignsOutEverywhere(s, r, at, s')
    ensures var u := s.reqs[r].user.id;
            && u in s.users && u in s'.users
            && s'.users[u].row.profile.tokenVersion == s.users[u].row.profile.tokenVersion + 1
  {
    hide AccessInv, Serial, Loaded, Apply, Saved, ApplyAll, RevokedWhere, OwnToken, DenyTtl;
    var q := s.reqs[r];
    LogoutAllLoads(s, r);
    var e := Edit(InvalidateSessions, at);
    ApplyOne(q.user, e);
    EndedRow(s.users, q.user, at);
    var saved := Saved(s.users, Apply(q.user, e), [e]);
    hide SaveThen;
    SaveOutcome(s, r, q.user, [e], Some(Denying(q.jti)));
  }

  /** "Sign out everywhere" is instantaneous: every access token issued from an earlier load dies with the save. */
  lemma LogoutAllEndsOldTokens(s: State, r: ReqId, at: int, s': State, es: seq<Event>, t: State, id: Jti)
    requires Inv(s) && SignsOutEverywhere(s, r, at, s') && Run(s', es) == Some(t)
    requires id in t.issued && Subject(t, id) == s.reqs[r].user.id && Subject(t, id) in s.users
    requires t.issued[id].basis.version <= s.users[Subject(t, id)].row.version
    ensures !Accepts(t, id)
  {
    hide Inv, Ahead, Run, LogoutEnabled, LogoutNext;
    assert AccessInv(s) by { InvParts(s); }
    LogoutAllRaisesEpoch(s, r, at, s');
    RaisedEpochEndsOldTokens(s, Event.Logout(r, SaveAll(at)), Subject(t, id), es, t, id);
  }

  /** A logout whose denylist write went through ends its access token for good, the clock notwithstanding. */
  lemma DeniedForGood(s: State, r: ReqId, id: Jti, ttl: int, es: seq<Event>, t: State)
    requires Inv(s) && r in s.reqs && s.reqs[r] == DenyWriting(id, ttl)
    requires Enabled(s, Event.Logout(r, WriteDeny)) && Run(Next(s, Event.Logout(r, WriteDeny)), es) == Some(t)
    ensures id in t.issued && !Accepts(t, id)
  {
    DenialWritten(s, r, id, ttl);
    hide Inv, Ahead, Run, Accepts, Enabled, Next;
    WriteDenies(s, r, id, ttl);
    StepKeepsInv(s, Event.Logout(r, WriteDeny));
    RejectionIsPermanent(Next(s, Event.Logout(r, WriteDeny)), id, es, t);
  }

  function WithDenial(s: State, r: ReqId, id: Jti, ttl: int): State {
    Done(s.(denylist := s.denylist[id := s.now + ttl * 1000]), r)
  }

  lemma DenialWritten(s: State, r: ReqId, id: Jti, ttl: int)
    requires r in s.reqs && s.reqs[r] == DenyWriting(id, ttl)
    ensures Enabled(s, Event.Logout(r, WriteDeny)) && Next(s, Event.Logout(r, WriteDeny)) == WithDenial(s, r, id, ttl)
  {
  }

  lemma WriteDenies(s: State, r: ReqId, id: Jti, ttl: int)
    requires Inv(s) && r in s.reqs && s.reqs[r] == DenyWriting(id, ttl)
    ensures id in s.issued && !Accepts(WithDenial(s, r, id, ttl), id)
  {
    hide Inv, Validate;
    DeniedIsKnown(s, r);
    var s' := WithDenial(s, r, id, ttl);
    if Unexpired(s.issued[id].claims, s.now) {
      ExpiryInMilliseconds(s.issued[id].claims, s.now);
      assert Denied(s'.denylist, id, s'.now);
      hide PassesValidate;
      DeniedFails(s.issued[id].claims, AuthSnapshot(s', s.issued[id].claims.sub));
    }
  }

  lemma DeniedIsKnown(s: State, r: ReqId)
    requires Inv(s) && r in s.reqs && s.reqs[r].DenyWriting?
    ensures Covers(s, s.reqs[r].target, s.now + s.reqs[r].ttlSeconds * 1000)
  {
    InvParts(s);
    hide Inv, FamilyInv, OwnersOK, Serial, LoginsKnown;
    assert RequestOK(s, s.reqs[r]);
  }

  lemma DeniedFails(c: Claims, snapshot: Option<UserSnapshot>)
    ensures !PassesValidate(c, true, snapshot)
  {
  }

  // ----- Accounts -----

  /** Serialisability of account writes in every reachable state. */
  lemma AccountsAreSerial(config: Config, now: int, es: seq<Event>, t: State, id: UserId)
    requires Run(Start(config, now), es) == Some(t) && id in t.users
    ensures t.users[id].row.profile == Replay(id, t.users[id].origin.profile, t.users[id].log)
    ensures t.users[id].row.version == t.users[id].origin.version + |t.users[id].log|
    ensures t.users[id].touches != [] ==>
              t.users[id].row.lastLoginAt == Some(t.users[id].touches[|t.users[id].touches| - 1])
  {
    ReachableInv(config, now, es, t);
    RowIsFoldOfSaves(t.users, id);
  }
}
