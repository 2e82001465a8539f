/**
 * When an account is signed out: exactly which requests in flight bring it back after every one of its
 * rows was revoked, and what is left of its access tokens when there are none.
 */
module AccountEnd {
  import opened Common
  import opened UserEntity
  import opened UserRepository
  import opened RefreshTokens
  import opened AccessTokens
  import opened Session
  import opened SessionEffects
  import opened SessionInvariant
  import opened FamilyInvariant
  import opened SessionTheorems
  import opened FamilyTheorems
  import opened SessionEnd

  /**
   * The request has the credentials of account `u` behind it and will store a live row for it: a login whose
   * password was verified, unless it must still save a re-hash of a row that has moved on since; or a refresh
   * past its compare-and-swap, unless the account was deleted before it was loaded.
   */
  ghost predicate CanReopen(s: State, q: Request, u: UserId) {
    match q
    case LoginVerified(user, _) =>
      user.id == u && (NeedsRehash(s.config, user) ==> u in s.users && user.version == s.users[u].row.version)
    case LoginReady(user) => user.id == u
    case LoginSigned(owner) => owner == u
    case RefreshWon(owner, _, _) => owner == u && Findable(s.users, u)
    case RefreshLoaded(user, _, _) => user.id == u
    case RefreshSigned(owner, _, _) => owner == u
    case _ => false
  }

  ghost predicate Pending(s: State, u: UserId) {
    exists r :: r in s.reqs && CanReopen(s, s.reqs[r], u)
  }

  ghost function LiveRowsOf(s: State, u: UserId): set<TokenId> {
    set id | id in s.tokens && s.tokens[id].userId == u && !IsRevoked(s.tokens[id])
  }

  ghost predicate SignedOut(s: State, u: UserId) {
    LiveRowsOf(s, u) == {} && !Pending(s, u)
  }

  predicate SignsIn(e: Event, u: UserId) {
    e.Login? && e.login.VerifyPassword? && e.login.userId == u
  }

  /** No password of the account is verified for a login. */
  ghost predicate NoSignIn(es: seq<Event>, u: UserId) {
    forall e :: e in es ==> !SignsIn(e, u)
  }

  /** Some continuation without a new password check has a live row of the account. */
  ghost predicate Reopens(s: State, u: UserId) {
    exists es, t :: Run(s, es) == Some(t) && NoSignIn(es, u) && LiveRowsOf(t, u) != {}
  }

  // ----- An account that is signed out stays so -----

  /** The account a login in flight is for. */
  function LoginOwner(q: Request): Option<UserId> {
    match q
    case LoginVerified(user, _) => Some(user.id)
    case LoginReady(user) => Some(user.id)
    case LoginSigned(owner) => Some(owner)
    case _ => None
  }

  predicate Signs(e: Event) {
    (e.Refresh? && e.refresh.Sign?) || (e.Login? && e.login.SignLogin?)
  }

  /** Nothing was signed, and no request came to be a login: whatever login there is now was there before. */
  ghost predicate NoNewLogin(s: State, s': State) {
    && s'.config == s.config && s'.issued == s.issued
    && forall k :: k in s'.reqs && LoginOwner(s'.reqs[k]).Some? ==> k in s.reqs && s.reqs[k] == s'.reqs[k]
  }

  lemma GotoMakesNoLogin(s: State, s0: State, r: ReqId, q: Request)
    requires s0.config == s.config && s0.issued == s.issued && s0.reqs == s.reqs && LoginOwner(q).None?
    ensures NoNewLogin(s, Goto(s0, r, q))
  {
  }

  lemma DoneMakesNoLogin(s: State, s0: State, r: ReqId)
    requires s0.config == s.config && s0.issued == s.issued && s0.reqs == s.reqs
    ensures NoNewLogin(s, Done(s0, r)) && NoNewLogin(s, s0)
  {
  }

  lemma SaveMakesNoLogin(s: State, r: ReqId, loaded: UserSnapshot, edits: seq<Edit>, ok: Option<Request>)
    requires ok.Some? ==> LoginOwner(ok.value).None?
    ensures NoNewLogin(s, SaveThen(s, r, loaded, edits, ok))
  {
    hide Saved, ApplyAll, NoNewLogin, Goto, Done;
    var saved := Saved(s.users, ApplyAll(loaded, edits), edits);
    DoneMakesNoLogin(s, s, r);
    if saved.Ok? {
      var s0 := s.(users := saved.value);
      DoneMakesNoLogin(s, s0, r);
      if ok.Some? { GotoMakesNoLogin(s, s0, r, ok.value); }
    }
  }

  lemma ConsumeMakesNoLogin(s: State, r: ReqId, row: TokenRow, at: int)
    ensures NoNewLogin(s, ConsumeNext(s, r, row, at))
  {
    hide NoNewLogin, Goto, RevokedWhere;
    var f := row.familyId;
    var s0 := RevokedIn(s, ById(row.id), Rotated, at);
    GotoMakesNoLogin(s, s, r, RefreshLost(f, at));
    GotoMakesNoLogin(s, s0, r, RefreshWon(row.userId, f, at));
    if f in s.families {
      var F := s.families[f];
      GotoMakesNoLogin(s, s0.(families := s.families[f := F.(spent := F.spent + [row.id])]), r,
                       RefreshWon(row.userId, f, at));
    }
  }

  lemma StoreMakesNoLogin(s: State, r: ReqId, owner: UserId, f: FamilyId, at: int, token: TokenId)
    ensures NoNewLogin(s, StoreNext(s, r, owner, f, at, token))
  {
    hide NoNewLogin, Done;
    var s0 := s.(tokens := s.tokens[token := Issued(token, owner, f, s.config.refreshTtlS, at)],
                 minted := s.minted[token := f]);
    DoneMakesNoLogin(s, s0, r);
    if f in s.families {
      var F := s.families[f];
      DoneMakesNoLogin(s, s0.(families := s.families[f := F.(chain := F.chain + [token])]), r);
    }
  }

  lemma RefreshMakesNoLogin(s: State, r: ReqId, step: RefreshStep)
    requires RefreshEnabled(s, r, step) && !step.Sign?
    ensures NoNewLogin(s, RefreshNext(s, r, step))
  {
    hide NoNewLogin, Goto, Done, Dropped, RevokedWhere, ConsumeNext, StoreNext, CanAuthenticate, IsUsable;
    if step.Consume? {
      ConsumeMakesNoLogin(s, r, s.reqs[r].row, s.reqs[r].startedAt);
    } else if step.Load? {
      var q := s.reqs[r];
      DropMakesNoLogin(s, r);
      if q.owner in s.users { GotoMakesNoLogin(s, s, r, RefreshLoaded(s.users[q.owner].row, q.family, q.startedAt)); }
    } else if step.Store? {
      StoreMakesNoLogin(s, r, s.reqs[r].owner, s.reqs[r].family, s.reqs[r].startedAt, step.token);
    } else if step.Find? {
      DoneMakesNoLogin(s, s, r);
      if step.token in s.tokens { GotoMakesNoLogin(s, s, r, RefreshFound(s.tokens[step.token], step.at)); }
    } else {
      var q := s.reqs[r];
      var family := if q.RefreshLost? then q.lostFamily else q.row.familyId;
      DoneMakesNoLogin(s, RevokedIn(s, OfFamily(family), ReuseDetected, q.startedAt), r);
    }
  }

  lemma LogoutMakesNoLogin(s: State, r: ReqId, step: LogoutStep)
    requires LogoutEnabled(s, r, step)
    ensures NoNewLogin(s, LogoutNext(s, r, step))
  {
    hide NoNewLogin, Goto, Done, RevokedWhere, SaveThen, DenyTtl, OwnToken;
    if step.SaveAll? {
      SaveMakesNoLogin(s, r, s.reqs[r].user, [Edit(InvalidateSessions, step.at)], Some(Denying(s.reqs[r].jti)));
    } else if step.FindSession? {
      var id := step.presented;
      GotoMakesNoLogin(s, s, r, Denying(step.ownJti));
      if id.Some? && id.value in s.tokens {
        GotoMakesNoLogin(s, s, r, LogoutFound(s.tokens[id.value].familyId, step.ownJti, step.at));
      }
    } else if step.ComputeTtl? {
      var jti := s.reqs[r].jti;
      DoneMakesNoLogin(s, s, r);
      if jti.Some? {
        GotoMakesNoLogin(s, s, r, DenyWriting(jti.value, DenyTtl(s.issued[jti.value].claims.exp * 1000, s.now)));
      }
    } else if step.LoadAll? {
      var q := s.reqs[r];
      GotoMakesNoLogin(s, s, r, Denying(q.jti));
      if q.owner in s.users { GotoMakesNoLogin(s, s, r, LogoutAllLoaded(s.users[q.owner].row, q.jti)); }
    } else if step.WriteDeny? {
      var q := s.reqs[r];
      DoneMakesNoLogin(s, s.(denylist := s.denylist[q.target := s.now + q.ttlSeconds * 1000]), r);
    } else if step.RevokeSession? {
      var q := s.reqs[r];
      GotoMakesNoLogin(s, RevokedIn(s, OfFamily(q.sessionFamily), Reason.Logout, q.startedAt), r, Denying(q.jti));
    } else {
      GotoMakesNoLogin(s, RevokedIn(s, OfUser(step.userId), Reason.LogoutAll, step.at), r,
                       LogoutAllStarted(step.userId, step.ownJti));
    }
  }

  lemma AccountMakesNoLogin(s: State, r: ReqId, step: AccountStep)
    requires AccountEnabled(s, r, step)
    ensures NoNewLogin(s, AccountNext(s, r, step))
  {
    hide RevokedWhere, SaveThen, Findable, KeepSecrets, Verify;
    if step.SaveChange? {
      var q := s.reqs[r];
      SaveMakesNoLogin(s, r, q.user, [Edit(SetPasswordHash(q.newHash), step.at)], Some(PasswordSaved(q.user.id)));
    } else if step.SaveEdit? {
      SaveMakesNoLogin(s, r, s.reqs[r].user, step.edits, None);
    } else {
    }
  }

  lemma OthersMakeNoLogin(s: State, e: Event)
    requires Enabled(s, e) && !e.Login? && !Signs(e)
    ensures NoNewLogin(s, Next(s, e))
  {
    hide RefreshEnabled, RefreshNext, LogoutEnabled, LogoutNext, AccountEnabled, AccountNext, NoNewLogin;
    match e
    case Refresh(r, step) => RefreshMakesNoLogin(s, r, step);
    case Logout(r, step) => LogoutMakesNoLogin(s, r, step);
    case Manage(r, step) => AccountMakesNoLogin(s, r, step);
    case Abandon(_) => assert NoNewLogin(s, Next(s, e)) by { DropMakesNoLogin(s, e.r); }
    case Tick(ms) => DoneMakesNoLogin(s, s.(now := s.now + ms), 0);
    case Register(u) => DoneMakesNoLogin(s, s.(users := Created(s.users, u).value), 0);
    case Sweep(cutoff) => DoneMakesNoLogin(s, s.(tokens := SweptBefore(s.tokens, cutoff)), 0);
  }

  lemma DropMakesNoLogin(s: State, r: ReqId)
    requires r in s.reqs
    ensures NoNewLogin(s, Dropped(s, r))
  {
  }

  /** A login only gets on from a state from which it could open a session anyway. */
  ghost predicate LoginsFrom(s: State, s': State, u: UserId) {
    && s'.config == s.config
    && forall k :: k in s'.reqs && LoginOwner(s'.reqs[k]) == Some(u) ==>
         k in s.reqs && (s.reqs[k] == s'.reqs[k] || CanReopen(s, s.reqs[k], u))
  }

  lemma RehashFrom(s: State, r: ReqId, at: int, u: UserId)
    requires LoginEnabled(s, r, Rehash(at))
    ensures LoginsFrom(s, LoginNext(s, r, Rehash(at)), u)
  {
    hide ApplyAll, Apply, Saved, SaveThen, NeedsRehash, Findable;
    var q := s.reqs[r];
    var e := RehashEdit(s, q, at);
    ApplyOne(q.user, e);
    EditedCost(q.user, e);
    SavedProfile(s.users, Apply(q.user, e), [e]);
    var saved := Saved(s.users, Apply(q.user, e), [e]);
    SaveOutcome(s, r, q.user, [e], Some(LoginReady(Apply(q.user, e))));
    if saved.Ok? {
    } else {
    }
  }

  lemma LoginFrom(s: State, r: ReqId, step: LoginStep, u: UserId)
    requires Serial(s.users) && LoginEnabled(s, r, step) && !(step.VerifyPassword? && step.userId == u)
    ensures LoginsFrom(s, LoginNext(s, r, step), u)
  {
    hide Touched, Verify, CanAuthenticate, Signed, NeedsRehash, SaveThen;
    if step.Rehash? {
      RehashFrom(s, r, step.at, u);
    } else if step.VerifyPassword? {
      RowHasId(s.users, step.userId);
      hide Serial, Findable;
    } else {
      hide Serial, Findable;
    }
  }

  lemma StepLoginsFrom(s: State, e: Event, u: UserId)
    requires Serial(s.users) && Enabled(s, e) && !SignsIn(e, u)
    ensures LoginsFrom(s, Next(s, e), u)
  {
    if e.Login? {
      hide Serial, LoginsFrom, LoginNext, LoginEnabled;
      LoginFrom(s, e.r, e.login, u);
    } else if Signs(e) {
      hide Serial, Signed, LoginEnabled, LoginNext;
      var q := s.reqs[e.r];
      assert Next(s, e) == SignNext(s, e.r, e.refresh.jti, q.user, RefreshSigned(q.user.id, q.family, q.startedAt));
      hide Enabled, Next;
    } else {
      hide Serial, Enabled, Next;
      OthersMakeNoLogin(s, e);
    }
  }

  /** A doomed winner does not load, so nobody who holds a family of the account moves on. */
  lemma HoldersStay(s: State, x: Effect, u: UserId)
    requires !Pending(s, u) && x.Moving? && Possible(s, x)
    ensures Claim(s.reqs, x.r).Some? ==> Claim(s.reqs, x.r).value.1 != u
  {
    assert x.r in s.reqs ==> !CanReopen(s, s.reqs[x.r], u);
  }

  /** A refresh comes to hold a family of the account only by winning a live row of it. */
  lemma NoNewHolder(s: State, x: Effect, u: UserId, k: ReqId)
    requires SignedOut(s, u) && RowsOK(s) && FoundsOK(s) && Possible(s, x)
    requires Claim(After(s, x).reqs, k).Some? && Claim(After(s, x).reqs, k).value.1 == u
    ensures k in s.reqs && s.reqs[k] == After(s, x).reqs[k]
  {
    AfterTables(s, x);
    if x.Winning? {
      WinnerSpendsLiveRow(s, x);
      assert x.row.id in LiveRowsOf(s, x.row.userId);
    }
    if x.Moving? { HoldersStay(s, x, u); }
    hide RowsOK, FoundsOK, RevokedWhere, After, SignedOut, Found, Findable;
  }

  lemma NoNewLiveRow(s: State, x: Effect, s': State, u: UserId)
    requires SignedOut(s, u) && Possible(s, x) && s'.tokens == After(s, x).tokens
    ensures LiveRowsOf(s', u) == {}
  {
    AfterTables(s, x);
    assert x.Storing? ==> !CanReopen(s, s.reqs[x.r], u);
    assert x.Opening? ==> !CanReopen(s, s.reqs[x.r], u);
    assert (x.Storing? || x.Opening?) ==> x.owner != u;
    hide After, Possible, Pending;
  }

  /** What cannot reopen the account now cannot later, unless it moves on. */
  lemma StaysShut(s: State, s': State, r: ReqId, u: UserId)
    requires Inv(s) && Inv(s') && Ahead(s, s') && s'.config == s.config
    requires r in s.reqs && !CanReopen(s, s.reqs[r], u)
    ensures !CanReopen(s', s.reqs[r], u)
  {
    var q := s.reqs[r];
    if q.RefreshWon? && q.owner == u {
      DoomStays(s, s', r);
    } else if q.LoginVerified? && q.user.id == u {
      assert RequestOK(s, q);
      hide CanAuthenticate, FamilyInv, OwnersOK;
      StaleStays(s.users, s'.users, q.user);
    }
  }

  lemma StaleStays(t: UserTable, t': UserTable, u: UserSnapshot)
    requires Serial(t) && Serial(t') && Grows(t, t') && Loaded(t, u) && u.version != t[u.id].row.version
    ensures u.id in t' && u.version != t'[u.id].row.version
  {
    assert AccountGrows(t[u.id], t'[u.id]) && SerialAccount(t[u.id]) && SerialAccount(t'[u.id]);
  }

  /** The requests after a step that could bring the account back were there before it, and could before it. */
  lemma NobodyNew(s: State, s': State, x: Effect, u: UserId, k: ReqId)
    requires SignedOut(s, u) && RowsOK(s) && FoundsOK(s) && Possible(s, x) && s'.reqs == After(s, x).reqs
    requires LoginsFrom(s, s', u) && k in s'.reqs && CanReopen(s', s'.reqs[k], u)
    ensures k in s.reqs && s.reqs[k] == s'.reqs[k]
  {
    hide RowsOK, FoundsOK, Possible, After, Findable, NeedsRehash;
    if LoginOwner(s'.reqs[k]) == Some(u) {
      assert k in s.reqs;
      assert !CanReopen(s, s.reqs[k], u);
    } else {
      NoNewHolder(s, x, u, k);
    }
  }

  lemma StepKeepsSignedOut(s: State, e: Event, u: UserId)
    requires Inv(s) && SignedOut(s, u) && Enabled(s, e) && !SignsIn(e, u)
    ensures SignedOut(Next(s, e), u)
  {
    hide Inv, AccessInv, ChainsOK, RowsOK, MintedOK, ClaimsOK, FoundsOK, OwnersOK, LoginsKnown, Serial, Ahead;
    hide Enabled, Next, Possible, After, LiveRowsOf, CanReopen, LoginsFrom, Pending;
    InvParts(s);
    var s' := Next(s, e);
    var x := StepDoes(s, e);
    NoNewLiveRow(s, x, s', u);
    StepLoginsFrom(s, e, u);
    StepKeepsInv(s, e);
    NobodyPending(s, s', x, u);
  }

  lemma NobodyPending(s: State, s': State, x: Effect, u: UserId)
    requires Inv(s) && Inv(s') && Ahead(s, s') && SignedOut(s, u) && RowsOK(s) && FoundsOK(s)
    requires Possible(s, x) && s'.reqs == After(s, x).reqs && LoginsFrom(s, s', u)
    ensures !Pending(s', u)
  {
    assert s'.config == s.config;
    hide Inv, RowsOK, FoundsOK, Possible, After, CanReopen, LoginsFrom, Ahead, LiveRowsOf;
    forall k | k in s'.reqs ensures !CanReopen(s', s'.reqs[k], u) {
      if CanReopen(s', s'.reqs[k], u) {
        NobodyNew(s, s', x, u, k);
        StaysShut(s, s', k, u);
      }
    }
  }

  lemma {:induction false} SignedOutStays(s: State, es: seq<Event>, t: State, u: UserId)
    requires Inv(s) && SignedOut(s, u) && Run(s, es) == Some(t) && NoSignIn(es, u)
    ensures SignedOut(t, u)
    decreases |es|
  {
    if es != [] {
      hide Inv, Ahead, Enabled, Next, SignedOut, SignsIn;
      assert es[0] in es;
      StepKeepsInv(s, es[0]);
      StepKeepsSignedOut(s, es[0], u);
      SignedOutStays(Next(s, es[0]), es[1..], t, u);
    }
  }

  // ----- Any other account comes back -----

  lemma OpeningYields(s: State, r: ReqId) returns (f: FamilyId)
    requires r in s.reqs && s.reqs[r].LoginSigned?
    ensures Yields(s, f, s.reqs[r].owner)
  {
    hide Enabled, Next, Yields, StartsSignIn;
    var e, t, id;
    e, t, id, f := SessionOpened(s, r, s.now);
    LiveYields(t, id, f, s.reqs[r].owner);
    YieldsBefore(s, e, f, s.reqs[r].owner);
  }

  lemma SigningYields(s: State, r: ReqId, user: UserSnapshot) returns (f: FamilyId)
    requires r in s.reqs
    requires s.reqs[r] == LoginReady(user)
          || (s.reqs[r].LoginVerified? && s.reqs[r].user == user && !NeedsRehash(s.config, user))
    ensures Yields(s, f, user.id)
  {
    hide NeedsRehash, Yields;
    var jti := UnusedExists(s.issued.Keys);
    var e := Login(r, SignLogin(jti));
    var s' := SignNext(s, r, jti, user, LoginSigned(user.id));
    assert Enabled(s, e) && Next(s, e) == s';
    hide Enabled, Next;
    f := OpeningYields(s', r);
    YieldsBefore(s, e, f, user.id);
  }

  /** A re-hash of the row as it still stands cannot fail: the address stays what it was. */
  lemma CurrentRehashSaves(t: UserTable, user: UserSnapshot, password: string, cost: nat, at: int)
    requires Serial(t) && Loaded(t, user) && user.version == t[user.id].row.version
    requires SecretOf(user.profile) == Some(password)
    ensures var e := Edit(UpgradePasswordHash(PasswordHash(password, cost)), at);
            Saved(t, Apply(user, e), [e]).Ok?
  {
    var e := Edit(UpgradePasswordHash(PasswordHash(password, cost)), at);
    LoadedCurrent(t, user);
    ApplyOne(user, e);
    assert [e][1..] == [] && KeepSecrets(user.id, user.profile, [e]);
    assert EmailFree(t, user.id, user.profile.email);
    hide Serial, Loaded, Saved, ApplyAll, KeepSecrets;
    SaveKeepsSerial(t, user, [e]);
  }

  lemma RehashingYields(s: State, r: ReqId) returns (f: FamilyId)
    requires AccessInv(s) && r in s.reqs && s.reqs[r].LoginVerified? && NeedsRehash(s.config, s.reqs[r].user)
    requires var user := s.reqs[r].user; user.id in s.users && user.version == s.users[user.id].row.version
    ensures Yields(s, f, s.reqs[r].user.id)
  {
    var user, password := s.reqs[r].user, s.reqs[r].password;
    assert RequestOK(s, s.reqs[r]);
    hide AccessInv, Serial, Saved, ApplyAll, Apply, SaveThen, NeedsRehash, Yields, Loaded, Vouched;
    var e := RehashEdit(s, s.reqs[r], s.now);
    CurrentRehashSaves(s.users, user, password, s.config.hashCost, s.now);
    ApplyOne(user, e);
    EditedCost(user, e);
    var ready := LoginReady(Apply(user, e));
    var users := Saved(s.users, Apply(user, e), [e]).value;
    SaveOutcome(s, r, user, [e], Some(ready));
    var s' := Goto(s.(users := users), r, ready);
    assert Enabled(s, Login(r, Rehash(s.now))) && Next(s, Login(r, Rehash(s.now))) == s';
    hide Enabled, Next;
    f := SigningYields(s', r, Apply(user, e));
    YieldsBefore(s, Login(r, Rehash(s.now)), f, user.id);
  }

  lemma YieldsReopens(s: State, f: FamilyId, u: UserId)
    requires Yields(s, f, u)
    ensures Reopens(s, u)
  {
    var es, t, id :| Run(s, es) == Some(t) && LiveRow(t, id, f, u) && forall e :: e in es ==> !StartsSignIn(e);
    assert id in LiveRowsOf(t, u);
    assert NoSignIn(es, u);
  }

  lemma PendingReopens(s: State, r: ReqId, u: UserId)
    requires AccessInv(s) && r in s.reqs && CanReopen(s, s.reqs[r], u)
    ensures Reopens(s, u)
  {
    hide Reopens, Yields, NeedsRehash, Serial, RequestOK, IssueOK, Covers;
    var q := s.reqs[r];
    var f;
    if q.LoginSigned? {
      f := OpeningYields(s, r);
    } else if q.LoginReady? {
      f := SigningYields(s, r, q.user);
    } else if q.LoginVerified? {
      if NeedsRehash(s.config, q.user) { f := RehashingYields(s, r); } else { f := SigningYields(s, r, q.user); }
    } else {
      HolderYields(s, r);
      f := Claim(s.reqs, r).value.0;
    }
    YieldsReopens(s, f, u);
  }

  /**
   * When an account is signed out. Without a new password check it has no live row in any state any
   * continuation leads to exactly when it has none now and nothing in flight can give it one.
   */
  lemma AccountIsSignedOut(s: State, u: UserId)
    requires Inv(s)
    ensures Reopens(s, u) <==> !SignedOut(s, u)
  {
    InvParts(s);
    var none: seq<Event> := [];
    assert Run(s, none) == Some(s) && NoSignIn(none, u);
    hide Inv, AccessInv, FamilyInv, OwnersOK, CanReopen, LiveRowsOf;
    if SignedOut(s, u) {
      if Reopens(s, u) {
        var es, t :| Run(s, es) == Some(t) && NoSignIn(es, u) && LiveRowsOf(t, u) != {};
        SignedOutStays(s, es, t, u);
      }
    } else if LiveRowsOf(s, u) == {} {
      hide Reopens;
      var r :| r in s.reqs && CanReopen(s, s.reqs[r], u);
      PendingReopens(s, r, u);
    }
  }

  // ----- What revoking every row reaches -----

  lemma RevokingMovesNobody(s: State, e: Event, u: UserId)
    requires Enabled(s, e) && RevokesAccount(s, e, u)
    ensures var s' := Next(s, e);
            && s'.users == s.users && s'.config == s.config && s'.issued == s.issued
            && s'.denylist == s.denylist && s'.now == s.now
            && (Pending(s', u) <==> Pending(s, u))
            && (forall k :: k in s.reqs && s.reqs[k].LoginSigned? ==> k in s'.reqs && s'.reqs[k] == s.reqs[k])
  {
    hide RevokedWhere;
    var s' := Next(s, e);
    if e.Logout? {
      var q := LogoutAllStarted(u, e.logout.ownJti);
      assert s' == Goto(RevokedIn(s, OfUser(u), Reason.LogoutAll, e.logout.at), e.r, q);
    } else {
      assert s' == Done(RevokedIn(s, OfUser(u), Reason.PasswordChanged, e.change.at), e.r);
    }
    assert forall k :: k != e.r ==> (k in s'.reqs <==> k in s.reqs) && (k in s.reqs ==> s'.reqs[k] == s.reqs[k]);
    assert e.r in s.reqs ==> !CanReopen(s, s.reqs[e.r], u);
    assert e.r in s'.reqs ==> !CanReopen(s', s'.reqs[e.r], u);
    hide Enabled, Next, RevokesAccount;
    forall k | k in s.reqs && k != e.r ensures CanReopen(s', s'.reqs[k], u) <==> CanReopen(s, s.reqs[k], u) {}
  }

  /** Signing one account out leaves the sessions of every other as they were. */
  lemma OtherAccountsLive(s: State, e: Event, u: UserId, v: UserId)
    requires Enabled(s, e) && RevokesAccount(s, e, u) && v != u
    ensures LiveRowsOf(Next(s, e), v) == LiveRowsOf(s, v)
  {
    var at := RevocationIsPrecise(s, e);
    assert forall id :: id in s.tokens && s.tokens[id].userId == v ==> !Targets(s, e, s.tokens[id]);
    hide Enabled, Next, RevokesAccount, Targets;
    forall id | id in s.tokens ensures Next(s, e).tokens[id].userId == s.tokens[id].userId {}
  }

  /**
   * Logout-all and a password change leave the account signed out — until its password is verified again —
   * exactly when, at the moment they revoke its rows, nothing in flight can store another: no login past its
   * password check that still gets through its re-hash, and no refresh past its compare-and-swap whose account
   * is there. The condition cannot be dropped, since nothing revokes the row such a request goes on to store.
   */
  lemma AccountRevocationIsFinal(s: State, e: Event, u: UserId)
    requires Inv(s) && Enabled(s, e) && RevokesAccount(s, e, u)
    ensures !Reopens(Next(s, e), u) <==> forall r :: r in s.reqs ==> !CanReopen(s, s.reqs[r], u)
  {
    AccountRowsRevoked(s, e, u);
    RevokingMovesNobody(s, e, u);
    hide Inv, Ahead, Enabled, Next, RevokesAccount, Reopens;
    assert LiveRowsOf(Next(s, e), u) == {};
    StepKeepsInv(s, e);
    AccountIsSignedOut(Next(s, e), u);
  }

  /**
   * The shortest way back: a login that has signed its tokens is missed by the revocation, and one statement
   * later the account has a live row again although every row was revoked a moment ago.
   */
  lemma LoginSurvivesRevocation(s: State, e: Event, r: ReqId, at: int) returns (next: Event, t: State, id: TokenId)
    requires r in s.reqs && s.reqs[r].LoginSigned? && at <= s.now
    requires Enabled(s, e) && RevokesAccount(s, e, s.reqs[r].owner)
    ensures forall k :: k in Next(s, e).tokens && Next(s, e).tokens[k].userId == s.reqs[r].owner ==>
              IsRevoked(Next(s, e).tokens[k])
    ensures Run(Next(s, e), [next]) == Some(t)
    ensures id in t.tokens && t.tokens[id].userId == s.reqs[r].owner && !IsRevoked(t.tokens[id])
  {
    hide Next, Enabled, Run, RevokesAccount, Pending;
    RevokingMovesNobody(s, e, s.reqs[r].owner);
    AccountRowsRevoked(s, e, s.reqs[r].owner);
    var f;
    next, t, id, f := SessionOpened(Next(s, e), r, at);
    RunOne(Next(s, e), next);
  }

  /** That gap too is within reach from every state in which the account can sign in. */
  lemma AccountRevocationCanMiss(s: State, u: UserId, password: string) returns (es: seq<Event>, t: State)
    requires Inv(s) && CanSignIn(s.users, u, password)
    ensures Run(s, es) == Some(t)
    ensures forall e :: Enabled(t, e) && RevokesAccount(t, e, u) ==> Reopens(Next(t, e), u)
  {
    hide Inv, AccessInv, FamilyInv, OwnersOK, Serial, Run, Ahead, CanSignIn, FreshToken, Enabled, Next, RevokesAccount,
        Reopens;
    InvParts(s);
    var r := UnusedExists(s.reqs.Keys);
    var jti := UnusedExists(s.issued.Keys);
    es, t := SignedIn(s, u, password, r, jti);
    RunKeepsInv(s, es, t);
    assert CanReopen(t, t.reqs[r], u);
    hide CanReopen;
    forall e | Enabled(t, e) && RevokesAccount(t, e, u) ensures Reopens(Next(t, e), u) {
      AccountRevocationIsFinal(t, e, u);
    }
  }

  // ----- Access tokens, and both together -----

  lemma LoginIssuesNothing(s: State, r: ReqId, step: LoginStep)
    requires LoginEnabled(s, r, step) && !step.SignLogin?
    ensures LoginNext(s, r, step).issued == s.issued
  {
    hide Touched, Verify, CanAuthenticate, NeedsRehash, SaveThen, Saved, ApplyAll, Apply;
    if step.Rehash? {
      var q := s.reqs[r];
      var es := [RehashEdit(s, q, step.at)];
      SaveOutcome(s, r, q.user, es, Some(LoginReady(Apply(q.user, es[0]))));
    }
  }

  lemma OnlySigningIssues(s: State, e: Event)
    requires Enabled(s, e) && !Signs(e)
    ensures Next(s, e).issued == s.issued
  {
    if e.Login? {
      hide LoginEnabled, LoginNext;
      LoginIssuesNothing(s, e.r, e.login);
    } else {
      hide Enabled, Next;
      OthersMakeNoLogin(s, e);
    }
  }

  /** Whoever signs for the account is on the way to store a row for it. */
  lemma SignerIsPending(s: State, e: Event, id: Jti)
    requires Enabled(s, e) && Signs(e) && id in Next(s, e).issued && id !in s.issued
    ensures Pending(s, Subject(Next(s, e), id))
  {
    hide NeedsRehash;
    var u := Subject(Next(s, e), id);
    assert CanReopen(s, s.reqs[e.r], u);
  }

  lemma {:induction false} NoNewTokens(s: State, es: seq<Event>, t: State, u: UserId, id: Jti)
    requires Inv(s) && SignedOut(s, u) && Run(s, es) == Some(t) && NoSignIn(es, u)
    requires id in t.issued && Subject(t, id) == u
    ensures id in s.issued && Subject(s, id) == u
    decreases |es|
  {
    if es != [] {
      hide Inv, Enabled, Next, SignsIn, LiveRowsOf, Signs, Pending, Serial, Grows;
      assert es[0] in es;
      StepKeepsInv(s, es[0]);
      assert id in s.issued && id in Next(s, es[0]).issued ==> Subject(Next(s, es[0]), id) == Subject(s, id);
      hide Ahead;
      StepKeepsSignedOut(s, es[0], u);
      NoNewTokens(Next(s, es[0]), es[1..], t, u, id);
      if !Signs(es[0]) {
        OnlySigningIssues(s, es[0]);
      } else if id !in s.issued {
        SignerIsPending(s, es[0], id);
      }
    }
  }

  ghost predicate HasAccess(s: State, u: UserId) {
    exists id :: id in s.issued && Subject(s, id) == u && Accepts(s, id)
  }

  /** Without a new password check no continuation has a live row of the account or accepts a token of it. */
  ghost predicate LockedOut(s: State, u: UserId) {
    forall es, t :: Run(s, es) == Some(t) && NoSignIn(es, u) ==> LiveRowsOf(t, u) == {} && !HasAccess(t, u)
  }

  lemma LockedOutMeaning(s: State, u: UserId)
    requires Inv(s)
    ensures LockedOut(s, u) <==> SignedOut(s, u) && !HasAccess(s, u)
  {
    hide Inv, Ahead, Accepts, LiveRowsOf, Pending;
    AccountIsSignedOut(s, u);
    if SignedOut(s, u) && !HasAccess(s, u) {
      forall es, t | Run(s, es) == Some(t) && NoSignIn(es, u) ensures LiveRowsOf(t, u) == {} && !HasAccess(t, u) {
        SignedOutStays(s, es, t, u);
        forall id | id in t.issued && Subject(t, id) == u ensures !Accepts(t, id) {
          NoNewTokens(s, es, t, u, id);
          RejectionIsPermanent(s, id, es, t);
        }
      }
    } else if SignedOut(s, u) {
      var none: seq<Event> := [];
      assert Run(s, none) == Some(s) && NoSignIn(none, u);
    }
  }

  /**
   * When revoking every row of the account locks everybody out of it, both halves together: exactly when, at
   * that moment, nothing in flight can store a row for it and none of its access tokens is accepted.
   */
  lemma RevocationLocksOut(s: State, e: Event, u: UserId)
    requires Inv(s) && Enabled(s, e) && RevokesAccount(s, e, u)
    ensures LockedOut(Next(s, e), u) <==> !Pending(s, u) && !HasAccess(s, u)
  {
    hide Inv, Enabled, Next, RevokesAccount, Pending;
    AccountRowsRevoked(s, e, u);
    RevokingMovesNobody(s, e, u);
    assert forall id :: id in s.issued ==> (Accepts(Next(s, e), id) <==> Accepts(s, id));
    assert HasAccess(Next(s, e), u) <==> HasAccess(s, u);
    hide Ahead, LockedOut, HasAccess;
    assert LiveRowsOf(Next(s, e), u) == {};
    StepKeepsInv(s, e);
    LockedOutMeaning(Next(s, e), u);
  }

  /** The token was signed from a load made after the account's row was as in `s0`. */
  predicate SignedAfter(s0: State, i: Issue) {
    i.claims.sub in s0.users && s0.users[i.claims.sub].row.version < i.basis.version
  }

  /**
   * A password change, from its save to the end of its run: it locks everybody out who does not know the new
   * password exactly when, at the revocation, nothing in flight can store a row and no token signed from a load
   * made after the save is accepted. Tokens signed from earlier loads need no mention: the save ended them.
   */
  lemma PasswordChangeLocksOut(s0: State, r: ReqId, at: int, s1: State, mid: seq<Event>, s: State, e: Event, u: UserId)
    requires Inv(s0) && ChangesPassword(s0, r, at, s1) && u == s0.reqs[r].user.id && u in s0.users
    requires Run(s1, mid) == Some(s) && Enabled(s, e) && RevokesAccount(s, e, u)
    ensures LockedOut(Next(s, e), u) <==>
              && !Pending(s, u)
              && forall id :: id in s.issued && Subject(s, id) == u && SignedAfter(s0, s.issued[id]) ==>
                   !Accepts(s, id)
  {
    hide Inv, Ahead, Run, Enabled, Next, RevokesAccount, LockedOut, Pending, Accepts, ChangesPassword;
    ChangeRaisesEpoch(s0, r, at, s1);
    RunKeepsInv(s1, mid, s);
    RevocationLocksOut(s, e, u);
    forall id | id in s.issued && Subject(s, id) == u && s.issued[id].basis.version <= s0.users[u].row.version
      ensures !Accepts(s, id)
    {
      ChangePasswordEndsOldTokens(s0, r, at, s1, mid, s, id);
    }
  }
}
