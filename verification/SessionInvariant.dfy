/**
 * What every step of the protocol keeps: in-flight snapshots are states their account really went
 * through, denylist entries outlive their tokens, and every refresh family is one linear chain.
 */
module SessionInvariant {
  import opened Common
  import opened UserEntity
  import opened UserRepository
  import opened RefreshTokens
  import opened AccessTokens
  import opened Session

  // ----- Snapshots -----

  /** Equal in everything an access token speaks for. */
  ghost predicate SameSession(p: Profile, q: Profile) {
    p.tokenVersion == q.tokenVersion && p.status == q.status && SameIdentity(p, q)
  }

  /** A snapshot good enough to sign from: loaded, or loaded and re-hashed since. */
  ghost predicate Vouched(t: UserTable, u: UserSnapshot) {
    && u.id in t && Versioned(t[u.id], u.version)
    && SameSession(AsOf(t[u.id], u.version), u.profile)
    && CanAuthenticate(u.profile)
  }

  ghost predicate KnownJti(s: State, jti: Option<Jti>) {
    jti.Some? ==> jti.value in s.issued
  }

  /** An entry that lasts at least as long as the token it denies. */
  ghost predicate Covers(s: State, id: Jti, until: int) {
    id in s.issued && s.issued[id].claims.exp * 1000 <= until
  }

  ghost predicate RequestOK(s: State, q: Request) {
    match q
    case RefreshLoaded(u, _, _) => Vouched(s.users, u)
    case LoginVerified(u, password) =>
      Loaded(s.users, u) && Vouched(s.users, u) && SecretOf(u.profile) == Some(password)
    case LoginReady(u) => Vouched(s.users, u)
    case LogoutFound(_, jti, _) => KnownJti(s, jti)
    case LogoutAllStarted(_, jti) => KnownJti(s, jti)
    case LogoutAllLoaded(u, jti) => Loaded(s.users, u) && KnownJti(s, jti)
    case Denying(jti) => KnownJti(s, jti)
    case DenyWriting(id, ttl) => Covers(s, id, s.now + ttl * 1000)
    case PasswordVerified(u, _) => Loaded(s.users, u)
    case Editing(u) => Loaded(s.users, u)
    case LoginSigned(owner) => owner in s.users
    case _ => true
  }

  ghost predicate IssueOK(t: UserTable, id: Jti, i: Issue) {
    && Vouched(t, i.basis)
    && i.claims.jti == id && i.claims.sub == i.basis.id
    && i.claims.tv == i.basis.profile.tokenVersion && i.claims.adm == i.basis.profile.isPlatformAdmin
  }

  ghost predicate AccessInv(s: State) {
    && Serial(s.users)
    && (forall r :: r in s.reqs ==> RequestOK(s, s.reqs[r]))
    && (forall id :: id in s.issued ==> IssueOK(s.users, id, s.issued[id]))
    && (forall id :: id in s.denylist ==> Covers(s, id, s.denylist[id]))
  }

  /** `s'` comes after `s`: accounts moved on, tokens were added, time passed. */
  ghost predicate Ahead(s: State, s': State) {
    && Grows(s.users, s'.users) && Serial(s'.users)
    && (forall id :: id in s.issued ==> id in s'.issued && s'.issued[id] == s.issued[id])
    && s.denylist.Keys <= s'.denylist.Keys
    && s.now <= s'.now
  }

  lemma VouchedStays(t: UserTable, t': UserTable, u: UserSnapshot)
    requires Vouched(t, u) && Grows(t, t') && Serial(t')
    ensures Vouched(t', u)
  {
    assert SerialAccount(t'[u.id]);
  }

  lemma RequestStays(s: State, s': State, q: Request)
    requires RequestOK(s, q) && Ahead(s, s')
    ensures RequestOK(s', q)
  {
    hide Serial, Vouched, Loaded;
    match q
    case RefreshLoaded(u, _, _) => VouchedStays(s.users, s'.users, u);
    case LoginVerified(u, _) => VouchedStays(s.users, s'.users, u); LoadedStays(s.users, s'.users, u);
    case LoginReady(u) => VouchedStays(s.users, s'.users, u);
    case LogoutAllLoaded(u, _) => LoadedStays(s.users, s'.users, u);
    case PasswordVerified(u, _) => LoadedStays(s.users, s'.users, u);
    case Editing(u) => LoadedStays(s.users, s'.users, u);
    case _ =>
  }

  lemma RowIsLoaded(t: UserTable, id: UserId)
    requires Serial(t) && id in t
    ensures Loaded(t, t[id].row)
    ensures CanAuthenticate(t[id].row.profile) ==> Vouched(t, t[id].row)
  {
    assert SerialAccount(t[id]);
  }

  /** Whatever is new in `s'` must be right; whatever was right before `s'` stays so. */
  lemma InvAhead(s: State, s': State)
    requires AccessInv(s) && Ahead(s, s')
    requires forall r :: r in s'.reqs ==> (r in s.reqs && s.reqs[r] == s'.reqs[r]) || RequestOK(s', s'.reqs[r])
    requires forall id :: id in s'.issued ==>
               (id in s.issued && s.issued[id] == s'.issued[id]) || IssueOK(s'.users, id, s'.issued[id])
    requires forall id :: id in s'.denylist ==>
               (id in s.denylist && s.denylist[id] == s'.denylist[id]) || Covers(s', id, s'.denylist[id])
    ensures AccessInv(s')
  {
    hide Serial, Grows, RequestOK, Vouched;
    forall r | r in s'.reqs ensures RequestOK(s', s'.reqs[r]) {
      if r in s.reqs && s.reqs[r] == s'.reqs[r] { RequestStays(s, s', s.reqs[r]); }
    }
    forall id | id in s'.issued ensures IssueOK(s'.users, id, s'.issued[id]) {
      if id in s.issued && s.issued[id] == s'.issued[id] { VouchedStays(s.users, s'.users, s.issued[id].basis); }
    }
  }

  lemma AheadSame(s: State, s': State)
    requires Serial(s.users) && s'.users == s.users && s'.issued == s.issued && s.now <= s'.now
    requires s.denylist.Keys <= s'.denylist.Keys
    ensures Ahead(s, s')
  {
  }

  /** Nothing an access token depends on differs. */
  ghost predicate SameAccess(s: State, s': State) {
    s'.users == s.users && s'.issued == s.issued && s'.denylist == s.denylist && s'.now == s.now
  }

  /** Steps that leave accounts, tokens and denylist alone: one request moves to `q`, or ends. */
  lemma MoveKeepsAccess(s: State, s0: State, r: ReqId, q: Request)
    requires AccessInv(s) && SameAccess(s, s0) && s0.reqs == s.reqs && RequestOK(s, q)
    ensures AccessInv(Goto(s0, r, q)) && Ahead(s, Goto(s0, r, q))
  {
    hide Serial, RequestOK, IssueOK;
    AheadSame(s, Goto(s0, r, q));
    RequestStays(s, Goto(s0, r, q), q);
    InvAhead(s, Goto(s0, r, q));
  }

  lemma EndKeepsAccess(s: State, s0: State, r: ReqId)
    requires AccessInv(s) && SameAccess(s, s0) && s0.reqs == s.reqs
    ensures AccessInv(s0) && Ahead(s, s0)
    ensures AccessInv(Done(s0, r)) && Ahead(s, Done(s0, r))
  {
    hide Serial, RequestOK, IssueOK;
    AheadSame(s, s0);
    AheadSame(s, Done(s0, r));
    InvAhead(s, s0);
    InvAhead(s, Done(s0, r));
  }

  lemma SignKeepsAccess(s: State, r: ReqId, id: Jti, user: UserSnapshot, q: Request)
    requires AccessInv(s) && Vouched(s.users, user) && id !in s.issued
    requires (q.RefreshSigned? || q.LoginSigned?) && RequestOK(s, q)
    ensures AccessInv(SignNext(s, r, id, user, q)) && Ahead(s, SignNext(s, r, id, user, q))
  {
    hide Serial, Vouched;
    var s' := SignNext(s, r, id, user, q);
    assert Grows(s.users, s.users);
    InvAhead(s, s');
  }

  lemma SaveKeepsAccess(s: State, r: ReqId, loaded: UserSnapshot, edits: seq<Edit>, ok: Option<Request>)
    requires AccessInv(s) && Loaded(s.users, loaded) && KeepSecrets(loaded.id, loaded.profile, edits)
    requires ok.Some? ==> RequestOK(s, ok.value)
    ensures AccessInv(SaveThen(s, r, loaded, edits, ok)) && Ahead(s, SaveThen(s, r, loaded, edits, ok))
  {
    hide Serial, Loaded, KeepSecrets, Grows, Later, RequestOK, IssueOK, Saved, EmailFree, ApplyAll;
    SaveKeepsSerial(s.users, loaded, edits);
    var saved := Saved(s.users, ApplyAll(loaded, edits), edits);
    if saved.Ok? {
      var s0 := s.(users := saved.value);
      assert Ahead(s, s0);
      InvAhead(s, s0);
      if ok.Some? {
        RequestStays(s, s0, ok.value);
        MoveKeepsAccess(s0, s0, r, ok.value);
      } else {
        EndKeepsAccess(s0, s0, r);
      }
    } else {
      EndKeepsAccess(s, s, r);
    }
  }

  lemma RehashKeepsAccess(s: State, r: ReqId, at: int)
    requires AccessInv(s) && LoginEnabled(s, r, Rehash(at))
    ensures AccessInv(LoginNext(s, r, Rehash(at))) && Ahead(s, LoginNext(s, r, Rehash(at)))
  {
    hide Serial, Grows;
    var q := s.reqs[r];
    var e := RehashEdit(s, q, at);
    assert RequestOK(s, q);
    assert [e][1..] == [];
    SaveKeepsAccess(s, r, q.user, [e], Some(LoginReady(Apply(q.user, e))));
  }

  lemma RefreshKeepsAccess(s: State, r: ReqId, step: RefreshStep)
    requires AccessInv(s) && RefreshEnabled(s, r, step)
    ensures AccessInv(RefreshNext(s, r, step)) && Ahead(s, RefreshNext(s, r, step))
  {
    hide Serial, Vouched, IssueOK, RevokedWhere;
    match step
    case Sign(jti) =>
      assert RequestOK(s, s.reqs[r]);
      var q := s.reqs[r];
      SignKeepsAccess(s, r, jti, q.user, RefreshSigned(q.user.id, q.family, q.startedAt));
    case Load =>
      LoadKeepsAccess(s, r);
    case Find(token, at) =>
      if token in s.tokens { MoveKeepsAccess(s, s, r, RefreshFound(s.tokens[token], at)); }
    case RevokeReused =>
      var q := s.reqs[r];
      var family := if q.RefreshLost? then q.lostFamily else q.row.familyId;
      EndKeepsAccess(s, RevokedIn(s, OfFamily(family), ReuseDetected, q.startedAt), r);
    case Consume => ConsumeKeepsAccess(s, r);
    case Store(token) =>
      StoreKeepsAccess(s, r, s.reqs[r].owner, s.reqs[r].family, s.reqs[r].startedAt, token);
  }

  lemma LoadKeepsAccess(s: State, r: ReqId)
    requires AccessInv(s) && RefreshEnabled(s, r, Load)
    ensures AccessInv(RefreshNext(s, r, Load)) && Ahead(s, RefreshNext(s, r, Load))
  {
    hide Serial, Vouched, IssueOK;
    var q := s.reqs[r];
    if Findable(s.users, q.owner) && CanAuthenticate(s.users[q.owner].row.profile) {
      RowIsLoaded(s.users, q.owner);
      MoveKeepsAccess(s, s, r, RefreshLoaded(s.users[q.owner].row, q.family, q.startedAt));
    } else {
      DropKeepsAccess(s, r);
    }
  }

  lemma DropKeepsAccess(s: State, r: ReqId)
    requires AccessInv(s) && r in s.reqs
    ensures AccessInv(Dropped(s, r)) && Ahead(s, Dropped(s, r))
  {
    hide AccessInv;
    EndKeepsAccess(s, s, r);
    var q := s.reqs[r];
    if IsWinner(q) && q.family in s.families {
      var F := s.families[q.family];
      EndKeepsAccess(s, s.(families := s.families[q.family := F.(dropped := F.dropped + 1)]), r);
    }
  }

  lemma ConsumeKeepsAccess(s: State, r: ReqId)
    requires AccessInv(s) && RefreshEnabled(s, r, Consume)
    ensures AccessInv(RefreshNext(s, r, Consume)) && Ahead(s, RefreshNext(s, r, Consume))
  {
    hide AccessInv, RevokedWhere;
    var row, at := s.reqs[r].row, s.reqs[r].startedAt;
    var f := row.familyId;
    var s0 := RevokedIn(s, ById(row.id), Rotated, at);
    MoveKeepsAccess(s, s, r, RefreshLost(f, at));
    MoveKeepsAccess(s, s0, r, RefreshWon(row.userId, f, at));
    if f in s.families {
      var F := s.families[f];
      var s1 := s0.(families := s.families[f := F.(spent := F.spent + [row.id])]);
      MoveKeepsAccess(s, s1, r, RefreshWon(row.userId, f, at));
    }
  }

  lemma StoreKeepsAccess(s: State, r: ReqId, owner: UserId, f: FamilyId, at: int, token: TokenId)
    requires AccessInv(s)
    ensures AccessInv(StoreNext(s, r, owner, f, at, token)) && Ahead(s, StoreNext(s, r, owner, f, at, token))
  {
    hide AccessInv;
    var s0 := s.(tokens := s.tokens[token := Issued(token, owner, f, s.config.refreshTtlS, at)],
                 minted := s.minted[token := f]);
    EndKeepsAccess(s, s0, r);
    if f in s.families {
      EndKeepsAccess(s, s0.(families := s.families[f := s.families[f].(chain := s.families[f].chain + [token])]), r);
    }
  }

  lemma LoginKeepsAccess(s: State, r: ReqId, step: LoginStep)
    requires AccessInv(s) && LoginEnabled(s, r, step)
    ensures AccessInv(LoginNext(s, r, step)) && Ahead(s, LoginNext(s, r, step))
  {
    hide Serial, Loaded, IssueOK, Grows;
    match step
    case VerifyPassword(id, password) =>
      RowIsLoaded(s.users, id);
      MoveKeepsAccess(s, s, r, LoginVerified(s.users[id].row, password));
    case Rehash(at) => RehashKeepsAccess(s, r, at);
    case SignLogin(jti) =>
      assert RequestOK(s, s.reqs[r]);
      SignKeepsAccess(s, r, jti, s.reqs[r].user, LoginSigned(s.reqs[r].user.id));
    case OpenFamily(token, family, at) =>
      var owner := s.reqs[r].owner;
      MoveKeepsAccess(s, s.(tokens := s.tokens[token := Issued(token, owner, family, s.config.refreshTtlS, at)],
                           minted := s.minted[token := family],
                           families := s.families[family := Family(owner, [token], [], 0)]),
                     r, LoginStored(owner));
    case TouchLogin(at) =>
      TouchKeepsSerial(s.users, s.reqs[r].owner, at, s.now);
      InvAhead(s, LoginNext(s, r, step));
  }

  lemma LogoutKeepsAccess(s: State, r: ReqId, step: LogoutStep)
    requires AccessInv(s) && LogoutEnabled(s, r, step)
    ensures AccessInv(LogoutNext(s, r, step)) && Ahead(s, LogoutNext(s, r, step))
  {
    hide Serial, Vouched, Loaded, IssueOK, Grows, RevokedWhere;
    if r in s.reqs { assert RequestOK(s, s.reqs[r]); }
    match step
    case FindSession(userId, presented, jti, at) =>
      MoveKeepsAccess(s, s, r, Denying(jti));
      if presented.Some? && presented.value in s.tokens {
        MoveKeepsAccess(s, s, r, LogoutFound(s.tokens[presented.value].familyId, jti, at));
      }
    case RevokeSession =>
      var q := s.reqs[r];
      MoveKeepsAccess(s, RevokedIn(s, OfFamily(q.sessionFamily), Reason.Logout, q.startedAt), r, Denying(q.jti));
    case RevokeAll(userId, jti, at) =>
      MoveKeepsAccess(s, RevokedIn(s, OfUser(userId), Reason.LogoutAll, at), r, LogoutAllStarted(userId, jti));
    case LoadAll =>
      var q := s.reqs[r];
      MoveKeepsAccess(s, s, r, Denying(q.jti));
      if q.owner in s.users {
        RowIsLoaded(s.users, q.owner);
        MoveKeepsAccess(s, s, r, LogoutAllLoaded(s.users[q.owner].row, q.jti));
      }
    case SaveAll(at) =>
      assert RequestOK(s, s.reqs[r]);
      SaveKeepsAccess(s, r, s.reqs[r].user, [Edit(InvalidateSessions, at)], Some(Denying(s.reqs[r].jti)));
    case ComputeTtl => DenyKeepsAccess(s, r);
    case WriteDeny =>
      assert RequestOK(s, s.reqs[r]);
      AheadSame(s, LogoutNext(s, r, step));
      InvAhead(s, LogoutNext(s, r, step));
  }

  lemma DenyRequest(s: State, id: Jti)
    requires id in s.issued
    ensures RequestOK(s, DenyWriting(id, DenyTtl(s.issued[id].claims.exp * 1000, s.now)))
  {
    DenyOutlivesToken(s.issued[id].claims.exp * 1000, s.now, s.now);
  }

  lemma DenyKeepsAccess(s: State, r: ReqId)
    requires AccessInv(s) && LogoutEnabled(s, r, ComputeTtl)
    ensures AccessInv(LogoutNext(s, r, ComputeTtl)) && Ahead(s, LogoutNext(s, r, ComputeTtl))
  {
    hide Serial, RequestOK, IssueOK;
    EndKeepsAccess(s, s, r);
    var jti := s.reqs[r].jti;
    if jti.Some? {
      DenyRequest(s, jti.value);
      MoveKeepsAccess(s, s, r, DenyWriting(jti.value, DenyTtl(s.issued[jti.value].claims.exp * 1000, s.now)));
    }
  }

  lemma AccountKeepsAccess(s: State, r: ReqId, step: AccountStep)
    requires AccessInv(s) && AccountEnabled(s, r, step)
    ensures AccessInv(AccountNext(s, r, step)) && Ahead(s, AccountNext(s, r, step))
  {
    hide Serial, Vouched, Loaded, IssueOK, Grows, RevokedWhere;
    match step
    case VerifyChange(id, _, newPassword) =>
      RowIsLoaded(s.users, id);
      MoveKeepsAccess(s, s, r, PasswordVerified(s.users[id].row, PasswordHash(newPassword, s.config.hashCost)));
    case LoadEdit(id) =>
      RowIsLoaded(s.users, id);
      MoveKeepsAccess(s, s, r, Editing(s.users[id].row));
    case SaveChange(at) =>
      assert RequestOK(s, s.reqs[r]);
      SaveKeepsAccess(s, r, s.reqs[r].user, [Edit(SetPasswordHash(s.reqs[r].newHash), at)],
                     Some(PasswordSaved(s.reqs[r].user.id)));
    case SaveEdit(edits) =>
      assert RequestOK(s, s.reqs[r]);
      SaveKeepsAccess(s, r, s.reqs[r].user, edits, None);
    case RevokeAfterChange(at) =>
      EndKeepsAccess(s, RevokedIn(s, OfUser(s.reqs[r].owner), Reason.PasswordChanged, at), r);
  }

  lemma NextKeepsAccess(s: State, e: Event)
    requires AccessInv(s) && Enabled(s, e)
    ensures AccessInv(Next(s, e)) && Ahead(s, Next(s, e))
  {
    hide Serial, Vouched, Loaded, IssueOK, Grows;
    hide RefreshNext, LoginNext, LogoutNext, AccountNext, RefreshEnabled, LoginEnabled, LogoutEnabled, AccountEnabled;
    match e
    case Register(u) =>
      CreateKeepsSerial(s.users, u);
      InvAhead(s, Next(s, e));
    case Refresh(r, step) => RefreshKeepsAccess(s, r, step);
    case Login(r, step) => LoginKeepsAccess(s, r, step);
    case Logout(r, step) => LogoutKeepsAccess(s, r, step);
    case Manage(r, step) => AccountKeepsAccess(s, r, step);
    case Abandon(r) => DropKeepsAccess(s, r);
    case Tick(_) => AheadSame(s, Next(s, e)); InvAhead(s, Next(s, e));
    case Sweep(_) => EndKeepsAccess(s, Next(s, e), 0);
  }
}
