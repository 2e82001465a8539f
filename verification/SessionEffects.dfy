/** What a step can do to refresh tokens and requests: one of eight things, whichever use case takes it. */
module SessionEffects {
  import opened Common
  import opened UserEntity
  import opened UserRepository
  import opened RefreshTokens
  import opened AccessTokens
  import opened Session

  /** The rows a revocation is about. */
  datatype Scope = WholeFamily(family: FamilyId) | WholeAccount(userId: UserId)

  function Within(scope: Scope): TokenRow -> bool {
    match scope
    case WholeFamily(f) => OfFamily(f)
    case WholeAccount(u) => OfUser(u)
  }

  datatype Effect =
    | Nothing
    | Sweeping(cutoff: int)
    | Moving(r: ReqId, to: Option<Request>)
    | Revoking(r: ReqId, to: Option<Request>, scope: Scope, reason: Reason, at: int)
    | Winning(r: ReqId, row: TokenRow, at: int)
    | Storing(r: ReqId, owner: UserId, family: FamilyId, at: int, token: TokenId)
    | Opening(r: ReqId, owner: UserId, token: TokenId, family: FamilyId, at: int)
    | Dropping(r: ReqId)

  /** The family a winner holds and the user it will write on the successor. */
  function ClaimOf(q: Request): Option<(FamilyId, UserId)> {
    match q
    case RefreshWon(owner, f, _) => Some((f, owner))
    case RefreshLoaded(u, f, _) => Some((f, u.id))
    case RefreshSigned(owner, f, _) => Some((f, owner))
    case _ => None
  }

  function Claim(reqs: map<ReqId, Request>, r: ReqId): Option<(FamilyId, UserId)> {
    if r in reqs then ClaimOf(reqs[r]) else None
  }

  function ClaimAt(to: Option<Request>): Option<(FamilyId, UserId)> {
    if to.Some? then ClaimOf(to.value) else None
  }

  function MovedTo(s: State, r: ReqId, to: Option<Request>): State {
    if to.Some? then Goto(s, r, to.value) else Done(s, r)
  }

  ghost predicate Found(s: State, to: Option<Request>) {
    to.Some? && to.value.RefreshFound? ==> exists k :: k in s.tokens && s.tokens[k] == to.value.row
  }

  /** A claim changes hands only by winning, storing and dropping; and a winner only loads an account that is there. */
  ghost predicate Possible(s: State, x: Effect) {
    match x
    case Nothing => true
    case Sweeping(_) => true
    case Moving(r, to) =>
      && ClaimAt(to) == Claim(s.reqs, r) && Found(s, to)
      && (r in s.reqs && s.reqs[r].RefreshWon? ==> Findable(s.users, s.reqs[r].owner))
    case Revoking(r, to, _, _, _) =>
      Claim(s.reqs, r).None? && ClaimAt(to).None? && !(to.Some? && to.value.RefreshFound?)
    case Winning(r, row, at) =>
      r in s.reqs && s.reqs[r] == RefreshFound(row, at) && row.id in s.tokens && !IsRevoked(s.tokens[row.id])
    case Storing(r, owner, f, at, token) =>
      r in s.reqs && s.reqs[r] == RefreshSigned(owner, f, at) && token !in s.minted
    case Opening(r, owner, token, f, _) =>
      r in s.reqs && s.reqs[r] == LoginSigned(owner) && token !in s.minted && f !in s.families
    case Dropping(r) => r in s.reqs
  }

  function After(s: State, x: Effect): State {
    match x
    case Nothing => s
    case Sweeping(cutoff) => s.(tokens := SweptBefore(s.tokens, cutoff))
    case Moving(r, to) => MovedTo(s, r, to)
    case Revoking(r, to, scope, reason, at) => MovedTo(RevokedIn(s, Within(scope), reason, at), r, to)
    case Winning(r, row, at) => ConsumeNext(s, r, row, at)
    case Storing(r, owner, f, at, token) => StoreNext(s, r, owner, f, at, token)
    case Opening(r, owner, token, f, at) => OpenNext(s, r, owner, token, f, at)
    case Dropping(r) => if r in s.reqs then Dropped(s, r) else s
  }

  // The same, table by table.

  function TokensAfter(s: State, x: Effect): TokenRows {
    match x
    case Sweeping(cutoff) => SweptBefore(s.tokens, cutoff)
    case Revoking(_, _, scope, reason, at) => RevokedWhere(s.tokens, Within(scope), reason, at)
    case Winning(_, row, at) => RevokedWhere(s.tokens, ById(row.id), Rotated, at)
    case Storing(_, owner, f, at, token) => s.tokens[token := Issued(token, owner, f, s.config.refreshTtlS, at)]
    case Opening(_, owner, token, f, at) => s.tokens[token := Issued(token, owner, f, s.config.refreshTtlS, at)]
    case _ => s.tokens
  }

  function MintedAfter(s: State, x: Effect): map<TokenId, FamilyId> {
    if x.Storing? || x.Opening? then s.minted[x.token := x.family] else s.minted
  }

  function GoneTo(x: Effect): Option<Request>
    requires !x.Nothing? && !x.Sweeping?
  {
    match x
    case Moving(_, to) => to
    case Revoking(_, to, _, _, _) => to
    case Winning(_, row, at) => Some(RefreshWon(row.userId, row.familyId, at))
    case Opening(_, owner, _, _, _) => Some(LoginStored(owner))
    case _ => None
  }

  function ReqsAfter(s: State, x: Effect): map<ReqId, Request> {
    if x.Nothing? || x.Sweeping? then s.reqs
    else if GoneTo(x).Some? then s.reqs[x.r := GoneTo(x).value] else s.reqs - {x.r}
  }

  ghost predicate TablesAre(s: State, x: Effect, t: State) {
    t.tokens == TokensAfter(s, x) && t.minted == MintedAfter(s, x) && t.reqs == ReqsAfter(s, x)
  }

  lemma WinningTables(s: State, r: ReqId, row: TokenRow, at: int)
    requires row.id in s.tokens && !IsRevoked(s.tokens[row.id])
    ensures TablesAre(s, Winning(r, row, at), ConsumeNext(s, r, row, at))
  {
    hide RevokedWhere;
    if row.familyId in s.families {
    } else {
    }
  }

  lemma StoringTables(s: State, r: ReqId, owner: UserId, f: FamilyId, at: int, token: TokenId)
    ensures TablesAre(s, Storing(r, owner, f, at, token), StoreNext(s, r, owner, f, at, token))
  {
    if f in s.families {
    } else {
    }
  }

  lemma DroppingTables(s: State, r: ReqId)
    requires r in s.reqs
    ensures TablesAre(s, Dropping(r), Dropped(s, r))
  {
    hide IsWinner;
    if IsWinner(s.reqs[r]) {
    } else {
    }
  }

  lemma OpeningTables(s: State, r: ReqId, owner: UserId, token: TokenId, f: FamilyId, at: int)
    ensures TablesAre(s, Opening(r, owner, token, f, at), OpenNext(s, r, owner, token, f, at))
  {
  }

  lemma RevokingTables(s: State, r: ReqId, to: Option<Request>, scope: Scope, reason: Reason, at: int)
    ensures TablesAre(s, Revoking(r, to, scope, reason, at), MovedTo(RevokedIn(s, Within(scope), reason, at), r, to))
  {
    hide RevokedWhere, Within;
  }

  lemma MovingTables(s: State, r: ReqId, to: Option<Request>)
    ensures TablesAre(s, Moving(r, to), MovedTo(s, r, to))
  {
  }

  lemma AfterTables(s: State, x: Effect)
    requires Possible(s, x)
    ensures TablesAre(s, x, After(s, x))
  {
    if x.Winning? {
      WinningTables(s, x.r, x.row, x.at);
    } else {
      hide TablesAre, OpenNext, StoreNext, ConsumeNext, Dropped, MovedTo, RevokedIn, ClaimOf, Found, Findable;
      match x
      case Storing(r, owner, f, at, token) => StoringTables(s, r, owner, f, at, token);
      case Dropping(r) => DroppingTables(s, r);
      case Opening(r, owner, token, f, at) => OpeningTables(s, r, owner, token, f, at);
      case Revoking(r, to, scope, reason, at) => RevokingTables(s, r, to, scope, reason, at);
      case Moving(r, to) => MovingTables(s, r, to);
      case Sweeping(cutoff) => assert TablesAre(s, x, After(s, x)) by { SweepingTables(s, cutoff); }
      case Nothing => SweepingTables(s, 0);
    }
  }

  lemma SweepingTables(s: State, cutoff: int)
    ensures TablesAre(s, Sweeping(cutoff), s.(tokens := SweptBefore(s.tokens, cutoff))) && TablesAre(s, Nothing, s)
  {
  }

  ghost predicate SameSessions(a: State, b: State) {
    a.tokens == b.tokens && a.minted == b.minted && a.families == b.families && a.reqs == b.reqs
  }

  ghost predicate Does(s: State, x: Effect, s': State) {
    Possible(s, x) && SameSessions(After(s, x), s')
  }

  /** The effect is that of request `r`, or there is none. */
  predicate By(x: Effect, r: ReqId) {
    x.Nothing? || (!x.Sweeping? && x.r == r)
  }

  // ----- Which step does which -----

  lemma SaveMoves(s: State, r: ReqId, loaded: UserSnapshot, edits: seq<Edit>, ok: Option<Request>) returns (x: Effect)
    requires r in s.reqs && ClaimOf(s.reqs[r]).None? && ClaimAt(ok).None? && !(ok.Some? && ok.value.RefreshFound?)
    ensures By(x, r) && Does(s, x, SaveThen(s, r, loaded, edits, ok))
  {
    hide Saved, ApplyAll, Findable;
    if Saved(s.users, ApplyAll(loaded, edits), edits).Err? {
      x := Moving(r, None);
    } else if ok.Some? {
      x := Moving(r, ok);
    } else {
      x := Moving(r, None);
    }
  }

  lemma RefreshDoes(s: State, r: ReqId, step: RefreshStep) returns (x: Effect)
    requires Serial(s.users) && RefreshEnabled(s, r, step)
    ensures By(x, r) && Does(s, x, RefreshNext(s, r, step))
  {
    hide Serial, Does;
    match step
    case Consume => x := ConsumeDoes(s, r, s.reqs[r].row, s.reqs[r].startedAt);
    case Load => x := LoadDoes(s, r);
    case Find(_, _) => x := RefreshMoves(s, r, step);
    case Sign(_) => x := RefreshMoves(s, r, step);
    case RevokeReused => x := ReuseDoes(s, r);
    case Store(token) => x := StoreDoes(s, r, token);
  }

  lemma RefreshMoves(s: State, r: ReqId, step: RefreshStep) returns (x: Effect)
    requires RefreshEnabled(s, r, step) && (step.Find? || step.Sign?)
    ensures By(x, r) && Does(s, x, RefreshNext(s, r, step))
  {
    if step.Find? {
      x := if step.token in s.tokens then Moving(r, Some(RefreshFound(s.tokens[step.token], step.at))) else Nothing;
    } else {
      var q := s.reqs[r];
      x := Moving(r, Some(RefreshSigned(q.user.id, q.family, q.startedAt)));
    }
  }

  lemma ReuseDoes(s: State, r: ReqId) returns (x: Effect)
    requires RefreshEnabled(s, r, RevokeReused)
    ensures By(x, r) && Does(s, x, RefreshNext(s, r, RevokeReused))
  {
    hide RevokedWhere;
    var q := s.reqs[r];
    x := Revoking(r, None, WholeFamily(if q.RefreshLost? then q.lostFamily
        else q.row.familyId), ReuseDetected, q.startedAt);
  }

  lemma StoreDoes(s: State, r: ReqId, token: TokenId) returns (x: Effect)
    requires RefreshEnabled(s, r, Store(token))
    ensures By(x, r) && Does(s, x, RefreshNext(s, r, Store(token)))
  {
    hide StoreNext;
    x := Storing(r, s.reqs[r].owner, s.reqs[r].family, s.reqs[r].startedAt, token);
  }

  lemma ConsumeDoes(s: State, r: ReqId, row: TokenRow, at: int) returns (x: Effect)
    requires r in s.reqs && s.reqs[r] == RefreshFound(row, at)
    ensures By(x, r) && Does(s, x, ConsumeNext(s, r, row, at))
  {
    if row.id in s.tokens && !IsRevoked(s.tokens[row.id]) {
      x := Winning(r, row, at);
      hide ConsumeNext;
    } else {
      x := Moving(r, Some(RefreshLost(row.familyId, at)));
    }
  }

  lemma LoadDoes(s: State, r: ReqId) returns (x: Effect)
    requires Serial(s.users) && RefreshEnabled(s, r, Load)
    ensures By(x, r) && Does(s, x, RefreshNext(s, r, Load))
  {
    hide CanAuthenticate, Dropped;
    var q := s.reqs[r];
    if Findable(s.users, q.owner) && CanAuthenticate(s.users[q.owner].row.profile) {
      RowHasId(s.users, q.owner);
      hide Serial;
      x := Moving(r, Some(RefreshLoaded(s.users[q.owner].row, q.family, q.startedAt)));
    } else {
      hide Serial;
      x := Dropping(r);
    }
  }

  lemma LoginDoes(s: State, r: ReqId, step: LoginStep) returns (x: Effect)
    requires LoginEnabled(s, r, step)
    ensures By(x, r) && Does(s, x, LoginNext(s, r, step))
  {
    hide SaveThen, Touched, Apply, Verify, CanAuthenticate, NeedsRehash, OpenNext;
    match step
    case Rehash(at) =>
      var q := s.reqs[r];
      x := SaveMoves(s, r, q.user, [RehashEdit(s, q, at)], Some(LoginReady(Apply(q.user, RehashEdit(s, q, at)))));
    case OpenFamily(token, family, at) => x := Opening(r, s.reqs[r].owner, token, family, at);
    case VerifyPassword(id, password) => x := Moving(r, Some(LoginVerified(s.users[id].row, password)));
    case SignLogin(_) => x := Moving(r, Some(LoginSigned(s.reqs[r].user.id)));
    case TouchLogin(_) => x := Moving(r, None);
  }

  lemma LogoutDoes(s: State, r: ReqId, step: LogoutStep) returns (x: Effect)
    requires LogoutEnabled(s, r, step)
    ensures By(x, r) && Does(s, x, LogoutNext(s, r, step))
  {
    hide SaveThen, RevokedWhere, DenyTtl, OwnToken, Findable;
    match step
    case RevokeSession =>
      var q := s.reqs[r];
      x := Revoking(r, Some(Denying(q.jti)), WholeFamily(q.sessionFamily), Reason.Logout, q.startedAt);
    case RevokeAll(userId, jti, at) =>
      x := Revoking(r, Some(LogoutAllStarted(userId, jti)), WholeAccount(userId), Reason.LogoutAll, at);
    case SaveAll(at) =>
      x := SaveMoves(s, r, s.reqs[r].user, [Edit(InvalidateSessions, at)], Some(Denying(s.reqs[r].jti)));
    case _ => x := LogoutReadDoes(s, r, step);
  }

  lemma LogoutReadDoes(s: State, r: ReqId, step: LogoutStep) returns (x: Effect)
    requires LogoutEnabled(s, r, step) && !step.RevokeSession? && !step.RevokeAll? && !step.SaveAll?
    ensures By(x, r) && Does(s, x, LogoutNext(s, r, step))
  {
    hide DenyTtl, OwnToken;
    match step
    case FindSession(userId, presented, jti, at) => x := FindSessionDoes(s, r, userId, presented, jti, at);
    case LoadAll =>
      var q := s.reqs[r];
      x := Moving(r, Some(if Findable(s.users, q.owner) then LogoutAllLoaded(s.users[q.owner].row, q.jti)
          else Denying(q.jti)));
    case ComputeTtl => x := ComputeDoes(s, r);
    case WriteDeny => x := Moving(r, None);
  }

  lemma FindSessionDoes(s: State, r: ReqId, userId: UserId, presented: Option<TokenId>, jti: Option<Jti>, at: int)
    returns (x: Effect)
    requires LogoutEnabled(s, r, FindSession(userId, presented, jti, at))
    ensures By(x, r) && Does(s, x, LogoutNext(s, r, FindSession(userId, presented, jti, at)))
  {
    hide OwnToken, Findable;
    var step := FindSession(userId, presented, jti, at);
    if presented.Some? && presented.value in s.tokens && s.tokens[presented.value].userId == userId {
      x := Moving(r, Some(LogoutFound(s.tokens[presented.value].familyId, jti, at)));
    } else {
      x := Moving(r, Some(Denying(jti)));
    }
    assert LogoutNext(s, r, step) == Goto(s, r, x.to.value);
    hide LogoutNext;
  }

  lemma ComputeDoes(s: State, r: ReqId) returns (x: Effect)
    requires LogoutEnabled(s, r, ComputeTtl)
    ensures By(x, r) && Does(s, x, LogoutNext(s, r, ComputeTtl))
  {
    hide DenyTtl, Findable;
    var jti := s.reqs[r].jti;
    if jti.None? || s.issued[jti.value].claims.exp * 1000 <= s.now {
      x := Moving(r, None);
    } else {
      x := Moving(r, Some(DenyWriting(jti.value, DenyTtl(s.issued[jti.value].claims.exp * 1000, s.now))));
    }
  }

  lemma AccountDoes(s: State, r: ReqId, step: AccountStep) returns (x: Effect)
    requires AccountEnabled(s, r, step)
    ensures By(x, r) && Does(s, x, AccountNext(s, r, step))
  {
    hide SaveThen, RevokedWhere, KeepSecrets, Verify;
    match step
    case SaveChange(at) =>
      var q := s.reqs[r];
      x := SaveMoves(s, r, q.user, [Edit(SetPasswordHash(q.newHash), at)], Some(PasswordSaved(q.user.id)));
    case SaveEdit(edits) => x := SaveMoves(s, r, s.reqs[r].user, edits, None);
    case RevokeAfterChange(at) => x := Revoking(r, None, WholeAccount(s.reqs[r].owner), Reason.PasswordChanged, at);
    case VerifyChange(id, _, newPassword) =>
      x := Moving(r, Some(PasswordVerified(s.users[id].row, PasswordHash(newPassword, s.config.hashCost))));
    case LoadEdit(id) => x := Moving(r, Some(Editing(s.users[id].row)));
  }

  /** The request a step belongs to. */
  function Actor(e: Event): Option<ReqId> {
    match e
    case Tick(_) => None
    case Register(_) => None
    case Sweep(_) => None
    case Abandon(r) => Some(r)
    case Refresh(r, _) => Some(r)
    case Login(r, _) => Some(r)
    case Logout(r, _) => Some(r)
    case Manage(r, _) => Some(r)
  }

  /** Every step of every request does one of the eight things, and it was possible. */
  lemma StepDoes(s: State, e: Event) returns (x: Effect)
    requires Serial(s.users) && Enabled(s, e)
    ensures Does(s, x, Next(s, e))
    ensures x.Nothing? || x.Sweeping? || Actor(e) == Some(x.r)
  {
    hide Serial, RefreshNext, LoginNext, LogoutNext, AccountNext, RefreshEnabled, LoginEnabled, LogoutEnabled,
        AccountEnabled;
    match e
    case Refresh(r, step) => x := RefreshDoes(s, r, step);
    case Login(r, step) => x := LoginDoes(s, r, step);
    case Logout(r, step) => x := LogoutDoes(s, r, step);
    case Manage(r, step) => x := AccountDoes(s, r, step);
    case Abandon(r) => x := Dropping(r);
    case Sweep(cutoff) => x := Sweeping(cutoff);
    case Tick(_) => x := Nothing;
    case Register(_) => x := Nothing;
  }
}
