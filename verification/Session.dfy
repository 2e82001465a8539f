/**
 * The session-validity protocol as a transition system.
 *
 * One `Event` is one atomic step: a single SQL statement, a single Redis command, a signature, or a
 * clock tick. Between two of its own steps a request can be overtaken by any others, so everything
 * it carries in its `Request` record may be stale when it acts on it.
 */
module Session {
  import opened Common
  import opened UserEntity
  import opened UserRepository
  import opened RefreshTokens
  import opened AccessTokens

  type ReqId = nat

  /** A lifetime: the configuration schema admits positive whole numbers of seconds only. */
  type Lifetime = n: nat | 0 < n witness 1

  datatype Config = Config(accessTtlS: Lifetime, refreshTtlS: Lifetime, hashCost: nat)

  /** Where an in-flight request stands, and what it holds in its local variables. */
  datatype Request =
    | RefreshFound(row: TokenRow, startedAt: int)
    | RefreshLost(lostFamily: FamilyId, startedAt: int)
    | RefreshWon(owner: UserId, family: FamilyId, startedAt: int)
    | RefreshLoaded(user: UserSnapshot, family: FamilyId, startedAt: int)
    | RefreshSigned(owner: UserId, family: FamilyId, startedAt: int)
    | LoginVerified(user: UserSnapshot, password: string)
    | LoginReady(user: UserSnapshot)
    | LoginSigned(owner: UserId)
    | LoginStored(owner: UserId)
    | LogoutFound(sessionFamily: FamilyId, jti: Option<Jti>, startedAt: int)
    | LogoutAllStarted(owner: UserId, jti: Option<Jti>)
    | LogoutAllLoaded(user: UserSnapshot, jti: Option<Jti>)
    | Denying(jti: Option<Jti>)
    | DenyWriting(target: Jti, ttlSeconds: int)
    | PasswordVerified(user: UserSnapshot, newHash: PasswordHash)
    | PasswordSaved(owner: UserId)
    | Editing(user: UserSnapshot)

  /** The history of one login: the tokens it ever issued, those that were rotated, rotations lost. */
  datatype Family = Family(owner: UserId, chain: seq<TokenId>, spent: seq<TokenId>, dropped: nat)

  /** A signed token with the snapshot it was signed from. */
  datatype Issue = Issue(claims: Claims, basis: UserSnapshot)

  datatype State = State(
    config: Config,
    users: UserTable,
    tokens: TokenRows,
    minted: map<TokenId, FamilyId>,
    families: map<FamilyId, Family>,
    issued: map<Jti, Issue>,
    denylist: Denylist,
    now: int,
    reqs: map<ReqId, Request>)

  /** `RefreshTokensUseCase.execute`, await by await. */
  datatype RefreshStep =
    | Find(token: TokenId, at: int)
    | RevokeReused
    | Consume
    | Load
    | Sign(jti: Jti)
    | Store(token: TokenId)

  /** `LoginUseCase.execute`. */
  datatype LoginStep =
    | VerifyPassword(userId: UserId, password: string)
    | Rehash(at: int)
    | SignLogin(jti: Jti)
    | OpenFamily(token: TokenId, family: FamilyId, at: int)
    | TouchLogin(at: int)

  /** `LogoutUseCase.execute` and `executeAll`, ending in the denylist write they share. */
  datatype LogoutStep =
    | FindSession(userId: UserId, presented: Option<TokenId>, ownJti: Option<Jti>, at: int)
    | RevokeSession
    | RevokeAll(userId: UserId, ownJti: Option<Jti>, at: int)
    | LoadAll
    | SaveAll(at: int)
    | ComputeTtl
    | WriteDeny

  /** `UpdateUserUseCase.changePassword`, and any other load–edit–save over the aggregate. */
  datatype AccountStep =
    | VerifyChange(userId: UserId, password: string, newPassword: string)
    | SaveChange(at: int)
    | RevokeAfterChange(at: int)
    | LoadEdit(userId: UserId)
    | SaveEdit(edits: seq<Edit>)

  datatype Event =
    | Tick(ms: nat)
    | Register(account: UserSnapshot)
    | Sweep(cutoff: int)
    | Abandon(r: ReqId)
    | Refresh(r: ReqId, refresh: RefreshStep)
    | Login(r: ReqId, login: LoginStep)
    | Logout(r: ReqId, logout: LogoutStep)
    | Manage(r: ReqId, change: AccountStep)

  /** A refresh that consumed a token of family `f` and has not created its successor yet. */
  predicate Holds(q: Request, f: FamilyId) {
    (q.RefreshWon? || q.RefreshLoaded? || q.RefreshSigned?) && q.family == f
  }

  predicate IsWinner(q: Request) {
    q.RefreshWon? || q.RefreshLoaded? || q.RefreshSigned?
  }

  predicate Findable(t: UserTable, id: UserId) {
    id in t && t[id].row.profile.deletedAt.None?
  }

  predicate NeedsRehash(c: Config, u: UserSnapshot) {
    u.profile.passwordHash.Some? && u.profile.passwordHash.value.cost < c.hashCost
  }

  /** The controllers pass on the claims of the token the caller just authenticated with. */
  predicate OwnToken(s: State, userId: UserId, jti: Option<Jti>) {
    jti.Some? ==> jti.value in s.issued && s.issued[jti.value].claims.sub == userId
  }

  predicate RefreshEnabled(s: State, r: ReqId, step: RefreshStep) {
    match step
    case Find(_, at) => r !in s.reqs && at <= s.now
    case RevokeReused =>
      r in s.reqs && ((s.reqs[r].RefreshFound? && IsRevoked(s.reqs[r].row)) || s.reqs[r].RefreshLost?)
    case Consume => r in s.reqs && s.reqs[r].RefreshFound? && IsUsable(s.reqs[r].row, s.reqs[r].startedAt)
    case Load => r in s.reqs && s.reqs[r].RefreshWon?
    case Sign(jti) => r in s.reqs && s.reqs[r].RefreshLoaded? && jti !in s.issued
    case Store(token) => r in s.reqs && s.reqs[r].RefreshSigned? && token !in s.minted
  }

  predicate LoginEnabled(s: State, r: ReqId, step: LoginStep) {
    match step
    case VerifyPassword(id, password) =>
      && r !in s.reqs && Findable(s.users, id) && CanAuthenticate(s.users[id].row.profile)
      && Verify(s.users[id].row.profile.passwordHash.value, password)
    case Rehash(_) => r in s.reqs && s.reqs[r].LoginVerified? && NeedsRehash(s.config, s.reqs[r].user)
    case SignLogin(jti) =>
      && r in s.reqs && jti !in s.issued
      && ((s.reqs[r].LoginVerified? && !NeedsRehash(s.config, s.reqs[r].user)) || s.reqs[r].LoginReady?)
    case OpenFamily(token, family, at) =>
      && r in s.reqs && s.reqs[r].LoginSigned?
      && token !in s.minted && family !in s.families && at <= s.now
    case TouchLogin(_) => r in s.reqs && s.reqs[r].LoginStored?
  }

  predicate LogoutEnabled(s: State, r: ReqId, step: LogoutStep) {
    match step
    case FindSession(userId, _, jti, at) => r !in s.reqs && OwnToken(s, userId, jti) && at <= s.now
    case RevokeSession => r in s.reqs && s.reqs[r].LogoutFound?
    case RevokeAll(userId, jti, _) => r !in s.reqs && OwnToken(s, userId, jti)
    case LoadAll => r in s.reqs && s.reqs[r].LogoutAllStarted?
    case SaveAll(_) => r in s.reqs && s.reqs[r].LogoutAllLoaded?
    case ComputeTtl => r in s.reqs && s.reqs[r].Denying? && (s.reqs[r].jti.Some? ==> s.reqs[r].jti.value in s.issued)
    case WriteDeny => r in s.reqs && s.reqs[r].DenyWriting?
  }

  predicate AccountEnabled(s: State, r: ReqId, step: AccountStep) {
    match step
    case VerifyChange(id, password, newPassword) =>
      && r !in s.reqs && Findable(s.users, id) && s.users[id].row.profile.passwordHash.Some?
      && Verify(s.users[id].row.profile.passwordHash.value, password)
      && !Verify(s.users[id].row.profile.passwordHash.value, newPassword)
    case SaveChange(_) => r in s.reqs && s.reqs[r].PasswordVerified?
    case RevokeAfterChange(_) => r in s.reqs && s.reqs[r].PasswordSaved?
    case LoadEdit(id) => r !in s.reqs && id in s.users
    case SaveEdit(edits) =>
      && r in s.reqs && s.reqs[r].Editing?
      && KeepSecrets(s.reqs[r].user.id, s.reqs[r].user.profile, edits)
  }

  predicate Enabled(s: State, e: Event) {
    match e
    case Tick(_) => true
    case Register(u) => Created(s.users, u).Ok?
    case Sweep(_) => true
    case Abandon(r) => r in s.reqs
    case Refresh(r, step) => RefreshEnabled(s, r, step)
    case Login(r, step) => LoginEnabled(s, r, step)
    case Logout(r, step) => LogoutEnabled(s, r, step)
    case Manage(r, step) => AccountEnabled(s, r, step)
  }

  function Goto(s: State, r: ReqId, q: Request): State {
    s.(reqs := s.reqs[r := q])
  }

  function Done(s: State, r: ReqId): State {
    s.(reqs := s.reqs - {r})
  }

  /** A request that ends early; a winner that does so loses its rotation. */
  function Dropped(s: State, r: ReqId): State
    requires r in s.reqs
  {
    var q := s.reqs[r];
    if IsWinner(q) && q.family in s.families
    then
      var F := s.families[q.family];
      Done(s.(families := s.families[q.family := F.(dropped := F.dropped + 1)]), r)
    else Done(s, r)
  }

  function RevokedIn(s: State, hit: TokenRow -> bool, reason: Reason, at: int): State {
    s.(tokens := RevokedWhere(s.tokens, hit, reason, at))
  }

  /** A versioned save has come back: the request goes on as `ok`, or has failed. */
  function SavedState(s: State, r: ReqId, saved: Result<UserTable, SaveError>, ok: Option<Request>): State {
    match saved
    case Ok(t) => if ok.Some? then Goto(s.(users := t), r, ok.value) else Done(s.(users := t), r)
    case Err(_) => Done(s, r)
  }

  function SaveThen(s: State, r: ReqId, loaded: UserSnapshot, edits: seq<Edit>, ok: Option<Request>): State {
    SavedState(s, r, Saved(s.users, ApplyAll(loaded, edits), edits), ok)
  }

  /** What a save comes to, by its outcome. */
  lemma SaveOutcome(s: State, r: ReqId, u: UserSnapshot, es: seq<Edit>, ok: Option<Request>)
    ensures var saved, s' := Saved(s.users, ApplyAll(u, es), es), SaveThen(s, r, u, es, ok);
            && (saved.Err? ==> s' == Done(s, r))
            && (saved.Ok? && ok.Some? ==> s' == Goto(s.(users := saved.value), r, ok.value))
            && (saved.Ok? && ok.None? ==> s' == Done(s.(users := saved.value), r))
  {
    hide Saved, ApplyAll;
  }

  function RehashEdit(s: State, q: Request, at: int): Edit
    requires q.LoginVerified?
  {
    Edit(UpgradePasswordHash(PasswordHash(q.password, s.config.hashCost)), at)
  }

  /** The compare-and-swap; on a win the family remembers which token was spent. */
  function ConsumeNext(s: State, r: ReqId, row: TokenRow, startedAt: int): State {
    var f := row.familyId;
    if row.id in s.tokens && !IsRevoked(s.tokens[row.id]) then
      var s' := RevokedIn(s, ById(row.id), Rotated, startedAt);
      Goto(if f !in s.families then s'
           else s'.(families := s.families[f := s.families[f].(spent := s.families[f].spent + [row.id])]),
           r, RefreshWon(row.userId, f, startedAt))
    else Goto(s, r, RefreshLost(f, startedAt))
  }

  function StoreNext(s: State, r: ReqId, owner: UserId, f: FamilyId, startedAt: int, token: TokenId): State {
    var s' := s.(tokens := s.tokens[token := Issued(token, owner, f, s.config.refreshTtlS, startedAt)],
                 minted := s.minted[token := f]);
    Done(if f !in s.families then s'
         else s'.(families := s.families[f := s.families[f].(chain := s.families[f].chain + [token])]), r)
  }

  function OpenNext(s: State, r: ReqId, owner: UserId, token: TokenId, family: FamilyId, at: int): State {
    Goto(s.(tokens := s.tokens[token := Issued(token, owner, family, s.config.refreshTtlS, at)],
            minted := s.minted[token := family],
            families := s.families[family := Family(owner, [token], [], 0)]),
         r, LoginStored(owner))
  }

  function SignNext(s: State, r: ReqId, id: Jti, user: UserSnapshot, q: Request): State {
    Goto(s.(issued := s.issued[id := Issue(Signed(id, user, s.config.accessTtlS, s.now), user)]), r, q)
  }

  function RefreshNext(s: State, r: ReqId, step: RefreshStep): State
    requires RefreshEnabled(s, r, step)
  {
    match step
    case Find(token, at) => if token in s.tokens then Goto(s, r, RefreshFound(s.tokens[token], at)) else s
    case RevokeReused =>
      var q := s.reqs[r];
      var family := if q.RefreshLost? then q.lostFamily else q.row.familyId;
      Done(RevokedIn(s, OfFamily(family), ReuseDetected, q.startedAt), r)
    case Consume => ConsumeNext(s, r, s.reqs[r].row, s.reqs[r].startedAt)
    case Load =>
      var q := s.reqs[r];
      if Findable(s.users, q.owner) && CanAuthenticate(s.users[q.owner].row.profile)
      then Goto(s, r, RefreshLoaded(s.users[q.owner].row, q.family, q.startedAt))
      else Dropped(s, r)
    case Sign(jti) =>
      var q := s.reqs[r];
      SignNext(s, r, jti, q.user, RefreshSigned(q.user.id, q.family, q.startedAt))
    case Store(token) => StoreNext(s, r, s.reqs[r].owner, s.reqs[r].family, s.reqs[r].startedAt, token)
  }

  function LoginNext(s: State, r: ReqId, step: LoginStep): State
    requires LoginEnabled(s, r, step)
  {
    match step
    case VerifyPassword(id, password) => Goto(s, r, LoginVerified(s.users[id].row, password))
    case Rehash(at) =>
      var q := s.reqs[r];
      SaveThen(s, r, q.user, [RehashEdit(s, q, at)], Some(LoginReady(Apply(q.user, RehashEdit(s, q, at)))))
    case SignLogin(jti) => SignNext(s, r, jti, s.reqs[r].user, LoginSigned(s.reqs[r].user.id))
    case OpenFamily(token, family, at) => OpenNext(s, r, s.reqs[r].owner, token, family, at)
    case TouchLogin(at) => Done(s.(users := Touched(s.users, s.reqs[r].owner, at, s.now)), r)
  }

  function LogoutNext(s: State, r: ReqId, step: LogoutStep): State
    requires LogoutEnabled(s, r, step)
  {
    match step
    case FindSession(userId, presented, jti, at) =>
      if presented.Some? && presented.value in s.tokens && s.tokens[presented.value].userId == userId
      then Goto(s, r, LogoutFound(s.tokens[presented.value].familyId, jti, at))
      else Goto(s, r, Denying(jti))
    case RevokeSession =>
      var q := s.reqs[r];
      Goto(RevokedIn(s, OfFamily(q.sessionFamily), Reason.Logout, q.startedAt), r, Denying(q.jti))
    case RevokeAll(userId, jti, at) =>
      Goto(RevokedIn(s, OfUser(userId), Reason.LogoutAll, at), r, LogoutAllStarted(userId, jti))
    case LoadAll =>
      var q := s.reqs[r];
      if Findable(s.users, q.owner) then Goto(s, r, LogoutAllLoaded(s.users[q.owner].row, q.jti))
      else Goto(s, r, Denying(q.jti))
    case SaveAll(at) =>
      SaveThen(s, r, s.reqs[r].user, [Edit(InvalidateSessions, at)], Some(Denying(s.reqs[r].jti)))
    case ComputeTtl =>
      match s.reqs[r].jti {
        case None => Done(s, r)
        case Some(j) =>
          var exp := s.issued[j].claims.exp * 1000;
          if exp <= s.now then Done(s, r) else Goto(s, r, DenyWriting(j, DenyTtl(exp, s.now)))
      }
    case WriteDeny =>
      var q := s.reqs[r];
      Done(s.(denylist := s.denylist[q.target := s.now + q.ttlSeconds * 1000]), r)
  }

  function AccountNext(s: State, r: ReqId, step: AccountStep): State
    requires AccountEnabled(s, r, step)
  {
    match step
    case VerifyChange(id, _, newPassword) =>
      Goto(s, r, PasswordVerified(s.users[id].row, PasswordHash(newPassword, s.config.hashCost)))
    case SaveChange(at) =>
      var q := s.reqs[r];
      SaveThen(s, r, q.user, [Edit(SetPasswordHash(q.newHash), at)], Some(PasswordSaved(q.user.id)))
    case RevokeAfterChange(at) => Done(RevokedIn(s, OfUser(s.reqs[r].owner), Reason.PasswordChanged, at), r)
    case LoadEdit(id) => Goto(s, r, Editing(s.users[id].row))
    case SaveEdit(edits) => SaveThen(s, r, s.reqs[r].user, edits, None)
  }

  function Next(s: State, e: Event): State
    requires Enabled(s, e)
  {
    match e
    case Tick(ms) => s.(now := s.now + ms)
    case Register(u) => s.(users := Created(s.users, u).value)
    case Sweep(cutoff) => s.(tokens := SweptBefore(s.tokens, cutoff))
    case Abandon(r) => Dropped(s, r)
    case Refresh(r, step) => RefreshNext(s, r, step)
    case Login(r, step) => LoginNext(s, r, step)
    case Logout(r, step) => LogoutNext(s, r, step)
    case Manage(r, step) => AccountNext(s, r, step)
  }

  /** A run: the state after a series of events, when each was enabled in its turn. */
  function Run(s: State, es: seq<Event>): Option<State>
    decreases |es|
  {
    if es == [] then Some(s)
    else if !Enabled(s, es[0]) then None
    else Run(Next(s, es[0]), es[1..])
  }

  lemma RunOne(s: State, e: Event)
    requires Enabled(s, e)
    ensures Run(s, [e]) == Some(Next(s, e))
  {
    hide Enabled, Next;
    var s' := Next(s, e);
    assert [e][0] == e && [e][1..] == [];
    assert Run(s', []) == Some(s');
  }

  lemma {:induction false} RunThen(s: State, es: seq<Event>, t: State, more: seq<Event>)
    requires Run(s, es) == Some(t)
    ensures Run(s, es + more) == Run(t, more)
    decreases |es|
  {
    hide Enabled, Next;
    if es == [] {
      assert es + more == more;
    } else {
      RunThen(Next(s, es[0]), es[1..], t, more);
      assert (es + more)[0] == es[0] && (es + more)[1..] == es[1..] + more;
    }
  }

  lemma RunFurther(s: State, es: seq<Event>, t: State, e: Event)
    requires Run(s, es) == Some(t) && Enabled(t, e)
    ensures Run(s, es + [e]) == Some(Next(t, e))
  {
    hide Enabled, Next;
    RunOne(t, e);
    RunThen(s, es, t, [e]);
  }
}
