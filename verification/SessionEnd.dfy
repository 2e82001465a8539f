/**
 * When a session is over: exactly which states leave a refresh family dead in every continuation, and
 * which revocations reach that point.
 */
module SessionEnd {
  import opened Common
  import opened UserEntity
  import opened UserRepository
  import opened RefreshTokens
  import opened AccessTokens
  import opened Session
  import opened SessionEffects
  import opened SessionInvariant
  import opened FamilyInvariant
  import opened SessionTheorems
  import opened FamilyTheorems

  /** A rotation that can no longer finish: its account was deleted before it was loaded. */
  ghost predicate Doomed(s: State, q: Request) {
    q.RefreshWon? && !Findable(s.users, q.owner)
  }

  /** No live row, and no request that may still insert one. */
  ghost predicate Dead(s: State, f: FamilyId) {
    && LiveRows(s, f) == {}
    && (forall r :: r in s.reqs && Holds(s.reqs[r], f) ==> Doomed(s, s.reqs[r]))
  }

  // ----- A dead family stays dead -----

  /** The step neither gave the family a live row nor made a request hold it. */
  ghost predicate Idle(s: State, s': State, f: FamilyId) {
    && LiveRows(s', f) <= LiveRows(s, f)
    && (forall r :: r in s'.reqs && Holds(s'.reqs[r], f) ==> r in s.reqs && s.reqs[r] == s'.reqs[r])
  }

  /** A winner of a dead family is doomed, and a doomed winner neither loads nor stores. */
  lemma NoHolderMoves(s: State, x: Effect, f: FamilyId)
    requires Dead(s, f) && Possible(s, x)
    ensures x.Moving? && x.to.Some? ==> !Holds(x.to.value, f)
    ensures x.Revoking? && x.to.Some? ==> !Holds(x.to.value, f)
    ensures x.Storing? ==> x.family != f
  {
    hide LiveRows;
  }

  /** A winner spends a live row, of the family and the account it read. */
  lemma WinnerSpendsLiveRow(s: State, x: Effect)
    requires RowsOK(s) && FoundsOK(s) && x.Winning? && Possible(s, x)
    ensures var row := s.tokens[x.row.id];
            !IsRevoked(row) && row.familyId == x.row.familyId && row.userId == x.row.userId
  {
    assert FoundOK(s, s.reqs[x.r].row) && RowOK(s, x.row.id, s.tokens[x.row.id]);
  }

  lemma EffectIsIdle(s: State, x: Effect, s': State, f: FamilyId)
    requires f in s.families && Dead(s, f) && RowsOK(s) && FoundsOK(s) && Possible(s, x)
    requires SameSessions(After(s, x), s')
    ensures Idle(s, s', f)
  {
    AfterTables(s, x);
    NoHolderMoves(s, x, f);
    if x.Winning? {
      WinnerSpendsLiveRow(s, x);
      assert x.row.id in LiveRows(s, x.row.familyId);
    }
    hide RowsOK, FoundsOK, Dead, Findable, Found, After;
    assert LiveRows(s', f) <= LiveRows(s, f) by { NoNewRows(s, x, s', f); }
    hide LiveRows, Possible;
  }

  lemma NoNewRows(s: State, x: Effect, s': State, f: FamilyId)
    requires s'.tokens == TokensAfter(s, x)
    requires x.Storing? || x.Opening? ==> x.family != f
    ensures LiveRows(s', f) <= LiveRows(s, f)
  {
  }

  lemma StepIsIdle(s: State, e: Event, f: FamilyId)
    requires Inv(s) && f in s.families && Dead(s, f) && Enabled(s, e)
    ensures Idle(s, Next(s, e), f)
  {
    hide AccessInv, OwnersOK, ChainsOK, RowsOK, MintedOK, ClaimsOK, FoundsOK, Serial, LoginsKnown;
    hide Dead, Enabled, Next, Possible, After, LiveRows;
    InvParts(s);
    var x := StepDoes(s, e);
    EffectIsIdle(s, x, Next(s, e), f);
  }

  /** Deletion is final, so a doomed rotation stays doomed. */
  lemma DoomStays(s: State, s': State, r: ReqId)
    requires Inv(s) && Inv(s') && Ahead(s, s') && r in s.reqs && Doomed(s, s.reqs[r])
    ensures Doomed(s', s.reqs[r])
  {
    var q := s.reqs[r];
    assert ClaimedBy(s, r, q.family);
    assert ClaimOK(s, Claim(s.reqs, r).value);
    assert q.owner in s.users;
    hide Inv, Ahead, Serial;
    EpochKeepsGrowing(s, s', q.owner);
  }

  lemma StepKeepsDead(s: State, e: Event, f: FamilyId)
    requires Inv(s) && f in s.families && Dead(s, f) && Enabled(s, e)
    ensures f in Next(s, e).families && Dead(Next(s, e), f)
  {
    hide Inv, Ahead, Enabled, Next, Doomed, LiveRows, Holds;
    StepKeepsInv(s, e);
    StepIsIdle(s, e, f);
    var s' := Next(s, e);
    forall r | r in s'.reqs && Holds(s'.reqs[r], f) ensures Doomed(s', s'.reqs[r]) {
      DoomStays(s, s', r);
    }
  }

  lemma {:induction false} DeadStays(s: State, es: seq<Event>, t: State, f: FamilyId)
    requires Inv(s) && f in s.families && Dead(s, f) && Run(s, es) == Some(t)
    ensures Dead(t, f)
    decreases |es|
  {
    if es != [] {
      hide Inv, Dead, Ahead, Enabled, Next;
      StepKeepsInv(s, es[0]);
      StepKeepsDead(s, es[0], f);
      DeadStays(Next(s, es[0]), es[1..], t, f);
    }
  }

  // ----- Any other family can come back -----

  /** Some continuation leads to a state in which the family has a live row. */
  ghost predicate Revives(s: State, f: FamilyId) {
    exists es, t :: Run(s, es) == Some(t) && LiveRows(t, f) != {}
  }

  predicate StartsSignIn(e: Event) {
    e.Login? && e.login.VerifyPassword?
  }

  ghost predicate LiveRow(t: State, id: TokenId, f: FamilyId, u: UserId) {
    id in t.tokens && t.tokens[id].familyId == f && t.tokens[id].userId == u && !IsRevoked(t.tokens[id])
  }

  /** A run in which nobody verifies a password leads to a live row of that family and that account. */
  ghost predicate Yields(s: State, f: FamilyId, u: UserId) {
    exists es, t, id :: Run(s, es) == Some(t) && LiveRow(t, id, f, u) && forall e :: e in es ==> !StartsSignIn(e)
  }

  lemma LiveYields(s: State, id: TokenId, f: FamilyId, u: UserId)
    requires LiveRow(s, id, f, u)
    ensures Yields(s, f, u)
  {
    var none: seq<Event> := [];
    assert Run(s, none) == Some(s) && forall e :: e in none ==> !StartsSignIn(e);
  }

  lemma YieldsBefore(s: State, e: Event, f: FamilyId, u: UserId)
    requires Enabled(s, e) && Yields(Next(s, e), f, u) && !StartsSignIn(e)
    ensures Yields(s, f, u)
  {
    hide Enabled, Next, LiveRow, StartsSignIn;
    var es, t, id :| Run(Next(s, e), es) == Some(t) && LiveRow(t, id, f, u) && forall k :: k in es ==> !StartsSignIn(k);
    RunOne(s, e);
    RunThen(s, [e], Next(s, e), es);
    assert Run(s, [e] + es) == Some(t);
    assert forall k :: k in [e] + es ==> !StartsSignIn(k);
  }

  lemma YieldsRevives(s: State, f: FamilyId, u: UserId)
    requires Yields(s, f, u)
    ensures Revives(s, f)
  {
    var es, t, id :| Run(s, es) == Some(t) && LiveRow(t, id, f, u) && forall k :: k in es ==> !StartsSignIn(k);
    assert id in LiveRows(t, f);
  }

  lemma StoreYields(s: State, r: ReqId)
    requires r in s.reqs && s.reqs[r].RefreshSigned?
    ensures Yields(s, s.reqs[r].family, s.reqs[r].owner)
  {
    var q := s.reqs[r];
    var token := UnusedExists(s.minted.Keys);
    var s' := StoreNext(s, r, q.owner, q.family, q.startedAt, token);
    assert LiveRow(s', token, q.family, q.owner);
    hide StoreNext, LiveRow;
    LiveYields(s', token, q.family, q.owner);
    YieldsBefore(s, Refresh(r, Store(token)), q.family, q.owner);
  }

  lemma SignYields(s: State, r: ReqId)
    requires r in s.reqs && s.reqs[r].RefreshLoaded?
    ensures Yields(s, s.reqs[r].family, s.reqs[r].user.id)
  {
    hide Yields;
    var q := s.reqs[r];
    var jti := UnusedExists(s.issued.Keys);
    StoreYields(SignNext(s, r, jti, q.user, RefreshSigned(q.user.id, q.family, q.startedAt)), r);
    YieldsBefore(s, Refresh(r, Sign(jti)), q.family, q.user.id);
  }

  lemma LoadYields(s: State, r: ReqId)
    requires Serial(s.users) && r in s.reqs && s.reqs[r].RefreshWon? && Findable(s.users, s.reqs[r].owner)
    requires CanAuthenticate(s.users[s.reqs[r].owner].row.profile)
    ensures Yields(s, s.reqs[r].family, s.reqs[r].owner)
  {
    var q := s.reqs[r];
    RowHasId(s.users, q.owner);
    hide Yields, CanAuthenticate, Serial;
    SignYields(Goto(s, r, RefreshLoaded(s.users[q.owner].row, q.family, q.startedAt)), r);
    YieldsBefore(s, Refresh(r, Load), q.family, q.owner);
  }

  /** Setting a password and activating opens the gate for any account that is not deleted. */
  function Reopening(at: int): seq<Edit> {
    [Edit(SetPasswordHash(PasswordHash("", 0)), at), Edit(Activate, at)]
  }

  lemma ReopeningOpens(u: UserSnapshot, at: int)
    requires u.profile.deletedAt.None?
    ensures KeepSecrets(u.id, u.profile, Reopening(at))
    ensures var v := ApplyAll(u, Reopening(at));
            v.profile.deletedAt.None? && CanAuthenticate(v.profile) && v.profile.email == u.profile.email
            && v.id == u.id && v.version == u.version
  {
    var es := Reopening(at);
    var v := Apply(u, es[0]);
    assert es[1..] == [es[1]] && es[1..][1..] == [];
    assert ApplyAll(u, es) == ApplyAll(v, es[1..]);
    assert ApplyAll(v, es[1..]) == ApplyAll(Apply(v, es[1]), []);
    assert KeepSecrets(u.id, Edited(u.id, Edited(u.id, u.profile, es[0]), es[1]), []);
    assert KeepSecrets(u.id, Edited(u.id, u.profile, es[0]), es[1..]);
  }

  /** A save straight after the load it edits goes through, unless the address is taken. */
  lemma PromptSave(t: UserTable, id: UserId, edits: seq<Edit>)
    requires Serial(t) && id in t && t[id].row.profile.email == ApplyAll(t[id].row, edits).profile.email
    requires ApplyAll(t[id].row, edits).id == id && ApplyAll(t[id].row, edits).version == t[id].row.version
    ensures var r := Saved(t, ApplyAll(t[id].row, edits), edits);
            r.Ok? && id in r.value && r.value[id].row.profile == ApplyAll(t[id].row, edits).profile
  {
    hide ApplyAll, SerialAccount;
  }

  /** Saved straight away, those edits leave the account with its gate open. */
  lemma ReopeningSaves(t: UserTable, owner: UserId, at: int)
    requires Serial(t) && Findable(t, owner)
    ensures var u := t[owner].row;
            var r := Saved(t, ApplyAll(u, Reopening(at)), Reopening(at));
            && u.id == owner && KeepSecrets(u.id, u.profile, Reopening(at)) && r.Ok? && Serial(r.value)
            && Findable(r.value, owner) && CanAuthenticate(r.value[owner].row.profile)
  {
    var u := t[owner].row;
    assert u.id == owner;
    ReopeningOpens(u, at);
    hide Reopening, CanAuthenticate, ApplyAll, KeepSecrets;
    PromptSave(t, owner, Reopening(at));
    RowIsLoaded(t, owner);
    hide Serial, Saved, EmailFree;
    SaveKeepsSerial(t, u, Reopening(at));
  }

  lemma LoadsForEdit(s: State, r: ReqId, owner: UserId)
    requires r !in s.reqs && owner in s.users
    ensures Enabled(s, Manage(r, LoadEdit(owner)))
    ensures Next(s, Manage(r, LoadEdit(owner))) == Goto(s, r, Editing(s.users[owner].row))
  {
  }

  lemma SavesEdits(s: State, r: ReqId, u: UserSnapshot, es: seq<Edit>)
    requires r in s.reqs && s.reqs[r] == Editing(u) && KeepSecrets(u.id, u.profile, es)
    ensures Enabled(s, Manage(r, SaveEdit(es)))
    ensures Next(s, Manage(r, SaveEdit(es))) == SaveThen(s, r, u, es, None)
  {
    hide KeepSecrets, SaveThen;
  }

  /** A load and a save of those edits, by a request of their own, open the gate. */
  lemma ReopeningRuns(s: State, r: ReqId, owner: UserId) returns (s1: State, s2: State)
    requires Serial(s.users) && r !in s.reqs && Findable(s.users, owner)
    ensures Enabled(s, Manage(r, LoadEdit(owner))) && Next(s, Manage(r, LoadEdit(owner))) == s1
    ensures Enabled(s1, Manage(r, SaveEdit(Reopening(s.now)))) && Next(s1, Manage(r, SaveEdit(Reopening(s.now)))) == s2
    ensures Findable(s2.users, owner) && CanAuthenticate(s2.users[owner].row.profile) && Serial(s2.users)
    ensures forall k :: k in s.reqs ==> k in s2.reqs && s2.reqs[k] == s.reqs[k]
  {
    hide Enabled, Next, Reopening, CanAuthenticate, ApplyAll, KeepSecrets, Serial, Saved, SaveThen;
    var es := Reopening(s.now);
    ReopeningSaves(s.users, owner, s.now);
    var u := s.users[owner].row;
    var t := Saved(s.users, ApplyAll(u, es), es).value;
    hide Findable;
    LoadsForEdit(s, r, owner);
    s1 := Goto(s, r, Editing(u));
    SavesEdits(s1, r, u, es);
    SaveOutcome(s1, r, u, es, None);
    s2 := Done(s1.(users := t), r);
  }

  lemma WinnerYields(s: State, r: ReqId)
    requires Serial(s.users) && r in s.reqs && s.reqs[r].RefreshWon? && Findable(s.users, s.reqs[r].owner)
    ensures Yields(s, s.reqs[r].family, s.reqs[r].owner)
  {
    hide Yields, Reopening, SaveThen, Findable, CanAuthenticate, Enabled, Next, Serial;
    var owner, f := s.reqs[r].owner, s.reqs[r].family;
    var r2 := UnusedExists(s.reqs.Keys);
    var s1, s2 := ReopeningRuns(s, r2, owner);
    LoadYields(s2, r);
    YieldsBefore(s1, Manage(r2, SaveEdit(Reopening(s.now))), f, owner);
    YieldsBefore(s, Manage(r2, LoadEdit(owner)), f, owner);
  }

  /** Every refresh past its compare-and-swap, unless doomed, can still store its successor. */
  lemma HolderYields(s: State, r: ReqId)
    requires Serial(s.users) && Claim(s.reqs, r).Some? && !Doomed(s, s.reqs[r])
    ensures Yields(s, Claim(s.reqs, r).value.0, Claim(s.reqs, r).value.1)
  {
    hide Serial, Yields;
    if s.reqs[r].RefreshWon? {
      WinnerYields(s, r);
    } else if s.reqs[r].RefreshLoaded? {
      SignYields(s, r);
    } else {
      StoreYields(s, r);
    }
  }

  /**
   * When a session is over. A family has no live row in any state any continuation leads to exactly when
   * it has none now and every refresh that consumed one of its tokens is stuck before a deleted account.
   */
  lemma SessionIsOver(s: State, f: FamilyId)
    requires Inv(s) && f in s.families
    ensures Revives(s, f) <==> !Dead(s, f)
  {
    hide Inv, LiveRows;
    if !Dead(s, f) {
      NotDeadRevives(s, f);
    } else if Revives(s, f) {
      var es, t :| Run(s, es) == Some(t) && LiveRows(t, f) != {};
      DeadStays(s, es, t, f);
    }
  }

  lemma AliveRevives(s: State, f: FamilyId)
    requires LiveRows(s, f) != {}
    ensures Revives(s, f)
  {
    assert Run(s, []) == Some(s);
  }

  lemma NotDeadRevives(s: State, f: FamilyId)
    requires Inv(s) && !Dead(s, f)
    ensures Revives(s, f)
  {
    hide Inv, Revives, Yields, AccessInv, FamilyInv, OwnersOK, LoginsKnown, Serial, Findable;
    InvParts(s);
    if LiveRows(s, f) != {} {
      AliveRevives(s, f);
    } else {
      hide LiveRows;
      var r :| r in s.reqs && Holds(s.reqs[r], f) && !Doomed(s, s.reqs[r]);
      HolderYields(s, r);
      YieldsRevives(s, f, Claim(s.reqs, r).value.1);
    }
  }

  // ----- What the revoking steps reach -----

  /** The request revokes `f` outright: reuse was detected in it, or its owner signed out or changed the password. */
  ghost predicate RevokesFamily(s: State, e: Event, f: FamilyId) {
    match e
    case Refresh(r, RevokeReused) =>
      r in s.reqs && ((s.reqs[r].RefreshLost? && s.reqs[r].lostFamily == f)
                      || (s.reqs[r].RefreshFound? && s.reqs[r].row.familyId == f))
    case Logout(r, RevokeSession) => r in s.reqs && s.reqs[r].LogoutFound? && s.reqs[r].sessionFamily == f
    case Logout(_, RevokeAll(userId, _, _)) => f in s.families && s.families[f].owner == userId
    case Manage(r, RevokeAfterChange(_)) =>
      r in s.reqs && s.reqs[r].PasswordSaved? && f in s.families && s.families[f].owner == s.reqs[r].owner
    case _ => false
  }

  /** The reason a revoking step gives, or None for every other step. */
  function ReasonOf(e: Event): Option<Reason> {
    match e
    case Refresh(_, RevokeReused) => Some(ReuseDetected)
    case Logout(_, RevokeSession) => Some(Reason.Logout)
    case Logout(_, RevokeAll(_, _, _)) => Some(Reason.LogoutAll)
    case Manage(_, RevokeAfterChange(_)) => Some(Reason.PasswordChanged)
    case _ => None
  }

  /** The rows the step is about: those of one session, or those of one account. */
  predicate Targets(s: State, e: Event, row: TokenRow) {
    match e
    case Refresh(r, RevokeReused) =>
      r in s.reqs && ((s.reqs[r].RefreshLost? && row.familyId == s.reqs[r].lostFamily)
                      || (s.reqs[r].RefreshFound? && row.familyId == s.reqs[r].row.familyId))
    case Logout(r, RevokeSession) => r in s.reqs && s.reqs[r].LogoutFound? && row.familyId == s.reqs[r].sessionFamily
    case Logout(_, RevokeAll(userId, _, _)) => row.userId == userId
    case Manage(r, RevokeAfterChange(_)) => r in s.reqs && s.reqs[r].PasswordSaved? && row.userId == s.reqs[r].owner
    case _ => false
  }

  lemma RevokesTargets(s: State, e: Event) returns (hit: TokenRow -> bool, at: int)
    requires Enabled(s, e) && ReasonOf(e).Some?
    ensures Next(s, e).tokens == RevokedWhere(s.tokens, hit, ReasonOf(e).value, at)
    ensures forall row :: hit(row) <==> Targets(s, e, row)
  {
    hide LoginEnabled, LoginNext, OwnToken, RevokedWhere;
    if e.Refresh? {
      var q := s.reqs[e.r];
      hit, at := OfFamily(if q.RefreshLost? then q.lostFamily else q.row.familyId), q.startedAt;
    } else if e.Manage? {
      hit, at := OfUser(s.reqs[e.r].owner), e.change.at;
    } else if e.logout.RevokeSession? {
      hit, at := OfFamily(s.reqs[e.r].sessionFamily), s.reqs[e.r].startedAt;
    } else {
      hit, at := OfUser(e.logout.userId), e.logout.at;
    }
  }

  /**
   * Revocation is precise: a revoking step stamps exactly the live rows it is about, with its own reason, and
   * leaves every other row as it was, whosever it is.
   */
  lemma RevocationIsPrecise(s: State, e: Event) returns (at: int)
    requires Enabled(s, e) && ReasonOf(e).Some?
    ensures Next(s, e).tokens.Keys == s.tokens.Keys
    ensures forall id :: id in s.tokens ==>
              Next(s, e).tokens[id] == if Targets(s, e, s.tokens[id]) && s.tokens[id].revokedAt.None?
                                       then Stamped(s.tokens[id], ReasonOf(e).value, at) else s.tokens[id]
  {
    hide Enabled, Next, Targets, ReasonOf;
    var hit;
    hit, at := RevokesTargets(s, e);
  }

  lemma RevokingLeavesNoRow(s: State, e: Event, f: FamilyId)
    requires RowsOK(s) && Enabled(s, e) && RevokesFamily(s, e, f)
    ensures LiveRows(Next(s, e), f) == {}
  {
    var at := RevocationIsPrecise(s, e);
    forall id | id in s.tokens && s.tokens[id].familyId == f ensures Targets(s, e, s.tokens[id]) {
      assert RowOK(s, id, s.tokens[id]);
    }
    hide Enabled, Next, RevokesFamily, Targets, RowsOK;
    forall id | id in s.tokens ensures Next(s, e).tokens[id].familyId == s.tokens[id].familyId {}
  }

  /** Ending one session leaves every other as it was, the same account's included. */
  lemma OtherSessionsLive(s: State, e: Event, f: FamilyId, g: FamilyId)
    requires Enabled(s, e) && RevokesFamily(s, e, f) && (e.Refresh? || (e.Logout? && e.logout.RevokeSession?)) && g != f
    ensures LiveRows(Next(s, e), g) == LiveRows(s, g)
  {
    var at := RevocationIsPrecise(s, e);
    assert forall id :: id in s.tokens && s.tokens[id].familyId == g ==> !Targets(s, e, s.tokens[id]);
    hide Enabled, Next, RevokesFamily, Targets;
    forall id | id in s.tokens ensures Next(s, e).tokens[id].familyId == s.tokens[id].familyId {}
  }

  /**
   * Reuse detection, logout, logout-all and a password change end a session for good exactly when no
   * refresh of it is in flight past its compare-and-swap with its account still there. No transaction
   * wraps the rotation, so that condition cannot be dropped: such a refresh inserts its successor after
   * the revocation has run, and nothing revokes that row.
   */
  lemma RevocationEndsSession(s: State, e: Event, f: FamilyId)
    requires Inv(s) && f in s.families && Enabled(s, e) && RevokesFamily(s, e, f)
    ensures !Revives(Next(s, e), f) <==> forall r :: r in s.reqs && Holds(s.reqs[r], f) ==> Doomed(s, s.reqs[r])
  {
    var s' := Next(s, e);
    InvParts(s);
    StepKeepsInv(s, e);
    RevokingLeavesNoRow(s, e, f);
    SessionIsOver(s', f);
    RevokingMovesNoWinner(s, e, f);
    hide Inv, LiveRows, Enabled, Next, Run, Holds;
    assert Dead(s', f) <==> forall r :: r in s'.reqs && Holds(s'.reqs[r], f) ==> Doomed(s', s'.reqs[r]);
  }

  /** A revocation changes rows and its own request, which was and is no winner. */
  lemma RevokingMoves(s: State, e: Event, f: FamilyId)
    requires Enabled(s, e) && RevokesFamily(s, e, f)
    ensures var s' := Next(s, e);
            && s'.users == s.users && Actor(e).Some?
            && (forall k :: k != Actor(e).value ==>
                  (k in s'.reqs <==> k in s.reqs) && (k in s.reqs ==> s'.reqs[k] == s.reqs[k]))
            && Claim(s.reqs, Actor(e).value).None? && Claim(s'.reqs, Actor(e).value).None?
  {
    hide RevokedWhere, LoginEnabled, LoginNext, OwnToken;
    var s' := Next(s, e);
    if e.Refresh? {
      var q := s.reqs[e.r];
      var family := if q.RefreshLost? then q.lostFamily else q.row.familyId;
      assert s' == Done(RevokedIn(s, OfFamily(family), ReuseDetected, q.startedAt), e.r);
    } else if e.Manage? {
      assert s' == Done(RevokedIn(s, OfUser(s.reqs[e.r].owner), Reason.PasswordChanged, e.change.at), e.r);
    } else if e.logout.RevokeSession? {
      var q := s.reqs[e.r];
      assert s' == Goto(RevokedIn(s, OfFamily(q.sessionFamily), Reason.Logout, q.startedAt), e.r, Denying(q.jti));
    } else {
      var u, jti := e.logout.userId, e.logout.ownJti;
      assert s' == Goto(RevokedIn(s, OfUser(u), Reason.LogoutAll, e.logout.at), e.r, LogoutAllStarted(u, jti));
    }
    hide Enabled, Next, RevokesFamily;
  }

  lemma RevokingMovesNoWinner(s: State, e: Event, f: FamilyId)
    requires Enabled(s, e) && RevokesFamily(s, e, f)
    ensures Next(s, e).users == s.users
    ensures forall r :: r in s.reqs && Holds(s.reqs[r], f) <==> r in Next(s, e).reqs && Holds(Next(s, e).reqs[r], f)
    ensures forall r :: r in s.reqs && Holds(s.reqs[r], f) ==> Next(s, e).reqs[r] == s.reqs[r]
  {
    hide Enabled, Next, RevokesFamily;
    RevokingMoves(s, e, f);
  }

  /** The step revokes every row of the account: logout-all, or the end of a password change. */
  ghost predicate RevokesAccount(s: State, e: Event, u: UserId) {
    match e
    case Logout(_, RevokeAll(userId, _, _)) => userId == u
    case Manage(r, RevokeAfterChange(_)) => r in s.reqs && s.reqs[r].PasswordSaved? && s.reqs[r].owner == u
    case _ => false
  }

  lemma AccountRowsRevoked(s: State, e: Event, u: UserId)
    requires Enabled(s, e) && RevokesAccount(s, e, u)
    ensures var s' := Next(s, e);
            && s'.tokens.Keys == s.tokens.Keys
            && (forall k :: k in s'.tokens ==> s'.tokens[k].userId == s.tokens[k].userId)
            && (forall k :: k in s'.tokens && s'.tokens[k].userId == u ==> IsRevoked(s'.tokens[k]))
  {
    var at := RevocationIsPrecise(s, e);
    assert forall row: TokenRow :: row.userId == u ==> Targets(s, e, row);
    hide Enabled, Next, Targets, RevokesAccount;
  }

  /** The gate of `LoginUseCase` up to the re-hash: the account is there, the password right, the status in order. */
  predicate CanSignIn(t: UserTable, u: UserId, password: string) {
    && Findable(t, u) && CanAuthenticate(t[u].row.profile)
    && Verify(t[u].row.profile.passwordHash.value, password)
  }

  /** A token as good as its account's row: of the same epoch, unexpired, signed from a load of that row or before. */
  ghost predicate FreshToken(t: State, u: UserId, jti: Jti) {
    && jti in t.issued && u in t.users && t.users[u].row.id == u
    && t.issued[jti].claims.sub == u && Unexpired(t.issued[jti].claims, t.now)
    && t.issued[jti].claims.tv == t.users[u].row.profile.tokenVersion
    && t.issued[jti].basis.version <= t.users[u].row.version
  }

  lemma RehashSaves(t: UserTable, u: UserId, password: string, cost: nat, at: int)
    requires Serial(t) && CanSignIn(t, u, password)
    ensures var row, e := t[u].row, Edit(UpgradePasswordHash(PasswordHash(password, cost)), at);
            var r := Saved(t, Apply(row, e), [e]);
            && row.id == u && r.Ok? && Serial(r.value) && CanSignIn(r.value, u, password)
            && row.version <= r.value[u].row.version
            && r.value[u].row.profile.tokenVersion == row.profile.tokenVersion
  {
    var row, e := t[u].row, Edit(UpgradePasswordHash(PasswordHash(password, cost)), at);
    RowHasId(t, u);
    RowIsLoaded(t, u);
    ApplyOne(row, e);
    assert [e][1..] == [] && KeepSecrets(row.id, row.profile, [e]);
    PromptSave(t, u, [e]);
    SaveKeepsSerial(t, row, [e]);
    hide Serial, Saved, ApplyAll, KeepSecrets, EmailFree;
  }

  /** The re-hash of an undisturbed login goes through; the account is as before but for the cost of its hash. */
  lemma RehashGoesThrough(s: State, u: UserId, password: string, r: ReqId) returns (t: State)
    requires Serial(s.users) && CanSignIn(s.users, u, password) && NeedsRehash(s.config, s.users[u].row)
    requires r in s.reqs && s.reqs[r] == LoginVerified(s.users[u].row, password)
    ensures Enabled(s, Login(r, Rehash(s.now))) && Next(s, Login(r, Rehash(s.now))) == t
    ensures Serial(t.users) && CanSignIn(t.users, u, password)
    ensures t == s.(users := t.users, reqs := t.reqs) && r in t.reqs && t.reqs[r].LoginReady?
    ensures var user := t.reqs[r].user;
            && user.id == u && user.version <= t.users[u].row.version
            && user.profile.tokenVersion == t.users[u].row.profile.tokenVersion
  {
    hide Serial, Saved, ApplyAll, CanAuthenticate, SaveThen, Apply, NeedsRehash;
    var row := s.users[u].row;
    var e := RehashEdit(s, s.reqs[r], s.now);
    ApplyOne(row, e);
    RehashSaves(s.users, u, password, s.config.hashCost, s.now);
    hide CanSignIn;
    var users := Saved(s.users, Apply(row, e), [e]).value;
    SaveOutcome(s, r, row, [e], Some(LoginReady(Apply(row, e))));
    t := Goto(s.(users := users), r, LoginReady(Apply(row, e)));
    assert Next(s, Login(r, Rehash(s.now))) == t;
    EditedCost(row, e);
  }

  lemma EditedCost(u: UserSnapshot, e: Edit)
    requires e.mutation.UpgradePasswordHash?
    ensures Apply(u, e).id == u.id && Apply(u, e).version == u.version
    ensures Apply(u, e).profile.tokenVersion == u.profile.tokenVersion
  {
  }

  /** Signing from a snapshot of the account's epoch makes a fresh token. */
  lemma SignsFresh(s: State, u: UserId, r: ReqId, user: UserSnapshot, jti: Jti) returns (t: State)
    requires r in s.reqs && jti !in s.issued && u in s.users && s.users[u].row.id == u
    requires s.reqs[r] == LoginReady(user)
          || (s.reqs[r].LoginVerified? && s.reqs[r].user == user && !NeedsRehash(s.config, user))
    requires user.id == u && user.version <= s.users[u].row.version
    requires user.profile.tokenVersion == s.users[u].row.profile.tokenVersion
    ensures Enabled(s, Login(r, SignLogin(jti))) && Next(s, Login(r, SignLogin(jti))) == t
    ensures t == s.(issued := t.issued, reqs := t.reqs) && r in t.reqs && t.reqs[r] == LoginSigned(u)
    ensures FreshToken(t, u, jti)
  {
    hide NeedsRehash;
    t := SignNext(s, r, jti, user, LoginSigned(u));
  }

  /** A sign-in as far as its tokens are signed, undisturbed, the re-hash included where the hash needs it. */
  lemma SignedIn(s: State, u: UserId, password: string, r: ReqId, jti: Jti) returns (es: seq<Event>, t: State)
    requires Serial(s.users) && CanSignIn(s.users, u, password) && r !in s.reqs && jti !in s.issued
    ensures Run(s, es) == Some(t)
    ensures t == s.(users := t.users, issued := t.issued, reqs := t.reqs)
    ensures Serial(t.users) && CanSignIn(t.users, u, password)
    ensures r in t.reqs && t.reqs[r] == LoginSigned(u) && FreshToken(t, u, jti)
  {
    var row := s.users[u].row;
    RowHasId(s.users, u);
    var e0, e1 := Login(r, VerifyPassword(u, password)), Login(r, SignLogin(jti));
    var s1 := Goto(s, r, LoginVerified(row, password));
    assert Enabled(s, e0) && Next(s, e0) == s1;
    hide Enabled, Next, Serial, CanAuthenticate, Verify, NeedsRehash, Run, FreshToken;
    RunOne(s, e0);
    if NeedsRehash(s.config, row) {
      var s2 := RehashGoesThrough(s1, u, password, r);
      RowHasId(s2.users, u);
      RunFurther(s, [e0], s1, Login(r, Rehash(s.now)));
      t := SignsFresh(s2, u, r, s2.reqs[r].user, jti);
      es := [e0] + [Login(r, Rehash(s.now))];
      RunFurther(s, es, s2, e1);
    } else {
      t := SignsFresh(s1, u, r, row, jti);
      es := [e0];
      RunFurther(s, es, s1, e1);
    }
    es := es + [e1];
  }

  /** A refresh of the session, from the token presented to the compare-and-swap won. */
  lemma RotationWon(s: State, id: TokenId, r: ReqId) returns (t: State)
    requires id in s.tokens && IsUsable(s.tokens[id], s.now) && s.tokens[id].id == id && r !in s.reqs
    ensures Run(s, [Refresh(r, Find(id, s.now)), Refresh(r, Consume)]) == Some(t)
    ensures t.users == s.users && r in t.reqs
    ensures t.reqs[r] == RefreshWon(s.tokens[id].userId, s.tokens[id].familyId, s.now)
  {
    var row := s.tokens[id];
    var e0, e1 := Refresh(r, Find(id, s.now)), Refresh(r, Consume);
    var s1 := Goto(s, r, RefreshFound(row, s.now));
    assert Enabled(s, e0) && Next(s, e0) == s1 && Enabled(s1, e1);
    t := Next(s1, e1);
    assert t == ConsumeNext(s1, r, row, s.now);
    hide Enabled, Next, RevokedWhere;
    RunOne(s, e0);
    RunFurther(s, [e0], s1, e1);
  }

  /** A login that has signed stores the first token of a family nobody has used. */
  lemma SessionOpened(s: State, r: ReqId, at: int) returns (e: Event, t: State, id: TokenId, f: FamilyId)
    requires r in s.reqs && s.reqs[r].LoginSigned? && at <= s.now
    ensures Enabled(s, e) && Next(s, e) == t && !StartsSignIn(e)
    ensures t.users == s.users && t.now == s.now
    ensures id in t.tokens && t.tokens[id] == Issued(id, s.reqs[r].owner, f, s.config.refreshTtlS, at)
  {
    f := UnusedExists(s.families.Keys);
    id := UnusedExists(s.minted.Keys);
    e := Login(r, OpenFamily(id, f, at));
    t := OpenNext(s, r, s.reqs[r].owner, id, f, at);
  }

  lemma WinnerInFlight(s: State, u: UserId, password: string) returns (es: seq<Event>, t: State, r: ReqId)
    requires Serial(s.users) && CanSignIn(s.users, u, password)
    ensures Run(s, es) == Some(t) && Findable(t.users, u)
    ensures r in t.reqs && t.reqs[r].RefreshWon? && t.reqs[r].owner == u
  {
    hide Run, CanAuthenticate, Verify, IsUsable, Findable, Serial, FreshToken, Enabled, Next;
    var r0 := UnusedExists(s.reqs.Keys);
    var jti := UnusedExists(s.issued.Keys);
    var s1, e, s2, id, f;
    es, s1 := SignedIn(s, u, password, r0, jti);
    e, s2, id, f := SessionOpened(s1, r0, s1.now);
    RunOne(s1, e);
    TokenLifetime(id, u, f, s1.config.refreshTtlS, s1.now, Rotated, 0, s1.now);
    r := UnusedExists(s2.reqs.Keys);
    t := RotationWon(s2, id, r);
    RunThen(s, es, s1, [e]);
    RunThen(s, es + [e], s2, [Refresh(r, Find(id, s2.now)), Refresh(r, Consume)]);
    es := es + [e] + [Refresh(r, Find(id, s2.now)), Refresh(r, Consume)];
  }

  /** While a winner whose account is there is in flight, no revocation ends its session. */
  lemma NothingEndsIt(t: State, r: ReqId)
    requires Inv(t) && r in t.reqs && t.reqs[r].RefreshWon? && Findable(t.users, t.reqs[r].owner)
    ensures var f := t.reqs[r].family;
            && f in t.families && t.families[f].owner == t.reqs[r].owner
            && forall e :: Enabled(t, e) && RevokesFamily(t, e, f) ==> Revives(Next(t, e), f)
  {
    var f := t.reqs[r].family;
    assert ClaimedBy(t, r, f) && ClaimOK(t, Claim(t.reqs, r).value);
    hide Inv, Enabled, Next, RevokesFamily, Revives, Findable;
    forall e | Enabled(t, e) && RevokesFamily(t, e, f) ensures Revives(Next(t, e), f) {
      RevocationEndsSession(t, e, f);
    }
  }

  /**
   * The gap is always within reach: from any state in which some account can sign in, a run leads to a
   * point at which no revocation of any kind ends that account's session.
   */
  lemma RevocationCanMiss(s: State, u: UserId, password: string) returns (es: seq<Event>, t: State, f: FamilyId)
    requires Inv(s) && CanSignIn(s.users, u, password)
    ensures Run(s, es) == Some(t) && f in t.families && t.families[f].owner == u
    ensures forall e :: Enabled(t, e) && RevokesFamily(t, e, f) ==> Revives(Next(t, e), f)
  {
    InvParts(s);
    hide Inv, Run, Ahead, CanSignIn, Serial, AccessInv, FamilyInv, OwnersOK, Findable;
    hide Enabled, Next, RevokesFamily, Revives;
    var r: ReqId;
    es, t, r := WinnerInFlight(s, u, password);
    RunKeepsInv(s, es, t);
    f := t.reqs[r].family;
    NothingEndsIt(t, r);
  }

  /**
   * Every row that exists when a password change or a logout-all revokes the account's rows is unusable
   * from then on, at any clock value and in every continuation.
   */
  lemma AccountRevocationEndsRows(s: State, e: Event, u: UserId, es: seq<Event>, t: State, id: TokenId, now: int)
    requires Inv(s) && Enabled(s, e) && RevokesAccount(s, e, u) && Run(Next(s, e), es) == Some(t)
    requires id in s.tokens && s.tokens[id].userId == u
    ensures id in t.tokens ==> !IsUsable(t.tokens[id], now)
  {
    AccountRowsRevoked(s, e, u);
    hide Inv, Ahead, AccessInv, FamilyInv, Enabled, Next, Run, RevokesAccount;
    StepKeepsInv(s, e);
    InvParts(Next(s, e));
    RowsAreMinted(Next(s, e));
    RevokedStaysRevoked(Next(s, e), es, t, id);
  }

  // ----- The theorems about passwords and reuse have something to say -----

  /** Two requests can both come to present a usable token before either consumes it. */
  lemma BothPresent(s: State, id: TokenId, r1: ReqId, r2: ReqId) returns (t: State)
    requires id in s.tokens && IsUsable(s.tokens[id], s.now) && s.tokens[id].id == id
    requires r1 !in s.reqs && r2 !in s.reqs && r1 != r2
    ensures Run(s, [Refresh(r1, Find(id, s.now)), Refresh(r2, Find(id, s.now))]) == Some(t)
    ensures Presents(t, r1, id) && Presents(t, r2, id) && t.tokens == s.tokens
  {
    var row := s.tokens[id];
    var e1, e2 := Refresh(r1, Find(id, s.now)), Refresh(r2, Find(id, s.now));
    var s1 := Goto(s, r1, RefreshFound(row, s.now));
    t := Goto(s1, r2, RefreshFound(row, s.now));
    assert Enabled(s, e1) && Next(s, e1) == s1 && Enabled(s1, e2) && Next(s1, e2) == t;
    hide Enabled, Next;
    RunOne(s, e1);
    RunFurther(s, [e1], s1, e2);
  }

  lemma ChangeBegins(s: State, u: UserId, password: string, newPassword: string, r: ReqId) returns (t: State)
    requires CanSignIn(s.users, u, password) && newPassword != password && r !in s.reqs
    ensures Run(s, [Manage(r, VerifyChange(u, password, newPassword))]) == Some(t)
    ensures t == s.(reqs := t.reqs)
    ensures r in t.reqs && t.reqs[r] == PasswordVerified(s.users[u].row, PasswordHash(newPassword, s.config.hashCost))
  {
    var e := Manage(r, VerifyChange(u, password, newPassword));
    t := Goto(s, r, PasswordVerified(s.users[u].row, PasswordHash(newPassword, s.config.hashCost)));
    assert Enabled(s, e) && Next(s, e) == t;
    hide Enabled, Next;
    RunOne(s, e);
  }

  /** A change begun on the row as it stands goes through when nothing overtakes it. */
  lemma ChangeSaves(t: State, u: UserId, hash: PasswordHash, r: ReqId)
    requires Serial(t.users) && u in t.users && r in t.reqs && t.reqs[r] == PasswordVerified(t.users[u].row, hash)
    ensures AccountEnabled(t, r, SaveChange(t.now))
    ensures ChangesPassword(t, r, t.now, AccountNext(t, r, SaveChange(t.now)))
  {
    var row := t.users[u].row;
    var e := Edit(SetPasswordHash(hash), t.now);
    ApplyOne(row, e);
    assert row.id == u;
    hide ApplyAll;
    PromptSave(t.users, u, [e]);
    var saved := Saved(t.users, ApplyAll(row, [e]), [e]);
    assert saved.value[u].row.profile.tokenVersion == t.users[u].row.profile.tokenVersion + 1;
    hide Serial, Saved, Apply;
    assert AccountNext(t, r, SaveChange(t.now)) == SavedState(t, r, saved, Some(PasswordSaved(u)));
  }

  /** A fresh token that was never denylisted is accepted. */
  lemma FreshIsAccepted(t: State, u: UserId, jti: Jti)
    requires FreshToken(t, u, jti) && jti !in t.denylist && CanAuthenticate(t.users[u].row.profile)
    ensures Accepts(t, jti) && Subject(t, jti) == u
  {
    GateMeaning(t.users[u].row.profile);
  }

  /** Both steps in a row: a token is signed and accepted, and a change of password is about to save. */
  lemma AcceptedBeforeChange(s: State, u: UserId, password: string, newPassword: string)
    returns (es: seq<Event>, t: State, r: ReqId, id: Jti)
    requires Inv(s) && CanSignIn(s.users, u, password) && newPassword != password
    ensures Run(s, es) == Some(t) && FreshToken(t, u, id) && Accepts(t, id)
    ensures r in t.reqs && t.reqs[r] == PasswordVerified(t.users[u].row, PasswordHash(newPassword, t.config.hashCost))
  {
    hide Inv, Run, FamilyInv, OwnersOK, Serial, Verify, CanAuthenticate, Accepts, Findable, RequestOK, IssueOK;
    InvParts(s);
    var r0 := UnusedExists(s.reqs.Keys);
    id := UnusedExists(s.issued.Keys);
    assert id !in s.denylist;
    hide AccessInv;
    var s1;
    es, s1 := SignedIn(s, u, password, r0, id);
    r := UnusedExists(s1.reqs.Keys);
    t := ChangeBegins(s1, u, password, newPassword, r);
    FreshIsAccepted(t, u, id);
    RunThen(s, es, s1, [Manage(r, VerifyChange(u, password, newPassword))]);
    es := es + [Manage(r, VerifyChange(u, password, newPassword))];
  }

  /** A token signed from the row a change is about to replace, or an earlier one, is rejected for good by its save. */
  lemma SaveEndsToken(t: State, r: ReqId, s': State, id: Jti, more: seq<Event>, v: State)
    requires Inv(t) && ChangesPassword(t, r, t.now, s') && Run(s', more) == Some(v)
    requires id in t.issued && Subject(t, id) == t.reqs[r].user.id && Subject(t, id) in t.users
    requires t.issued[id].basis.version <= t.users[Subject(t, id)].row.version
    ensures id in v.issued && !Accepts(v, id)
  {
    hide Inv, Run, AccountEnabled, AccountNext, Accepts;
    ChangeRaisesEpoch(t, r, t.now, s');
    assert id in s'.issued && s'.issued[id] == t.issued[id];
    RunKeepsInv(s', more, v);
    assert id in v.issued && v.issued[id] == t.issued[id];
    hide Ahead, ChangesPassword;
    ChangePasswordEndsOldTokens(t, r, t.now, s', more, v, id);
  }

  /**
   * Changing a password takes effect: from every state in which an account can sign in, a run leads to a
   * token of it that is accepted until the save of the change, and by that save rejected for good.
   */
  lemma ChangeTakesEffect(s: State, u: UserId, password: string, newPassword: string)
    returns (es: seq<Event>, t: State, r: ReqId, s': State, id: Jti)
    requires Inv(s) && CanSignIn(s.users, u, password) && newPassword != password
    ensures Run(s, es) == Some(t) && id in t.issued && Subject(t, id) == u && Accepts(t, id)
    ensures ChangesPassword(t, r, t.now, s')
    ensures forall more, v :: Run(s', more) == Some(v) ==> id in v.issued && !Accepts(v, id)
  {
    hide Run, Ahead, AccountNext, Accepts, AccessInv, FamilyInv, OwnersOK, CanSignIn, Serial;
    es, t, r, id := AcceptedBeforeChange(s, u, password, newPassword);
    RunKeepsInv(s, es, t);
    InvParts(t);
    hide Inv;
    ChangeSaves(t, u, t.reqs[r].newHash, r);
    s' := AccountNext(t, r, SaveChange(t.now));
    hide AccountEnabled, ChangesPassword;
    forall more, v | Run(s', more) == Some(v) ensures id in v.issued && !Accepts(v, id) {
      SaveEndsToken(t, r, s', id, more, v);
    }
  }
}
