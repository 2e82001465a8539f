/**
 * The `users` table: optimistic-locking saves, login telemetry outside the lock, and the proof that
 * every run of them is serialisable.
 */
module UserRepository {
  import opened Common
  import opened UserEntity

  /**
   * A row with the history it is judged against: the row the account started from, the edits of
   * every successful save in order, the states those saves went through, and every recorded login.
   */
  datatype Account = Account(
    row: UserSnapshot,
    origin: UserSnapshot,
    log: seq<seq<Edit>>,
    past: seq<Profile>,
    touches: seq<int>)

  type UserTable = map<UserId, Account>

  datatype SaveError = EmailAlreadyExists | UserNotFound | ConcurrentModification

  predicate EmailFree(t: UserTable, id: UserId, email: string) {
    forall k :: k in t && t[k].row.profile.email == email ==> k == id
  }

  /** The columns `save` writes; `lastLoginAt` and `createdAt` are not among them. */
  function Persist(row: UserSnapshot, entity: UserSnapshot): UserSnapshot {
    row.(profile := entity.profile, updatedAt := entity.updatedAt, version := row.version + 1)
  }

  function SavedAccount(a: Account, entity: UserSnapshot, edits: seq<Edit>): Account {
    var row := Persist(a.row, entity);
    a.(row := row, log := a.log + [edits], past := a.past + [row.profile])
  }

  function Saved(t: UserTable, entity: UserSnapshot, edits: seq<Edit>): Result<UserTable, SaveError> {
    if entity.id !in t then Err(UserNotFound)
    else if t[entity.id].row.version != entity.version then Err(ConcurrentModification)
    else if !EmailFree(t, entity.id, entity.profile.email) then Err(EmailAlreadyExists)
    else Ok(t[entity.id := SavedAccount(t[entity.id], entity, edits)])
  }

  /** `touchLastLogin`: no version, no lock, silently nothing when the row is gone. */
  function Touched(t: UserTable, id: UserId, at: int, now: int): UserTable {
    if id !in t then t
    else t[id := t[id].(row := t[id].row.(lastLoginAt := Some(at), updatedAt := now),
                        touches := t[id].touches + [at])]
  }

  function Created(t: UserTable, u: UserSnapshot): Result<UserTable, SaveError> {
    if u.id in t || !EmailFree(t, u.id, u.profile.email) then Err(EmailAlreadyExists)
    else Ok(t[u.id := Account(u, u, [], [u.profile], [])])
  }

  lemma SavedProfile(t: UserTable, entity: UserSnapshot, edits: seq<Edit>)
    ensures var r := Saved(t, entity, edits);
            r.Ok? ==> entity.id in t && entity.version == t[entity.id].row.version
                      && entity.id in r.value && r.value[entity.id].row.profile == entity.profile
  {
  }

  // ----- Serialisability -----

  /** The profile a single writer would have reached by performing the logged edits one after another. */
  function Replay(id: UserId, p: Profile, log: seq<seq<Edit>>): Profile {
    if log == [] then p else EditAll(id, Replay(id, p, log[..|log| - 1]), log[|log| - 1])
  }

  ghost predicate Step(id: UserId, p: Profile, edits: seq<Edit>, q: Profile) {
    q == EditAll(id, p, edits) && KeepSecrets(id, p, edits)
  }

  ghost predicate SerialAccount(a: Account) {
    && |a.past| == |a.log| + 1
    && a.past[0] == a.origin.profile
    && a.past[|a.log|] == a.row.profile
    && a.row.version == a.origin.version + |a.log|
    && a.row.id == a.origin.id
    && a.row.createdAt == a.origin.createdAt
    && (forall i :: 0 <= i < |a.log| ==> Step(a.row.id, a.past[i], a.log[i], a.past[i + 1]))
    && a.row.lastLoginAt == if a.touches == [] then a.origin.lastLoginAt else Some(a.touches[|a.touches| - 1])
  }

  ghost predicate Serial(t: UserTable) {
    && (forall id :: id in t ==> t[id].row.id == id && SerialAccount(t[id]))
    && (forall a, b :: a in t && b in t && t[a].row.profile.email == t[b].row.profile.email ==> a == b)
  }

  lemma RowHasId(t: UserTable, id: UserId)
    requires Serial(t) && id in t
    ensures t[id].row.id == id
  {
  }

  ghost predicate Versioned(a: Account, k: int) {
    0 <= k - a.origin.version <= |a.log| && |a.past| == |a.log| + 1
  }

  /** The account as it stood when its row carried version `k`. */
  ghost function AsOf(a: Account, k: int): Profile
    requires Versioned(a, k)
  {
    a.past[k - a.origin.version]
  }

  /** A snapshot some request loaded: stale perhaps, but a state the row really went through. */
  ghost predicate Loaded(t: UserTable, u: UserSnapshot) {
    u.id in t && Versioned(t[u.id], u.version) && u.profile == AsOf(t[u.id], u.version)
  }

  ghost predicate AccountGrows(a: Account, a': Account) {
    a.origin == a'.origin && a.log <= a'.log && a.past <= a'.past && a.touches <= a'.touches
  }

  /** `t'` is `t` after further writes: no account disappears and histories only grow. */
  ghost predicate Grows(t: UserTable, t': UserTable) {
    forall id :: id in t ==> id in t' && AccountGrows(t[id], t'[id])
  }

  lemma LaterTransitive(a: Profile, b: Profile, c: Profile)
    requires Later(a, b) && Later(b, c)
    ensures Later(a, c)
  {
  }

  /** Along a history the account only moves forward, and epochs fix what they promise to fix. */
  lemma {:induction false} HistoryMovesForward(a: Account, i: nat, j: nat)
    requires SerialAccount(a) && i <= j < |a.past|
    ensures Later(a.past[i], a.past[j])
    decreases j - i
  {
    if i < j {
      assert Step(a.row.id, a.past[i], a.log[i], a.past[i + 1]);
      EditsMoveForward(a.row.id, a.past[i], a.log[i]);
      HistoryMovesForward(a, i + 1, j);
      LaterTransitive(a.past[i], a.past[i + 1], a.past[j]);
    }
  }

  /** Any loaded snapshot, however stale, is an earlier state of the row as it is now. */
  lemma LoadedIsEarlier(t: UserTable, u: UserSnapshot)
    requires Serial(t) && Loaded(t, u)
    ensures Later(u.profile, t[u.id].row.profile) && u.version <= t[u.id].row.version
  {
    HistoryMovesForward(t[u.id], u.version - t[u.id].origin.version, |t[u.id].log|);
  }

  lemma LoadedStays(t: UserTable, t': UserTable, u: UserSnapshot)
    requires Loaded(t, u) && Grows(t, t') && Serial(t')
    ensures Loaded(t', u)
  {
    assert SerialAccount(t'[u.id]);
  }

  lemma GrowsTransitive(t0: UserTable, t1: UserTable, t2: UserTable)
    requires Grows(t0, t1) && Grows(t1, t2)
    ensures Grows(t0, t2)
  {
    forall id | id in t0
      ensures id in t2 && AccountGrows(t0[id], t2[id])
    {
      assert AccountGrows(t0[id], t1[id]) && AccountGrows(t1[id], t2[id]);
    }
  }

  lemma SavedAccountIsSerial(a: Account, loaded: UserSnapshot, edits: seq<Edit>)
    requires SerialAccount(a) && KeepSecrets(loaded.id, loaded.profile, edits)
    requires a.row.id == loaded.id && a.row.version == loaded.version && loaded.profile == a.row.profile
    ensures var a' := SavedAccount(a, ApplyAll(loaded, edits), edits);
            SerialAccount(a') && AccountGrows(a, a') && Later(a.row.profile, a'.row.profile)
  {
    var a' := SavedAccount(a, ApplyAll(loaded, edits), edits);
    ApplyAllEditsProfile(loaded, edits);
    EditsMoveForward(loaded.id, loaded.profile, edits);
    forall i | 0 <= i < |a'.log|
      ensures Step(a'.row.id, a'.past[i], a'.log[i], a'.past[i + 1])
    {
      if i < |a.log| { assert Step(a.row.id, a.past[i], a.log[i], a.past[i + 1]); }
    }
  }

  /** Replacing or adding one account keeps the table serial, as long as its address is free. */
  lemma PutKeepsSerial(t: UserTable, id: UserId, a: Account)
    requires Serial(t) && SerialAccount(a) && a.row.id == id && EmailFree(t, id, a.row.profile.email)
    requires id in t ==> AccountGrows(t[id], a)
    ensures Serial(t[id := a]) && Grows(t, t[id := a])
  {
    var t' := t[id := a];
    assert forall k :: k in t' ==> k == id || (k in t && t'[k] == t[k]);
    forall k | k in t'
      ensures t'[k].row.id == k && SerialAccount(t'[k])
    {
    }
    forall j, k | j in t' && k in t' && t'[j].row.profile.email == t'[k].row.profile.email
      ensures j == k
    {
    }
  }

  /**
   * The optimistic lock at work: a save from a stale load is refused, and one that goes through was
   * computed from the row it replaces, so appending its edits to the history keeps the row serial.
   */
  lemma SaveKeepsSerial(t: UserTable, loaded: UserSnapshot, edits: seq<Edit>)
    requires Serial(t) && Loaded(t, loaded) && KeepSecrets(loaded.id, loaded.profile, edits)
    ensures var r := Saved(t, ApplyAll(loaded, edits), edits);
            && (r.Err? ==> r.error != UserNotFound)
            && (r.Ok? <==> loaded.version == t[loaded.id].row.version
                           && EmailFree(t, loaded.id, ApplyAll(loaded, edits).profile.email))
            && (r.Ok? ==>
                  && Serial(r.value) && Grows(t, r.value)
                  && r.value[loaded.id].row.version == loaded.version + 1
                  && Later(t[loaded.id].row.profile, r.value[loaded.id].row.profile))
  {
    ApplyAllEditsProfile(loaded, edits);
    var r := Saved(t, ApplyAll(loaded, edits), edits);
    if r.Ok? {
      SavedAccountIsSerial(t[loaded.id], loaded, edits);
      PutKeepsSerial(t, loaded.id, r.value[loaded.id]);
    }
  }

  lemma TouchedAccountIsSerial(a: Account, at: int, now: int)
    requires SerialAccount(a)
    ensures var a' := a.(row := a.row.(lastLoginAt := Some(at), updatedAt := now), touches := a.touches + [at]);
            SerialAccount(a') && AccountGrows(a, a')
  {
    assert forall i :: 0 <= i < |a.log| ==> Step(a.row.id, a.past[i], a.log[i], a.past[i + 1]);
  }

  lemma TouchKeepsSerial(t: UserTable, id: UserId, at: int, now: int)
    requires Serial(t)
    ensures Serial(Touched(t, id, at, now)) && Grows(t, Touched(t, id, at, now))
  {
    if id in t {
      TouchedAccountIsSerial(t[id], at, now);
      PutKeepsSerial(t, id, Touched(t, id, at, now)[id]);
    }
  }

  lemma CreateKeepsSerial(t: UserTable, u: UserSnapshot)
    requires Serial(t)
    ensures Created(t, u).Ok? ==> Serial(Created(t, u).value) && Grows(t, Created(t, u).value)
  {
    if Created(t, u).Ok? {
      PutKeepsSerial(t, u.id, Account(u, u, [], [u.profile], []));
    }
  }

  lemma {:induction false} PastIsReplay(a: Account, n: nat)
    requires SerialAccount(a) && n <= |a.log|
    ensures a.past[n] == Replay(a.row.id, a.origin.profile, a.log[..n])
  {
    if n > 0 {
      PastIsReplay(a, n - 1);
      assert a.log[..n][..n - 1] == a.log[..n - 1];
      assert Step(a.row.id, a.past[n - 1], a.log[n - 1], a.past[n]);
    }
  }

  /**
   * Serialisability: whatever the interleaving of stale loads, refused saves and logins, the row is
   * the fold of the successful saves in save order, `version` counts them, and `lastLoginAt` is the
   * last login recorded, which no save ever rolled back.
   */
  lemma RowIsFoldOfSaves(t: UserTable, id: UserId)
    requires Serial(t) && id in t
    ensures t[id].row.profile == Replay(id, t[id].origin.profile, t[id].log)
    ensures t[id].row.version == t[id].origin.version + |t[id].log|
    ensures t[id].touches != [] ==> t[id].row.lastLoginAt == Some(t[id].touches[|t[id].touches| - 1])
  {
    PastIsReplay(t[id], |t[id].log|);
    assert t[id].log[..|t[id].log|] == t[id].log;
  }

  /**
   * Telemetry commutes with saving: in either order the same saves succeed, and every column but
   * `updatedAt` ends the same, the login time included. `updatedAt` alone shows the order, because
   * both statements write it and the last one wins.
   */
  lemma TouchCommutesWithSave(t: UserTable, entity: UserSnapshot, edits: seq<Edit>, id: UserId, at: int, now: int)
    ensures var touchFirst := Saved(Touched(t, id, at, now), entity, edits);
            var saveFirst := Saved(t, entity, edits);
            && (touchFirst.Err? <==> saveFirst.Err?)
            && (touchFirst.Err? ==> touchFirst.error == saveFirst.error)
            && (touchFirst.Ok? ==>
                  var other := Touched(saveFirst.value, id, at, now);
                  && touchFirst.value.Keys == other.Keys
                  && (forall k :: k in other ==>
                        && touchFirst.value[k].row == other[k].row.(updatedAt := touchFirst.value[k].row.updatedAt)
                        && touchFirst.value[k].(row := other[k].row) == other[k])
                  && (id in t && id == entity.id ==>
                        && touchFirst.value[id].row.updatedAt == entity.updatedAt
                        && other[id].row.updatedAt == now))
  {
    TouchKeepsAddresses(t, id, at, now, entity.id, entity.profile.email);
    hide EmailFree;
    if id == entity.id {
    } else {
    }
  }

  lemma TouchKeepsAddresses(t: UserTable, id: UserId, at: int, now: int, k: UserId, email: string)
    ensures EmailFree(t, k, email) <==> EmailFree(Touched(t, id, at, now), k, email)
  {
    var t' := Touched(t, id, at, now);
    assert forall j :: j in t ==> t'[j].row.profile.email == t[j].row.profile.email;
  }

  // ----- The repository object -----

  /** The versioned write: what the entity owns, one version on; the login time and the creation stay the row's. */
  predicate Written(before: UserSnapshot, entity: UserSnapshot, after: UserSnapshot) {
    && after.id == before.id && after.profile == entity.profile && after.updatedAt == entity.updatedAt
    && after.version == before.version + 1
    && after.lastLoginAt == before.lastLoginAt && after.createdAt == before.createdAt
  }

  class PrismaUserRepository {
    var accounts: UserTable

    constructor ()
      ensures accounts == map[]
    {
      accounts := map[];
    }

    method FindById(id: UserId) returns (user: User?)
      ensures user == null <==> id !in accounts || accounts[id].row.profile.deletedAt.Some?
      ensures user != null ==> fresh(user) && user.ToSnapshot() == accounts[id].row
    {
      if id !in accounts { return null; }
      if accounts[id].row.profile.deletedAt.Some? { return null; }
      user := new User.FromSnapshot(accounts[id].row);
    }

    /** `email` is unique, so at most one row can answer; a deleted one answers as nobody. */
    method FindByEmail(email: string) returns (id: UserId, user: User?)
      requires Serial(accounts)
      ensures user == null ==>
                forall k :: k in accounts && accounts[k].row.profile.email == email ==>
                  accounts[k].row.profile.deletedAt.Some?
      ensures user != null ==>
                && fresh(user) && id in accounts && user.ToSnapshot() == accounts[id].row
                && accounts[id].row.profile.email == email && accounts[id].row.profile.deletedAt.None?
    {
      id, user := "", null;
      if k :| k in accounts && accounts[k].row.profile.email == email {
        id := k;
        if accounts[k].row.profile.deletedAt.None? {
          user := new User.FromSnapshot(accounts[k].row);
        }
      }
    }

    method FindAuthSnapshot(id: UserId) returns (snapshot: Option<UserSnapshot>)
      ensures snapshot == if id in accounts then Some(accounts[id].row) else None
    {
      snapshot := if id in accounts then Some(accounts[id].row) else None;
    }

    method Create(u: UserSnapshot) returns (error: Option<SaveError>)
      modifies this
      ensures match Created(old(accounts), u)
              case Ok(t) => error.None? && accounts == t
              case Err(e) => error == Some(e) && accounts == old(accounts)
      ensures error.None? <==>
                && u.id !in old(accounts)
                && forall k :: k in old(accounts) ==> old(accounts)[k].row.profile.email != u.profile.email
      ensures error.None? ==> accounts.Keys == old(accounts.Keys) + {u.id} && accounts[u.id].row == u
      ensures forall k :: k in old(accounts) ==> k in accounts && accounts[k] == old(accounts)[k]
    {
      if u.id in accounts
        || exists k :: k in accounts && k != u.id && accounts[k].row.profile.email == u.profile.email
      {
        return Some(EmailAlreadyExists);
      }
      accounts := accounts[u.id := Account(u, u, [], [u.profile], [])];
      return None;
    }

    /** `edits` only feeds the history: what the caller did to the aggregate since loading it. */
    method Save(user: User, edits: seq<Edit>) returns (saved: User?, error: Option<SaveError>)
      modifies this
      ensures (error.None? <==> saved != null) && (saved != null ==> fresh(saved))
      ensures match Saved(old(accounts), old(user.ToSnapshot()), edits)
              case Ok(t) => error.None? && accounts == t && saved.ToSnapshot() == t[user.id].row
              case Err(e) => error == Some(e) && accounts == old(accounts)
      ensures error == Some(UserNotFound) <==> user.id !in old(accounts)
      ensures error == Some(ConcurrentModification) <==>
                user.id in old(accounts) && old(accounts)[user.id].row.version != user.version
      ensures error == Some(EmailAlreadyExists) ==>
                exists k :: k in old(accounts) && k != user.id && old(accounts)[k].row.profile.email == user.email
      ensures error.None? ==>
                && accounts.Keys == old(accounts.Keys) && user.id in accounts
                && (forall k :: k in accounts && k != user.id ==>
                      accounts[k] == old(accounts)[k] && accounts[k].row.profile.email != user.email)
                && Written(old(accounts)[user.id].row, user.ToSnapshot(), accounts[user.id].row)
    {
      var s := user.ToSnapshot();
      if s.id !in accounts { return null, Some(UserNotFound); }
      var a := accounts[s.id];
      if a.row.version != s.version { return null, Some(ConcurrentModification); }
      if exists k :: k in accounts && k != s.id && accounts[k].row.profile.email == s.profile.email {
        return null, Some(EmailAlreadyExists);
      }
      var row := a.row.(profile := s.profile, updatedAt := s.updatedAt, version := a.row.version + 1);
      accounts := accounts[s.id := a.(row := row, log := a.log + [edits], past := a.past + [s.profile])];
      saved := new User.FromSnapshot(row);
      error := None;
    }

    method TouchLastLogin(id: UserId, at: int, now: int)
      modifies this
      ensures accounts == Touched(old(accounts), id, at, now)
      ensures accounts.Keys == old(accounts.Keys)
      ensures forall k :: k in accounts && k != id ==> accounts[k] == old(accounts)[k]
      ensures id in accounts ==>
                && accounts[id].row.profile == old(accounts)[id].row.profile
                && accounts[id].row.version == old(accounts)[id].row.version
                && accounts[id].row.lastLoginAt == Some(at) && accounts[id].row.updatedAt == now
    {
      if id in accounts {
        var a := accounts[id];
        accounts := accounts[id := a.(row := a.row.(lastLoginAt := Some(at), updatedAt := now),
                                      touches := a.touches + [at])];
      }
    }
  }
}
