/** The user aggregate: its snapshot, its mutators, and which of them open a new token epoch. */
module UserEntity {
  import opened Common

  type UserId = string

  datatype UserStatus = INVITED | ACTIVE | SUSPENDED

  /** A stored hash: `secret` is the password it verifies, `cost` the parameters it was made with. */
  datatype PasswordHash = PasswordHash(secret: string, cost: nat)

  predicate Verify(hash: PasswordHash, plaintext: string) {
    hash.secret == plaintext
  }

  /** The part of an account its owner and its administrators change: the columns `save` writes. */
  datatype Profile = Profile(
    email: string,
    passwordHash: Option<PasswordHash>,
    firstName: Option<string>,
    lastName: Option<string>,
    status: UserStatus,
    isPlatformAdmin: bool,
    tokenVersion: nat,
    deletedAt: Option<int>)

  datatype UserSnapshot = UserSnapshot(
    id: UserId,
    profile: Profile,
    lastLoginAt: Option<int>,
    registrarUserId: Option<UserId>,
    version: nat,
    createdAt: int,
    updatedAt: int)

  datatype AuthError = AccountNotActive | PasswordNotSet

  /** The gate of `assertCanAuthenticate`: the error it throws, or None when it returns. */
  function AuthenticationError(p: Profile): Option<AuthError> {
    if p.deletedAt.Some? || p.status == SUSPENDED then Some(AccountNotActive)
    else if p.status == INVITED || p.passwordHash.None? then Some(PasswordNotSet)
    else None
  }

  predicate CanAuthenticate(p: Profile) {
    AuthenticationError(p).None?
  }

  datatype Mutation =
    | Rename(firstName: Option<string>, lastName: Option<string>)
    | ChangeEmail(email: string)
    | SetPasswordHash(hash: PasswordHash)
    | UpgradePasswordHash(newHash: PasswordHash)
    | Activate
    | Suspend
    | GrantPlatformAdmin
    | RevokePlatformAdmin
    | RecordSuccessfulLogin
    | SoftDelete
    | InvalidateSessions

  /** One mutator call and the clock value it was given. */
  datatype Edit = Edit(mutation: Mutation, at: int)

  /** The mutators that return early: the account already is what they would make it. */
  predicate NothingToDo(p: Profile, m: Mutation) {
    match m
    case ChangeEmail(email) => p.email == email
    case Activate => p.status == ACTIVE
    case Suspend => p.status == SUSPENDED
    case GrantPlatformAdmin => p.isPlatformAdmin
    case RevokePlatformAdmin => !p.isPlatformAdmin
    case SoftDelete => p.deletedAt.Some?
    case RecordSuccessfulLogin => true
    case _ => false
  }

  /** Soft delete frees the real address by moving the row to a reserved one. */
  function ErasedAddress(id: UserId): string {
    id + "@deleted.invalid"
  }

  function Bump(p: Profile): Profile {
    p.(tokenVersion := p.tokenVersion + 1)
  }

  function Edited(id: UserId, p: Profile, e: Edit): Profile {
    if NothingToDo(p, e.mutation) then p
    else match e.mutation
      case Rename(f, l) => p.(firstName := f, lastName := l)
      case ChangeEmail(email) => Bump(p.(email := email))
      case SetPasswordHash(h) =>
        Bump(p.(passwordHash := Some(h), status := if p.status == INVITED then ACTIVE else p.status))
      case UpgradePasswordHash(h) => p.(passwordHash := Some(h))
      case Activate => p.(status := ACTIVE)
      case Suspend => Bump(p.(status := SUSPENDED))
      case GrantPlatformAdmin => Bump(p.(isPlatformAdmin := true))
      case RevokePlatformAdmin => Bump(p.(isPlatformAdmin := false))
      case RecordSuccessfulLogin => p
      case SoftDelete =>
        Bump(Profile(ErasedAddress(id), None, None, None, SUSPENDED, p.isPlatformAdmin, p.tokenVersion, Some(e.at)))
      case InvalidateSessions => Bump(p)
  }

  function Apply(u: UserSnapshot, e: Edit): UserSnapshot {
    if e.mutation.RecordSuccessfulLogin? then u.(lastLoginAt := Some(e.at))
    else if NothingToDo(u.profile, e.mutation) then u
    else u.(profile := Edited(u.id, u.profile, e), updatedAt := e.at)
  }

  function ApplyAll(u: UserSnapshot, es: seq<Edit>): UserSnapshot
    decreases |es|
  {
    if es == [] then u else ApplyAll(Apply(u, es[0]), es[1..])
  }

  lemma ApplyOne(u: UserSnapshot, e: Edit)
    ensures ApplyAll(u, [e]) == Apply(u, e)
  {
    assert [e][1..] == [];
    assert ApplyAll(Apply(u, e), []) == Apply(u, e);
  }

  function EditAll(id: UserId, p: Profile, es: seq<Edit>): Profile
    decreases |es|
  {
    if es == [] then p else EditAll(id, Edited(id, p, es[0]), es[1..])
  }

  function SecretOf(p: Profile): Option<string> {
    if p.passwordHash.Some? then Some(p.passwordHash.value.secret) else None
  }

  /** Re-hashing must keep the password: the contract `upgradePasswordHash` documents for its caller. */
  predicate KeepsSecret(p: Profile, e: Edit) {
    e.mutation.UpgradePasswordHash? ==> SecretOf(p) == Some(e.mutation.newHash.secret)
  }

  predicate KeepSecrets(id: UserId, p: Profile, es: seq<Edit>)
    decreases |es|
  {
    es == [] || (KeepsSecret(p, es[0]) && KeepSecrets(id, Edited(id, p, es[0]), es[1..]))
  }

  /** What a token epoch fixes: within one `tokenVersion`, identity, password and privilege stand still. */
  ghost predicate SameIdentity(p: Profile, q: Profile) {
    && p.email == q.email
    && p.isPlatformAdmin == q.isPlatformAdmin
    && p.deletedAt == q.deletedAt
    && SecretOf(p) == SecretOf(q)
    && (p.status == ACTIVE ==> q.status == ACTIVE)
  }

  /** `q` is a later state of the account that once was `p`. */
  ghost predicate Later(p: Profile, q: Profile) {
    && p.tokenVersion <= q.tokenVersion
    && (p.deletedAt.Some? ==> p.deletedAt == q.deletedAt)
    && (p.tokenVersion == q.tokenVersion ==> SameIdentity(p, q))
  }

  lemma EditMovesForward(id: UserId, p: Profile, e: Edit)
    requires KeepsSecret(p, e)
    ensures Later(p, Edited(id, p, e))
  {
  }

  /** The changes that must end every session: those of address, password, privilege, or access itself. */
  predicate OpensEpoch(m: Mutation) {
    m.ChangeEmail? || m.SetPasswordHash? || m.Suspend? || m.GrantPlatformAdmin? || m.RevokePlatformAdmin?
    || m.SoftDelete? || m.InvalidateSessions?
  }

  /** Exactly those move the epoch, by one, and only when they change anything. */
  lemma EpochRule(id: UserId, p: Profile, e: Edit)
    ensures Edited(id, p, e).tokenVersion == p.tokenVersion + (if OpensEpoch(e.mutation)
            && !NothingToDo(p, e.mutation) then 1 else 0)
  {
  }

  /** Deletion is final: no series of edits whatever lets the account in again. */
  lemma {:induction false} DeletionIsFinal(id: UserId, p: Profile, at: int, es: seq<Edit>)
    ensures var q := EditAll(id, Edited(id, p, Edit(SoftDelete, at)), es);
            q.deletedAt.Some? && !CanAuthenticate(q)
  {
    StaysDeleted(id, Edited(id, p, Edit(SoftDelete, at)), es);
  }

  lemma {:induction false} StaysDeleted(id: UserId, p: Profile, es: seq<Edit>)
    requires p.deletedAt.Some?
    ensures EditAll(id, p, es).deletedAt == p.deletedAt
    decreases |es|
  {
    if es != [] { StaysDeleted(id, Edited(id, p, es[0]), es[1..]); }
  }

  lemma {:induction false} EditsMoveForward(id: UserId, p: Profile, es: seq<Edit>)
    requires KeepSecrets(id, p, es)
    ensures Later(p, EditAll(id, p, es))
    decreases |es|
  {
    if es != [] {
      EditMovesForward(id, p, es[0]);
      EditsMoveForward(id, Edited(id, p, es[0]), es[1..]);
    }
  }

  /** The aggregate's profile after a series of mutator calls does not depend on its telemetry. */
  lemma {:induction false} ApplyAllEditsProfile(u: UserSnapshot, es: seq<Edit>)
    ensures ApplyAll(u, es).profile == EditAll(u.id, u.profile, es)
    ensures ApplyAll(u, es).id == u.id && ApplyAll(u, es).version == u.version
    ensures ApplyAll(u, es).createdAt == u.createdAt
    decreases |es|
  {
    if es != [] {
      ApplyAllEditsProfile(Apply(u, es[0]), es[1..]);
    }
  }

  /** The gate lets through exactly the active, undeleted accounts with a password. */
  lemma GateMeaning(p: Profile)
    ensures CanAuthenticate(p) <==> p.deletedAt.None? && p.status == ACTIVE && p.passwordHash.Some?
  {
  }

  // ----- Names -----

  /** What `String.prototype.trim` removes (sections 12.2 and 12.3 of ECMA-262). */
  predicate IsSpace(c: char) {
    '\t' <= c <= '\r' || c == ' ' || c == '\U{00A0}' || c == '\U{1680}' || '\U{2000}' <= c <= '\U{200A}'
    || c == '\U{2028}' || c == '\U{2029}' || c == '\U{202F}' || c == '\U{205F}' || c == '\U{3000}' || c == '\U{FEFF}'
  }

  function TrimStart(s: string): (r: string)
    ensures r == [] || !IsSpace(r[0])
    ensures |r| <= |s| && r == s[|s| - |r|..]
  {
    if s != [] && IsSpace(s[0]) then TrimStart(s[1..]) else s
  }

  function TrimEnd(s: string): (r: string)
    ensures r == [] || !IsSpace(r[|r| - 1])
    ensures r <= s
  {
    if s != [] && IsSpace(s[|s| - 1]) then TrimEnd(s[..|s| - 1]) else s
  }

  /** `name?.trim() || null`. */
  function Normalised(name: Option<string>): (r: Option<string>)
    ensures r.Some? ==> r.value != [] && !IsSpace(r.value[0]) && !IsSpace(r.value[|r.value| - 1])
  {
    if name.None? then None
    else
      var trimmed := TrimEnd(TrimStart(name.value));
      if trimmed == [] then None else Some(trimmed)
  }

  lemma {:induction false} OnlySpace(s: string)
    ensures TrimStart(s) == [] <==> forall i :: 0 <= i < |s| ==> IsSpace(s[i])
  {
    if s != [] && IsSpace(s[0]) {
      OnlySpace(s[1..]);
      assert forall i :: 0 < i < |s| ==> s[i] == s[1..][i - 1];
    }
  }

  /** A stored name is blank for nobody: it is missing exactly when there was nothing in it but white space. */
  lemma NamesAreNotBlank(name: Option<string>)
    ensures Normalised(name).None? <==> name.None? || forall i :: 0 <= i < |name.value| ==> IsSpace(name.value[i])
    ensures Normalised(Normalised(name)) == Normalised(name)
  {
    if name.Some? {
      var t := TrimStart(name.value);
      OnlySpace(name.value);
      if t != [] { TrimEndKeepsHead(t); }
    }
  }

  lemma {:induction false} TrimEndKeepsHead(s: string)
    requires s != [] && !IsSpace(s[0])
    ensures TrimEnd(s) != []
    decreases |s|
  {
    if IsSpace(s[|s| - 1]) { TrimEndKeepsHead(s[..|s| - 1]); }
  }

  /** The aggregate root as the source has it: private fields, changed only through these methods. */
  class User {
    const id: UserId
    const registrarUserId: Option<UserId>
    const version: nat
    const createdAt: int
    var email: string
    var passwordHash: Option<PasswordHash>
    var firstName: Option<string>
    var lastName: Option<string>
    var status: UserStatus
    var isPlatformAdmin: bool
    var tokenVersion: nat
    var lastLoginAt: Option<int>
    var updatedAt: int
    var deletedAt: Option<int>

    function ToSnapshot(): UserSnapshot
      reads this
    {
      UserSnapshot(id, Profile(email, passwordHash, firstName, lastName, status, isPlatformAdmin, tokenVersion,
                               deletedAt),
                   lastLoginAt, registrarUserId, version, createdAt, updatedAt)
    }

    constructor FromSnapshot(s: UserSnapshot)
      ensures ToSnapshot() == s
    {
      id, registrarUserId, version, createdAt := s.id, s.registrarUserId, s.version, s.createdAt;
      lastLoginAt, updatedAt := s.lastLoginAt, s.updatedAt;
      var p := s.profile;
      email, passwordHash, firstName, lastName := p.email, p.passwordHash, p.firstName, p.lastName;
      status, isPlatformAdmin, tokenVersion, deletedAt := p.status, p.isPlatformAdmin, p.tokenVersion, p.deletedAt;
    }

    method AssertCanAuthenticate() returns (error: Option<AuthError>)
      ensures error == AuthenticationError(ToSnapshot().profile)
      ensures error.None? <==> deletedAt.None? && status == ACTIVE && passwordHash.Some?
      ensures error == Some(AccountNotActive) <==> deletedAt.Some? || status == SUSPENDED
    {
      if deletedAt.Some? || status == SUSPENDED {
        return Some(AccountNotActive);
      }
      if status == INVITED || passwordHash.None? {
        return Some(PasswordNotSet);
      }
      return None;
    }

    method Rename(first: Option<string>, last: Option<string>, now: int)
      modifies this
      ensures ToSnapshot() == Apply(old(ToSnapshot()), Edit(Mutation.Rename(Normalised(first), Normalised(last)), now))
      ensures firstName == Normalised(first) && lastName == Normalised(last) && updatedAt == now
      ensures tokenVersion == old(tokenVersion) && email == old(email) && status == old(status)
    {
      hide Normalised;
      firstName, lastName := Normalised(first), Normalised(last);
      Touch(now);
    }

    method ChangeEmail(address: string, now: int)
      modifies this
      ensures ToSnapshot() == Apply(old(ToSnapshot()), Edit(Mutation.ChangeEmail(address), now))
      ensures email == address && status == old(status) && passwordHash == old(passwordHash)
      ensures tokenVersion == old(tokenVersion) + (if old(email) == address then 0 else 1)
      ensures updatedAt == if old(email) == address then old(updatedAt) else now
    {
      if email == address { return; }
      email := address;
      RevokeIssuedTokens();
      Touch(now);
    }

    method SetPasswordHash(hash: PasswordHash, now: int)
      modifies this
      ensures ToSnapshot() == Apply(old(ToSnapshot()), Edit(Mutation.SetPasswordHash(hash), now))
      ensures passwordHash == Some(hash) && tokenVersion == old(tokenVersion) + 1 && updatedAt == now
      ensures status == (if old(status) == INVITED then ACTIVE else old(status)) && email == old(email)
    {
      passwordHash := Some(hash);
      if status == INVITED { status := ACTIVE; }
      RevokeIssuedTokens();
      Touch(now);
    }

    method UpgradePasswordHash(hash: PasswordHash, now: int)
      modifies this
      ensures ToSnapshot() == Apply(old(ToSnapshot()), Edit(Mutation.UpgradePasswordHash(hash), now))
      ensures passwordHash == Some(hash) && tokenVersion == old(tokenVersion) && updatedAt == now
      ensures status == old(status) && email == old(email)
    {
      passwordHash := Some(hash);
      Touch(now);
    }

    method Activate(now: int)
      modifies this
      ensures ToSnapshot() == Apply(old(ToSnapshot()), Edit(Mutation.Activate, now))
      ensures status == ACTIVE && tokenVersion == old(tokenVersion)
      ensures updatedAt == if old(status) == ACTIVE then old(updatedAt) else now
    {
      if status == ACTIVE { return; }
      status := ACTIVE;
      Touch(now);
    }

    method Suspend(now: int)
      modifies this
      ensures ToSnapshot() == Apply(old(ToSnapshot()), Edit(Mutation.Suspend, now))
      ensures status == SUSPENDED
      ensures tokenVersion == old(tokenVersion) + (if old(status) == SUSPENDED then 0 else 1)
    {
      if status == SUSPENDED { return; }
      status := SUSPENDED;
      RevokeIssuedTokens();
      Touch(now);
    }

    method GrantPlatformAdmin(now: int)
      modifies this
      ensures ToSnapshot() == Apply(old(ToSnapshot()), Edit(Mutation.GrantPlatformAdmin, now))
      ensures isPlatformAdmin && tokenVersion == old(tokenVersion) + (if old(isPlatformAdmin) then 0 else 1)
    {
      if isPlatformAdmin { return; }
      isPlatformAdmin := true;
      RevokeIssuedTokens();
      Touch(now);
    }

    method RevokePlatformAdmin(now: int)
      modifies this
      ensures ToSnapshot() == Apply(old(ToSnapshot()), Edit(Mutation.RevokePlatformAdmin, now))
      ensures !isPlatformAdmin && tokenVersion == old(tokenVersion) + (if old(isPlatformAdmin) then 1 else 0)
    {
      if !isPlatformAdmin { return; }
      isPlatformAdmin := false;
      RevokeIssuedTokens();
      Touch(now);
    }

    method RecordSuccessfulLogin(now: int)
      modifies this
      ensures ToSnapshot() == Apply(old(ToSnapshot()), Edit(Mutation.RecordSuccessfulLogin, now))
      ensures lastLoginAt == Some(now) && updatedAt == old(updatedAt) && tokenVersion == old(tokenVersion)
    {
      lastLoginAt := Some(now);
    }

    method SoftDelete(now: int)
      modifies this
      ensures ToSnapshot() == Apply(old(ToSnapshot()), Edit(Mutation.SoftDelete, now))
      ensures if old(deletedAt).Some? then ToSnapshot() == old(ToSnapshot())
              else && deletedAt == Some(now) && status == SUSPENDED && email == id + "@deleted.invalid"
                   && passwordHash.None? && firstName.None? && lastName.None?
                   && tokenVersion == old(tokenVersion) + 1 && updatedAt == now
    {
      assert ErasedAddress(id) == id + "@deleted.invalid";
      hide ErasedAddress;
      if deletedAt.Some? { return; }
      deletedAt := Some(now);
      status := SUSPENDED;
      email := ErasedAddress(id);
      passwordHash, firstName, lastName := None, None, None;
      RevokeIssuedTokens();
      Touch(now);
    }

    method InvalidateSessions(now: int)
      modifies this
      ensures ToSnapshot() == Apply(old(ToSnapshot()), Edit(Mutation.InvalidateSessions, now))
      ensures tokenVersion == old(tokenVersion) + 1 && updatedAt == now && status == old(status)
    {
      RevokeIssuedTokens();
      Touch(now);
    }

    method RevokeIssuedTokens()
      modifies this`tokenVersion
      ensures tokenVersion == old(tokenVersion) + 1
    {
      tokenVersion := tokenVersion + 1;
    }

    method Touch(now: int)
      modifies this`updatedAt
      ensures updatedAt == now
    {
      updatedAt := now;
    }
  }
}
