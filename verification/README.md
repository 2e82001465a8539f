# Sessions, listings, limits and workspaces: a verified model

A Dafny model of the parts of the service whose correctness does not show in any one function body, and proofs
of what they are for. `dafny verify dfyconfig.toml` checks all of it.

## What is modelled

**Sessions.** `Session` is the login, refresh, logout, logout-all and password-change protocol as a transition
system. One event is one SQL statement, one Redis command, one signature or one tick of the clock; requests hold
what they loaded, so every snapshot may be stale when it is used, and no transaction wraps the rotation.
`UserEntity`, `UserRepository`, `RefreshTokens` and `AccessTokens` are the aggregate, the two tables, the denylist
and the acceptance predicate. `SessionEffects` sorts the steps by what they do to rows and
requests, `SessionInvariant` and `FamilyInvariant` hold what every step keeps, and `SessionTheorems`,
`FamilyTheorems`, `SessionEnd` and `AccountEnd` what follows for whole runs: for tokens, for one session, for one
account. `TokenRotation`, `SignIn`, `SignOut`, `PasswordChange`, `AccessValidation` and `AuthController` are the use
cases and the guard as imperative code over the stores. Each of their awaits first
lets any run of other requests happen (`Backend.Await`), and their contracts say which path of the protocol they
took, so every theorem about runs applies to them.

**Listings.** `KeysetOrder` and `Pagination` are the ordered queries, the two-arm seek condition, the `limit + 1`
probe and the page arithmetic; `Base64Url`, `IsoDate` and `CursorCodec` are the cursor down to its characters.

**Limits.** `Throttler` is the Lua script as a timed machine over a counter and a block marker.

**Single flight.** `SingleFlight` is `getOrSet` over all interleavings of its callbacks.

**Slugs.** `Slug` is `slugify` against an independent reading of what it should compute.

**Workspaces.** `WorkspaceStore` holds the tables with the schema's constraints, `WorkspaceRepositories` the
repositories statement by statement, `WorkspaceService` the service with its checks and writes apart,
`FolderRenames` two folder renames at a time under read committed, and `ResourceCounts` the two count endpoints.

## Where the code does less than its comments say

- "The whole family is destroyed" on reuse, and the same for logout, logout-all and a password change: only if no
  refresh of the family is in flight between its compare-and-swap and its insert. `SessionEnd.RevocationEndsSession`
  gives the exact condition and `SessionEnd.RevocationCanMiss` shows that the gap can be reached.
- "Signs every session out" of logout-all and a password change: a login past its password check is missed too, since
  it opens a family of its own later. `AccountEnd.AccountRevocationIsFinal` gives the exact condition for the account,
  `AccountEnd.RevocationLocksOut` for rows and access tokens together, and `AccountEnd.AccountRevocationCanMiss` and
  `AccountEnd.LoginSurvivesRevocation` show that this gap can be reached.
- A validation that checks the signature just before a token expires and the denylist just after accepts a
  denylisted token (`SessionTheorems.SlowValidationAccepts`); nothing else escapes
  (`SessionTheorems.SpreadValidationRejects`).
- "One default folder" is lost by two renames that both begin to clear before either has committed, unless one of
  them is of the old default; `FolderRenames.OverlappingRenames` has every schedule, `FolderRenames.RaceIsReachable` a
  bad one.
- Creating a workflow under a taken name is meant to answer "slug taken". `prisma/schema.prisma:120` has the unique
  index over the name, under which the answer is an infrastructure failure; the migration
  `20260807194244_add_workflow_resources` (line 303) has it over the slug, under which a taken slug is answered as
  meant and a taken name is no conflict. The model has either (`WorkspaceService.WorkflowRefusals`).
- Updating a variable hands the new value on as `metadata`, and no value is ever written
  (`WorkspaceService.VariableValuesNeverChange`).
- Derived workspace slugs are capped at 150 for a column of 100 (`Slug.DerivedSlugFits`).
- The rate limit is `2 * limit - 1` in the worst sliding interval, not `limit` (`Throttler.SlidingBoundIsTight`).
- `prisma/schema.prisma` declares the reference from a workflow to its version as `NoAction` on delete, the migration
  as `SET NULL`. The model takes the schema's reading; `WorkspaceService.NobodyElsePoints` shows that the two
  never differ in a reachable state.
- The migrations trail the schema elsewhere too: they give folders neither a slug nor a default flag, and index the
  names of variables and connections per workspace. There the model takes the schema, which the code is written for.

## Model

| member | source | states |
|---|---|---|
| `SessionTheorems.EpochInvariant` | src/domain/user/user.entity.ts:207-322 | In every reachable state each issued access token has `tv` at most the account's epoch; while they are equal the account is active and undeleted, has exactly the privilege in `adm`, and the address and password it had when the token was signed, however stale the snapshot it was signed from |
| `SessionTheorems.AcceptanceMeaning` | src/modules/auth/strategies/jwt.strategy.ts:58-84 | In a reachable state a token passes exactly when it is unexpired, not denylisted and in its account's epoch; the other checks follow |
| `SessionTheorems.RejectionIsPermanent` | src/modules/auth/strategies/jwt.strategy.ts:58-84 | Once `validate` would reject a token, for whatever reason, no continuation of the system accepts it again |
| `SessionTheorems.SpreadValidationRejects` | src/modules/auth/strategies/jwt.strategy.ts:58-84 | The same when the signature check, the denylist look-up and the account read happen at three moments of a run, up to one stated exception |
| `SessionTheorems.SlowValidationAccepts` | src/modules/auth/strategies/jwt.strategy.ts:58-66 | The exception is real: a denylisted token gets through a validation that straddles its expiry |
| `AccessValidation.JwtStrategy.Validate` | src/modules/auth/strategies/jwt.strategy.ts:58-103 | Statement by statement, with anything in between: a token to be rejected when validation began is rejected, but for the stated exception; the principal names the very token that was accepted, with its expiry, and has the privilege the account has at the end; an unreachable denylist rejects |
| `AuthController.AuthController.Logout` | src/modules/auth/auth.controller.ts:133-149 | Guard and use case in a row: with Redis there to take the entry, the token that signed out is not accepted when the answer goes out, nor in any continuation |
| `SessionTheorems.DeniedForGood` | src/application/auth/logout.usecase.ts:89-99 | After the denylist write of a logout its access token is rejected in every continuation |
| `AccessTokens.Validate` | src/modules/auth/strategies/jwt.strategy.ts:58-103 | Accepts exactly well-formed, undenied tokens in the current epoch of an active, undeleted account, and each refusal has its own cause; the principal has the token's id and expiry and the account's id and privilege |
| `AccessTokens.AccessLifetime` | src/infrastructure/security/jwt-token.service.ts:28-48 | No access token outlives its configured lifetime, none falls a whole second short of it, and it is dated to the second of its issue |
| `AccessTokens.DenyOutlivesToken` | src/infrastructure/security/token-denylist.service.ts:36-48 | A TTL rounded up to whole seconds never lets an entry lapse before the token, and nothing is written exactly when the token has expired |
| `AccessTokens.TokenDenylistService.TtlFor` | src/infrastructure/security/token-denylist.service.ts:36-39 | The fewest whole seconds that outlast the token, or none, exactly by whether it is still unexpired |
| `AccessTokens.TokenDenylistService.Write` | src/infrastructure/security/token-denylist.service.ts:41-42 | `SET … EX`: the entry expires that many seconds after the write, other entries untouched |
| `AccessTokens.TokenDenylistService.Has` | src/infrastructure/security/token-denylist.service.ts:50-57 | Answers whether the entry is there, and "revoked" whenever Redis does not answer |
| `AccessTokens.ExpiryInMilliseconds` | src/infrastructure/security/jwt-token.service.ts:21-48 | The whole-second expiry check of the signature verifier, said in milliseconds |
| `SessionTheorems.RaisedEpochEndsOldTokens` | src/domain/user/user.entity.ts:307-322 | Whatever step raises an account's epoch, tokens signed from loads made before it, even ones signed only later, are never accepted again |
| `SessionTheorems.ChangePasswordEndsOldTokens` | src/application/users/update-user.usecase.ts:89-91 | That holds from the save of `changePassword`, under every interleaving with refreshes and re-hashing logins |
| `SessionTheorems.ChangeRaisesEpoch` | src/application/users/update-user.usecase.ts:89-91 | A password change that is saved moves the account to the next epoch although it edits a possibly stale load |
| `SessionTheorems.LogoutAllEndsOldTokens` | src/application/auth/logout.usecase.ts:75-83 | The same from the save of sign-out-everywhere |
| `SessionTheorems.ReachableInv` | src/application/auth/refresh-tokens.usecase.ts:37-48 | Every interleaving of the modelled requests from an empty system stays within the invariant the theorems assume |
| `SessionTheorems.StepKeepsInv` | src/application/auth/refresh-tokens.usecase.ts:63-118 | Each single step of any request keeps that invariant, and only moves accounts, tokens and clock forward |
| `UserEntity.EpochRule` | src/domain/user/user.entity.ts:207-322 | Exactly the seven mutators the documentation lists bump `tokenVersion`, by one, and only when they change something |
| `UserEntity.EditsMoveForward` | src/domain/user/user.entity.ts:207-322 | Over any series of mutators the epoch never goes back, deletion is kept, and within one epoch address, password, privilege and activity stand still |
| `UserEntity.DeletionIsFinal` | src/domain/user/user.entity.ts:295-305 | After soft delete no series of mutators lets the account authenticate again |
| `UserEntity.GateMeaning` | src/domain/user/user.entity.ts:198-205 | The gate lets through exactly active, undeleted accounts with a password |
| `UserEntity.User.AssertCanAuthenticate` | src/domain/user/user.entity.ts:198-205 | Returns the error of the gate, none exactly for accounts that may sign in, "not active" exactly for deleted and suspended ones |
| `UserEntity.User.ChangeEmail` | src/domain/user/user.entity.ts:217-224 | The new address, a new epoch and a new date, unless it is the address already; the aggregate afterwards is the specification's edit of the aggregate before |
| `UserEntity.User.SetPasswordHash` | src/domain/user/user.entity.ts:232-237 | The new hash and a new epoch; an invitation is completed; the aggregate afterwards is the specification's edit of the aggregate before |
| `UserEntity.User.UpgradePasswordHash` | src/domain/user/user.entity.ts:247-250 | The new hash; the epoch and everything else stay; the aggregate afterwards is the specification's edit of the aggregate before |
| `UserEntity.User.Activate` | src/domain/user/user.entity.ts:252-256 | Active, in the same epoch; nothing for an active account; the aggregate afterwards is the specification's edit of the aggregate before |
| `UserEntity.User.Suspend` | src/domain/user/user.entity.ts:258-265 | Suspended, in a new epoch unless it was already; the aggregate afterwards is the specification's edit of the aggregate before |
| `UserEntity.User.GrantPlatformAdmin` | src/domain/user/user.entity.ts:267-274 | Admin, in a new epoch unless it was already; the aggregate afterwards is the specification's edit of the aggregate before |
| `UserEntity.User.RevokePlatformAdmin` | src/domain/user/user.entity.ts:276-281 | No admin, in a new epoch if it was one; the aggregate afterwards is the specification's edit of the aggregate before |
| `UserEntity.User.RecordSuccessfulLogin` | src/domain/user/user.entity.ts:283-288 | The login time and nothing else; the aggregate afterwards is the specification's edit of the aggregate before |
| `UserEntity.User.SoftDelete` | src/domain/user/user.entity.ts:295-305 | Personal data gone, the address freed, suspended and in a new epoch; nothing the second time; the aggregate afterwards is the specification's edit of the aggregate before |
| `UserEntity.User.InvalidateSessions` | src/domain/user/user.entity.ts:314-317 | A new epoch and a new date; the aggregate afterwards is the specification's edit of the aggregate before |
| `UserEntity.User.Rename` | src/domain/user/user.entity.ts:211-215 | The names trimmed, null when nothing is left, each in its own field; the aggregate afterwards is the specification's edit of the aggregate before |
| `UserEntity.NamesAreNotBlank` | src/domain/user/user.entity.ts:211-215 | A stored name is null exactly when there was only white space in it, and storing it again changes nothing |
| `UserEntity.User.FromSnapshot` | src/domain/user/user.entity.ts:97-133 | Restoring an aggregate and taking its snapshot is the identity, over every column |
| `SessionTheorems.AccountsAreSerial` | src/infrastructure/database/repositories/prisma-user.repository.ts:225-290 | After any run the row is the fold, in save order, of the edits of the successful saves, `version` counts them, and the last recorded login time is in place |
| `UserRepository.RowIsFoldOfSaves` | src/infrastructure/database/repositories/prisma-user.repository.ts:225-290 | Serialisability of one account, from the table invariant |
| `UserRepository.SaveKeepsSerial` | src/infrastructure/database/repositories/prisma-user.repository.ts:225-270 | A save from a load of any age goes through exactly when the version is current and the address free, and then appends to a serial history |
| `UserRepository.TouchCommutesWithSave` | src/infrastructure/database/repositories/prisma-user.repository.ts:213-290 | `touchLastLogin` and `save` commute in every column but `updatedAt`, succeed alike, and neither rolls the other back |
| `UserRepository.TouchKeepsSerial` | src/infrastructure/database/repositories/prisma-user.repository.ts:284-290 | Login telemetry leaves version and history alone |
| `UserRepository.CreateKeepsSerial` | src/infrastructure/database/repositories/prisma-user.repository.ts:182-211 | A created account starts a history of its own |
| `UserRepository.HistoryMovesForward` | src/infrastructure/database/repositories/prisma-user.repository.ts:225-270 | Any earlier state of a row relates to any later one as an account to its future |
| `UserRepository.LoadedIsEarlier` | src/infrastructure/database/repositories/prisma-user.repository.ts:54-62 | A loaded snapshot, however stale, is a past state of the row as it now stands |
| `UserRepository.PrismaUserRepository.FindById` | src/infrastructure/database/repositories/prisma-user.repository.ts:54-62 | The row as an aggregate; nothing for missing or deleted accounts |
| `UserRepository.PrismaUserRepository.FindByEmail` | src/infrastructure/database/repositories/prisma-user.repository.ts:64-72 | The one undeleted account with that address, or nobody |
| `UserRepository.PrismaUserRepository.FindAuthSnapshot` | src/infrastructure/database/repositories/prisma-user.repository.ts:155-176 | The row, deleted or not |
| `UserRepository.PrismaUserRepository.Create` | src/infrastructure/database/repositories/prisma-user.repository.ts:182-211 | Inserts exactly when id and address are free, or reports the address as taken and changes nothing |
| `UserRepository.PrismaUserRepository.Save` | src/infrastructure/database/repositories/prisma-user.repository.ts:225-270 | The versioned write: what the entity owns and one version on, login time and creation and all other rows untouched; each of the three errors for its own cause |
| `UserRepository.PrismaUserRepository.TouchLastLogin` | src/infrastructure/database/repositories/prisma-user.repository.ts:284-290 | Writes the login time outside the lock and no other column of any row; silent when the account is gone |
| `FamilyTheorems.OneSessionPerFamily` | src/application/auth/refresh-tokens.usecase.ts:63-118 | In every reachable state the live rows of a family and the refreshes that have consumed a token of it but not yet created the successor number at most one together |
| `FamilyTheorems.SecondPresenterLoses` | src/infrastructure/database/repositories/prisma-refresh-token.repository.ts:57-71 | After one request has won a token every other that presents it loses, however long ago it read the row |
| `FamilyTheorems.TokenRotatesOnce` | src/application/auth/refresh-tokens.usecase.ts:80-85 | No token is rotated twice, within a family or across families |
| `FamilyTheorems.ChainConservation` | src/application/auth/refresh-tokens.usecase.ts:82-114 | Rows created = 1 + rotations won - in flight - abandoned; the i-th rotation spent the i-th token, and no token repeats |
| `SessionEffects.StepDoes` | src/application/auth/refresh-tokens.usecase.ts:63-149 | Every step of every request does one of eight things to rows and requests: claims change hands only by winning, storing and dropping |
| `FamilyInvariant.NextKeepsFamilies` | src/application/auth/refresh-tokens.usecase.ts:63-149 | Every step keeps each family one linear chain with at most one live end or one claim on it |
| `FamilyTheorems.RevokedStaysRevoked` | src/domain/auth/refresh-token.entity.ts:127-133 | A revoked row keeps its first reason and instant for ever, and a swept one never returns |
| `SessionEnd.SessionIsOver` | src/application/auth/refresh-tokens.usecase.ts:120-149 | A family has no live row in any continuation exactly when it has none now and every refresh holding it is stuck before a deleted account |
| `SessionEnd.RevocationEndsSession` | src/application/auth/refresh-tokens.usecase.ts:120-149 | Reuse detection, logout, logout-all and a password change end an existing session for good exactly when no refresh of it is in flight past its compare-and-swap with its account still there |
| `SessionEnd.RevocationIsPrecise` | src/infrastructure/database/repositories/prisma-refresh-token.repository.ts:82-96 | A revoking step stamps exactly the live rows of its session or its account, with its own reason, and leaves every other row as it was |
| `SessionEnd.OtherSessionsLive` | src/application/auth/logout.usecase.ts:48-60 | Logout and reuse detection leave every other session as it was, those of the same account included |
| `AccountEnd.OtherAccountsLive` | src/application/auth/logout.usecase.ts:75-77 | Logout-all and a password change leave every other account's sessions as they were |
| `SessionEnd.RevocationCanMiss` | src/application/auth/refresh-tokens.usecase.ts:82-114 | From every state in which some account can sign in, whether or not its hash needs upgrading, a run leads to a point at which no revocation of any kind ends that session |
| `AccountEnd.LoginSurvivesRevocation` | src/application/auth/login.usecase.ts:94-112 | The shortest instance of the account-wide gap: a login that has signed its tokens opens a live family in one statement after a revocation of every row; `AccountEnd.AccountRevocationIsFinal` has the exact condition |
| `SessionEnd.AccountRevocationEndsRows` | src/application/users/update-user.usecase.ts:93-95 | Rows that exist when a password change or logout-all revokes them are unusable in every continuation |
| `SessionEnd.BothPresent` | src/application/auth/refresh-tokens.usecase.ts:63-85 | Two requests can come to present the same usable token, so the bound of one winner is about runs that exist |
| `SessionEnd.ChangeTakesEffect` | src/application/users/update-user.usecase.ts:63-98 | From every state in which an account can sign in, whether or not its hash needs upgrading, a run leads to an accepted token that the save of a password change ends for good |
| `SessionEnd.DeadStays` | src/infrastructure/database/repositories/prisma-refresh-token.repository.ts:82-114 | A dead family stays dead, sweeps included |
| `AccountEnd.AccountRevocationIsFinal` | src/application/auth/logout.usecase.ts:75-83 | Logout-all and a password change leave the account without a live row in every continuation without a new password check exactly when no login past its check (signed, ready, or verified and able to get through its re-hash) and no refresh past its compare-and-swap (its account still there) is in flight |
| `AccountEnd.AccountIsSignedOut` | src/application/auth/login.usecase.ts:88-112 | The same for any state: such continuations never show a live row of the account exactly when there is none now and nothing in flight can store one |
| `AccountEnd.AccountRevocationCanMiss` | src/application/auth/login.usecase.ts:94-112 | From every state in which an account can sign in, a run leads to a point at which no revocation of all its rows signs it out |
| `AccountEnd.RevocationLocksOut` | src/application/auth/logout.usecase.ts:67-87 | Rows and access tokens together: revoking all rows locks everybody out, until a new password check, exactly when nothing in flight can store a row and no token of the account is accepted at that moment |
| `AccountEnd.PasswordChangeLocksOut` | src/application/users/update-user.usecase.ts:63-98 | From its save to its revocation, a password change locks everybody out exactly when, at the revocation, nothing in flight can store a row and no token signed from a load after the save is accepted |
| `RefreshTokens.TokenLifetime` | src/domain/auth/refresh-token.entity.ts:51-75 | An issued token is usable for exactly its lifetime, and never once revoked |
| `RefreshTokens.RefreshToken.Issue` | src/domain/auth/refresh-token.entity.ts:51-75 | A fresh unrevoked row of that account and family, expiring its lifetime after its creation |
| `RefreshTokens.RefreshToken.Revoke` | src/domain/auth/refresh-token.entity.ts:127-133 | The first revocation keeps its instant and its reason; an unrevoked token gets the given ones |
| `RefreshTokens.PrismaRefreshTokenRepository.FindByHash` | src/infrastructure/database/repositories/prisma-refresh-token.repository.ts:16-19 | The row with that hash, if there is one |
| `RefreshTokens.PrismaRefreshTokenRepository.Create` | src/infrastructure/database/repositories/prisma-refresh-token.repository.ts:21-40 | One row more |
| `RefreshTokens.PrismaRefreshTokenRepository.Consume` | src/infrastructure/database/repositories/prisma-refresh-token.repository.ts:65-71 | True for the one caller that finds the row unrevoked, which alone is stamped; otherwise nothing changes |
| `RefreshTokens.PrismaRefreshTokenRepository.RevokeFamily` | src/infrastructure/database/repositories/prisma-refresh-token.repository.ts:82-88 | Exactly the unrevoked rows of the family are stamped and counted; every other row of every session stays as it was |
| `RefreshTokens.PrismaRefreshTokenRepository.RevokeAllForUser` | src/infrastructure/database/repositories/prisma-refresh-token.repository.ts:90-96 | Exactly the user's unrevoked rows are stamped and counted; every other user's stay as they were |
| `RefreshTokens.PrismaRefreshTokenRepository.DeleteExpiredBefore` | src/infrastructure/database/repositories/prisma-refresh-token.repository.ts:111-114 | Exactly the rows that expired before the cutoff go |
| `TokenRotation.RefreshTokensUseCase.Execute` | src/application/auth/refresh-tokens.usecase.ts:63-118 | Whatever runs between its awaits, the request takes exactly the steps of the protocol path its answer names: one rotation on success, a committed family revocation on reuse, no write on earlier failures |
| `TokenRotation.RefreshTokensUseCase.Rotate` | src/application/auth/refresh-tokens.usecase.ts:87-117 | After the win: load and gate, sign, store the successor; the pair handed out is the one on record |
| `TokenRotation.RefreshTokensUseCase.DetectedReuse` | src/application/auth/refresh-tokens.usecase.ts:124-149 | The family is revoked, and committed, before the error is given |
| `TokenRotation.RefreshTokensUseCase.Consume` | src/application/auth/refresh-tokens.usecase.ts:80-85 | The statement on the table is the protocol's step; a win stamps the row as rotated at the request's own instant |
| `TokenRotation.RefreshTokensUseCase.LoadOwner` | src/application/auth/refresh-tokens.usecase.ts:87-92 | Only an account that is there and may authenticate lets the rotation go on; the error says which of the two failed |
| `TokenRotation.RefreshTokensUseCase.SignAccess` | src/application/auth/build-auth-result.ts:28-33 | Subject, epoch and privilege come from the snapshot in hand, the lifetime from the configuration |
| `TokenRotation.RefreshTokensUseCase.StoreSuccessor` | src/application/auth/refresh-tokens.usecase.ts:100-114 | The successor joins the family of the token consumed |
| `SignIn.LoginUseCase.Execute` | src/application/auth/login.usecase.ts:57-117 | A login that succeeds signed in the account that answered for the address, verified the password on the loaded row, re-hashed it exactly when it was cheaper than configured, to the configured cost and for the same password, signed one access token and opened one new family; one refused earlier leaves no step behind and says why |
| `SignIn.LoginUseCase.FindAndVerify` | src/application/auth/login.usecase.ts:57-84 | Invalid credentials exactly where no undeleted account of that address has that password; the status error only for one that does; otherwise the loaded row goes on |
| `SignIn.LoginUseCase.UpgradeHash` | src/application/auth/login.usecase.ts:86-92 | Exactly a hash cheaper than configured is replaced, by one of the configured cost for the same password; a stronger one stays |
| `SignIn.LoginUseCase.SaveRehash` | src/application/auth/login.usecase.ts:86-92 | The re-hash goes through the optimistic lock; losing it fails the login |
| `SignIn.LoginUseCase.StoreFirst` | src/application/auth/login.usecase.ts:100-110 | The first row of a family nobody has used |
| `SignOut.LogoutUseCase.Execute` | src/application/auth/logout.usecase.ts:49-65 | The family is revoked only after the caller's own token was looked up; then the access token is denied exactly by whether it was unexpired when that was asked, and on return it has expired or is denylisted whenever Redis answered |
| `SignOut.LogoutUseCase.FindByHash` | src/application/auth/logout.usecase.ts:52-60 | Answers exactly the row that is there and the caller's own; somebody else's token counts as none |
| `SignOut.RevokedSessionIsCallers` | src/application/auth/logout.usecase.ts:52-60 | Whatever runs in between, the family a logout goes on to revoke is the one its presented token was minted in, and the caller's own |
| `SignOut.LogoutUseCase.ExecuteAll` | src/application/auth/logout.usecase.ts:75-87 | Rows, then epoch, then denylist; a failed save stops it before the denylist, otherwise the caller's access token has expired or is denylisted on return whenever Redis answered |
| `SignOut.LogoutUseCase.BumpEpoch` | src/application/auth/logout.usecase.ts:79-83 | The account, if still there, is saved with a new epoch |
| `SignOut.LogoutUseCase.DenylistAccessToken` | src/application/auth/logout.usecase.ts:89-99 | Writes exactly for a token unexpired when asked, for at least as long as it lives; an unreachable Redis is swallowed |
| `PasswordChange.UpdateUserUseCase.ChangePassword` | src/application/users/update-user.usecase.ts:63-98 | The new password, at the configured cost, is in the account's history and differs from the old; the account's rows are revoked after it is stored and not at all if storing fails; on success every row is revoked; a refusal names its cause |
| `PasswordChange.UpdateUserUseCase.LoadAndVerify` | src/application/users/update-user.usecase.ts:64-87 | Each of the five refusals for its own cause and only after those before it were ruled out, without a step |
| `Interleaving.OthersRun` | src/application/auth/refresh-tokens.usecase.ts:37-48 | While a request awaits, no run of others changes what it holds, and everything else only moves forward |
| `Backend.Backend.Await` | src/application/auth/refresh-tokens.usecase.ts:63-118 | What a request may rely on across an await, for every behaviour of the rest of the system |
| `Pagination.WalkIsTheList` | src/infrastructure/database/repositories/prisma-user.repository.ts:121-143 | On a table at rest, following `nextCursor` to null terminates and serves exactly the sorted filtered list, in either direction |
| `Pagination.WalkUnderChange` | src/infrastructure/database/repositories/prisma-user.repository.ts:121-143 | With any inserts, deletes and edits between pages, served keys are strictly monotone and every row that is there and matches throughout is served exactly once |
| `Pagination.NoAccountTwice` | src/infrastructure/database/repositories/prisma-user.repository.ts:121-143 | No account is served twice, given that creation times never change |
| `Pagination.SeekIsAfter` | src/infrastructure/database/repositories/prisma-user.repository.ts:341-357 | The two-arm condition is "strictly after the last row seen", ties included |
| `Pagination.PageSplitsList` | src/infrastructure/database/repositories/prisma-user.repository.ts:121-143 | A page is the next stretch of the list; the extra row decides the cursor, which seeks to exactly the rest |
| `Pagination.OrderedListIsUnique` | src/infrastructure/database/repositories/prisma-user.repository.ts:128-132 | An ordered query has one answer |
| `KeysetOrder.TotalOrder` | src/infrastructure/database/repositories/prisma-user.repository.ts:128-132 | `(createdAt, id)` orders rows totally, by creation first and then by id, both the same way round |
| `KeysetOrder.TextBeforeMeans` | src/infrastructure/database/repositories/prisma-user.repository.ts:128-132 | Ids compare at the first place where they differ |
| `Pagination.WalkIsAllPages` | src/infrastructure/database/repositories/prisma-user.repository.ts:88-143 | The keyset walk and the numbered pages list the same rows in the same order |
| `Pagination.PageCount` | src/shared/dto/paginated.response.ts:55-69 | `totalPages` pages cover the list, and `hasNext` is true exactly when the next page has a row |
| `Pagination.PagesAreAPrefix` | src/shared/http/pagination.ts:59-61 | The first n pages are the first n times limit rows |
| `CursorCodec.DecodeOfEncode` | src/shared/http/pagination.ts:71-90 | What comes back from a cursor, for every instant and id; it round-trips exactly for ids of 36 hexadecimal digits and hyphens |
| `CursorCodec.CursorLength` | src/shared/dto/pagination-query.dto.ts:47 | Every produced cursor is 82 or 86 characters, within the 200 allowed |
| `CursorCodec.CursorsAreTransparent` | src/infrastructure/database/repositories/prisma-user.repository.ts:121-143 | Paging by cursors serves what paging by keys serves, under change too, and no cursor handed out is refused |
| `IsoDate.IsoRoundTrip` | src/shared/http/pagination.ts:73 | Every instant a `Date` can hold is read back from its ISO form, years outside 0 to 9999 included |
| `IsoDate.CivilRoundTrip` | src/shared/http/pagination.ts:73 | Day, month and year determine the instant |
| `IsoDate.Gregorian` | src/shared/http/pagination.ts:73 | Day 0 begins 1970, and the calendar repeats every 400 years of 146097 days (section 21.4.1 of ECMA-262) |
| `IsoDate.MonthLength` | src/shared/http/pagination.ts:73 | The days before a month are those of the months before it, whose lengths are 31, 28 or 29, 31, 30 and so on |
| `Base64Url.RoundTrip` | src/shared/http/pagination.ts:73-78 | Unpadded base64url loses nothing |
| `Base64Url.DigitRoundTrip` | src/shared/http/pagination.ts:73-78 | The alphabet is that of table 2 of RFC 4648, and every digit is read back |
| `Base64Url.GroupRoundTrip` | src/shared/http/pagination.ts:73-78 | Four digits are the twenty-four bits of three bytes, most significant first |
| `Throttler.SlidingBound` | src/infrastructure/security/redis-throttler.storage.ts:30-49 | At most `2 * limit - 1` requests pass in any half-open interval as long as the window, over every run |
| `Throttler.SlidingBoundIsTight` | src/infrastructure/security/redis-throttler.storage.ts:30-49 | A run for every limit reaches that bound |
| `Throttler.WindowBound` | src/infrastructure/security/redis-throttler.storage.ts:30-49 | At most `limit` requests pass between the opening of a window and its close |
| `Throttler.WindowsDoNotOverlap` | src/infrastructure/security/redis-throttler.storage.ts:36-39 | A window opens only after the last has closed, and no hit moves one |
| `Throttler.RunKeepsInv` | src/infrastructure/security/redis-throttler.storage.ts:30-49 | Over every run no counter is without an expiry |
| `Throttler.BlockHolds` | src/infrastructure/security/redis-throttler.storage.ts:31-34 | Until a block expires every hit is refused and changes nothing, the expiry included |
| `Throttler.AfterTheBlock` | src/infrastructure/security/redis-throttler.storage.ts:36-48 | The first hit after a block passes exactly when the limit is positive and the counter has gone |
| `Throttler.WaitingSuffices` | src/infrastructure/security/redis-throttler.storage.ts:64-80 | Waiting the advertised, rounded-up seconds suffices when the block is no shorter than the window, up to the one millisecond in which both expire |
| `Throttler.RefusalBlocks` | src/infrastructure/security/redis-throttler.storage.ts:43-46 | Every refusal leaves a block that runs as long as the reply says |
| `Throttler.KeysAreApart` | src/infrastructure/security/redis-throttler.storage.ts:60-61 | Buckets and clients never share a key unless a throttler is called "block" |
| `Throttler.RedisThrottlerStorage.Increment` | src/infrastructure/security/redis-throttler.storage.ts:53-89 | One script step on the two keys of this client and bucket and no others; the answer refuses exactly what the bucket, built of the arguments, does not admit, with the hits counted and both times rounded up to seconds; an open door when Redis is down |
| `SingleFlight.OneLoaderPerKey` | src/infrastructure/cache/cache.service.ts:90-110 | In every reachable state at most one loader per key is unsettled, and the map holds it |
| `SingleFlight.JoinersShareTheOutcome` | src/infrastructure/cache/cache.service.ts:96-97 | A caller that misses while a flight is unsettled gets that flight's outcome, success or failure |
| `SingleFlight.OutcomeIsTheLoaders` | src/infrastructure/cache/cache.service.ts:99-109 | Every caller a flight served returned exactly what its loader came to, success or failure |
| `SingleFlight.HitIsServed` | src/infrastructure/cache/cache.service.ts:93-94 | A cached value is returned as it is and starts no loader |
| `SingleFlight.CleanupIsPrecise` | src/infrastructure/cache/cache.service.ts:106 | Removing by key alone removes only the flight's own entry |
| `SingleFlight.StepKeepsInv` | src/infrastructure/cache/cache.service.ts:92-110 | The map holds a key exactly while a flight for it is unsettled |
| `SingleFlight.CacheService.ContinueAfterRead` | src/infrastructure/cache/cache.service.ts:93-109 | The synchronous stretch after the read: the cached value returned as it is, or the flight under way joined, or one started and entered in the map |
| `SingleFlight.CacheService.OnLoaderDone` | src/infrastructure/cache/cache.service.ts:99-105 | Exactly the values worth caching are written before settling |
| `SingleFlight.CacheService.OnFinally` | src/infrastructure/cache/cache.service.ts:106 | The map without this flight, every other entry kept; the flight settles with the outcome it carried |
| `Slug.SlugifyMeaning` | src/domain/shared/slug.ts:13-29 | The pipeline is: the alphanumeric words joined by single hyphens, cut, a dash left at the cut dropped, else the fallback |
| `Slug.SlugifyIsSlug` | src/modules/workspace/dto/create-workflow.dto.ts:38 | Every result is in the language the API accepts |
| `Slug.SlugLanguage` | src/modules/workspace/dto/create-workflow.dto.ts:38 | The regular expression accepts exactly the strings without leading, trailing or doubled hyphens |
| `Slug.SlugifyLength` | src/domain/shared/slug.ts:13-29 | The limit is kept exactly when it has room for the fallback or the fallback is not needed |
| `Slug.SlugifyFixedPoints` | src/domain/shared/slug.ts:13-29 | The fixed points are exactly the slugs that fit |
| `Slug.SlugifyIsIdempotent` | src/domain/shared/slug.ts:13-29 | Slugifying a slug changes nothing |
| `Slug.DerivedSlugFits` | prisma/schema.prisma:57-100 | Derived slugs fit the workflow and folder columns; they fit the workspace column exactly when the joined words do |
| `WorkspaceService.EveryRunIsSound` | src/application/workspace/workspace.service.ts:166-551 | In every state any interleaving leads to: one default folder per workspace, every item in a folder of its own workspace, every workflow pointing at a version of its own |
| `WorkspaceService.CheckedWritesLandAtHome` | src/application/workspace/workspace.service.ts:518-551 | What `assertFolder` found is still true at a later write |
| `WorkspaceService.PerformKeeps` | src/application/workspace/workspace.service.ts:302-507 | Each write keeps the invariant and all ownership facts |
| `WorkspaceService.PerformDoes` | src/application/workspace/workspace.service.ts:302-507 | What each operation that goes through does, table by table and field by field, and that it does nothing else |
| `WorkspaceService.WorkflowCreated` | src/infrastructure/database/repositories/prisma-workflow.repository.ts:99-146 | Insert, insert, point: the cyclic foreign key is met and the stored row points at version 1 |
| `WorkspaceService.LinkFirstFails` | src/infrastructure/database/repositories/prisma-workflow.repository.ts:114-119 | Linking to the version in the first insert is refused |
| `WorkspaceService.WorkflowRefusals` | src/infrastructure/database/repositories/prisma-workflow.repository.ts:147-153 | A workflow is refused exactly for a taken id or a value taken in the unique index; "slug taken" is the answer exactly under the migration's index over the slug, an infrastructure failure under the schema's over the name |
| `WorkspaceService.NobodyElsePoints` | src/infrastructure/database/repositories/prisma-workflow.repository.ts:180-187 | No delete is refused because another workflow points into its versions |
| `WorkspaceService.VariableValuesNeverChange` | src/application/workspace/workspace.service.ts:397-415 | No run ever rewrites a variable's value |
| `WorkspaceService.ClearingLeavesOne` | src/infrastructure/database/repositories/prisma-folder.repository.ts:125-132 | The second statement of a rename leaves one default exactly when its snapshot showed every other one; `FolderRenames` derives what the snapshot shows from what has committed |
| `FolderRenames.OverlappingRenames` | src/infrastructure/database/repositories/prisma-folder.repository.ts:113-141 | Over every interleaving of the statements, commits and rollbacks of two renames under read committed, one default is left unless both commit, each began to clear before the other had committed, and the default there was is neither folder; and then two are |
| `FolderRenames.StepKeepsInv` | src/infrastructure/database/repositories/prisma-folder.repository.ts:113-141 | What every such step keeps: row locks apart, and the defaults that are committed accounted for by who has committed |
| `FolderRenames.AloneIsRenameFolder` | src/infrastructure/database/repositories/prisma-folder.repository.ts:113-141 | A transaction nothing interleaves with does what the repository's rename does, errors included |
| `FolderRenames.RaceIsReachable` | src/infrastructure/database/repositories/prisma-folder.repository.ts:113-135 | For every two folders other than the default a schedule of two successful renames leaves two defaults |
| `WorkspaceService.RenameKeeps` | src/infrastructure/database/repositories/prisma-folder.repository.ts:113-141 | A rename that overlaps no other keeps exactly one default |
| `WorkspaceService.NewWorkspaceKeeps` | src/infrastructure/database/repositories/prisma-workspace.repository.ts:64-102 | A new workspace arrives with its default folder |
| `WorkspaceRepositories.Database.CreateWorkspace` | src/infrastructure/database/repositories/prisma-workspace.repository.ts:64-102 | Both rows as given or neither; "slug taken" when the owner has it |
| `WorkspaceRepositories.Database.CreateFolder` | src/infrastructure/database/repositories/prisma-folder.repository.ts:89-111 | One folder more as given, never a default, exactly when name and slug are free in the workspace; or the error of the index that refused it |
| `WorkspaceRepositories.Database.RenameFolder` | src/infrastructure/database/repositories/prisma-folder.repository.ts:113-141 | Name and default move together and no other folder changes but for its flag, or nothing changes |
| `WorkspaceRepositories.Database.UpdateFolder` | src/infrastructure/database/repositories/prisma-folder.repository.ts:117-124 | The first statement, scoped to the workspace: the folder renamed and flagged, or an error for its own cause and no change |
| `WorkspaceRepositories.Database.ClearOtherDefaults` | src/infrastructure/database/repositories/prisma-folder.repository.ts:127-132 | The second: every other default of the workspace loses the flag, no other row changes |
| `WorkspaceRepositories.Database.CreateWorkflow` | src/infrastructure/database/repositories/prisma-workflow.repository.ts:99-154 | Three statements or none; the stored row has what was given and points at version 1 |
| `WorkspaceRepositories.Database.UpdateWorkflow` | src/infrastructure/database/repositories/prisma-workflow.repository.ts:156-178 | Only a row in the given folder changes, its name to the name given and its slug to the slug given |
| `WorkspaceStore.WorkflowUpdated` | src/infrastructure/database/repositories/prisma-workflow.repository.ts:156-178 | Name and slug change as given, each where it belongs; place, version and all other rows stay; "not found" exactly for rows not in the given folder |
| `WorkspaceRepositories.Database.DeleteWorkflow` | src/infrastructure/database/repositories/prisma-workflow.repository.ts:180-187 | The row and its versions go, and no others |
| `WorkspaceRepositories.Database.CreateVariable` | src/infrastructure/database/repositories/prisma-variable.repository.ts:86-105 | One variable more, or an error and no change |
| `WorkspaceStore.ItemCreated` | src/infrastructure/database/repositories/prisma-variable.repository.ts:86-105 | A creation adds one row under a name no other row of the folder has, or some other row has it |
| `WorkspaceRepositories.Database.UpdateVariable` | src/infrastructure/database/repositories/prisma-variable.repository.ts:107-125 | Only a row in the given folder changes |
| `WorkspaceStore.ItemUpdated` | src/infrastructure/database/repositories/prisma-variable.repository.ts:107-125 | An update changes one row in the fields given, keeps names unique, and misses exactly rows that are not in the given folder |
| `WorkspaceRepositories.Database.DeleteVariable` | src/infrastructure/database/repositories/prisma-variable.repository.ts:127-134 | Exactly a row in the given folder goes |
| `ResourceCounts.NamespaceCountsAreExact` | src/application/workspace/workspace.service.ts:140-152 | One row per requested id, in order, each with the true counts of the tables as its own of the four queries found them |
| `ResourceCounts.FolderCountsAreExact` | src/application/workspace/workspace.service.ts:154-164 | The same per folder, over three queries |
| `ResourceCounts.LookupIsCount` | src/infrastructure/database/repositories/prisma-folder.repository.ts:37-49 | Looking up in the grouped answer is counting each id |
| `ResourceCounts.FolderCountsAddUp` | src/infrastructure/database/repositories/prisma-workflow.repository.ts:51-67 | Folder counts and rows with no folder add up to the workspace count |
| `ResourceCounts.ReachableCountsAddUp` | src/application/workspace/workspace.service.ts:140-164 | In every reachable state the folder counts alone add up, for all three resources |

## Left out

- UserEntity.User.FromSnapshot: the address is a plain string, its normalisation is the value object's.
- Session.RunThen: runs count `tokenVersion` and `version` without bound; the columns are 32-bit, and their overflow after two thousand million bumps is not modelled.
- Backend.Backend.Yield: the rest of the system is any sequence of the modelled events. Effects of processes outside this service on its tables are not among them.
- Backend.Backend.GenerateId: random identifiers are taken to be unused; one name stands for a refresh row's id and the hash it is looked up by. They are drawn at the statement that stores them.
- Pagination.Sorted: filters are any predicate on rows, so the translation of status, privilege and search parameters is not modelled; offset listings sort by `createdAt` only.
- CursorCodec.DecodeOfEncode: instants are whole milliseconds, which is what the create path writes although the column keeps microseconds. What `Buffer` and `Date` make of text that `encode` never produces is a parameter about which nothing is assumed; ids outside ASCII are not covered.
- Throttler.RedisThrottlerStorage.Increment: one bucket's settings stay the same over a run; `PEXPIRE` and `SET … PX` take effect as documented, and Redis evicts nothing.
- AccessTokens.TokenDenylistService.Write: Redis evicts nothing before its expiry, and its clock is the server's.
- SingleFlight.CacheService.OnFinally: the cleanup and the settling of the promise it belongs to are one event; a loader that throws before returning a promise starts no flight and is not modelled.
- Slug.SlugifyMeaning: Unicode normalisation, mark stripping and lower-casing are one given step on strings; the fixed-point results assume it leaves slug text alone.
- WorkspaceRepositories.Database.CreateFolder: when two indexes refuse a row, which one is reported is a parameter, because PostgreSQL does not say.
- WorkspaceRepositories.Database.UpdateWorkflow: description, settings and metadata columns are not modelled.
- WorkspaceService.EveryRunIsSound: transactions are atomic in these runs; two renames statement by statement are `FolderRenames`. Workspaces that predate the default folder are not modelled.
- FolderRenames.OverlappingRenames: two transactions, of three or more nothing is said; a statement that waits for a lock is one that is not enabled until the lock is free, and a wait for a name in the unique index counts as one whether the other transaction later commits or not.
- SessionEnd.SessionIsOver: "live" means not revoked; a row that has expired counts as live until it is swept, because an older request may still consume it.
- `RefreshTokenRepository.save` writes unconditionally and no use case calls it; it is not a step of the protocol.
- Tenant scoping (`tid`, `role`, tenant switching) is inert in this build.
- Passwords are compared as secrets, hashes carry a cost; Argon2, bcrypt, SHA-256 and JWT signing are not modelled, nor is the uniformity of response times.
- Registration, the password policy, e-mail normalisation and masking, controllers, sockets, metrics, logging and configuration: easy members or wiring.
- `deleteByPrefix` rests on guarantees of Redis SCAN that the repository does not state.
- Connections are updated and deleted like variables; only their specification is modelled, not a second set of methods.
