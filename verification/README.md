# What the services keep

A Dafny model of the stateful parts of three Go services, with proofs of what they keep
over long and interleaved runs.

- **identity-service, tokens.** `Tables` holds the rows and what each SQL transaction does
  to them. `Repositories` and `RevokeOthers` are the repository and handler code over mutable
  tables, proved against those transactions. `TokenSystem` makes every client call, split at
  its transactions, and every background sweep one event of a state machine; in it the
  adapter builds each link of a rotation chain. `RotationChains` and `ChainTheorems` prove that
  chains are linear, constant and paired; `LoginHistory` that their tokens say what the login
  wrote; `RotationAcceptance` when a refresh token is accepted; `RevocationEffects` what each
  revocation ends for ever; `DeviceOwnership` that rows name device sessions of their own user,
  `DeviceReuse` that returning logins find theirs; `SweepBisimulation` that cleaning up cannot be
  observed. `RevocationRace` goes below transactions, to statements, row locks and aborts;
  `SerialRace` says that undisturbed they are the transactions.
- **myaccount-bff, session refresh.** `SessionStore` is the Redis store; `AuthMiddleware` is
  `Auth` and `refreshTokens` as one request runs them, `AuthHandler` the handlers beside it;
  `RefreshProtocol` interleaves any number of requests with each other, with logouts and
  callbacks, and with all of identity-service; `SessionFate` says exactly when a refresh keeps a
  session and when a logout is final, `SessionTokens` that what is stored is good at
  identity-service.
- **Rate limiter.** `RateLimiter`: token buckets that a cleanup prunes.
- **blob-service.** `BlobStore` is the table, `BlobApp` the use cases, `BlobUpload` their
  interleaving, refined to an atomic machine per ID, `BlobAlone` one call by itself.
- **Users.** `UserRegistry` races logins between lookup and create; `IdentityService` is the
  repository and service code.

A class stands for a Go object or a database; its methods are proved against functions of the
old state, and the lemmas are about those functions and about runs built from them. A run is a
sequence of events of any length and order, and an event that does not apply changes nothing.
`log`, `issued`, `codes`, `owner`, `births`, `trace` and `used` are history, as is all that
`LoginHistory` notes: no step decides by them, except that generated values are fresh.

Conventions: one monotone clock, in milliseconds (seconds in the limiter); a nullable column is
an `Option`; SHA-256 is injective on the tokens in play; generated IDs, codes and tokens are
fresh; a sweep may read its clock any time before its statement runs.

Where the code does something a reader may not expect, it is stated as such:

- `auth.go:98` re-checks the copy loaded before the lock, so the check never holds
  (`RefreshProtocol.RecheckIsDead`), and a second request that takes the lock afterwards ends a
  session that was just refreshed: `SessionFate.StaleExactly` says when,
  `SecondRequestEndsSession` shows such a run.
- A logout is undone by a refresh in flight: `SessionFate.LogoutIsFinalExactly` says when.
- A code exchange in flight outlives the revocation of its device session
  (`RevocationRace.RevocationIsFinalExactly`).
- Device ownership rests on timing, not on a constraint (`DeviceOwnership.OwnershipExactly`), and
  so does it that a token names its login's session (`LoginHistory.DeviceIsNamedExactly`).
- The cookie of another user's session, or of a revoked one, leads to a new session at every
  login that presents it (`DeviceReuse.SameCookieSameSession`), so the handler replaces the cookie.
- A global limit of 1 to 3 requests a minute refuses every external request
  (`RateLimiter.GlobalAdmitsExactly`), and `UnlinkProvider` never succeeds
  (`UserRegistry.UnlinkAlwaysFails`).

The refresh protocol assumes what the code relies on: critical sections shorter than the lock's
10 s (`MayElapse`), a Save and a release that succeed, an exchange error that means no rotation
happened (`ExchangeFails`), and a session's refresh token presented by the BFF alone (`IdpMay`).
In the token store, no login or code exchange runs longer than `maxRequest`, a parameter, and a
rotation presents the token whose request the OIDC library has just read.

## Model

| member | source | states |
|---|---|---|
| `Repositories.TokenRepository.CreateAccessAndRefresh` | server/services/identity-service/internal/oidc/postgres/token_repo.go:38-118 | the rotation transaction, column by column: the presented live token and its access token are gone, the new pair is stored with the consumed row's device session if it names none, and that session is marked as used now; any failure, at whatever statement, restores every table |
| `Repositories.TokenRepository.CreateAccess` | server/services/identity-service/internal/oidc/postgres/token_repo.go:27-36 | inserts an access token, or reports the duplicate and changes nothing |
| `Repositories.TokenRepository.GetByID` | server/services/identity-service/internal/oidc/postgres/token_repo.go:120-125 | answers stored, unexpired rows only, and the same after any sweep up to now |
| `Repositories.TokenRepository.GetRefreshToken` | server/services/identity-service/internal/oidc/postgres/token_repo.go:127-132 | answers stored, unexpired rows only, and the same after any sweep up to now |
| `Repositories.TokenRepository.GetRefreshInfo` | server/services/identity-service/internal/oidc/postgres/token_repo.go:134-145 | answers user and id of the stored, unexpired row of the hash, and nothing else |
| `Repositories.TokenRepository.DeleteByUserAndClient` | server/services/identity-service/internal/oidc/postgres/token_repo.go:147-163 | removes exactly the user's tokens for the client, of both kinds |
| `Repositories.TokenRepository.Revoke` | server/services/identity-service/internal/oidc/postgres/token_repo.go:165-175 | removes the client's own access token; otherwise not found and nothing removed |
| `Repositories.TokenRepository.RevokeRefreshToken` | server/services/identity-service/internal/oidc/postgres/token_repo.go:177-188 | succeeds if and only if the token is stored for the client, and then it is gone and every other row is as it was; otherwise not found and nothing removed |
| `Repositories.TokenRepository.DeleteExpired` | server/services/identity-service/internal/oidc/postgres/token_repo.go:190-204 | keeps exactly the rows that expire at or after the cutoff, and counts the others |
| `Repositories.TokenRepository.GetLatestDeviceSessionID` | server/services/identity-service/internal/oidc/postgres/token_repo.go:257-277 | answers the device session of a live row of the user and client that no such row is newer than, or none when there is no such row |
| `Repositories.DeviceSessionRepository.FindOrCreate` | server/services/identity-service/internal/oidc/postgres/device_session_repo.go:27-58 | an unrevoked session of the user is answered and marked as used, its other columns and all other rows kept; otherwise a new row with the call's values, under the presented id if that is free and under a fresh one if not |
| `Repositories.DeviceSessionRepository.RevokeByID` | server/services/identity-service/internal/oidc/postgres/device_session_repo.go:79-104 | revokes the user's active session and deletes every refresh token of it; otherwise not found and nothing changed |
| `Repositories.DeviceSessionRepository.ListActiveByUserID` | server/services/identity-service/internal/oidc/postgres/device_session_repo.go:106-132 | lists exactly the user's unrevoked sessions, each once, most recently used first |
| `Repositories.DeviceSessionRepository.DeleteRevokedBefore` | server/services/identity-service/internal/oidc/postgres/device_session_repo.go:134-149 | deletes the sessions revoked before the cutoff that no live token names, with both ON DELETE SET NULL foreign keys, and counts them |
| `Repositories.AuthRequestService.GetByID` | server/services/identity-service/internal/oidc/authrequest_svc.go:26-35 | answers a stored request until its TTL is over, and the same after any sweep with the TTL's cutoff |
| `Repositories.AuthRequestService.GetByCode` | server/services/identity-service/internal/oidc/authrequest_svc.go:37-46 | answers one of the rows that carry the code, if it is within its TTL |
| `Repositories.AuthRequestService.SaveCode` | server/services/identity-service/internal/oidc/postgres/authrequest_repo.go:57-61 | the one row has the code, and nothing else in it, and no other row, changed |
| `Repositories.AuthRequestService.Create` | server/services/identity-service/internal/oidc/postgres/authrequest_repo.go:27-39 | stores an unfinished request with the call's client and scopes, created now, or reports the duplicate |
| `Repositories.AuthRequestService.Delete` | server/services/identity-service/internal/oidc/postgres/authrequest_repo.go:70-73 | the one row is gone, and no other |
| `Repositories.AuthRequestService.CompleteLogin` | server/services/identity-service/internal/oidc/postgres/authrequest_repo.go:63-68 | records user, time, AMR and device session in the one row; a session that is gone violates the foreign key and changes nothing |
| `Repositories.AuthRequestService.CleanUp` | server/services/identity-service/main.go:275-294 | the sweep at now - ttl keeps exactly the requests created at or after it |
| `ChainTheorems.LoginRecords` | server/services/identity-service/internal/oidc/postgres/authrequest_repo.go:63-68 | a finished login records the user and device session it found, its time and the fed AMR, and leaves code, scopes and creation time as they were |
| `ChainTheorems.GrantDelivers` | server/services/identity-service/internal/oidc/adapter/storage.go:143-159 | a code exchange stores a pair that is live exactly for the two lifetimes, paired, introspected with the subject, client, audience, scopes and times of the login, and starts a chain |
| `ChainTheorems.RotationDelivers` | server/services/identity-service/internal/oidc/token_svc.go:59-108 | a rotation stores a pair that is live exactly for the two lifetimes, paired, with the narrowed scopes, and with what the replaced token carried |
| `ChainTheorems.RotationConsumes` | server/services/identity-service/internal/oidc/postgres/token_repo.go:58-80 | the presented token was live and is gone, its access token is gone and introspects as inactive, and no row outside the two pairs changed |
| `ChainTheorems.AccessGrantDelivers` | server/services/identity-service/internal/oidc/adapter/storage.go:128-141 | a client's own token is stored without a refresh token, introspected as what was asked for, and live exactly for its lifetime |
| `TokenSystem.QueriesAnswer` | server/services/identity-service/internal/oidc/adapter/storage.go:92-112 | what each query answers, from the rows: an expired row is not found |
| `RotationChains.IssuingKeepsInv` | server/services/identity-service/internal/oidc/postgres/token_repo.go:45-106 | a committed grant or rotation keeps the history: the new link inherits from the one it replaces, which has no other successor and whose access token is gone |
| `RotationChains.SweepDevicesShrinks` | server/services/identity-service/internal/oidc/postgres/device_session_repo.go:134-149 | the device session sweep never nulls the session of a live token |
| `RotationChains.StepKeepsInv` | server/services/identity-service/internal/oidc/postgres/token_repo.go:38-204 | every call and sweep keeps the history: rows are logged, links inherit, one successor each, access rows paired |
| `RotationChains.RunKeepsInv` | server/services/identity-service/internal/oidc/postgres/token_repo.go:38-204 | so does every run |
| `ChainTheorems.ChainConstancy` | server/services/identity-service/internal/oidc/adapter/storage.go:406-432 | section 12.2 of OpenID Connect Core 1.0, for chains of any length: every stored token has the user, client, audience, auth_time and AMR of the original login, and every live one its device session |
| `ChainTheorems.LinearRotation` | server/services/identity-service/internal/oidc/postgres/token_repo.go:68-80 | section 10.4 of RFC 6749: over any run a refresh token has at most one successor, and a chain has at most one stored refresh token and at most one access token |
| `ChainTheorems.PositionIsUnique` | server/services/identity-service/internal/oidc/postgres/token_repo.go:68-80 | chains do not branch: origin and position determine the token |
| `ChainTheorems.ReplacedForEver` | server/services/identity-service/internal/oidc/postgres/token_repo.go:68-80 | a replaced refresh token is never stored again and every later rotation with it is refused |
| `ChainTheorems.PairingIsABijection` | server/services/identity-service/internal/oidc/token_svc.go:65-97 | between stored rows access_token_id and refresh_token_id are inverse to each other, and paired rows agree on client and subject |
| `ChainTheorems.PairingIsInjective` | server/services/identity-service/internal/oidc/token_svc.go:65-97 | no two stored rows share a partner |
| `LoginHistory.StepKeepsInv` | server/services/identity-service/internal/oidc/adapter/storage.go:57-159 | every call and sweep keeps what requests, read copies and first tokens say about the login that finished on their request |
| `LoginHistory.TokensTellTheLogin` | server/services/identity-service/internal/oidc/adapter/storage.go:143-159 | on every run, however often rotated: the chain of a stored token starts with the exchange of an auth request's code, and user, auth_time and AMR are those the last login finished on that request wrote before the code was read, the client is the one the request was created for, and the device session, if any, the one that login found |
| `LoginHistory.TokensNameTheDevice` | server/services/identity-service/internal/oidc/postgres/authrequest_repo.go:57-68 | every live token names the device session its login found, when a login and the TTL of an auth request fit into the retention of revoked sessions |
| `LoginHistory.DeviceIsNamedExactly` | server/services/identity-service/main.go:320-341 | and only then: otherwise a run ends with a live token that has lost it |
| `LoginHistory.RequestLifetime` | server/services/identity-service/internal/oidc/authrequest_svc.go:26-46 | on every run an auth request is readable exactly for its TTL after the call that created it |
| `RotationAcceptance.StepKeepsKeys` | server/services/identity-service/migrations/1_initial.up.sql:101-131 | every call and sweep keeps both foreign keys of refresh_tokens: a stored token's user and device session exist |
| `RotationAcceptance.RotationAcceptedExactly` | server/services/identity-service/internal/oidc/postgres/token_repo.go:38-118 | section 6 of RFC 6749, on every run: a rotation is accepted if and only if the token it presents is stored and live; otherwise it is refused as not found and changes no table |
| `RotationAcceptance.StepKeepsDead` | server/services/identity-service/internal/oidc/postgres/token_repo.go:127-132 | a token that is not live is never live again |
| `RevocationEffects.RevocationTakes` | server/services/identity-service/internal/oidc/adapter/storage.go:172-198 | each of the four revocations, from the rows: when it answers not found, which rows it takes, and that all others stay |
| `RevocationEffects.RefreshRevocationIsFinal` | server/services/identity-service/internal/oidc/adapter/storage.go:179-189 | RFC 7009: once revoking a refresh token is answered with success, every later rotation with it is refused and no token of its chain is ever stored again |
| `RevocationEffects.AccessRevocationIsFinal` | server/services/identity-service/internal/oidc/adapter/storage.go:190-198 | RFC 7009: once revoking an access token is answered with success, it is introspected as inactive for ever |
| `RevocationEffects.LogoutIsFinal` | server/services/identity-service/internal/oidc/adapter/storage.go:172-177 | after a logout every access token there was of the user at the client is inactive for ever, and every refresh token of theirs ever stored belongs to a chain that started later |
| `RevocationEffects.DeviceRevocationIsFinal` | server/services/identity-service/internal/oidc/postgres/device_session_repo.go:79-104 | once a device session is revoked, every refresh token of it ever stored belongs to a chain that started later |
| `RevocationEffects.StepKeepsOver` | server/services/identity-service/internal/oidc/postgres/token_repo.go:38-118 | what is over stays over: a rotation stores a token of the kind only if the one it replaces is of the kind |
| `DeviceOwnership.FoundDevice` | server/services/identity-service/internal/oidc/postgres/device_session_repo.go:27-58 | the session FindOrCreate answers is the user's and was not revoked, and no other row changes hands |
| `DeviceOwnership.StepKeepsInv` | server/services/identity-service/internal/authn/handler.go:193-215 | every call and sweep keeps each token and auth request linked to a session of its own user |
| `DeviceOwnership.ReachableOwned` | server/services/identity-service/migrations/1_initial.up.sql:129-138 | on every run, tokens and auth requests name sessions of their own user, though sessions are deleted and their ids taken over |
| `DeviceOwnership.RevokeDeletesOnlyOwnTokens` | server/services/identity-service/internal/oidc/postgres/device_session_repo.go:97-99 | so the delete without a user filter removes the caller's tokens only |
| `DeviceOwnership.OwnershipExactly` | server/services/identity-service/main.go:320-341 | ownership holds on every run if and only if twice the longest request plus the auth request TTL fits into the 30 days that revoked sessions are kept |
| `DeviceReuse.LoginFinds` | server/services/identity-service/internal/oidc/postgres/device_session_repo.go:27-58 | what a login does to the sessions, from the rows: the session it finds or creates, under which id, with which values, and that all others stay |
| `DeviceReuse.StepKeepsActive` | server/services/identity-service/internal/oidc/postgres/device_session_repo.go:79-149 | no event but the user's own revocation ends an active session |
| `DeviceReuse.SessionIsFoundAgain` | server/services/identity-service/internal/oidc/postgres/device_session_repo.go:40-52 | a login with the cookie of a session the user has not revoked finds it again, whatever happened since, and creates none |
| `DeviceReuse.SameCookieSameSession` | server/services/identity-service/internal/authn/handler.go:193-215 | two logins of one user with one cookie find one session if and only if the cookie was free or the user's active session at the first |
| `SweepBisimulation.DeviceSweepAgrees` | server/services/identity-service/internal/oidc/postgres/device_session_repo.go:134-149 | the device session sweep deletes the same rows whether or not expired tokens were swept |
| `SweepBisimulation.AnswersAgree` | server/services/identity-service/internal/oidc/postgres/token_repo.go:120-145 | every read answers the same on tables that agree on live rows |
| `SweepBisimulation.RotationAgrees` | server/services/identity-service/internal/oidc/postgres/token_repo.go:38-118 | so does every rotation, and the results agree again |
| `SweepBisimulation.StepAgrees` | server/services/identity-service/main.go:275-318 | so does every call, except revoking an expired token and finishing an expired login |
| `SweepBisimulation.SweepsAreInvisible` | server/services/identity-service/main.go:275-318 | adding or removing sweeps of tokens and auth requests anywhere in a run changes no answer but those two |
| `SweepBisimulation.SweepVisibleExactly` | server/services/identity-service/internal/oidc/postgres/authrequest_repo.go:49-55 | code is not UNIQUE in the schema: a sweep leaves the answers of GetByCode alone if and only if no live and expired request share the code |
| `SweepBisimulation.SweepDeletes` | server/services/identity-service/main.go:275-341 | what each sweep deletes, from the rows: everything past its cutoff and nothing else, and of the sessions what no live token names, with both foreign keys following |
| `RevocationRace.StepKeepsInv` | server/services/identity-service/internal/oidc/postgres/token_repo.go:45-117 | statement by statement, locks are held as taken, a transaction that consumed a token holds its row, and a revocation's list of tokens stays complete |
| `RevocationRace.HeldApart` | server/services/identity-service/internal/oidc/postgres/token_repo.go:68-115 | while a revocation deletes, it holds the session's row, no issue for the session is past its touch of that row, and a rotation that consumed a token of the session is still on the revocation's list |
| `RevocationRace.Exclusive` | server/services/identity-service/internal/oidc/postgres/device_session_repo.go:79-104 | no two transactions hold one row |
| `RevocationRace.AtMostOneRotation` | server/services/identity-service/internal/oidc/postgres/token_repo.go:68-80 | section 10.4 of RFC 6749, statement by statement: of all transactions that ever present one refresh token, however interleaved, at most one commits |
| `RevocationRace.RotationCannotOutliveRevocation` | server/services/identity-service/internal/oidc/postgres/device_session_repo.go:79-104 | once a revocation commits with no code exchange in flight for the session, no refresh token of it is ever stored again and no rotation on it gets past its delete |
| `RevocationRace.RotationAndRevocationDeadlock` | server/services/identity-service/internal/oidc/postgres/token_repo.go:68-115 | a rotation that consumed a token of the session and the session's revocation wait for each other, so one of them is aborted |
| `RevocationRace.GrantOutlivesRevocation` | server/services/identity-service/internal/oidc/postgres/token_repo.go:83-115 | a code exchange in flight does store its token after the revocation committed |
| `RevocationRace.RevocationIsFinalExactly` | server/services/identity-service/internal/oidc/postgres/device_session_repo.go:79-104 | a committed revocation is final over every continuation without new code exchanges if and only if none was in flight |
| `RevocationRace.GrantInFlight` | server/services/identity-service/internal/oidc/postgres/token_repo.go:83-117 | a run reaches a code exchange in flight for a session whose revocation is ready to commit |
| `RevocationRace.RotationInFlight` | server/services/identity-service/internal/oidc/postgres/token_repo.go:68-106 | a run reaches a rotation and a revocation that wait for each other |
| `SerialRace.RotationAlone` | server/services/identity-service/internal/oidc/postgres/token_repo.go:45-117 | undisturbed, the statements of a rotation leave what the rotation transaction does |
| `SerialRace.GrantAlone` | server/services/identity-service/internal/oidc/postgres/token_repo.go:83-117 | so do those of a code exchange |
| `SerialRace.RefusedAlone` | server/services/identity-service/internal/oidc/postgres/token_repo.go:48-80 | a rotation of a token that is not stored leaves no trace |
| `SerialRace.RevocationAlone` | server/services/identity-service/internal/oidc/postgres/device_session_repo.go:79-104 | the statements of a revocation, its deletes in any order, leave what the transaction does |
| `SerialRace.PurgeAlone` | server/services/identity-service/internal/oidc/postgres/token_repo.go:147-204 | and row by row deletes amount to any transaction that only removes tokens |
| `RevokeOthers.SessionHandler.RevokeAllOtherSessions` | server/services/identity-service/internal/grpc/handler.go:111-126 | the loop revokes, as of now, all active sessions of the user but the current one, deletes their tokens, and changes no other row; no iteration fails |
| `RevokeOthers.OthersRevoked` | server/services/identity-service/internal/grpc/handler.go:111-126 | afterwards the user's active sessions are the earlier ones meeting the current one, the others hold no token, and all other users' rows and the current session's tokens are as before |
| `SessionStore.Store.SaveSession` | server/services/myaccount-bff/internal/session/store.go:33-39 | the session is loadable from now until the idle TTL is over, and nothing else is touched |
| `SessionStore.Store.LoadSession` | server/services/myaccount-bff/internal/session/store.go:41-58 | a hit slides the idle expiry; a session past its hard limit is deleted and not found |
| `SessionStore.Store.DeleteSession` | server/services/myaccount-bff/internal/session/store.go:60-62 | the session is not loadable at any time, and nothing else is touched |
| `SessionStore.Store.AcquireRefreshLock` | server/services/myaccount-bff/internal/session/store.go:64-76 | takes the lock unless it is held and has not expired |
| `SessionStore.Store.ReleaseRefreshLock` | server/services/myaccount-bff/internal/session/store.go:78-80 | the lock is free at any time, whoever held it, and every other lock is as it was |
| `SessionStore.ExactLifetime` | server/services/myaccount-bff/internal/session/store.go:33-62 | over any history a Load succeeds exactly when the last Save or successful Load is less than the idle TTL ago, nothing deleted the session since, and the hard limit is not past |
| `SessionStore.HardLimitIsFinal` | server/services/myaccount-bff/internal/session/store.go:53-56 | no amount of loading and re-saving outlasts CreatedAt plus the hard TTL |
| `SessionStore.ExactLock` | server/services/myaccount-bff/internal/session/store.go:64-80 | over any history the lock is refused exactly while the last grant is younger than 10 s and nobody released it; a holder that never does blocks others that long |
| `AuthMiddleware.RefreshTokens` | server/services/myaccount-bff/internal/middleware/auth.go:83-124 | for every answer of the token endpoint and every failing store call: after a successful exchange the session object and the stored session have the new access token and expiry, and the new refresh token, ID token and device session where the answer has them; a waiting request is answered the reloaded session; and what else is in the store |
| `AuthMiddleware.Auth` | server/services/myaccount-bff/internal/middleware/auth.go:42-81 | an expiring session is served and stored renewed, one with 60 s left as it is, one whose lock is taken as it is half a second later; a failed refresh deletes the session, and any store error is reported as such |
| `AuthMiddleware.AloneAuthKeepsWhatItServes` | server/services/myaccount-bff/internal/middleware/auth.go:52-81 | alone, a request keeps the session stored exactly when it serves it, stores what it serves, keeps user and creation time, touches no other session and leaves no lock |
| `AuthMiddleware.FaultKeepsSession` | server/services/myaccount-bff/internal/middleware/auth.go:58-75 | a failing store call never costs a session: what was stored is stored still |
| `AuthMiddleware.AloneRunIsAuth` | server/services/myaccount-bff/internal/middleware/auth.go:83-124 | the events of the interleaved protocol, uninterrupted, leave the store as the method does |
| `AuthMiddleware.AloneWaitIsAuth` | server/services/myaccount-bff/internal/middleware/auth.go:88-95 | so do the events of a request that waits for another's lock |
| `AuthHandler.Handler.Callback` | server/services/myaccount-bff/internal/handler/auth.go:33-85 | a successful exchange stores a session with its tokens, user and device, created now; otherwise nothing is stored |
| `AuthHandler.Handler.Logout` | server/services/myaccount-bff/internal/handler/auth.go:87-112 | the cookie's session is gone, and no other |
| `AuthHandler.Handler.Me` | server/services/myaccount-bff/internal/handler/auth.go:114-134 | answers the user of the cookie's session if and only if that is loadable, which then lasts its idle TTL from now |
| `AuthHandler.HandlersInterleaved` | server/services/myaccount-bff/internal/handler/auth.go:87-134 | in the interleaved protocol these handlers, and a request with time to spare, do the same to the store and nothing else; only an expiring session is refreshed |
| `SessionTokens.RefreshIsActive` | server/services/myaccount-bff/internal/middleware/auth.go:102-118 | on every run of both services: what a refresh is about to store is introspected as active, for the session's user, until exactly the stored expiry |
| `SessionTokens.CallbackIsActive` | server/services/myaccount-bff/internal/handler/auth.go:57-72 | so is what a login stores, a session opened now with the tokens of the exchange |
| `SessionTokens.RunKeepsOwners` | server/services/myaccount-bff/internal/middleware/auth.go:83-124 | every refresh token ever issued to a session was issued to the session's user |
| `RefreshProtocol.StepKeepsInv` | server/services/myaccount-bff/internal/middleware/auth.go:83-124 | every step of every request, of the BFF's other handlers, of identity-service and of the clock keeps the protocol's invariant |
| `RefreshProtocol.RunKeepsInv` | server/services/myaccount-bff/internal/middleware/auth.go:83-124 | so does every run of both services |
| `RefreshProtocol.LeaveKeepsExcluded` | server/services/myaccount-bff/internal/middleware/auth.go:96 | the unconditional delete of the lock only ever deletes the holder's own |
| `RefreshProtocol.ExchangeKeepsInv` | server/services/myaccount-bff/internal/middleware/auth.go:102-105 | an exchange spends the holder's token only, and no other session's |
| `RefreshProtocol.IdpIsHarmless` | server/services/identity-service/internal/oidc/postgres/token_repo.go:38-118 | nothing else identity-service does spends a session's token |
| `RefreshProtocol.MutualExclusion` | server/services/myaccount-bff/internal/middleware/auth.go:84-96 | no two requests are ever inside the critical section of one session |
| `RefreshProtocol.StoredTokenIsUnspent` | server/services/myaccount-bff/internal/middleware/auth.go:83-124 | a stored session's refresh token was never consumed by a rotation, except while the session's lock holder, which presented it, is between its exchange and its Save |
| `RefreshProtocol.NextTokenIsUnspent` | server/services/myaccount-bff/internal/middleware/auth.go:107-122 | and what that holder is about to save is unspent |
| `RefreshProtocol.RecheckIsDead` | server/services/myaccount-bff/internal/middleware/auth.go:98-100 | the re-check looks at the copy loaded before the lock, so its branch is never taken |
| `RefreshProtocol.CopyIsSpentExactlyWhenStale` | server/services/myaccount-bff/internal/middleware/auth.go:98-105 | the holder's copy is spent if and only if its token is not the one that is stored |
| `RefreshProtocol.StaleCopyEndsSession` | server/services/myaccount-bff/internal/middleware/auth.go:65-71 | a holder with a stale copy is refused and deletes the session, however fresh the stored tokens are |
| `RefreshProtocol.SecondLockerIsStale` | server/services/myaccount-bff/internal/middleware/auth.go:84-105 | that is where a request ends up that loaded the same session and locks after the first request left |
| `RefreshProtocol.RefreshNeverExtends` | server/services/myaccount-bff/internal/middleware/auth.go:107-120 | whatever refreshes a session, it keeps its user and creation time and no Load succeeds past its hard limit |
| `SessionFate.IdpReachable` | server/services/identity-service/internal/oidc/postgres/token_repo.go:38-204 | every run of both services is a run of identity-service, so whatever holds of it on all runs of its own holds here |
| `SessionFate.EndpointAccepts` | server/services/identity-service/internal/oidc/adapter/storage.go:143-170 | section 6 of RFC 6749: the token endpoint issues if and only if the presented token is stored and live |
| `SessionFate.RefreshKeepsExactly` | server/services/myaccount-bff/internal/middleware/auth.go:63-124 | a refresh by the lock holder ends with the session stored if and only if the token it loaded before the lock is still live; otherwise the session is deleted |
| `SessionFate.StaleExactly` | server/services/myaccount-bff/internal/middleware/auth.go:98-105 | when the stored token is live, the holder keeps the session if and only if what it loaded before the lock is what is stored |
| `SessionFate.TwoRequests` | server/services/myaccount-bff/internal/middleware/auth.go:52-105 | a run reaches two requests with one copy, one past its exchange and one before the lock |
| `SessionFate.SecondRequestEndsSession` | server/services/myaccount-bff/internal/middleware/auth.go:65-71 | and one in which the second locks with its old copy and ends a session whose stored token is live |
| `SessionFate.StepKeepsOver` | server/services/myaccount-bff/internal/middleware/auth.go:83-124 | no step stores a session again of which only dead copies are around |
| `SessionFate.LogoutIsFinal` | server/services/myaccount-bff/internal/handler/auth.go:87-94 | a session that cannot be loaded never comes back, if no request past its exchange or with a live copy is in flight |
| `SessionFate.LogoutIsFinalExactly` | server/services/myaccount-bff/internal/handler/auth.go:87-94 | a session that cannot be loaded comes back in some continuation if and only if a request of it is past its exchange, or is before it with a copy whose token is still live |
| `SessionFate.RefreshOutlivesLogout` | server/services/myaccount-bff/internal/middleware/auth.go:120-122 | a refresh past its exchange stores the session again by its own two last steps, logout or not |
| `RateLimiter.IPRateLimiter.Allow` | server/services/identity-service/internal/middleware/ratelimit.go:37-52 | admits internal requests untouched; otherwise a new address starts with a full bucket, a known one gains rate per second up to the burst, one token is spent if there is one, and a refusal spends nothing; no other address is touched |
| `RateLimiter.IPRateLimiter.Cleanup` | server/services/identity-service/internal/middleware/ratelimit.go:56-65 | keeps exactly the entries seen at or after the threshold |
| `RateLimiter.EvictionIsUnobservable` | server/services/identity-service/internal/middleware/ratelimit.go:56-65 | when a bucket refills within ttl, cleanups at any times change no answer of any run |
| `RateLimiter.EvictionUnobservableExactly` | server/services/identity-service/internal/middleware/ratelimit.go:56-65 | eviction is unobservable if and only if rate * ttl >= burst |
| `RateLimiter.Conserved` | server/services/identity-service/internal/middleware/ratelimit.go:37-65 | tokens are conserved: admitted requests plus what is left is at most what was there plus what refilled |
| `RateLimiter.WindowBound` | server/services/identity-service/internal/middleware/ratelimit.go:37-65 | in every run and window of length w an address is admitted at most burst + rate * w times, across evictions |
| `RateLimiter.BurstExactly` | server/services/identity-service/internal/middleware/ratelimit.go:37-52 | at one moment an address is admitted exactly as often as its bucket holds whole tokens |
| `RateLimiter.SteadyIsAdmitted` | server/services/identity-service/internal/middleware/ratelimit.go:27-28 | after any run an address is admitted again once the time for one token has passed |
| `RateLimiter.ConfiguredRefills` | server/services/identity-service/config/config.go:157-168 | every admitted RPM refills each of the three buckets within the 15 minutes |
| `RateLimiter.ConfiguredLimiter` | server/services/identity-service/main.go:203-218 | so both promises hold for all limiters as configured |
| `RateLimiter.ConfiguredBursts` | server/services/identity-service/main.go:154-156 | as configured, a new address is admitted exactly 5 logins, 10 token calls and RPM / 4 requests at once, and a login or token call after each 60 / RPM seconds |
| `RateLimiter.GlobalAdmitsExactly` | server/services/identity-service/main.go:154 | the global burst is RPM / 4 in integers: the limiter ever admits an external request if and only if RPM >= 4 |
| `BlobApp.BlobRef.Commit` | server/services/blob-service/internal/domain/blob.go:51-58 | a pending blob becomes committed at that time, a committed one stays; the same as MarkCommitted on its row |
| `BlobApp.BlobRepo.CreateRow` | server/services/blob-service/internal/repository/postgres/blob_repo.go:48-62 | inserts, or reports a duplicate of whatever state and changes nothing |
| `BlobApp.BlobRepo.MarkRow` | server/services/blob-service/internal/repository/postgres/blob_repo.go:64-81 | commits a PENDING row; otherwise reports and changes nothing |
| `BlobApp.App.InitiateUpload` | server/services/blob-service/internal/app/blob_app.go:34-63 | an unknown ID gets a PENDING row; a committed one is answered as existing, any other gets a URL unless storage fails; that is what the atomic machine does |
| `BlobApp.App.InitiateMultipartUpload` | server/services/blob-service/internal/app/blob_app.go:102-151 | the same, with one URL per part numbered from 1, or none at all |
| `BlobApp.App.CompleteUpload` | server/services/blob-service/internal/app/blob_app.go:70-88 | commits a PENDING row as of now, and only that; a missing or committed one is refused as such; that is what the atomic machine does |
| `BlobApp.App.CompleteMultipartUpload` | server/services/blob-service/internal/app/blob_app.go:158-180 | the same, once storage has assembled the parts |
| `BlobApp.App.GetDownloadURL` | server/services/blob-service/internal/app/blob_app.go:197-219 | a URL if and only if the row is committed and storage answers, BlobPending for a pending row, BlobNotFound for none; for the time asked for if it is positive and within the configured maximum, and for the maximum otherwise |
| `BlobApp.App.GetBlobInfo` | server/services/blob-service/internal/app/blob_app.go:221-230 | answers the stored row, or BlobNotFound |
| `BlobUpload.StepKeepsInv` | server/services/blob-service/internal/app/blob_app.go:34-230 | every repository or storage step of every call keeps the refinement |
| `BlobUpload.Refinement` | server/services/blob-service/internal/app/blob_app.go:34-230 | every interleaved run is a run of the atomic machine absent, PENDING, COMMITTED: each call takes effect at most once, the table is what the machine holds, and every answer is the machine's |
| `BlobUpload.EffectsAreOwn` | server/services/blob-service/internal/app/blob_app.go:34-230 | a call takes effect at a step of its own, as an operation of its own request |
| `BlobUpload.ExactlyOnceCommit` | server/services/blob-service/internal/app/blob_app.go:83-87 | of all completions of an ID, single or multipart, at most one succeeds, and the committed_at it answered is stored for ever |
| `BlobUpload.AlreadyCommittedIsTrue` | server/services/blob-service/internal/app/blob_app.go:79-86 | a completion that answers "already committed" does so for a committed row only |
| `BlobUpload.AnswersAreTrue` | server/services/blob-service/internal/app/blob_app.go:34-230 | in every reachable state, whatever ran in between, every answer fits a row to which at most a commit was added since: a download URL a committed one, an upload URL a pending one, information the row itself, not found none |
| `BlobUpload.DownloadsAreCommitted` | server/services/blob-service/internal/app/blob_app.go:207-218 | nobody is sent to a blob that is not committed |
| `BlobAlone.CallAlone` | server/services/blob-service/internal/app/blob_app.go:34-230 | every call that runs by itself ends, within as many statements as it has, with the row and answer it is for; a multipart upload is committed only after storage has assembled it |
| `BlobUpload.IdentityIsFixed` | server/services/blob-service/internal/repository/postgres/blob_repo.go:48-81 | the first Create fixes size, type, key and creation time, the key is the ID, and committed_at is set exactly when COMMITTED, not before created_at |
| `BlobUpload.DownloadLifetime` | server/services/blob-service/internal/app/blob_app.go:202-214 | on every run a URL is presigned for the time asked for within the maximum, and for the maximum otherwise |
| `IdentityService.UserRepository.FindByFederatedIdentity` | server/services/identity-service/internal/identity/postgres/user_repo.go:105-122 | answers a user linked to the pair, or none if there is none |
| `IdentityService.UserRepository.GetByID` | server/services/identity-service/internal/identity/postgres/user_repo.go:89-103 | the row, or not found |
| `IdentityService.UserRepository.UpdateLocalProfile` | server/services/identity-service/internal/identity/postgres/user_repo.go:256-281 | a given name or picture is stored, none if it is empty; one not given stays, and so does every other column and row |
| `IdentityService.UserRepository.CreateWithFederatedIdentity` | server/services/identity-service/internal/identity/postgres/user_repo.go:124-162 | stores user and identity, or neither |
| `IdentityService.UserRepository.UpdateUserFromClaims` | server/services/identity-service/internal/identity/postgres/user_repo.go:164-180 | the one row takes every claim, but not a name or picture that a local one shadows; all else stays |
| `IdentityService.UserRepository.UpdateFederatedIdentityClaims` | server/services/identity-service/internal/identity/postgres/user_repo.go:182-204 | updates the identities of the pair and no other |
| `IdentityService.UserRepository.DeleteFederatedIdentity` | server/services/identity-service/internal/identity/postgres/user_repo.go:226-254 | refuses exactly when the user has at most one identity; a success takes the one row, and another of the user is left |
| `IdentityService.Service.FindOrCreateByFederatedLogin` | server/services/identity-service/internal/identity/service.go:30-89 | answers the pair's user with the new claims and stores them in both rows, creating both the first time; no other row changes, and users and pairs stay in correspondence |
| `IdentityService.Service.GetUser` | server/services/identity-service/internal/identity/service.go:21-28 | the row, with the chosen name and picture where there are nonempty ones |
| `IdentityService.Service.UpdateProfile` | server/services/identity-service/internal/identity/service.go:91-99 | a chosen name or picture is what is shown, and the empty choice shows the provider's again |
| `IdentityService.Service.UnlinkProvider` | server/services/identity-service/internal/identity/service.go:111-118 | refused while users and pairs correspond, as they do in every reachable state |
| `UserRegistry.LoginWrites` | server/services/identity-service/internal/identity/service.go:41-88 | on every run, what each statement of a login writes, row by row, and that it leaves the others |
| `UserRegistry.StepKeepsInv` | server/services/identity-service/internal/identity/service.go:30-89 | every statement of racing logins, profile updates and unlinks keeps the correspondence |
| `UserRegistry.RegistryIsABijection` | server/services/identity-service/migrations/1_initial.up.sql:15-31 | users and pairs are in one-to-one correspondence, and no user is without a pair |
| `UserRegistry.LosingCreateLeavesNothing` | server/services/identity-service/internal/identity/postgres/user_repo.go:124-162 | a create fails if and only if another login took the pair, and then changes neither table |
| `UserRegistry.PairResolvesForEver` | server/services/identity-service/internal/identity/service.go:30-89 | a pair resolves to the same user for ever, and every successful login with it, racing or not, answers that user |
| `UserRegistry.UnlinkAlwaysFails` | server/services/identity-service/internal/identity/postgres/user_repo.go:233-241 | nothing links a second provider, so unlinking is always refused |
| `UserRegistry.LocalNameIsShown` | server/services/identity-service/internal/identity/service.go:120-127 | whatever the provider says later, the name the user chose is the one shown |

## Left out

- HTTP, gRPC, cookies, HTML, Kratos, the React front end, generated code, configuration parsing, error-code mapping and key handling: I/O, or single-branch claims.
- Cryptography and encodings: library calls; hashes and generated values are modelled as said above.
- The OIDC library's own checks (client authentication, narrowing of scopes, deleting the auth request after its code was exchanged): not part of this model, so nothing is claimed about scopes along a chain, and a code may be exchanged more than once in a run.
- The user-info part of introspection, and userinfo and ID token claims: projections of the user row.
- JWT access tokens beyond their row in `tokens`: no refresh token is involved.
- Which of the two revocations the OIDC library asks for (it looks the token up as a refresh token first): not part of this model; both are modelled, for any token.
- FindOrCreate's SELECT and write are one step in `TokenSystem`; two logins racing for one new device id would differ only in which of them gets the duplicate key error.
- The library's read of a refresh token and the rotation that follows are separate events in `TokenSystem` but one step of the BFF's exchange in `RefreshProtocol`.
- `RevocationRace` leaves the device session sweep and the expiry of tokens out, lets DeleteByUserAndClient and DeleteExpired delete any rows in any order, draws the new token's hash at commit, and lets any transaction abort at any time instead of detecting deadlocks.
- `RevokeOthers` reads one clock value for the whole loop, and is proved for a loop without interference.
- Infrastructure errors: of the database, of object storage and of the token endpoint they are modelled as the calls' failing answers; of Redis in `AuthMiddleware`, and in `RefreshProtocol` all but those of Save, which would leave a spent token stored, and of the release, which would leave the lock to expire. Other database errors return before anything is committed and are not told apart.
- The login state kept for ten minutes between redirect and callback (`LoadAndDeleteState`): one read-and-delete script.
- Rounding in golang.org/x/time/rate and the limiter's second clock reading in `limiter.Allow`: reals, and one time per request; the real code may refuse or admit a request up to a rounding error earlier.
- How a request's address and its being internal are read from headers (`clientIP`, `isInternalRequest`): parameters of the limiter.
- Object storage: each call answers or fails; COMMITTED does not mean that the object exists, as CompleteUpload does not ask storage.
- The error of a failed `Create` in blob-service: "already committed" for a PENDING row too, so nothing is claimed of it.
- `FOR UPDATE` on the `COUNT(*)` of DeleteFederatedIdentity, which PostgreSQL rejects: modelled as the guarded count it is meant to be.
- ListFederatedIdentities: a read of rows whose changes are modelled.
- Tickers: sweeps and cleanups are events at arbitrary times, which is more than the tickers do.
- Skew between the clocks of application, database and Redis, and process crashes.
- Termination: nothing is claimed about how long a call takes, beyond the lock's limit.
