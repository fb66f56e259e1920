/** The relational state of identity-service and what each repository
    transaction does to it, as functions from tables to tables.

    Every column that SQL allows to be NULL, and that the Go code reads back as
    an empty string, is an Option. `now` is the clock of the transaction. */
module Tables {
  import opened Prelude

  type Id = string
  type Time = int

  /** SHA-256 is injective on the tokens in play, so the digest is a constructor. */
  datatype TokenHash = Sha256(raw: string)

  datatype AccessToken = AccessToken(
    id: Id, clientId: Id, subject: Id, audience: seq<string>, scopes: seq<string>,
    expiration: Time, refreshTokenId: Option<Id>, createdAt: Time)

  datatype RefreshToken = RefreshToken(
    id: Id, hash: TokenHash, clientId: Id, userId: Id, audience: seq<string>, scopes: seq<string>,
    authTime: Time, amr: seq<string>, accessTokenId: Option<Id>,
    expiration: Time, createdAt: Time, deviceSessionId: Option<Id>)

  datatype DeviceSession = DeviceSession(
    id: Id, userId: Id, userAgent: string, ipAddress: string, deviceName: string,
    createdAt: Time, lastUsedAt: Time, revokedAt: Option<Time>)

  datatype AuthRequest = AuthRequest(
    id: Id, clientId: Id, scopes: seq<string>, userId: Option<Id>, authTime: Option<Time>,
    amr: seq<string>, isDone: bool, code: Option<string>, createdAt: Time,
    deviceSessionId: Option<Id>)

  datatype Tables = Tables(
    users: set<Id>,
    tokens: map<Id, AccessToken>,
    refreshTokens: map<TokenHash, RefreshToken>,  // token_hash is UNIQUE
    devices: map<Id, DeviceSession>,
    authRequests: map<Id, AuthRequest>)

  const EMPTY_TABLES := Tables({}, map[], map[], map[], map[])

  /** The filter `expiration > now()` of every live-row read. */
  predicate LiveAccess(t: AccessToken, now: Time) { t.expiration > now }

  predicate LiveRefresh(t: RefreshToken, now: Time) { t.expiration > now }

  /** `expiration > now()` and the service's expiry test are one strict comparison:
      the request is gone once the clock is after created_at + ttl. */
  predicate LiveAuth(r: AuthRequest, ttl: Time, now: Time) { now <= r.createdAt + ttl }

  /** Tokens are gone, or as they were. */
  ghost predicate OnlyRemoved(a: Tables, b: Tables) {
    b == a.(tokens := b.tokens, refreshTokens := b.refreshTokens) &&
    (forall t | t in b.tokens :: t in a.tokens && b.tokens[t] == a.tokens[t]) &&
    (forall h | h in b.refreshTokens :: h in a.refreshTokens && b.refreshTokens[h] == a.refreshTokens[h])
  }

  // ---------------------------------------------------------------- tokens

  function InsertAccess(db: Tables, row: AccessToken): Result<Tables> {
    if row.id in db.tokens then Err(DuplicateKey)
    else Ok(db.(tokens := db.tokens[row.id := row]))
  }

  predicate RefreshIdTaken(db: Tables, id: Id) {
    exists h :: h in db.refreshTokens && db.refreshTokens[h].id == id
  }

  function InsertRefresh(db: Tables, row: RefreshToken): Result<Tables> {
    if row.hash in db.refreshTokens || RefreshIdTaken(db, row.id) then Err(DuplicateKey)
    else if row.userId !in db.users then Err(ForeignKey)
    else if row.deviceSessionId.Some? && row.deviceSessionId.value !in db.devices then Err(ForeignKey)
    else Ok(db.(refreshTokens := db.refreshTokens[row.hash := row]))
  }

  /** UPDATE device_sessions SET last_used_at = now() WHERE id = d. */
  function TouchDevice(db: Tables, d: Option<Id>, now: Time): Tables {
    if d.Some? && d.value in db.devices
    then db.(devices := db.devices[d.value := db.devices[d.value].(lastUsedAt := now)])
    else db
  }

  /** Both inserts of a grant; the created_at column takes its default, now(). */
  function IssuePair(db: Tables, now: Time, access: AccessToken, refresh: RefreshToken): (r: Result<Tables>)
    ensures r.Ok? ==> refresh.hash in r.value.refreshTokens
  {
    var a :- InsertAccess(db, access.(createdAt := now));
    var b :- InsertRefresh(a, refresh.(createdAt := now));
    Ok(TouchDevice(b, refresh.deviceSessionId, now))
  }

  /** What remains once the presented refresh token and its access token are gone. */
  function Consume(db: Tables, current: TokenHash): Tables
    requires current in db.refreshTokens
  {
    var accessId := db.refreshTokens[current].accessTokenId;
    db.(tokens := if accessId.Some? then db.tokens - {accessId.value} else db.tokens,
        refreshTokens := db.refreshTokens - {current})
  }

  /** A rotation that names no device keeps the device of the row it replaces. */
  function WithDevice(refresh: RefreshToken, consumed: RefreshToken): RefreshToken {
    if refresh.deviceSessionId.None? then refresh.(deviceSessionId := consumed.deviceSessionId) else refresh
  }

  /** The rotation transaction. A failure commits nothing. */
  function CreateAccessAndRefresh(
    db: Tables, now: Time, access: AccessToken, refresh: RefreshToken, current: Option<TokenHash>): (r: Result<Tables>)
    ensures r.Ok? ==> refresh.hash in r.value.refreshTokens
  {
    if current.None? then IssuePair(db, now, access, refresh)
    else if current.value !in db.refreshTokens || !LiveRefresh(db.refreshTokens[current.value], now) then Err(NotFound)
    else IssuePair(Consume(db, current.value), now, access, WithDevice(refresh, db.refreshTokens[current.value]))
  }

  function GetAccess(db: Tables, now: Time, id: Id): Result<AccessToken> {
    if id in db.tokens && LiveAccess(db.tokens[id], now) then Ok(db.tokens[id]) else Err(NotFound)
  }

  function GetRefresh(db: Tables, now: Time, h: TokenHash): Result<RefreshToken> {
    if h in db.refreshTokens && LiveRefresh(db.refreshTokens[h], now) then Ok(db.refreshTokens[h]) else Err(NotFound)
  }

  function TerminateSession(db: Tables, user: Id, client: Id): Tables {
    db.(refreshTokens := map h | h in db.refreshTokens &&
          !(db.refreshTokens[h].userId == user && db.refreshTokens[h].clientId == client) :: db.refreshTokens[h],
        tokens := map a | a in db.tokens &&
          !(db.tokens[a].subject == user && db.tokens[a].clientId == client) :: db.tokens[a])
  }

  function RevokeAccess(db: Tables, id: Id, client: Id): Result<Tables> {
    if id in db.tokens && db.tokens[id].clientId == client then Ok(db.(tokens := db.tokens - {id}))
    else Err(NotFound)
  }

  function RevokeRefresh(db: Tables, h: TokenHash, client: Id): Result<Tables> {
    if h in db.refreshTokens && db.refreshTokens[h].clientId == client
    then Ok(db.(refreshTokens := db.refreshTokens - {h}))
    else Err(NotFound)
  }

  /** The two statements of DeleteExpired, each its own transaction. */
  function SweepAccess(db: Tables, before: Time): Tables {
    db.(tokens := map a | a in db.tokens && db.tokens[a].expiration >= before :: db.tokens[a])
  }

  function SweepRefresh(db: Tables, before: Time): Tables {
    db.(refreshTokens := map h | h in db.refreshTokens && db.refreshTokens[h].expiration >= before ::
                           db.refreshTokens[h])
  }

  /** The rows GetLatestDeviceSessionID may pick: live rows of the user and client
      that no other such row is newer than. created_at can tie, so this is a set. */
  predicate LatestRow(db: Tables, now: Time, user: Id, client: Id, h: TokenHash)
  {
    Candidate(db, now, user, client, h) &&
    forall g | g in db.refreshTokens :: Candidate(db, now, user, client, g) ==>
      db.refreshTokens[g].createdAt <= db.refreshTokens[h].createdAt
  }

  predicate Candidate(db: Tables, now: Time, user: Id, client: Id, h: TokenHash) {
    h in db.refreshTokens && LiveRefresh(db.refreshTokens[h], now) &&
    db.refreshTokens[h].userId == user && db.refreshTokens[h].clientId == client
  }

  /** The answers GetLatestDeviceSessionID may give, empty when there is no row. */
  function LatestDevices(db: Tables, now: Time, user: Id, client: Id): set<Option<Id>> {
    set h | h in db.refreshTokens && LatestRow(db, now, user, client, h) :: db.refreshTokens[h].deviceSessionId
  }

  // ------------------------------------------------------- device sessions

  function CreateDevice(db: Tables, row: DeviceSession): Result<Tables> {
    if row.id in db.devices then Err(DuplicateKey)
    else if row.userId !in db.users then Err(ForeignKey)
    else Ok(db.(devices := db.devices[row.id := row]))
  }

  datatype Found = Found(db: Tables, id: Id)

  /** FindOrCreate: reuse the row only when it is this user's and unrevoked;
      otherwise create one, under a fresh id if the presented id is occupied. */
  function FindOrCreateDevice(
    db: Tables, now: Time, id: Id, freshId: Id, user: Id, userAgent: string, ip: string, name: string): Result<Found>
  {
    if id in db.devices && db.devices[id].userId == user && db.devices[id].revokedAt.None? then
      Ok(Found(db.(devices := db.devices[id := db.devices[id].(userAgent := userAgent, ipAddress := ip,
                                                               lastUsedAt := now)]), id))
    else
      var newId := if id in db.devices then freshId else id;
      var db' :- CreateDevice(db, DeviceSession(newId, user, userAgent, ip, name, now, now, None));
      Ok(Found(db', newId))
  }

  predicate ActiveDevice(db: Tables, d: Id, user: Id) {
    d in db.devices && db.devices[d].userId == user && db.devices[d].revokedAt.None?
  }

  function WithoutTokensOf(rows: map<TokenHash, RefreshToken>, d: Id): map<TokenHash, RefreshToken> {
    map h | h in rows && rows[h].deviceSessionId != Some(d) :: rows[h]
  }

  /** RevokeByID: note that the refresh tokens are deleted by device alone. */
  function RevokeDevice(db: Tables, now: Time, d: Id, user: Id): Result<Tables> {
    if !ActiveDevice(db, d, user) then Err(NotFound)
    else Ok(db.(devices := db.devices[d := db.devices[d].(revokedAt := Some(now))],
                refreshTokens := WithoutTokensOf(db.refreshTokens, d)))
  }

  function ActiveDevices(db: Tables, user: Id): set<Id> {
    set d | d in db.devices && ActiveDevice(db, d, user)
  }

  predicate HasLiveToken(db: Tables, now: Time, d: Id) {
    exists h ::
      h in db.refreshTokens && db.refreshTokens[h].deviceSessionId == Some(d) && LiveRefresh(db.refreshTokens[h], now)
  }

  function StaleDevices(db: Tables, now: Time, before: Time): set<Id> {
    set d | d in db.devices && db.devices[d].revokedAt.Some? && db.devices[d].revokedAt.value < before
            && !HasLiveToken(db, now, d)
  }

  function Unlink(d: Option<Id>, gone: set<Id>): Option<Id> {
    if d.Some? && d.value in gone then None else d
  }

  /** Deleting device rows with both ON DELETE SET NULL foreign keys. */
  function DeleteDevices(db: Tables, gone: set<Id>): Tables {
    db.(devices := db.devices - gone,
        refreshTokens := map h | h in db.refreshTokens ::
          db.refreshTokens[h].(deviceSessionId := Unlink(db.refreshTokens[h].deviceSessionId, gone)),
        authRequests := map r | r in db.authRequests ::
          db.authRequests[r].(deviceSessionId := Unlink(db.authRequests[r].deviceSessionId, gone)))
  }

  function DeleteRevokedBefore(db: Tables, now: Time, before: Time): Tables {
    DeleteDevices(db, StaleDevices(db, now, before))
  }

  // ---------------------------------------------------------- auth requests

  function InsertAuthRequest(db: Tables, row: AuthRequest): Result<Tables> {
    if row.id in db.authRequests then Err(DuplicateKey)
    else Ok(db.(authRequests := db.authRequests[row.id := row]))
  }

  function WithCode(rows: map<Id, AuthRequest>, id: Id, code: string): map<Id, AuthRequest> {
    if id in rows then rows[id := rows[id].(code := Some(code))] else rows
  }

  function SaveCode(db: Tables, id: Id, code: string): Tables {
    db.(authRequests := WithCode(db.authRequests, id, code))
  }

  function CompleteLogin(db: Tables, id: Id, user: Id, authTime: Time, amr: seq<string>,
                         d: Option<Id>): Result<Tables> {
    if id !in db.authRequests then Ok(db)
    else if d.Some? && d.value !in db.devices then Err(ForeignKey)
    else Ok(db.(authRequests := db.authRequests[id :=
      db.authRequests[id].(userId := Some(user), authTime := Some(authTime), amr := amr, isDone := true,
                           deviceSessionId := d)]))
  }

  function DeleteAuthRequest(db: Tables, id: Id): Tables {
    db.(authRequests := db.authRequests - {id})
  }

  function SweepAuthRequests(db: Tables, before: Time): Tables {
    db.(authRequests := map r | r in db.authRequests && db.authRequests[r].createdAt >= before :: db.authRequests[r])
  }

  function GetAuthRequest(db: Tables, ttl: Time, now: Time, id: Id): Result<AuthRequest> {
    if id in db.authRequests && LiveAuth(db.authRequests[id], ttl, now) then Ok(db.authRequests[id]) else Err(NotFound)
  }

  function RowsWithCode(db: Tables, code: string): set<Id> {
    set id | id in db.authRequests && db.authRequests[id].code == Some(code)
  }

  /** The answers GetByCode may give: code is not UNIQUE, and the query takes any one row. */
  function GetAuthRequestByCode(db: Tables, ttl: Time, now: Time, code: string): set<Result<AuthRequest>> {
    if RowsWithCode(db, code) == {} then {Err(NotFound)}
    else set id | id in RowsWithCode(db, code) :: GetAuthRequest(db, ttl, now, id)
  }
}
