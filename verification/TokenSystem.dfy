/** identity-service as a state machine: every client call, split at its database
    transactions, and every background sweep is one event. Calls that read a row,
    return to the OIDC library and write later keep what they read in between. */
module TokenSystem {
  import opened Prelude
  import opened Tables

  datatype Config = Config(accessTTL: Time, refreshTTL: Time, authTTL: Time, maxRequest: Time)

  predicate ValidConfig(c: Config) {
    c.accessTTL > 0 && c.refreshTTL > 0 && c.authTTL > 0 && c.maxRequest >= 0
  }

  /** Time is in milliseconds; runDeviceSessionCleanup keeps revoked sessions 30 days. */
  const DEVICE_RETENTION: Time := 30 * 24 * 3600 * 1000

  const ZERO_TIME: Time := 0

  // ------------------------------------------------- what the adapter builds

  datatype TokenRequest =
    | CodeRequest(authRequest: AuthRequest)
    | RefreshRequest(domain: RefreshToken, currentScopes: seq<string>)
  {
    function ClientId(): Id {
      match this
      case CodeRequest(r) => r.clientId
      case RefreshRequest(t, _) => t.clientId
    }

    function Subject(): Id {
      match this
      case CodeRequest(r) => r.userId.GetOr("")
      case RefreshRequest(t, _) => t.userId
    }

    function Audience(): seq<string> {
      match this
      case CodeRequest(r) => [r.clientId]
      case RefreshRequest(t, _) => t.audience
    }

    function Scopes(): seq<string> {
      match this
      case CodeRequest(r) => r.scopes
      case RefreshRequest(_, scopes) => scopes
    }

    function AuthTime(): Time {
      match this
      case CodeRequest(r) => r.authTime.GetOr(ZERO_TIME)
      case RefreshRequest(t, _) => t.authTime
    }

    function Amr(): seq<string> {
      match this
      case CodeRequest(r) => r.amr
      case RefreshRequest(t, _) => t.amr
    }

    /** RefreshTokenRequest has no GetDeviceSessionID. */
    function DeviceSession(): Option<Id> {
      match this
      case CodeRequest(r) => r.deviceSessionId
      case RefreshRequest(_, _) => None
    }
  }

  datatype NewIds = NewIds(access: Id, refresh: Id, raw: string)

  datatype Pair = Pair(access: AccessToken, refresh: RefreshToken)

  function BuildPair(c: Config, now: Time, request: TokenRequest, ids: NewIds): Pair {
    Pair(
      AccessToken(ids.access, request.ClientId(), request.Subject(), request.Audience(), request.Scopes(),
                  now + c.accessTTL, Some(ids.refresh), now),
      RefreshToken(ids.refresh, Sha256(ids.raw), request.ClientId(), request.Subject(), request.Audience(),
                   request.Scopes(), request.AuthTime(), request.Amr(), Some(ids.access), now + c.refreshTTL, now,
                   request.DeviceSession()))
  }

  datatype Introspection =
    | Inactive
    | Active(subject: Id, clientId: Id, scopes: seq<string>, audience: seq<string>, expiration: Time, issuedAt: Time)

  function Introspect(db: Tables, now: Time, id: Id): Introspection {
    match GetAccess(db, now, id)
    case Err(_) => Inactive
    case Ok(t) => Active(t.subject, t.clientId, t.scopes, t.audience, t.expiration, t.createdAt)
  }

  // ------------------------------------------------------------------ states

  /** A refresh token as it was inserted, and the token it replaced. */
  datatype Issue = Issue(row: RefreshToken, parent: Option<TokenHash>, depth: nat)

  datatype CodeRead = CodeRead(request: AuthRequest, at: Time)

  datatype Login = Login(user: Id, device: Id, at: Time)

  /** `log`, `issued` and `codes` are history: no event reads them except to
      demand that generated values are fresh. */
  datatype State = State(
    now: Time,
    db: Tables,
    logins: map<nat, Login>,
    codeReads: map<nat, CodeRead>,
    refreshReads: map<nat, RefreshToken>,
    log: map<TokenHash, Issue>,
    issued: set<string>,
    codes: map<string, Id>)

  const INIT := State(0, EMPTY_TABLES, map[], map[], map[], map[], {}, map[])

  datatype Event =
    | Tick(elapsed: nat)
    | NewUser(user: Id)
    | Ask(query: Query)
    | LoginCall(login: LoginEvent)
    | TokenCall(token: TokenEvent)
    | Revoke(revocation: Revocation)
    | Sweep(table: SweptTable, lag: nat)  // the sweep reads its clock `lag` before its statement runs

  datatype Query =
    | GetAuthByID(id: Id)
    | GetAuthByCode(code: string)
    | GetAccessByID(id: Id)
    | IntrospectToken(id: Id)
    | GetRefreshToken(raw: string)
    | GetRefreshInfo(raw: string)
    | GetLatestDevice(user: Id, clientId: Id)

  datatype LoginEvent =
    | CreateAuthRequest(id: Id, clientId: Id, scopes: seq<string>)
    | FindDevice(call: nat, cookie: Id, freshId: Id, user: Id, userAgent: string, ip: string, name: string)
    | FinishLogin(call: nat, authRequest: Id)
    | SaveAuthCode(id: Id, code: string)
    | ReadCode(call: nat, code: string, id: Id)  // id: the row the query returned
    | DeleteAuth(id: Id)

  datatype TokenEvent =
    | Grant(call: nat, ids: NewIds)
    | GrantAccess(id: Id, clientId: Id, subject: Id, audience: seq<string>, scopes: seq<string>)
    | ReadRefresh(call: nat, raw: string)
    | Rotate(call: nat, ids: NewIds, scopes: seq<string>)

  datatype Revocation =
    | Terminate(user: Id, clientId: Id)
    | RevokeAccessToken(id: Id, clientId: Id)
    | RevokeRefreshToken(raw: string, clientId: Id)
    | RevokeDeviceSession(device: Id, user: Id)

  datatype SweptTable = AccessTokens | RefreshTokens | AuthRequests | DeviceSessions

  datatype Reply =
    | Done
    | Failed(error: Error)
    | Ignored                     // not an event of this state
    | AccessReply(access: Result<AccessToken>)
    | IntrospectReply(introspection: Introspection)
    | RefreshReply(refresh: Result<RefreshToken>)
    | InfoReply(info: Result<(Id, Id)>)
    | DevicesReply(devices: set<Option<Id>>)
    | AuthReply(request: Result<AuthRequest>)
    | AuthAnswers(requests: set<Result<AuthRequest>>)
    | IssuedReply(accessId: Id, raw: string)

  datatype Outcome = Outcome(state: State, reply: Reply)

  function Committed(s: State, r: Result<Tables>): Outcome {
    match r
    case Ok(db) => Outcome(s.(db := db), Done)
    case Err(e) => Outcome(s, Failed(e))
  }

  predicate FreshIds(s: State, ids: NewIds) {
    ids.access !in s.issued && ids.refresh !in s.issued && ids.raw !in s.issued &&
    ids.access != ids.refresh && ids.access != ids.raw && ids.refresh != ids.raw
  }

  /** CreateAccessAndRefreshTokens; the log grows only when the transaction commits. */
  function Issuing(c: Config, s: State, request: TokenRequest, ids: NewIds, current: Option<TokenHash>): Outcome {
    var pair := BuildPair(c, s.now, request, ids);
    match CreateAccessAndRefresh(s.db, s.now, pair.access, pair.refresh, current)
    case Err(e) => Outcome(s, Failed(e))
    case Ok(db) =>
      var h := Sha256(ids.raw);
      var depth := if current.Some? && current.value in s.log then s.log[current.value].depth + 1 else 0;
      var entry := Issue(db.refreshTokens[h], current, depth);
      Outcome(s.(db := db, log := s.log[h := entry], issued := s.issued + {ids.access, ids.refresh, ids.raw}),
              IssuedReply(ids.access, ids.raw))
  }

  function GrantStep(c: Config, s: State, call: nat, ids: NewIds): Outcome {
    if call !in s.codeReads || s.now > s.codeReads[call].at + c.maxRequest || !FreshIds(s, ids) then Outcome(s, Ignored)
    else Issuing(c, s.(codeReads := s.codeReads - {call}), CodeRequest(s.codeReads[call].request), ids, None)
  }

  /** The library presents the token whose request it just read. */
  function RotateStep(c: Config, s: State, call: nat, ids: NewIds, scopes: seq<string>): Outcome {
    if call !in s.refreshReads || !FreshIds(s, ids) then Outcome(s, Ignored)
    else
      var read := s.refreshReads[call];
      Issuing(c, s.(refreshReads := s.refreshReads - {call}), RefreshRequest(read, scopes), ids, Some(read.hash))
  }

  function FindDeviceStep(s: State, call: nat, cookie: Id, freshId: Id, user: Id, userAgent: string, ip: string,
                          name: string): Outcome {
    match FindOrCreateDevice(s.db, s.now, cookie, freshId, user, userAgent, ip, name)
    case Err(e) => Outcome(s, Failed(e))
    case Ok(found) => Outcome(s.(db := found.db, logins := s.logins[call := Login(user, found.id, s.now)]), Done)
  }

  function FinishLoginStep(c: Config, s: State, call: nat, authRequest: Id): Outcome {
    if call !in s.logins || s.now > s.logins[call].at + c.maxRequest then Outcome(s, Ignored)
    else
      var login := s.logins[call];
      Committed(s.(logins := s.logins - {call}),
                CompleteLogin(s.db, authRequest, login.user, s.now, ["fed"], Some(login.device)))
  }

  function ReadCodeStep(c: Config, s: State, call: nat, code: string, id: Id): Outcome {
    if id !in RowsWithCode(s.db, code) then Outcome(s, AuthReply(Err(NotFound)))
    else
      var r := GetAuthRequest(s.db, c.authTTL, s.now, id);
      Outcome(if r.Ok? then s.(codeReads := s.codeReads[call := CodeRead(r.value, s.now)]) else s, AuthReply(r))
  }

  function ReadRefreshStep(s: State, call: nat, raw: string): Outcome {
    var r := GetRefresh(s.db, s.now, Sha256(raw));
    Outcome(if r.Ok? then s.(refreshReads := s.refreshReads[call := r.value]) else s, RefreshReply(r))
  }

  /** Generated codes are unique: a code belongs to one auth request for ever. */
  function SaveCodeStep(s: State, id: Id, code: string): Outcome {
    if code in s.codes && s.codes[code] != id then Outcome(s, Ignored)
    else Outcome(s.(db := SaveCode(s.db, id, code), codes := s.codes[code := id]), Done)
  }

  function CreateAuthRequestStep(s: State, id: Id, clientId: Id, scopes: seq<string>): Outcome {
    if id in s.issued then Outcome(s, Ignored)
    else Committed(s.(issued := s.issued + {id}),
                   InsertAuthRequest(s.db, AuthRequest(id, clientId, scopes, None, None, [], false, None, s.now, None)))
  }

  function GrantAccessStep(s: State, row: AccessToken): Outcome {
    if row.id in s.issued then Outcome(s, Ignored)
    else Committed(s.(issued := s.issued + {row.id}), InsertAccess(s.db, row))
  }

  function RefreshInfo(db: Tables, now: Time, raw: string): Result<(Id, Id)> {
    var t :- GetRefresh(db, now, Sha256(raw));
    Ok((t.userId, t.id))
  }

  function Answer(c: Config, s: State, q: Query): Reply {
    match q
    case GetAuthByID(id) => AuthReply(GetAuthRequest(s.db, c.authTTL, s.now, id))
    case GetAuthByCode(code) => AuthAnswers(GetAuthRequestByCode(s.db, c.authTTL, s.now, code))
    case GetAccessByID(id) => AccessReply(GetAccess(s.db, s.now, id))
    case IntrospectToken(id) => IntrospectReply(Introspect(s.db, s.now, id))
    case GetRefreshToken(raw) => RefreshReply(GetRefresh(s.db, s.now, Sha256(raw)))
    case GetRefreshInfo(raw) => InfoReply(RefreshInfo(s.db, s.now, raw))
    case GetLatestDevice(user, clientId) => DevicesReply(LatestDevices(s.db, s.now, user, clientId))
  }

  function LoginStep(c: Config, s: State, e: LoginEvent): Outcome {
    match e
    case CreateAuthRequest(id, clientId, scopes) => CreateAuthRequestStep(s, id, clientId, scopes)
    case FindDevice(call, cookie, freshId, user, userAgent, ip, name) =>
      FindDeviceStep(s, call, cookie, freshId, user, userAgent, ip, name)
    case FinishLogin(call, authRequest) => FinishLoginStep(c, s, call, authRequest)
    case SaveAuthCode(id, code) => SaveCodeStep(s, id, code)
    case ReadCode(call, code, id) => ReadCodeStep(c, s, call, code, id)
    case DeleteAuth(id) => Outcome(s.(db := DeleteAuthRequest(s.db, id)), Done)
  }

  function TokenStep(c: Config, s: State, e: TokenEvent): Outcome {
    match e
    case Grant(call, ids) => GrantStep(c, s, call, ids)
    case GrantAccess(id, clientId, subject, audience, scopes) =>
      GrantAccessStep(s, AccessToken(id, clientId, subject, audience, scopes, s.now + c.accessTTL, None, s.now))
    case ReadRefresh(call, raw) => ReadRefreshStep(s, call, raw)
    case Rotate(call, ids, scopes) => RotateStep(c, s, call, ids, scopes)
  }

  function Revoked(db: Tables, now: Time, r: Revocation): Result<Tables> {
    match r
    case Terminate(user, clientId) => Ok(TerminateSession(db, user, clientId))
    case RevokeAccessToken(id, clientId) => RevokeAccess(db, id, clientId)
    case RevokeRefreshToken(raw, clientId) => RevokeRefresh(db, Sha256(raw), clientId)
    case RevokeDeviceSession(device, user) => RevokeDevice(db, now, device, user)
  }

  function Swept(c: Config, db: Tables, now: Time, table: SweptTable, lag: nat): Tables {
    match table
    case AccessTokens => SweepAccess(db, now - lag)
    case RefreshTokens => SweepRefresh(db, now - lag)
    case AuthRequests => SweepAuthRequests(db, now - lag - c.authTTL)
    case DeviceSessions => DeleteRevokedBefore(db, now, now - lag - DEVICE_RETENTION)
  }

  function Step(c: Config, s: State, e: Event): Outcome {
    match e
    case Tick(elapsed) => Outcome(s.(now := s.now + elapsed), Done)
    case NewUser(user) =>
      if user == "" then Outcome(s, Ignored) else Outcome(s.(db := s.db.(users := s.db.users + {user})), Done)
    case Ask(query) => Outcome(s, Answer(c, s, query))
    case LoginCall(login) => LoginStep(c, s, login)
    case TokenCall(token) => TokenStep(c, s, token)
    case Revoke(revocation) => Committed(s, Revoked(s.db, s.now, revocation))
    case Sweep(table, lag) => Outcome(s.(db := Swept(c, s.db, s.now, table, lag)), Done)
  }

  function Run(c: Config, s: State, events: seq<Event>): State
    decreases |events|
  {
    if events == [] then s else Run(c, Step(c, s, events[0]).state, events[1..])
  }

  /** A state some run of the service reaches. */
  ghost predicate Reachable(c: Config, s: State) {
    exists events :: s == Run(c, INIT, events)
  }

  /** What the queries answer, from the rows: what has expired is not found. */
  lemma QueriesAnswer(c: Config, s: State, q: Query)
    ensures
      var reply := Step(c, s, Ask(q)).reply;
      match q
      case GetAuthByID(id) =>
        reply == AuthReply(if id in s.db.authRequests && s.now <= s.db.authRequests[id].createdAt + c.authTTL
                           then Ok(s.db.authRequests[id]) else Err(NotFound))
      case GetAuthByCode(code) =>
        && reply.AuthAnswers? && reply.requests != {}
        && (forall r | r in reply.requests && r.Ok? ::
              r.value.code == Some(code) && r.value in s.db.authRequests.Values &&
              s.now <= r.value.createdAt + c.authTTL)
        && (forall r | r in reply.requests && r.Err? :: r.error == NotFound)
      case GetAccessByID(id) =>
        reply == AccessReply(if id in s.db.tokens && s.now < s.db.tokens[id].expiration
                             then Ok(s.db.tokens[id]) else Err(NotFound))
      case IntrospectToken(id) =>
        && reply.IntrospectReply?
        && (reply.introspection == Inactive <==> !(id in s.db.tokens && s.now < s.db.tokens[id].expiration))
        && (reply.introspection.Active? ==>
              reply.introspection.subject == s.db.tokens[id].subject &&
              reply.introspection.expiration == s.db.tokens[id].expiration)
      case GetRefreshToken(raw) =>
        reply == RefreshReply(
          if Sha256(raw) in s.db.refreshTokens && s.now < s.db.refreshTokens[Sha256(raw)].expiration
          then Ok(s.db.refreshTokens[Sha256(raw)]) else Err(NotFound))
      case GetRefreshInfo(raw) =>
        reply == InfoReply(
          if Sha256(raw) in s.db.refreshTokens && s.now < s.db.refreshTokens[Sha256(raw)].expiration
          then Ok((s.db.refreshTokens[Sha256(raw)].userId, s.db.refreshTokens[Sha256(raw)].id)) else Err(NotFound))
      case GetLatestDevice(user, clientId) =>
        && reply.DevicesReply?
        && forall d | d in reply.devices :: exists h ::
             h in s.db.refreshTokens && s.db.refreshTokens[h].deviceSessionId == d &&
             s.now < s.db.refreshTokens[h].expiration && s.db.refreshTokens[h].userId == user &&
             s.db.refreshTokens[h].clientId == clientId && NewestOf(s.db.refreshTokens, s.now, user, clientId, h)
  {
    match q
    case GetAuthByCode(code) =>
      if RowsWithCode(s.db, code) != {} {
        var id :| id in RowsWithCode(s.db, code);
        assert GetAuthRequest(s.db, c.authTTL, s.now, id) in GetAuthRequestByCode(s.db, c.authTTL, s.now, code);
      }
    case _ =>
  }

  /** No live token of the user and client was created after h. */
  predicate NewestOf(rows: map<TokenHash, RefreshToken>, now: Time, user: Id, client: Id, h: TokenHash)
    requires h in rows
  {
    forall g | g in rows ::
      rows[g].userId == user && rows[g].clientId == client && now < rows[g].expiration ==>
        rows[g].createdAt <= rows[h].createdAt
  }

  /** Values never issued before are always to be had. */
  lemma SomeFreshIds(s: State) returns (ids: NewIds)
    ensures FreshIds(s, ids) && ids.raw != ""
  {
    var access := FreshText(s.issued);
    var refresh := FreshText(s.issued + {access});
    var raw := FreshText(s.issued + {access, refresh});
    ids := NewIds(access, refresh, raw);
  }

  lemma RunNone(c: Config, s: State)
    ensures Run(c, s, []) == s
  {}

  lemma RunOne(c: Config, s: State, e: Event)
    ensures Run(c, s, [e]) == Step(c, s, e).state
  {
    hide Step;
    RunNone(c, Step(c, s, e).state);
    assert [e][1..] == [];
  }

  lemma {:induction false} RunAppend(c: Config, s: State, a: seq<Event>, b: seq<Event>)
    ensures Run(c, s, a + b) == Run(c, Run(c, s, a), b)
    decreases |a|
  {
    hide Step;
    if a == [] {
      assert a + b == b;
    } else {
      assert (a + b)[0] == a[0] && (a + b)[1..] == a[1..] + b;
      RunAppend(c, Step(c, s, a[0]).state, a[1..], b);
    }
  }

  lemma RunThenStep(c: Config, s: State, events: seq<Event>, e: Event)
    ensures Run(c, s, events + [e]) == Step(c, Run(c, s, events), e).state
  {
    hide Step, Run;
    RunAppend(c, s, events, [e]);
    RunOne(c, Run(c, s, events), e);
  }

  lemma Next(c: Config, s: State, e: Event) returns (t: State)
    requires Reachable(c, s)
    ensures t == Step(c, s, e).state && Reachable(c, t)
  {
    var events :| s == Run(c, INIT, events);
    RunThenStep(c, INIT, events, e);
    t := Step(c, s, e).state;
  }
}
