/** The background sweeps of expired tokens and auth requests cannot be observed:
    a run with sweeps and the same run without them give the same answers. */
module SweepBisimulation {
  import opened Prelude
  import opened Tables
  import opened TokenSystem
  import R = RotationChains

  // -------------------------------------------------------- live rows agree

  ghost predicate AccessAgree(a: map<Id, AccessToken>, b: map<Id, AccessToken>, now: Time) {
    (forall k | k in a && LiveAccess(a[k], now) :: k in b && b[k] == a[k]) &&
    (forall k | k in b && LiveAccess(b[k], now) :: k in a && a[k] == b[k])
  }

  ghost predicate RefreshAgree(a: map<TokenHash, RefreshToken>, b: map<TokenHash, RefreshToken>, now: Time) {
    (forall h | h in a && LiveRefresh(a[h], now) :: h in b && b[h] == a[h]) &&
    (forall h | h in b && LiveRefresh(b[h], now) :: h in a && a[h] == b[h])
  }

  ghost predicate AuthAgree(ttl: Time, a: map<Id, AuthRequest>, b: map<Id, AuthRequest>, now: Time) {
    (forall r | r in a && LiveAuth(a[r], ttl, now) :: r in b && b[r] == a[r]) &&
    (forall r | r in b && LiveAuth(b[r], ttl, now) :: r in a && a[r] == b[r])
  }

  ghost predicate TablesAgree(c: Config, a: Tables, b: Tables, now: Time) {
    a.users == b.users && a.devices == b.devices && AccessAgree(a.tokens, b.tokens, now) &&
    RefreshAgree(a.refreshTokens, b.refreshTokens, now) && AuthAgree(c.authTTL, a.authRequests, b.authRequests, now)
  }

  ghost predicate Agree(c: Config, s: State, t: State) {
    s.(db := t.db) == t && TablesAgree(c, s.db, t.db, s.now)
  }

  /** Stored auth requests have generated ids, and a code names one request. */
  ghost predicate AuthKnown(s: State) {
    forall r | r in s.db.authRequests :: r in s.issued &&
      (s.db.authRequests[r].code.Some? ==>
         s.db.authRequests[r].code.value in s.codes && s.codes[s.db.authRequests[r].code.value] == r)
  }

  ghost predicate Inv(s: State) {
    R.Inv(s) && AuthKnown(s)
  }

  // ------------------------------------------------------------------ sweeps

  /** Each cutoff lies below every live row's, whatever the lag. */
  lemma SweepAgrees(c: Config, db: Tables, now: Time, table: SweptTable, lag: nat)
    requires !table.DeviceSessions?
    ensures TablesAgree(c, Swept(c, db, now, table, lag), db, now)
  {}

  /** Rows are gone, or as they were. */
  ghost predicate Restricts<K, V>(a: map<K, V>, b: map<K, V>) {
    forall k | k in b :: k in a && b[k] == a[k]
  }

  /** The deleted session is no longer named, and nothing else changed in these rows. */
  function Follow(d: Option<Id>, a: Tables, b: Tables): Option<Id> {
    if d.Some? && d.value in a.devices && d.value !in b.devices then None else d
  }

  ghost predicate LinksFollow(a: Tables, b: Tables) {
    a.refreshTokens.Keys == b.refreshTokens.Keys && a.authRequests.Keys == b.authRequests.Keys &&
    (forall h | h in b.refreshTokens :: b.refreshTokens[h] ==
      a.refreshTokens[h].(deviceSessionId := Follow(a.refreshTokens[h].deviceSessionId, a, b))) &&
    (forall r | r in b.authRequests :: b.authRequests[r] ==
      a.authRequests[r].(deviceSessionId := Follow(a.authRequests[r].deviceSessionId, a, b)))
  }

  /** What each sweep deletes, from the rows: what expired, or was created longer than a
      lifetime, before the sweep's clock, all of it and nothing else; of the device sessions
      those revoked before the retention that no live token refers to. */
  lemma SweepDeletes(c: Config, db: Tables, now: Time, table: SweptTable, lag: nat)
    ensures
      var t := Swept(c, db, now, table, lag);
      match table
      case AccessTokens =>
        && t == db.(tokens := t.tokens) && Restricts(db.tokens, t.tokens)
        && forall a | a in db.tokens :: a in t.tokens <==> db.tokens[a].expiration + lag >= now
      case RefreshTokens =>
        && t == db.(refreshTokens := t.refreshTokens) && Restricts(db.refreshTokens, t.refreshTokens)
        && forall h | h in db.refreshTokens :: h in t.refreshTokens <==> db.refreshTokens[h].expiration + lag >= now
      case AuthRequests =>
        && t == db.(authRequests := t.authRequests) && Restricts(db.authRequests, t.authRequests)
        && forall r | r in db.authRequests ::
             r in t.authRequests <==> db.authRequests[r].createdAt + c.authTTL + lag >= now
      case DeviceSessions =>
        && t.users == db.users && t.tokens == db.tokens && Restricts(db.devices, t.devices)
        && (forall d | d in db.devices :: d !in t.devices <==>
              db.devices[d].revokedAt.Some? && db.devices[d].revokedAt.value + DEVICE_RETENTION + lag < now &&
              forall h | h in db.refreshTokens && db.refreshTokens[h].expiration > now ::
                db.refreshTokens[h].deviceSessionId != Some(d))
        && LinksFollow(db, t)
  {}

  lemma AgreeTransitive(c: Config, a: Tables, b: Tables, d: Tables, now: Time)
    requires TablesAgree(c, a, b, now) && TablesAgree(c, b, d, now)
    ensures TablesAgree(c, a, d, now)
  {}

  lemma HasLiveTokenAgrees(a: Tables, b: Tables, now: Time, d: Id)
    requires RefreshAgree(a.refreshTokens, b.refreshTokens, now) && HasLiveToken(a, now, d)
    ensures HasLiveToken(b, now, d)
  {}

  /** The device session sweep looks at live tokens only, so it deletes the same rows. */
  lemma DeviceSweepAgrees(c: Config, a: Tables, b: Tables, now: Time, before: Time)
    requires TablesAgree(c, a, b, now)
    ensures TablesAgree(c, DeleteRevokedBefore(a, now, before), DeleteRevokedBefore(b, now, before), now)
  {
    forall d {:trigger HasLiveToken(a, now, d)} ensures HasLiveToken(a, now, d) <==> HasLiveToken(b, now, d) {
      if HasLiveToken(a, now, d) { HasLiveTokenAgrees(a, b, now, d); }
      if HasLiveToken(b, now, d) { HasLiveTokenAgrees(b, a, now, d); }
    }
    assert StaleDevices(a, now, before) == StaleDevices(b, now, before);
    UnlinkAgrees(c, a, b, now, StaleDevices(a, now, before));
  }

  lemma UnlinkAgrees(c: Config, a: Tables, b: Tables, now: Time, gone: set<Id>)
    requires TablesAgree(c, a, b, now)
    ensures TablesAgree(c, DeleteDevices(a, gone), DeleteDevices(b, gone), now)
  {}

  // ----------------------------------------------------------------- queries

  lemma LatestAgrees(a: Tables, b: Tables, now: Time, user: Id, client: Id)
    requires RefreshAgree(a.refreshTokens, b.refreshTokens, now)
    ensures LatestDevices(a, now, user, client) <= LatestDevices(b, now, user, client)
  {}

  /** Codes are unique, so GetByCode has one answer and it depends on a live row. */
  lemma CodeAnswer(c: Config, s: State, code: string)
    requires AuthKnown(s)
    ensures GetAuthRequestByCode(s.db, c.authTTL, s.now, code) ==
      { if code in s.codes && s.codes[code] in s.db.authRequests && s.db.authRequests[s.codes[code]].code == Some(code)
        then GetAuthRequest(s.db, c.authTTL, s.now, s.codes[code]) else Err(NotFound) }
  {
    var rows := RowsWithCode(s.db, code);
    assert forall id | id in rows :: id == s.codes[code];
    assert code in s.codes && s.codes[code] in s.db.authRequests &&
           s.db.authRequests[s.codes[code]].code == Some(code) ==>
        s.codes[code] in rows;
    if rows != {} {
      var id :| id in rows;
      assert rows == {id};
      assert GetAuthRequestByCode(s.db, c.authTTL, s.now, code) == {GetAuthRequest(s.db, c.authTTL, s.now, id)};
    }
  }

  lemma AnswersAgree(c: Config, s: State, t: State, q: Query)
    requires Agree(c, s, t) && AuthKnown(s) && AuthKnown(t)
    ensures Answer(c, s, q) == Answer(c, t, q)
  {
    hide LatestDevices, GetAuthRequestByCode, AuthKnown;
    match q
    case GetAuthByCode(code) => CodeAnswer(c, s, code); CodeAnswer(c, t, code);
    case GetLatestDevice(user, client) =>
      LatestAgrees(s.db, t.db, s.now, user, client);
      LatestAgrees(t.db, s.db, s.now, user, client);
    case _ =>
  }

  // -------------------------------------------------------------- revocations

  /** The only answers a sweep may change: revoking a token that had already expired,
      and finishing a login whose auth request had already expired. */
  predicate Excused(c: Config, s: State, e: Event) {
    match e
    case Revoke(RevokeAccessToken(id, _)) => !(id in s.db.tokens && LiveAccess(s.db.tokens[id], s.now))
    case Revoke(RevokeRefreshToken(raw, _)) =>
      !(Sha256(raw) in s.db.refreshTokens && LiveRefresh(s.db.refreshTokens[Sha256(raw)], s.now))
    case LoginCall(FinishLogin(_, id)) =>
      !(id in s.db.authRequests && LiveAuth(s.db.authRequests[id], c.authTTL, s.now))
    case _ => false
  }

  function AfterRevoke(db: Tables, now: Time, r: Revocation): Tables {
    var o := Revoked(db, now, r);
    if o.Ok? then o.value else db
  }

  lemma RevocationsAgree(c: Config, s: State, t: State, r: Revocation)
    requires Agree(c, s, t)
    ensures TablesAgree(c, AfterRevoke(s.db, s.now, r), AfterRevoke(t.db, s.now, r), s.now)
    ensures Step(c, s, Revoke(r)).reply == Step(c, t, Revoke(r)).reply || Excused(c, s, Revoke(r))
  {}

  lemma RevokeAgrees(c: Config, s: State, t: State, r: Revocation)
    requires Agree(c, s, t)
    ensures Agree(c, Step(c, s, Revoke(r)).state, Step(c, t, Revoke(r)).state)
  {
    hide Revoked, TablesAgree;
    RevocationsAgree(c, s, t, r);
    assert Step(c, s, Revoke(r)).state == s.(db := AfterRevoke(s.db, s.now, r));
    assert Step(c, t, Revoke(r)).state == t.(db := AfterRevoke(t.db, s.now, r));
  }

  // ------------------------------------------------------------------- logins

  lemma FindDeviceAgrees(c: Config, s: State, t: State, call: nat, cookie: Id, freshId: Id, user: Id, userAgent: string,
                         ip: string, name: string)
    requires Agree(c, s, t)
    ensures
      var a := FindDeviceStep(s, call, cookie, freshId, user, userAgent, ip, name);
      var b := FindDeviceStep(t, call, cookie, freshId, user, userAgent, ip, name);
      Agree(c, a.state, b.state) && a.reply == b.reply
  {
    hide AccessAgree, RefreshAgree, AuthAgree;
  }

  lemma CreateAuthAgrees(c: Config, s: State, t: State, id: Id, clientId: Id, scopes: seq<string>)
    requires Agree(c, s, t) && AuthKnown(s) && AuthKnown(t)
    ensures
      var a, b := CreateAuthRequestStep(s, id, clientId, scopes), CreateAuthRequestStep(t, id, clientId, scopes);
      Agree(c, a.state, b.state) && a.reply == b.reply
  {}

  function AfterLogin(db: Tables, id: Id, user: Id, at: Time, d: Id): Tables {
    var o := CompleteLogin(db, id, user, at, ["fed"], Some(d));
    if o.Ok? then o.value else db
  }

  lemma CompleteLoginAgrees(c: Config, a: Tables, b: Tables, now: Time, id: Id, user: Id, at: Time, d: Id)
    requires TablesAgree(c, a, b, now)
    ensures TablesAgree(c, AfterLogin(a, id, user, at, d), AfterLogin(b, id, user, at, d), now)
    ensures
      var p, q := CompleteLogin(a, id, user, at, ["fed"], Some(d)), CompleteLogin(b, id, user, at, ["fed"], Some(d));
      p.Ok? == q.Ok? || !(id in a.authRequests && LiveAuth(a.authRequests[id], c.authTTL, now))
  {}

  lemma FinishLoginAgrees(c: Config, s: State, t: State, call: nat, id: Id)
    requires Agree(c, s, t)
    ensures
      var a, b := FinishLoginStep(c, s, call, id), FinishLoginStep(c, t, call, id);
      Agree(c, a.state, b.state) && (a.reply == b.reply || Excused(c, s, LoginCall(FinishLogin(call, id))))
  {
    hide TablesAgree;
    if call in s.logins && s.now <= s.logins[call].at + c.maxRequest {
      var login := s.logins[call];
      CompleteLoginAgrees(c, s.db, t.db, s.now, id, login.user, s.now, login.device);
      FinishedLogin(c, s, call, id);
      FinishedLogin(c, t, call, id);
    }
  }

  lemma FinishedLogin(c: Config, s: State, call: nat, id: Id)
    requires call in s.logins && s.now <= s.logins[call].at + c.maxRequest
    ensures
      var login := s.logins[call];
      var o := CompleteLogin(s.db, id, login.user, s.now, ["fed"], Some(login.device));
      FinishLoginStep(c, s, call, id) ==
        Outcome(s.(logins := s.logins - {call}, db := AfterLogin(s.db, id, login.user, s.now, login.device)),
                if o.Ok? then Done else Failed(ForeignKey))
  {}

  lemma ReadCodeAgrees(c: Config, s: State, t: State, call: nat, code: string, id: Id)
    requires Agree(c, s, t)
    ensures
      var a, b := ReadCodeStep(c, s, call, code, id), ReadCodeStep(c, t, call, code, id);
      Agree(c, a.state, b.state) && a.reply == b.reply
  {}

  lemma CodeOrDeletionAgrees(c: Config, s: State, t: State, e: LoginEvent)
    requires Agree(c, s, t) && (e.SaveAuthCode? || e.DeleteAuth?)
    ensures Agree(c, LoginStep(c, s, e).state, LoginStep(c, t, e).state)
    ensures LoginStep(c, s, e).reply == LoginStep(c, t, e).reply
  {
    hide TablesAgree, SaveCode, DeleteAuthRequest;
    match e
    case SaveAuthCode(id, code) => SaveCodeAgrees(c, s.db, t.db, s.now, id, code);
    case DeleteAuth(id) => DeletionAgrees(c, s.db, t.db, s.now, id);
    case _ =>
  }

  lemma SaveCodeAgrees(c: Config, a: Tables, b: Tables, now: Time, id: Id, code: string)
    requires TablesAgree(c, a, b, now)
    ensures TablesAgree(c, SaveCode(a, id, code), SaveCode(b, id, code), now)
  {
    hide AccessAgree, RefreshAgree;
    CodeAgrees(c.authTTL, a.authRequests, b.authRequests, now, id, code);
  }

  lemma CodeAgrees(ttl: Time, a: map<Id, AuthRequest>, b: map<Id, AuthRequest>, now: Time, id: Id, code: string)
    requires AuthAgree(ttl, a, b, now)
    ensures AuthAgree(ttl, WithCode(a, id, code), WithCode(b, id, code), now)
  {}

  lemma DeletionAgrees(c: Config, a: Tables, b: Tables, now: Time, id: Id)
    requires TablesAgree(c, a, b, now)
    ensures TablesAgree(c, DeleteAuthRequest(a, id), DeleteAuthRequest(b, id), now)
  {}

  lemma LoginsAgree(c: Config, s: State, t: State, e: LoginEvent)
    requires Agree(c, s, t) && AuthKnown(s) && AuthKnown(t)
    ensures Agree(c, LoginStep(c, s, e).state, LoginStep(c, t, e).state)
    ensures LoginStep(c, s, e).reply == LoginStep(c, t, e).reply || Excused(c, s, LoginCall(e))
  {
    hide Agree, AuthKnown, FindDeviceStep, FinishLoginStep, ReadCodeStep, CreateAuthRequestStep, SaveCodeStep;
    match e
    case FindDevice(call, cookie, freshId, user, userAgent, ip, name) =>
      FindDeviceAgrees(c, s, t, call, cookie, freshId, user, userAgent, ip, name);
    case CreateAuthRequest(id, clientId, scopes) => CreateAuthAgrees(c, s, t, id, clientId, scopes);
    case FinishLogin(call, id) => FinishLoginAgrees(c, s, t, call, id);
    case ReadCode(call, code, id) => ReadCodeAgrees(c, s, t, call, code, id);
    case _ => CodeOrDeletionAgrees(c, s, t, e);
  }

  // --------------------------------------------------------- grants, rotations

  ghost predicate ResultsAgree(c: Config, a: Result<Tables>, b: Result<Tables>, now: Time) {
    match (a, b)
    case (Ok(x), Ok(y)) => TablesAgree(c, x, y, now)
    case (Err(x), Err(y)) => x == y
    case _ => false
  }

  lemma PairAgrees(c: Config, a: Tables, b: Tables, now: Time, p: Pair, ids: NewIds)
    requires TablesAgree(c, a, b, now) && R.NoConflict(a, ids) && R.NoConflict(b, ids)
    requires p.access.id == ids.access && p.refresh.hash == Sha256(ids.raw) && p.refresh.id == ids.refresh
    ensures ResultsAgree(c, IssuePair(a, now, p.access, p.refresh), IssuePair(b, now, p.access, p.refresh), now)
  {
    hide AuthAgree, IssuePair, R.NoConflict;
    R.PairResult(a, now, p, ids);
    R.PairResult(b, now, p, ids);
  }

  lemma ConsumeAgrees(c: Config, a: Tables, b: Tables, now: Time, h: TokenHash, ids: NewIds)
    requires TablesAgree(c, a, b, now) && R.NoConflict(a, ids) && R.NoConflict(b, ids)
    requires h in a.refreshTokens && h in b.refreshTokens && a.refreshTokens[h] == b.refreshTokens[h]
    ensures TablesAgree(c, Consume(a, h), Consume(b, h), now)
    ensures R.NoConflict(Consume(a, h), ids) && R.NoConflict(Consume(b, h), ids)
  {}

  lemma RotationAgrees(c: Config, a: Tables, b: Tables, now: Time, p: Pair, ids: NewIds, current: Option<TokenHash>)
    requires TablesAgree(c, a, b, now) && R.NoConflict(a, ids) && R.NoConflict(b, ids)
    requires p.access.id == ids.access && p.refresh.hash == Sha256(ids.raw) && p.refresh.id == ids.refresh
    ensures ResultsAgree(c, CreateAccessAndRefresh(a, now, p.access, p.refresh, current),
                         CreateAccessAndRefresh(b, now, p.access, p.refresh, current), now)
  {
    hide IssuePair, Consume, R.NoConflict, ResultsAgree;
    if current.None? {
      PairAgrees(c, a, b, now, p, ids);
    } else if current.value in a.refreshTokens && LiveRefresh(a.refreshTokens[current.value], now) {
      ConsumeAgrees(c, a, b, now, current.value, ids);
      PairAgrees(c, Consume(a, current.value), Consume(b, current.value), now,
                 p.(refresh := WithDevice(p.refresh, a.refreshTokens[current.value])), ids);
    } else {
      BothNotFound(c, now);
    }
  }

  lemma BothNotFound(c: Config, now: Time)
    ensures ResultsAgree(c, Err(NotFound), Err(NotFound), now)
  {}

  /** The stored row of a committed issue is the same with and without sweeps. */
  lemma IssuingAgrees(c: Config, s: State, t: State, request: TokenRequest, ids: NewIds, current: Option<TokenHash>)
    requires ValidConfig(c) && Agree(c, s, t) && R.NoConflict(s.db, ids) && R.NoConflict(t.db, ids)
    ensures
      var a, b := Issuing(c, s, request, ids, current), Issuing(c, t, request, ids, current);
      Agree(c, a.state, b.state) && a.reply == b.reply
  {
    hide CreateAccessAndRefresh, AccessAgree, AuthAgree, R.NoConflict;
    RotationAgrees(c, s.db, t.db, s.now, BuildPair(c, s.now, request, ids), ids, current);
    if Issuing(c, s, request, ids, current).reply.IssuedReply? {
      R.IssuedTables(c, s, request, ids, current);
      R.IssuedTables(c, t, request, ids, current);
    }
  }

  lemma TokensAgree(c: Config, s: State, t: State, e: TokenEvent)
    requires ValidConfig(c) && Agree(c, s, t) && R.Inv(s) && R.Inv(t)
    ensures Agree(c, TokenStep(c, s, e).state, TokenStep(c, t, e).state)
    ensures TokenStep(c, s, e).reply == TokenStep(c, t, e).reply
  {
    hide Issuing, R.Inv, R.NoConflict, TablesAgree;
    match e
    case Grant(call, ids) =>
      if call in s.codeReads && FreshIds(s, ids) {
        R.FreshIdsDoNotConflict(s, ids);
        R.FreshIdsDoNotConflict(t, ids);
        IssuingAgrees(c, s.(codeReads := s.codeReads - {call}), t.(codeReads := s.codeReads - {call}),
                      CodeRequest(s.codeReads[call].request), ids, None);
      }
    case Rotate(call, ids, scopes) =>
      if call in s.refreshReads && FreshIds(s, ids) {
        R.FreshIdsDoNotConflict(s, ids);
        R.FreshIdsDoNotConflict(t, ids);
        IssuingAgrees(c, s.(refreshReads := s.refreshReads - {call}), t.(refreshReads := s.refreshReads - {call}),
                      RefreshRequest(s.refreshReads[call], scopes), ids, Some(s.refreshReads[call].hash));
      }
    case GrantAccess(id, clientId, subject, audience, scopes) =>
      GrantAccessAgrees(c, s, t,
                        AccessToken(id, clientId, subject, audience, scopes, s.now + c.accessTTL, None, s.now));
    case ReadRefresh(call, raw) => ReadRefreshAgrees(c, s, t, call, raw);
  }

  lemma GrantAccessAgrees(c: Config, s: State, t: State, row: AccessToken)
    requires Agree(c, s, t) && R.Inv(s) && R.Inv(t)
    ensures Agree(c, GrantAccessStep(s, row).state, GrantAccessStep(t, row).state)
    ensures GrantAccessStep(s, row).reply == GrantAccessStep(t, row).reply
  {
    hide RefreshAgree, AuthAgree, R.RowsLogged, R.Linked, R.OneSuccessor, R.ReadsLogged, R.KnownLog, R.DistinctIds;
  }

  lemma ReadRefreshAgrees(c: Config, s: State, t: State, call: nat, raw: string)
    requires Agree(c, s, t)
    ensures Agree(c, ReadRefreshStep(s, call, raw).state, ReadRefreshStep(t, call, raw).state)
    ensures ReadRefreshStep(s, call, raw).reply == ReadRefreshStep(t, call, raw).reply
  {}

  // -------------------------------------------------------------- invariants

  lemma StepKeepsAuthKnown(c: Config, s: State, e: Event)
    requires AuthKnown(s)
    ensures AuthKnown(Step(c, s, e).state)
  {
    hide LoginStep, TokenStep, Revoked, Swept, Answer;
    match e
    case LoginCall(login) => LoginKeepsAuthKnown(c, s, login);
    case TokenCall(token) => TokensLeaveAuth(c, s, token);
    case Revoke(r) =>
      if Revoked(s.db, s.now, r).Ok? {
        RevocationsLeaveAuth(s.db, s.now, r);
      }
    case Sweep(table, lag) => SweepsLeaveAuth(c, s.db, s.now, table, lag);
    case _ =>
  }

  lemma LoginKeepsAuthKnown(c: Config, s: State, e: LoginEvent)
    requires AuthKnown(s)
    ensures AuthKnown(LoginStep(c, s, e).state)
  {
    hide AuthKnown, FindDeviceStep, CreateAuthRequestStep, ReadCodeStep, FinishLoginStep, SaveCodeStep;
    match e
    case FindDevice(call, cookie, freshId, user, userAgent, ip, name) =>
      FindDeviceLeavesAuth(s, call, cookie, freshId, user, userAgent, ip, name);
      SameAuthKnown(s, LoginStep(c, s, e).state);
    case CreateAuthRequest(id, clientId, scopes) => CreateKeepsAuthKnown(s, id, clientId, scopes);
    case ReadCode(call, code, id) =>
      ReadLeavesAuth(c, s, call, code, id);
      SameAuthKnown(s, LoginStep(c, s, e).state);
    case FinishLogin(call, id) => FinishKeepsAuthKnown(c, s, call, id);
    case SaveAuthCode(id, code) => SaveKeepsAuthKnown(s, id, code);
    case DeleteAuth(id) => DeleteKeepsAuthKnown(s, id);
  }

  lemma SameAuthKnown(s: State, t: State)
    requires AuthKnown(s) && SameAuth(s, t)
    ensures AuthKnown(t)
  {}

  lemma FinishKeepsAuthKnown(c: Config, s: State, call: nat, id: Id)
    requires AuthKnown(s)
    ensures AuthKnown(FinishLoginStep(c, s, call, id).state)
  {}

  lemma SaveKeepsAuthKnown(s: State, id: Id, code: string)
    requires AuthKnown(s)
    ensures AuthKnown(SaveCodeStep(s, id, code).state)
  {}

  lemma DeleteKeepsAuthKnown(s: State, id: Id)
    requires AuthKnown(s)
    ensures AuthKnown(s.(db := DeleteAuthRequest(s.db, id)))
  {}

  lemma FindDeviceLeavesAuth(s: State, call: nat, cookie: Id, freshId: Id, user: Id, userAgent: string, ip: string,
                             name: string)
    ensures SameAuth(s, FindDeviceStep(s, call, cookie, freshId, user, userAgent, ip, name).state)
  {}

  lemma CreateKeepsAuthKnown(s: State, id: Id, clientId: Id, scopes: seq<string>)
    requires AuthKnown(s)
    ensures AuthKnown(CreateAuthRequestStep(s, id, clientId, scopes).state)
  {}

  lemma ReadLeavesAuth(c: Config, s: State, call: nat, code: string, id: Id)
    ensures SameAuth(s, ReadCodeStep(c, s, call, code, id).state)
  {}

  predicate SameAuth(s: State, t: State) {
    t.db.authRequests == s.db.authRequests && s.issued <= t.issued && t.codes == s.codes
  }

  lemma IssuingLeavesAuth(c: Config, s: State, request: TokenRequest, ids: NewIds, current: Option<TokenHash>)
    ensures SameAuth(s, Issuing(c, s, request, ids, current).state)
  {}

  lemma TokensLeaveAuth(c: Config, s: State, e: TokenEvent)
    ensures SameAuth(s, TokenStep(c, s, e).state)
  {
    hide Issuing;
    match e
    case Grant(call, ids) =>
      if call in s.codeReads {
        IssuingLeavesAuth(c, s.(codeReads := s.codeReads - {call}), CodeRequest(s.codeReads[call].request), ids, None);
      }
    case Rotate(call, ids, scopes) =>
      if call in s.refreshReads {
        IssuingLeavesAuth(c, s.(refreshReads := s.refreshReads - {call}), RefreshRequest(s.refreshReads[call], scopes),
                          ids, Some(s.refreshReads[call].hash));
      }
    case _ =>
  }

  lemma RevocationsLeaveAuth(db: Tables, now: Time, r: Revocation)
    requires Revoked(db, now, r).Ok?
    ensures Revoked(db, now, r).value.authRequests == db.authRequests
  {}

  lemma SweepsLeaveAuth(c: Config, db: Tables, now: Time, table: SweptTable, lag: nat)
    ensures forall r | r in Swept(c, db, now, table, lag).authRequests ::
      r in db.authRequests && Swept(c, db, now, table, lag).authRequests[r].code == db.authRequests[r].code
  {}

  lemma StepKeepsInv(c: Config, s: State, e: Event)
    requires Inv(s)
    ensures Inv(Step(c, s, e).state)
  {
    hide Step, R.Inv, AuthKnown;
    R.StepKeepsInv(c, s, e);
    StepKeepsAuthKnown(c, s, e);
  }

  // -------------------------------------------------------------- whole runs

  predicate IsExpirySweep(e: Event) {
    e.Sweep? && !e.table.DeviceSessions?
  }

  lemma TickAgrees(c: Config, s: State, t: State, elapsed: nat)
    requires Agree(c, s, t)
    ensures Agree(c, s.(now := s.now + elapsed), t.(now := t.now + elapsed))
  {}

  /** The same event on both sides: the same answer, and agreement again. */
  lemma StepAgrees(c: Config, s: State, t: State, e: Event)
    requires ValidConfig(c) && Agree(c, s, t) && Inv(s) && Inv(t) && !IsExpirySweep(e)
    ensures Agree(c, Step(c, s, e).state, Step(c, t, e).state)
    ensures Step(c, s, e).reply == Step(c, t, e).reply || Excused(c, s, e)
  {
    hide LoginStep, TokenStep, Revoked, Swept, Answer, TablesAgree, R.Inv, AuthKnown;
    match e
    case Tick(elapsed) => TickAgrees(c, s, t, elapsed);
    case NewUser(user) => NewUserAgrees(c, s, t, user);
    case Ask(q) => AnswersAgree(c, s, t, q);
    case LoginCall(login) => LoginsAgree(c, s, t, login);
    case TokenCall(token) => TokensAgree(c, s, t, token);
    case Revoke(r) => RevokeAgrees(c, s, t, r); RevocationsAgree(c, s, t, r);
    case Sweep(table, lag) => DeviceSweepStep(c, s, t, lag);
  }

  lemma NewUserAgrees(c: Config, s: State, t: State, user: Id)
    requires Agree(c, s, t)
    ensures Agree(c, Step(c, s, NewUser(user)).state, Step(c, t, NewUser(user)).state)
  {}

  lemma DeviceSweepStep(c: Config, s: State, t: State, lag: nat)
    requires Agree(c, s, t)
    ensures Agree(c, Step(c, s, Sweep(DeviceSessions, lag)).state, Step(c, t, Sweep(DeviceSessions, lag)).state)
  {
    hide TablesAgree, DeleteRevokedBefore;
    DeviceSweepAgrees(c, s.db, t.db, s.now, s.now - lag - DEVICE_RETENTION);
  }

  /** The run from s performs every event, the run from t all but the expiry sweeps;
      each event common to both gets the same answer. */
  ghost predicate SameAnswers(c: Config, s: State, t: State, events: seq<Event>)
    decreases |events|
  {
    events != [] ==>
      var e, a, b := events[0], Step(c, s, events[0]), Step(c, t, events[0]);
      if IsExpirySweep(e) then SameAnswers(c, a.state, t, events[1..])
      else (a.reply == b.reply || Excused(c, s, e)) && SameAnswers(c, a.state, b.state, events[1..])
  }

  lemma {:induction false} AgreeingRuns(c: Config, s: State, t: State, events: seq<Event>)
    requires ValidConfig(c) && Agree(c, s, t) && Inv(s) && Inv(t)
    ensures SameAnswers(c, s, t, events)
    decreases |events|
  {
    hide Step, Inv, Agree, Excused;
    if events == [] {
    } else {
      var e := events[0];
      StepKeepsInv(c, s, e);
      if IsExpirySweep(e) {
        SweptAgrees(c, s, t, e.table, e.lag);
        AgreeingRuns(c, Step(c, s, e).state, t, events[1..]);
      } else {
        StepAgrees(c, s, t, e);
        StepKeepsInv(c, t, e);
        AgreeingRuns(c, Step(c, s, e).state, Step(c, t, e).state, events[1..]);
      }
    }
  }

  lemma SweptAgrees(c: Config, s: State, t: State, table: SweptTable, lag: nat)
    requires Agree(c, s, t) && !table.DeviceSessions?
    ensures Agree(c, Step(c, s, Sweep(table, lag)).state, t)
  {
    hide TablesAgree, Swept;
    SweepAgrees(c, s.db, s.now, table, lag);
    AgreeTransitive(c, Swept(c, s.db, s.now, table, lag), s.db, t.db, s.now);
  }

  lemma InitAgrees(c: Config)
    ensures Agree(c, INIT, INIT) && Inv(INIT)
  {}

  /** Token and auth request sweeps, at any moments of any run, are invisible. */
  lemma SweepsAreInvisible(c: Config, events: seq<Event>)
    requires ValidConfig(c)
    ensures SameAnswers(c, INIT, INIT, events)
  {
    InitAgrees(c);
    AgreeingRuns(c, INIT, INIT, events);
  }

  // ---------------------------------------------------- why codes are unique

  /** A live and an expired auth request carry the same code. */
  ghost predicate CodeShared(db: Tables, ttl: Time, now: Time, code: string) {
    exists x, y :: x in RowsWithCode(db, code) && y in RowsWithCode(db, code) &&
      LiveAuth(db.authRequests[x], ttl, now) && !LiveAuth(db.authRequests[y], ttl, now)
  }

  /** auth_requests.code has no UNIQUE constraint: a sweep leaves the answers of
      GetByCode alone exactly when no live and expired request share the code. */
  lemma SweepVisibleExactly(db: Tables, ttl: Time, now: Time, code: string)
    ensures
      var swept := SweepAuthRequests(db, now - ttl);
      GetAuthRequestByCode(swept, ttl, now, code) == GetAuthRequestByCode(db, ttl, now, code) <==>
      !CodeShared(db, ttl, now, code)
  {
    var swept := SweepAuthRequests(db, now - ttl);
    var rows, kept := RowsWithCode(db, code), RowsWithCode(swept, code);
    assert forall id :: id in kept <==> id in rows && LiveAuth(db.authRequests[id], ttl, now);
    if CodeShared(db, ttl, now, code) {
      var x, y :|
        x in rows && y in rows && LiveAuth(db.authRequests[x], ttl, now) && !LiveAuth(db.authRequests[y], ttl, now);
      assert GetAuthRequest(db, ttl, now, y) in GetAuthRequestByCode(db, ttl, now, code);
      assert x in kept;
      assert Err(NotFound) !in GetAuthRequestByCode(swept, ttl, now, code);
    } else if kept == {} {
      assert GetAuthRequestByCode(db, ttl, now, code) == {Err(NotFound)} by {
        if rows != {} {
          var y :| y in rows;
          assert GetAuthRequest(db, ttl, now, y) in GetAuthRequestByCode(db, ttl, now, code);
        }
      }
    } else {
      var x :| x in kept;
      assert kept == rows;
      assert forall id | id in rows :: GetAuthRequest(swept, ttl, now, id) == GetAuthRequest(db, ttl, now, id);
    }
  }
}
