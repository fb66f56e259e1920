/** Device sessions and their owners. A refresh token or auth request that names a
    device session names one of its own user, although sessions are deleted and
    their ids can be taken over by another user. The code rests on timing: a call
    holds the id it read while the session could be revoked and swept. */
module DeviceOwnership {
  import opened Prelude
  import opened Tables
  import opened TokenSystem
  import R = RotationChains

  type Devices = map<Id, DeviceSession>

  /** What RevokeByID's delete without a user filter relies on. */
  ghost predicate Owned(db: Tables) {
    (forall h | h in db.refreshTokens && db.refreshTokens[h].deviceSessionId.Some? ::
       OwnedBy(db.devices, db.refreshTokens[h].deviceSessionId.value, db.refreshTokens[h].userId)) &&
    (forall r | r in db.authRequests && db.authRequests[r].deviceSessionId.Some? ::
       db.authRequests[r].userId.Some? &&
       OwnedBy(db.devices, db.authRequests[r].deviceSessionId.value, db.authRequests[r].userId.value))
  }

  predicate OwnedBy(devices: Devices, d: Id, user: Id) {
    d in devices && devices[d].userId == user
  }

  /** The user's session, and not revoked before `since`: it is not swept until
      DEVICE_RETENTION after that. */
  predicate Held(devices: Devices, d: Id, user: Id, since: Time) {
    OwnedBy(devices, d, user) && (devices[d].revokedAt.None? || devices[d].revokedAt.value >= since)
  }

  predicate RowOwned(devices: Devices, t: RefreshToken) {
    t.deviceSessionId.Some? ==> OwnedBy(devices, t.deviceSessionId.value, t.userId)
  }

  predicate RequestHeld(devices: Devices, r: AuthRequest, since: Time) {
    r.deviceSessionId.Some? ==> r.userId.Some? && Held(devices, r.deviceSessionId.value, r.userId.value, since)
  }

  predicate RequestOk(c: Config, devices: Devices, r: AuthRequest, now: Time) {
    r.createdAt <= now && RequestHeld(devices, r, r.createdAt - c.maxRequest)
  }

  /** Reads are good for as long as their call may still run. */
  predicate CodeReadOk(c: Config, devices: Devices, r: CodeRead, now: Time) {
    r.at <= now && (now <= r.at + c.maxRequest ==> RequestHeld(devices, r.request, r.at - c.authTTL - c.maxRequest))
  }

  predicate LoginOk(c: Config, devices: Devices, l: Login, now: Time) {
    l.at <= now && (now <= l.at + c.maxRequest ==> Held(devices, l.device, l.user, l.at))
  }

  ghost predicate RowsOk(devices: Devices, rows: map<TokenHash, RefreshToken>) {
    forall h | h in rows :: RowOwned(devices, rows[h])
  }

  ghost predicate RequestsOk(c: Config, devices: Devices, rows: map<Id, AuthRequest>, now: Time) {
    forall r | r in rows :: RequestOk(c, devices, rows[r], now)
  }

  ghost predicate CodeReadsOk(c: Config, devices: Devices, copies: map<nat, CodeRead>, now: Time) {
    forall k | k in copies :: CodeReadOk(c, devices, copies[k], now)
  }

  ghost predicate LoginsOk(c: Config, devices: Devices, logins: map<nat, Login>, now: Time) {
    forall k | k in logins :: LoginOk(c, devices, logins[k], now)
  }

  ghost predicate Inv(c: Config, s: State) {
    RowsOk(s.db.devices, s.db.refreshTokens) && RequestsOk(c, s.db.devices, s.db.authRequests, s.now) &&
    CodeReadsOk(c, s.db.devices, s.codeReads, s.now) && LoginsOk(c, s.db.devices, s.logins, s.now)
  }

  // ------------------------------------------- statements that keep devices

  /** Owners never change, and a session is only ever revoked at the present time. */
  ghost predicate DevicesKept(a: Devices, b: Devices, now: Time) {
    forall d | d in a :: d in b && b[d].userId == a[d].userId &&
      (b[d].revokedAt == a[d].revokedAt || (a[d].revokedAt.None? && b[d].revokedAt == Some(now)))
  }

  /** No new rows, and none linked to another session. */
  ghost predicate TablesKept(a: Tables, b: Tables, now: Time) {
    DevicesKept(a.devices, b.devices, now) &&
    (forall h | h in b.refreshTokens :: h in a.refreshTokens && b.refreshTokens[h] == a.refreshTokens[h]) &&
    (forall r | r in b.authRequests ::
       r in a.authRequests && b.authRequests[r].(code := None) == a.authRequests[r].(code := None))
  }

  lemma KeptTablesKeepInv(c: Config, s: State, t: State)
    requires Inv(c, s) && ValidConfig(c) && TablesKept(s.db, t.db, s.now) && s.now <= t.now
    requires t.codeReads == s.codeReads && t.logins == s.logins
    ensures Inv(c, t)
  {
    forall h | h in t.db.refreshTokens ensures RowOwned(t.db.devices, t.db.refreshTokens[h]) {
      assert RowOwned(s.db.devices, s.db.refreshTokens[h]);
    }
    forall r | r in t.db.authRequests ensures RequestOk(c, t.db.devices, t.db.authRequests[r], t.now) {
      assert RequestOk(c, s.db.devices, s.db.authRequests[r], s.now);
    }
    forall k | k in t.codeReads ensures CodeReadOk(c, t.db.devices, t.codeReads[k], t.now) {
      assert CodeReadOk(c, s.db.devices, s.codeReads[k], s.now);
    }
    forall k | k in t.logins ensures LoginOk(c, t.db.devices, t.logins[k], t.now) {
      assert LoginOk(c, s.db.devices, s.logins[k], s.now);
    }
  }

  // ------------------------------------------------------- the device sweep

  /** The timing condition: whatever a call may still write, its session was revoked
      too recently to be swept. */
  predicate TimelyConfig(c: Config) {
    ValidConfig(c) && 2 * c.maxRequest + c.authTTL <= DEVICE_RETENTION
  }

  lemma DeviceSweepKeepsInv(c: Config, s: State, lag: nat)
    requires TimelyConfig(c) && Inv(c, s)
    ensures Inv(c, s.(db := DeleteRevokedBefore(s.db, s.now, s.now - lag - DEVICE_RETENTION)))
  {}

  lemma SweptTablesKept(c: Config, db: Tables, now: Time, table: SweptTable, lag: nat)
    requires !table.DeviceSessions?
    ensures TablesKept(db, Swept(c, db, now, table, lag), now)
  {}

  lemma SweepKeepsInv(c: Config, s: State, table: SweptTable, lag: nat)
    requires TimelyConfig(c) && Inv(c, s)
    ensures Inv(c, Step(c, s, Sweep(table, lag)).state)
  {
    hide Inv, TablesKept, DeleteDevices, StaleDevices, SweepAccess, SweepRefresh, SweepAuthRequests;
    if table.DeviceSessions? {
      DeviceSweepKeepsInv(c, s, lag);
    } else {
      SweptTablesKept(c, s.db, s.now, table, lag);
      KeptTablesKeepInv(c, s, s.(db := Swept(c, s.db, s.now, table, lag)));
    }
  }

  // ------------------------------------------------------- every other event

  lemma RevokedTablesKept(db: Tables, now: Time, r: Revocation)
    requires Revoked(db, now, r).Ok?
    ensures TablesKept(db, Revoked(db, now, r).value, now)
  {}

  lemma RevocationKeepsInv(c: Config, s: State, r: Revocation)
    requires ValidConfig(c) && Inv(c, s)
    ensures Inv(c, Step(c, s, Revoke(r)).state)
  {
    hide Inv, TablesKept, Revoked;
    if Revoked(s.db, s.now, r).Ok? {
      RevokedTablesKept(s.db, s.now, r);
      KeptTablesKeepInv(c, s, s.(db := Revoked(s.db, s.now, r).value));
    }
  }

  lemma FoundDevice(db: Tables, now: Time, cookie: Id, freshId: Id, user: Id, userAgent: string, ip: string,
                    name: string)
    requires FindOrCreateDevice(db, now, cookie, freshId, user, userAgent, ip, name).Ok?
    ensures
      var found := FindOrCreateDevice(db, now, cookie, freshId, user, userAgent, ip, name).value;
      TablesKept(db, found.db, now) && Held(found.db.devices, found.id, user, now)
  {}

  lemma FindDeviceKeepsInv(c: Config, s: State, call: nat, cookie: Id, freshId: Id, user: Id, userAgent: string,
                           ip: string, name: string)
    requires ValidConfig(c) && Inv(c, s)
    ensures Inv(c, FindDeviceStep(s, call, cookie, freshId, user, userAgent, ip, name).state)
  {
    hide FindOrCreateDevice, TablesKept, DevicesKept;
    match FindOrCreateDevice(s.db, s.now, cookie, freshId, user, userAgent, ip, name)
    case Err(_) =>
    case Ok(found) =>
      FoundDevice(s.db, s.now, cookie, freshId, user, userAgent, ip, name);
      KeptTablesKeepInv(c, s, s.(db := found.db));
      assert LoginOk(c, found.db.devices, Login(user, found.id, s.now), s.now);
  }

  lemma CreateAuthKeepsInv(c: Config, s: State, id: Id, clientId: Id, scopes: seq<string>)
    requires ValidConfig(c) && Inv(c, s)
    ensures Inv(c, CreateAuthRequestStep(s, id, clientId, scopes).state)
  {
    hide RowsOk, CodeReadsOk, LoginsOk;
  }

  lemma CodeOrDeletionKeepsInv(c: Config, s: State, e: LoginEvent)
    requires ValidConfig(c) && Inv(c, s) && (e.SaveAuthCode? || e.DeleteAuth?)
    ensures Inv(c, LoginStep(c, s, e).state)
  {}

  lemma FinishLoginKeepsInv(c: Config, s: State, call: nat, id: Id)
    requires ValidConfig(c) && Inv(c, s)
    ensures Inv(c, FinishLoginStep(c, s, call, id).state)
  {}

  lemma ReadCodeKeepsInv(c: Config, s: State, call: nat, code: string, id: Id)
    requires ValidConfig(c) && Inv(c, s)
    ensures Inv(c, ReadCodeStep(c, s, call, code, id).state)
  {}

  lemma LoginKeepsInv(c: Config, s: State, e: LoginEvent)
    requires ValidConfig(c) && Inv(c, s)
    ensures Inv(c, LoginStep(c, s, e).state)
  {
    hide Inv, FindDeviceStep, FinishLoginStep, ReadCodeStep, CreateAuthRequestStep, SaveCodeStep;
    match e
    case FindDevice(call, cookie, freshId, user, userAgent, ip, name) =>
      FindDeviceKeepsInv(c, s, call, cookie, freshId, user, userAgent, ip, name);
    case FinishLogin(call, id) => FinishLoginKeepsInv(c, s, call, id);
    case ReadCode(call, code, id) => ReadCodeKeepsInv(c, s, call, code, id);
    case CreateAuthRequest(id, clientId, scopes) => CreateAuthKeepsInv(c, s, id, clientId, scopes);
    case _ => CodeOrDeletionKeepsInv(c, s, e);
  }

  // ------------------------------------------------------- grants, rotations

  lemma PairDevices(db: Tables, now: Time, access: AccessToken, refresh: RefreshToken)
    requires IssuePair(db, now, access, refresh).Ok?
    ensures
      var t := IssuePair(db, now, access, refresh).value;
      DevicesKept(db.devices, t.devices, now) && t.authRequests == db.authRequests
  {}

  /** A committed issue stores one new row; its session must be its user's. */
  lemma IssuedKeepsInv(c: Config, s: State, request: TokenRequest, ids: NewIds, current: Option<TokenHash>)
    requires ValidConfig(c) && Inv(c, s)
    requires Issuing(c, s, request, ids, current).reply.IssuedReply?
    requires RowOwned(s.db.devices, R.InsertedRow(c, s, request, ids, current))
    ensures Inv(c, Issuing(c, s, request, ids, current).state)
  {
    hide IssuePair, Inv;
    var row := R.InsertedRow(c, s, request, ids, current);
    var access := BuildPair(c, s.now, request, ids).access;
    R.PairRows(R.BeforeInsert(s.db, current), s.now, access, row);
    PairDevices(R.BeforeInsert(s.db, current), s.now, access, row);
    StoreKeepsInv(c, s, Issuing(c, s, request, ids, current).state, row);
  }

  lemma StoreKeepsInv(c: Config, s: State, t: State, row: RefreshToken)
    requires ValidConfig(c) && Inv(c, s) && RowOwned(s.db.devices, row)
    requires DevicesKept(s.db.devices, t.db.devices, s.now) && t.db.authRequests == s.db.authRequests
    requires t.now == s.now && t.codeReads == s.codeReads && t.logins == s.logins
    requires forall h | h in t.db.refreshTokens :: t.db.refreshTokens[h] == row ||
               (h in s.db.refreshTokens && t.db.refreshTokens[h] == s.db.refreshTokens[h])
    ensures Inv(c, t)
  {
    KeptTablesKeepInv(c, s, t.(db := t.db.(refreshTokens := map[])));
    forall h | h in t.db.refreshTokens ensures RowOwned(t.db.devices, t.db.refreshTokens[h]) {
      assert RowOwned(s.db.devices, if t.db.refreshTokens[h] == row then row else s.db.refreshTokens[h]);
    }
  }

  lemma GrantKeepsInv(c: Config, s: State, call: nat, ids: NewIds)
    requires ValidConfig(c) && Inv(c, s)
    ensures Inv(c, GrantStep(c, s, call, ids).state)
  {
    hide Issuing, IssuePair;
    var o := GrantStep(c, s, call, ids);
    if o.reply.IssuedReply? {
      var t := s.(codeReads := s.codeReads - {call});
      assert CodeReadOk(c, s.db.devices, s.codeReads[call], s.now);
      assert Inv(c, t);
      IssuedKeepsInv(c, t, CodeRequest(s.codeReads[call].request), ids, None);
    } else {
      FailedIssue(c, s, call, ids);
    }
  }

  lemma FailedIssue(c: Config, s: State, call: nat, ids: NewIds)
    requires !GrantStep(c, s, call, ids).reply.IssuedReply?
    ensures GrantStep(c, s, call, ids).state in {s, s.(codeReads := s.codeReads - {call})}
  {}

  /** A rotation links the row it stores to the session of the row it replaces, and
      by the history both rows belong to the same user. */
  lemma RotateKeepsInv(c: Config, s: State, call: nat, ids: NewIds, scopes: seq<string>)
    requires ValidConfig(c) && Inv(c, s) && R.Inv(s)
    ensures Inv(c, RotateStep(c, s, call, ids, scopes).state)
  {
    hide Issuing, IssuePair;
    var o := RotateStep(c, s, call, ids, scopes);
    if o.reply.IssuedReply? {
      var t := s.(refreshReads := s.refreshReads - {call});
      var request, h := RefreshRequest(s.refreshReads[call], scopes), s.refreshReads[call].hash;
      R.IssuedTables(c, t, request, ids, Some(h));
      assert RowOwned(s.db.devices, s.db.refreshTokens[h]);
      IssuedKeepsInv(c, t, request, ids, Some(h));
    } else {
      FailedRotation(c, s, call, ids, scopes);
    }
  }

  lemma FailedRotation(c: Config, s: State, call: nat, ids: NewIds, scopes: seq<string>)
    requires !RotateStep(c, s, call, ids, scopes).reply.IssuedReply?
    ensures RotateStep(c, s, call, ids, scopes).state in {s, s.(refreshReads := s.refreshReads - {call})}
  {}

  lemma TokenStepKeepsInv(c: Config, s: State, e: TokenEvent)
    requires ValidConfig(c) && Inv(c, s) && R.Inv(s)
    ensures Inv(c, TokenStep(c, s, e).state)
  {
    hide R.Inv, GrantStep, RotateStep;
    match e
    case Grant(call, ids) => GrantKeepsInv(c, s, call, ids);
    case Rotate(call, ids, scopes) => RotateKeepsInv(c, s, call, ids, scopes);
    case _ =>
  }

  lemma StepKeepsInv(c: Config, s: State, e: Event)
    requires TimelyConfig(c) && Inv(c, s) && R.Inv(s)
    ensures Inv(c, Step(c, s, e).state)
  {
    hide Inv, R.Inv, TokenStep, LoginStep, Revoked, Swept, Answer;
    match e
    case TokenCall(token) => TokenStepKeepsInv(c, s, token);
    case LoginCall(login) => LoginKeepsInv(c, s, login);
    case Revoke(r) => RevocationKeepsInv(c, s, r);
    case Sweep(table, lag) => SweepKeepsInv(c, s, table, lag);
    case _ => KeptTablesKeepInv(c, s, Step(c, s, e).state);
  }

  lemma {:induction false} RunKeepsInv(c: Config, s: State, events: seq<Event>)
    requires TimelyConfig(c) && Inv(c, s) && R.Inv(s)
    ensures Inv(c, Run(c, s, events)) && R.Inv(Run(c, s, events))
    decreases |events|
  {
    hide Inv, R.Inv, Step;
    if events == [] {
    } else {
      StepKeepsInv(c, s, events[0]);
      R.StepKeepsInv(c, s, events[0]);
      RunKeepsInv(c, Step(c, s, events[0]).state, events[1..]);
    }
  }

  lemma InvOwned(c: Config, s: State)
    requires Inv(c, s)
    ensures Owned(s.db)
  {}

  // ------------------------------------------------------------ main results

  lemma InitInv(c: Config)
    ensures Inv(c, INIT)
  {}

  lemma ReachableOwned(c: Config, s: State)
    requires TimelyConfig(c) && Reachable(c, s)
    ensures Owned(s.db)
  {
    hide Inv, R.Inv, Step, Owned;
    var events :| s == Run(c, INIT, events);
    InitInv(c);
    R.InitInv();
    RunKeepsInv(c, INIT, events);
    InvOwned(c, s);
  }

  /** RevokeByID deletes by session alone, and yet only its own user's tokens. */
  lemma RevokeDeletesOnlyOwnTokens(c: Config, s: State, d: Id, user: Id, h: TokenHash)
    requires TimelyConfig(c) && Reachable(c, s) && RevokeDevice(s.db, s.now, d, user).Ok?
    requires h in s.db.refreshTokens && h !in RevokeDevice(s.db, s.now, d, user).value.refreshTokens
    ensures s.db.refreshTokens[h].userId == user
  {
    ReachableOwned(c, s);
  }

  /** A login whose session is revoked at once, and finishes as late as it may. */
  lemma SlowLogin(c: Config) returns (s: State)
    requires ValidConfig(c)
    ensures Reachable(c, s) && s.now == c.maxRequest && s.issued == {} && s.db.users == {"u", "vv"}
    ensures s.logins == map[0 := Login("u", "ddd", 0)]
    ensures s.db.refreshTokens == map[] && s.db.tokens == map[] && s.db.authRequests == map[] && s.codes == map[]
    ensures "ddd" in s.db.devices && s.db.devices["ddd"].userId == "u" && s.db.devices["ddd"].revokedAt == Some(0)
  {
    assert Run(c, INIT, []) == INIT;
    s := Next(c, INIT, NewUser("u"));
    s := Next(c, s, NewUser("vv"));
    s := Next(c, s, LoginCall(FindDevice(0, "ddd", "ffff", "u", "", "", "")));
    s := Next(c, s, Revoke(RevokeDeviceSession("ddd", "u")));
    s := Next(c, s, Tick(c.maxRequest));
  }

  /** ... and whose authorization code is read as late as it may. */
  lemma SlowCode(c: Config) returns (s: State)
    requires ValidConfig(c)
    ensures Reachable(c, s) && s.now == c.maxRequest + c.authTTL && s.issued == {"aaaaa"} && s.db.users == {"u", "vv"}
    ensures s.db.refreshTokens == map[] && s.db.tokens == map[]
    ensures "ddd" in s.db.devices && s.db.devices["ddd"].userId == "u" && s.db.devices["ddd"].revokedAt == Some(0)
    ensures 1 in s.codeReads && s.codeReads[1].at == s.now
    ensures s.codeReads[1].request.deviceSessionId == Some("ddd") && s.codeReads[1].request.userId == Some("u")
  {
    s := SlowLogin(c);
    s := Next(c, s, LoginCall(CreateAuthRequest("aaaaa", "app", [])));
    s := Next(c, s, LoginCall(FinishLogin(0, "aaaaa")));
    assert s.db.authRequests["aaaaa"].deviceSessionId == Some("ddd");
    s := Next(c, s, LoginCall(SaveAuthCode("aaaaa", "code")));
    s := Next(c, s, Tick(c.authTTL));
    assert "aaaaa" in RowsWithCode(s.db, "code");
    s := Next(c, s, LoginCall(ReadCode(1, "code", "aaaaa")));
  }

  /** ... so that the sweep deletes the session and another user takes its id. */
  lemma TakenOver(c: Config) returns (s: State)
    requires ValidConfig(c) && 2 * c.maxRequest + c.authTTL > DEVICE_RETENTION
    ensures Reachable(c, s) && s.issued == {"aaaaa"} && s.db.users == {"u", "vv"}
    ensures s.db.refreshTokens == map[] && s.db.tokens == map[]
    ensures OwnedBy(s.db.devices, "ddd", "vv")
    ensures 1 in s.codeReads && s.now <= s.codeReads[1].at + c.maxRequest
    ensures s.codeReads[1].request.deviceSessionId == Some("ddd") && s.codeReads[1].request.userId == Some("u")
  {
    s := SlowCode(c);
    s := Next(c, s, Tick(c.maxRequest));
    assert "ddd" in StaleDevices(s.db, s.now, s.now - DEVICE_RETENTION);
    s := Next(c, s, Sweep(DeviceSessions, 0));
    s := Next(c, s, LoginCall(FindDevice(2, "ddd", "ffff", "vv", "", "", "")));
  }

  /** The grant then links its user's token to the other user's session. */
  lemma SlowGrant(c: Config) returns (s: State)
    requires ValidConfig(c) && 2 * c.maxRequest + c.authTTL > DEVICE_RETENTION
    ensures Reachable(c, s) && !Owned(s.db)
  {
    s := TakenOver(c);
    s := Next(c, s, TokenCall(Grant(1, NewIds("1", "22", "333"))));
    assert s.db.refreshTokens[Sha256("333")].deviceSessionId == Some("ddd") &&
           s.db.refreshTokens[Sha256("333")].userId == "u";
    assert !OwnedBy(s.db.devices, "ddd", "u");
  }

  /** Ownership across tables holds on every run exactly when two calls and an auth
      request's lifetime fit into the retention of revoked sessions. */
  lemma OwnershipExactly(c: Config)
    requires ValidConfig(c)
    ensures (forall s :: Reachable(c, s) ==> Owned(s.db)) <==> 2 * c.maxRequest + c.authTTL <= DEVICE_RETENTION
  {
    if 2 * c.maxRequest + c.authTTL <= DEVICE_RETENTION {
      forall s | Reachable(c, s) ensures Owned(s.db) {
        ReachableOwned(c, s);
      }
    } else {
      var s := SlowGrant(c);
    }
  }
}
