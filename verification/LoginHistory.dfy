/** From the login to the tokens. What a token says about the login is what the login
    wrote: the statements between them (the code is saved, read and exchanged) and every
    rotation after them carry user, auth_time, AMR, client and device session along. */
module LoginHistory {
  import opened Prelude
  import opened Tables
  import opened TokenSystem
  import R = RotationChains
  import C = ChainTheorems
  import D = DeviceOwnership

  // ------------------------------------------------------------ the observer

  datatype Creation = Creation(clientId: Id, scopes: seq<string>, at: Time)

  datatype FinishedLogin = FinishedLogin(user: Id, device: Id, at: Time)

  /** Where a chain of tokens started: the auth request, and the login that was the last
      to finish on it when the code was read. */
  datatype Start = Start(request: Id, login: Option<FinishedLogin>)

  /** The service, and an observer who notes which calls succeeded. */
  datatype History = History(
    state: State,
    created: map<Id, Creation>,
    finished: map<Id, FinishedLogin>,
    noted: map<nat, Start>,
    starts: map<TokenHash, Start>)

  const BEGINNING := History(INIT, map[], map[], map[], map[])

  function Lookup(finished: map<Id, FinishedLogin>, id: Id): Option<FinishedLogin> {
    if id in finished then Some(finished[id]) else None
  }

  function Observe(c: Config, t: History, e: Event): History {
    var s, o := t.state, Step(c, t.state, e);
    var next := t.(state := o.state);
    match e
    case LoginCall(CreateAuthRequest(id, clientId, scopes)) =>
      if o.reply.Done? then next.(created := t.created[id := Creation(clientId, scopes, s.now)]) else next
    case LoginCall(FinishLogin(call, id)) =>
      if o.reply.Done? && call in s.logins
      then next.(finished := t.finished[id := FinishedLogin(s.logins[call].user, s.logins[call].device, s.now)])
      else next
    case LoginCall(ReadCode(call, _, id)) =>
      if o.reply.AuthReply? && o.reply.request.Ok?
      then next.(noted := t.noted[call := Start(id, Lookup(t.finished, id))])
      else next
    case TokenCall(Grant(call, ids)) =>
      if o.reply.IssuedReply? && call in t.noted
      then next.(starts := t.starts[Sha256(ids.raw) := t.noted[call]])
      else next
    case _ => next
  }

  function Watch(c: Config, t: History, events: seq<Event>): History
    decreases |events|
  {
    if events == [] then t else Watch(c, Observe(c, t, events[0]), events[1..])
  }

  /** The observer does not interfere. */
  lemma {:induction false} WatchIsRun(c: Config, t: History, events: seq<Event>)
    ensures Watch(c, t, events).state == Run(c, t.state, events)
    decreases |events|
  {
    hide Step;
    if events == [] {
    } else {
      WatchIsRun(c, Observe(c, t, events[0]), events[1..]);
    }
  }

  // --------------------------------------------------------------- invariant

  predicate RequestFrom(r: AuthRequest, start: Start, created: map<Id, Creation>) {
    start.request in created && Creation(r.clientId, r.scopes, r.createdAt) == created[start.request] &&
    (r.userId.Some? ==>
      start.login.Some? && r.userId == Some(start.login.value.user) && r.authTime == Some(start.login.value.at) &&
      r.amr == ["fed"] && r.deviceSessionId in {None, Some(start.login.value.device)})
  }

  predicate RowFrom(row: RefreshToken, start: Start, created: map<Id, Creation>) {
    start.request in created && row.clientId == created[start.request].clientId &&
    row.scopes == created[start.request].scopes && start.login.Some? && row.userId == start.login.value.user &&
    row.authTime == start.login.value.at && row.amr == ["fed"] &&
    row.audience == [row.clientId] && row.deviceSessionId in {None, Some(start.login.value.device)}
  }

  ghost predicate RequestsOk(rows: map<Id, AuthRequest>, finished: map<Id, FinishedLogin>, created: map<Id, Creation>) {
    forall id | id in rows :: RequestFrom(rows[id], Start(id, Lookup(finished, id)), created)
  }

  ghost predicate ReadsOk(copies: map<nat, CodeRead>, noted: map<nat, Start>, created: map<Id, Creation>) {
    forall k | k in copies :: k in noted && RequestFrom(copies[k].request, noted[k], created)
  }

  ghost predicate StartsOk(log: R.Log, starts: map<TokenHash, Start>, created: map<Id, Creation>) {
    forall h | h in log && log[h].parent.None? :: h in starts && RowFrom(log[h].row, starts[h], created)
  }

  ghost predicate Inv(t: History) {
    RequestsOk(t.state.db.authRequests, t.finished, t.created) && ReadsOk(t.state.codeReads, t.noted, t.created) &&
    StartsOk(t.state.log, t.starts, t.created) && t.created.Keys <= t.state.issued && "" !in t.state.db.users
  }

  // ------------------------------------------------------------- every event

  /** Rows are dropped, get a code, or lose their device session. */
  ghost predicate RequestsKept(a: map<Id, AuthRequest>, b: map<Id, AuthRequest>) {
    forall id | id in b :: id in a && b[id].deviceSessionId in {None, a[id].deviceSessionId} &&
      b[id].(code := None, deviceSessionId := None) == a[id].(code := None, deviceSessionId := None)
  }

  /** No chain starts. */
  ghost predicate NoStart(a: R.Log, b: R.Log) {
    forall h | h in b && b[h].parent.None? :: h in a && a[h] == b[h]
  }

  lemma KeptKeepsInv(t: History, s: State)
    requires Inv(t) && RequestsKept(t.state.db.authRequests, s.db.authRequests) && NoStart(t.state.log, s.log)
    requires s.codeReads == t.state.codeReads && t.state.issued <= s.issued && "" !in s.db.users
    ensures Inv(t.(state := s))
  {
    forall id | id in s.db.authRequests
      ensures RequestFrom(s.db.authRequests[id], Start(id, Lookup(t.finished, id)), t.created)
    {
      assert RequestFrom(t.state.db.authRequests[id], Start(id, Lookup(t.finished, id)), t.created);
    }
  }

  lemma RevocationKept(db: Tables, now: Time, r: Revocation)
    requires Revoked(db, now, r).Ok?
    ensures RequestsKept(db.authRequests, Revoked(db, now, r).value.authRequests)
    ensures Revoked(db, now, r).value.users == db.users
  {}

  lemma SweepKept(c: Config, db: Tables, now: Time, table: SweptTable, lag: nat)
    ensures RequestsKept(db.authRequests, Swept(c, db, now, table, lag).authRequests)
    ensures Swept(c, db, now, table, lag).users == db.users
  {}

  lemma QuietLoginKept(c: Config, s: State, e: LoginEvent)
    requires e.FindDevice? || e.SaveAuthCode? || e.DeleteAuth?
    ensures
      var t := LoginStep(c, s, e).state;
      RequestsKept(s.db.authRequests, t.db.authRequests) && t.db.users == s.db.users && t.codeReads == s.codeReads &&
      t.log == s.log && t.issued == s.issued
  {
    hide FindOrCreateDevice;
    if e.FindDevice? {
      SameKept(s.db.authRequests);
      if LoginStep(c, s, e).state != s {
        FoundKept(s.db, s.now, e.cookie, e.freshId, e.user, e.userAgent, e.ip, e.name);
      }
    } else {
      hide LoginStep;
      CodeOrDeletionKept(c, s, e);
    }
  }

  lemma FoundKept(db: Tables, now: Time, cookie: Id, freshId: Id, user: Id, userAgent: string, ip: string, name: string)
    requires FindOrCreateDevice(db, now, cookie, freshId, user, userAgent, ip, name).Ok?
    ensures
      var found := FindOrCreateDevice(db, now, cookie, freshId, user, userAgent, ip, name).value;
      found.db == db.(devices := found.db.devices)
  {}

  lemma CodeOrDeletionKept(c: Config, s: State, e: LoginEvent)
    requires e.SaveAuthCode? || e.DeleteAuth?
    ensures
      var t := LoginStep(c, s, e).state;
      RequestsKept(s.db.authRequests, t.db.authRequests) && t.db.users == s.db.users && t.codeReads == s.codeReads &&
      t.log == s.log && t.issued == s.issued
  {
    hide FindDeviceStep, FinishLoginStep, ReadCodeStep, CreateAuthRequestStep;
  }

  lemma PairKept(db: Tables, now: Time, access: AccessToken, refresh: RefreshToken)
    requires IssuePair(db, now, access, refresh).Ok?
    ensures
      var t := IssuePair(db, now, access, refresh).value;
      t.authRequests == db.authRequests && t.users == db.users && refresh.userId in db.users
  {}

  lemma IssuingKept(c: Config, s: State, request: TokenRequest, ids: NewIds, current: Option<TokenHash>)
    ensures
      var o := Issuing(c, s, request, ids, current);
      && o.state.db.authRequests == s.db.authRequests && o.state.db.users == s.db.users
      && o.state.codeReads == s.codeReads && s.issued <= o.state.issued
      && if o.reply.IssuedReply? then o.state.log == s.log[Sha256(ids.raw) := o.state.log[Sha256(ids.raw)]] &&
           o.state.log[Sha256(ids.raw)].parent == current && request.Subject() in s.db.users
         else o.state.log == s.log
  {
    hide IssuePair;
    if Issuing(c, s, request, ids, current).reply.IssuedReply? {
      PairKept(R.BeforeInsert(s.db, current), s.now, BuildPair(c, s.now, request, ids).access,
               R.InsertedRow(c, s, request, ids, current));
    }
  }

  lemma RotateKeepsInv(c: Config, t: History, call: nat, ids: NewIds, scopes: seq<string>)
    requires Inv(t)
    ensures Inv(Observe(c, t, TokenCall(Rotate(call, ids, scopes))))
  {
    hide Issuing, RequestsOk, ReadsOk, StartsOk;
    var s := t.state;
    if call in s.refreshReads {
      var read := s.refreshReads[call];
      IssuingKept(c, s.(refreshReads := s.refreshReads - {call}), RefreshRequest(read, scopes), ids, Some(read.hash));
    }
    KeptKeepsInv(t, RotateStep(c, s, call, ids, scopes).state);
  }

  /** The one event that starts a chain. */
  lemma GrantKeepsInv(c: Config, t: History, call: nat, ids: NewIds)
    requires ValidConfig(c) && Inv(t)
    ensures Inv(Observe(c, t, TokenCall(Grant(call, ids))))
  {
    hide Issuing, RequestsOk, TokenRequest.Subject;
    var s := t.state;
    var o := GrantStep(c, s, call, ids);
    if call in s.codeReads {
      IssuingKept(c, s.(codeReads := s.codeReads - {call}), CodeRequest(s.codeReads[call].request), ids, None);
    }
    if o.reply.IssuedReply? {
      GrantStarts(c, t, call, ids);
    }
  }

  lemma GrantStarts(c: Config, t: History, call: nat, ids: NewIds)
    requires ValidConfig(c) && Inv(t) && GrantStep(c, t.state, call, ids).reply.IssuedReply?
    ensures call in t.noted && Sha256(ids.raw) in GrantStep(c, t.state, call, ids).state.log
    ensures RowFrom(GrantStep(c, t.state, call, ids).state.log[Sha256(ids.raw)].row, t.noted[call], t.created)
  {
    hide Issuing, RequestsOk, StartsOk, C.Delivered;
    var s := t.state;
    var t' := s.(codeReads := s.codeReads - {call});
    C.GrantDelivers(c, s, call, ids);
    IssuingKept(c, t', CodeRequest(s.codeReads[call].request), ids, None);
    R.IssuedTables(c, t', CodeRequest(s.codeReads[call].request), ids, None);
    assert RequestFrom(s.codeReads[call].request, t.noted[call], t.created);
  }

  lemma CreateKeepsInv(c: Config, t: History, id: Id, clientId: Id, scopes: seq<string>)
    requires Inv(t)
    ensures Inv(Observe(c, t, LoginCall(CreateAuthRequest(id, clientId, scopes))))
  {
    hide ReadsOk, StartsOk, RequestsOk;
    var s := t.state;
    if id !in s.issued {
      CreatedOnce(t, id, Creation(clientId, scopes, s.now));
      if id !in s.db.authRequests {
        var row := AuthRequest(id, clientId, scopes, None, None, [], false, None, s.now, None);
        RequestAdded(s.db.authRequests, t.finished, t.created[id := Creation(clientId, scopes, s.now)], row);
      }
    }
  }

  lemma RequestAdded(rows: map<Id, AuthRequest>, finished: map<Id, FinishedLogin>, created: map<Id, Creation>,
                     row: AuthRequest)
    requires RequestsOk(rows, finished, created) && row.userId.None?
    requires row.id in created && created[row.id] == Creation(row.clientId, row.scopes, row.createdAt)
    ensures RequestsOk(rows[row.id := row], finished, created)
  {}

  lemma CreatedOnce(t: History, id: Id, creation: Creation)
    requires Inv(t) && id !in t.state.issued
    ensures
      var created := t.created[id := creation];
      && RequestsOk(t.state.db.authRequests, t.finished, created) && ReadsOk(t.state.codeReads, t.noted, created)
      && StartsOk(t.state.log, t.starts, created)
  {
    assert id !in t.created.Keys;
  }

  lemma FinishKeepsInv(c: Config, t: History, call: nat, id: Id)
    requires Inv(t)
    ensures Inv(Observe(c, t, LoginCall(FinishLogin(call, id))))
  {
    hide StartsOk, ReadsOk, RequestsOk;
    var s := t.state;
    if call in s.logins {
      var login := s.logins[call];
      RequestFinished(s.db, t.finished, t.created, id, login, s.now);
    }
  }

  lemma RequestFinished(db: Tables, finished: map<Id, FinishedLogin>, created: map<Id, Creation>, id: Id, login: Login,
                        now: Time)
    requires RequestsOk(db.authRequests, finished, created)
    ensures
      var r := CompleteLogin(db, id, login.user, now, ["fed"], Some(login.device));
      r.Ok? ==> r.value.users == db.users && RequestsOk(
        r.value.authRequests, finished[id := FinishedLogin(login.user, login.device, now)], created)
  {
    forall k | k in db.authRequests
      ensures RequestFrom(db.authRequests[k], Start(k, Lookup(finished, k)), created)
    {
    }
  }

  lemma ReadKeepsInv(c: Config, t: History, call: nat, code: string, id: Id)
    requires Inv(t)
    ensures Inv(Observe(c, t, LoginCall(ReadCode(call, code, id))))
  {
    hide StartsOk, RequestsOk, ReadsOk, RequestFrom;
    var s := t.state;
    if id in s.db.authRequests {
      StoredRequestFrom(t, id);
      ReadNoted(s.codeReads, t.noted, t.created, call, CodeRead(s.db.authRequests[id], s.now),
                Start(id, Lookup(t.finished, id)));
    }
  }

  lemma ReadNoted(copies: map<nat, CodeRead>, noted: map<nat, Start>, created: map<Id, Creation>, call: nat,
                  read: CodeRead, start: Start)
    requires ReadsOk(copies, noted, created) && RequestFrom(read.request, start, created)
    ensures ReadsOk(copies[call := read], noted[call := start], created)
  {}

  lemma StoredRequestFrom(t: History, id: Id)
    requires Inv(t) && id in t.state.db.authRequests
    ensures RequestFrom(t.state.db.authRequests[id], Start(id, Lookup(t.finished, id)), t.created)
  {}

  lemma LoginKeepsInv(c: Config, t: History, e: LoginEvent)
    requires Inv(t)
    ensures Inv(Observe(c, t, LoginCall(e)))
  {
    hide Inv, LoginStep, RequestsKept;
    match e
    case CreateAuthRequest(id, clientId, scopes) => CreateKeepsInv(c, t, id, clientId, scopes);
    case FinishLogin(call, id) => FinishKeepsInv(c, t, call, id);
    case ReadCode(call, code, id) => ReadKeepsInv(c, t, call, code, id);
    case _ =>
      QuietLoginKept(c, t.state, e);
      NobodyIsNobody(t);
      KeptKeepsInv(t, LoginStep(c, t.state, e).state);
  }

  lemma NobodyIsNobody(t: History)
    requires Inv(t)
    ensures "" !in t.state.db.users
  {}

  lemma StepKeepsInv(c: Config, t: History, e: Event)
    requires ValidConfig(c) && Inv(t)
    ensures Inv(Observe(c, t, e))
  {
    hide Inv, RequestsKept, LoginStep, GrantStep, RotateStep, Revoked, Swept, Answer;
    NobodyIsNobody(t);
    var s := t.state;
    match e
    case LoginCall(login) => LoginKeepsInv(c, t, login);
    case TokenCall(Grant(call, ids)) => GrantKeepsInv(c, t, call, ids);
    case TokenCall(Rotate(call, ids, scopes)) => RotateKeepsInv(c, t, call, ids, scopes);
    case TokenCall(token) => OtherTokenCallKeepsInv(c, t, token);
    case Revoke(r) =>
      SameKept(s.db.authRequests);
      if Revoked(s.db, s.now, r).Ok? {
        RevocationKept(s.db, s.now, r);
      }
      KeptKeepsInv(t, Step(c, s, e).state);
    case Sweep(table, lag) =>
      SweepKept(c, s.db, s.now, table, lag);
      KeptKeepsInv(t, Step(c, s, e).state);
    case _ =>
      SameKept(s.db.authRequests);
      KeptKeepsInv(t, Step(c, s, e).state);
  }

  lemma SameKept(rows: map<Id, AuthRequest>)
    ensures RequestsKept(rows, rows)
  {}

  lemma OtherTokenCallKeepsInv(c: Config, t: History, e: TokenEvent)
    requires Inv(t) && (e.GrantAccess? || e.ReadRefresh?)
    ensures Inv(Observe(c, t, TokenCall(e)))
  {
    hide RequestsOk, ReadsOk, StartsOk;
    KeptKeepsInv(t, TokenStep(c, t.state, e).state);
  }

  lemma {:induction false} RunKeepsInv(c: Config, t: History, events: seq<Event>)
    requires ValidConfig(c) && Inv(t)
    ensures Inv(Watch(c, t, events))
    decreases |events|
  {
    hide Inv, Observe;
    if events == [] {
    } else {
      StepKeepsInv(c, t, events[0]);
      RunKeepsInv(c, Observe(c, t, events[0]), events[1..]);
    }
  }

  // ------------------------------------------------------- the device session

  /** Sessions a login of the last maxRequest + authTTL may still name are not swept. */
  predicate SlowSweeps(c: Config) {
    ValidConfig(c) && c.maxRequest + c.authTTL <= DEVICE_RETENTION
  }

  predicate LoginHeld(c: Config, devices: D.Devices, l: Login, now: Time) {
    l.at <= now && (now <= l.at + c.maxRequest ==> D.Held(devices, l.device, l.user, l.at))
  }

  /** While it can be read, a finished request has its session. */
  predicate RequestLinked(c: Config, devices: D.Devices, r: AuthRequest, now: Time) {
    r.createdAt <= now &&
    (r.userId.Some? && LiveAuth(r, c.authTTL, now) ==>
      r.deviceSessionId.Some? && D.Held(devices, r.deviceSessionId.value, r.userId.value, r.createdAt - c.maxRequest))
  }

  ghost predicate LoginsHeld(c: Config, devices: D.Devices, logins: map<nat, Login>, now: Time) {
    forall k | k in logins :: LoginHeld(c, devices, logins[k], now)
  }

  ghost predicate RequestsLinked(c: Config, devices: D.Devices, rows: map<Id, AuthRequest>, now: Time) {
    forall id | id in rows :: RequestLinked(c, devices, rows[id], now)
  }

  ghost predicate ReadsLinked(copies: map<nat, CodeRead>) {
    forall k | k in copies && copies[k].request.userId.Some? :: copies[k].request.deviceSessionId.Some?
  }

  ghost predicate StartsLinked(log: R.Log) {
    forall h | h in log && log[h].parent.None? :: log[h].row.deviceSessionId.Some?
  }

  ghost predicate LinkInv(c: Config, s: State) {
    LoginsHeld(c, s.db.devices, s.logins, s.now) && RequestsLinked(c, s.db.devices, s.db.authRequests, s.now) &&
    ReadsLinked(s.codeReads) && StartsLinked(s.log) && "" !in s.db.users
  }

  /** Rows are dropped or get a code. */
  ghost predicate CodesOnly(a: map<Id, AuthRequest>, b: map<Id, AuthRequest>) {
    forall id | id in b :: id in a && b[id].(code := None) == a[id].(code := None)
  }

  lemma KeptKeepsLinks(c: Config, s: State, t: State)
    requires ValidConfig(c) && LinkInv(c, s) && D.DevicesKept(s.db.devices, t.db.devices, s.now) && s.now <= t.now
    requires CodesOnly(s.db.authRequests, t.db.authRequests)
    requires NoStart(s.log, t.log) && t.logins == s.logins && t.codeReads == s.codeReads && "" !in t.db.users
    ensures LinkInv(c, t)
  {
    forall id | id in t.db.authRequests ensures RequestLinked(c, t.db.devices, t.db.authRequests[id], t.now) {
      assert RequestLinked(c, s.db.devices, s.db.authRequests[id], s.now);
    }
    forall k | k in t.logins ensures LoginHeld(c, t.db.devices, t.logins[k], t.now) {
      assert LoginHeld(c, s.db.devices, s.logins[k], s.now);
    }
  }

  lemma DeviceSweepKeepsLinks(c: Config, s: State, lag: nat)
    requires SlowSweeps(c) && LinkInv(c, s)
    ensures LinkInv(c, s.(db := DeleteRevokedBefore(s.db, s.now, s.now - lag - DEVICE_RETENTION)))
  {}

  lemma SweepKeepsLinks(c: Config, s: State, table: SweptTable, lag: nat)
    requires SlowSweeps(c) && LinkInv(c, s)
    ensures LinkInv(c, Step(c, s, Sweep(table, lag)).state)
  {
    hide LinkInv, DeleteDevices, StaleDevices, SweepAccess, SweepRefresh, SweepAuthRequests, D.DevicesKept;
    if table.DeviceSessions? {
      DeviceSweepKeepsLinks(c, s, lag);
    } else {
      D.SweptTablesKept(c, s.db, s.now, table, lag);
      LinkedNobody(c, s);
      SweepKept(c, s.db, s.now, table, lag);
      KeptKeepsLinks(c, s, s.(db := Swept(c, s.db, s.now, table, lag)));
    }
  }

  lemma LinkedNobody(c: Config, s: State)
    requires LinkInv(c, s)
    ensures "" !in s.db.users
  {}

  lemma RevocationKeepsLinks(c: Config, s: State, r: Revocation)
    requires ValidConfig(c) && LinkInv(c, s)
    ensures LinkInv(c, Step(c, s, Revoke(r)).state)
  {
    hide LinkInv, Revoked, D.DevicesKept;
    if Revoked(s.db, s.now, r).Ok? {
      D.RevokedTablesKept(s.db, s.now, r);
      RevocationKept(s.db, s.now, r);
      LinkedNobody(c, s);
      KeptKeepsLinks(c, s, s.(db := Revoked(s.db, s.now, r).value));
    }
  }

  lemma FindKeepsLinks(c: Config, s: State, e: LoginEvent)
    requires ValidConfig(c) && LinkInv(c, s) && e.FindDevice?
    ensures LinkInv(c, LoginStep(c, s, e).state)
  {
    hide FindOrCreateDevice, D.DevicesKept, RequestsLinked, ReadsLinked, StartsLinked;
    match FindOrCreateDevice(s.db, s.now, e.cookie, e.freshId, e.user, e.userAgent, e.ip, e.name)
    case Err(_) =>
    case Ok(found) =>
      D.FoundDevice(s.db, s.now, e.cookie, e.freshId, e.user, e.userAgent, e.ip, e.name);
      QuietLoginKept(c, s, e);
      KeptKeepsLinks(c, s, s.(db := found.db));
      assert LoginHeld(c, found.db.devices, Login(e.user, found.id, s.now), s.now);
  }

  lemma FinishKeepsLinks(c: Config, s: State, call: nat, id: Id)
    requires ValidConfig(c) && LinkInv(c, s)
    ensures LinkInv(c, FinishLoginStep(c, s, call, id).state)
  {}

  lemma CreateKeepsLinks(c: Config, s: State, id: Id, clientId: Id, scopes: seq<string>)
    requires ValidConfig(c) && LinkInv(c, s)
    ensures LinkInv(c, CreateAuthRequestStep(s, id, clientId, scopes).state)
  {
    hide LoginsHeld, ReadsLinked, StartsLinked;
  }

  lemma ReadKeepsLinks(c: Config, s: State, call: nat, code: string, id: Id)
    requires ValidConfig(c) && LinkInv(c, s)
    ensures LinkInv(c, ReadCodeStep(c, s, call, code, id).state)
  {
    hide LoginsHeld, StartsLinked;
  }

  lemma CodeOrDeletionKeepsLinks(c: Config, s: State, e: LoginEvent)
    requires ValidConfig(c) && LinkInv(c, s) && (e.SaveAuthCode? || e.DeleteAuth?)
    ensures LinkInv(c, LoginStep(c, s, e).state)
  {
    hide LoginsHeld, ReadsLinked, StartsLinked, FindDeviceStep, FinishLoginStep, ReadCodeStep, CreateAuthRequestStep;
  }

  lemma LoginKeepsLinks(c: Config, s: State, e: LoginEvent)
    requires ValidConfig(c) && LinkInv(c, s)
    ensures LinkInv(c, LoginStep(c, s, e).state)
  {
    hide LinkInv, FindDeviceStep, FinishLoginStep, ReadCodeStep, CreateAuthRequestStep, SaveCodeStep;
    match e
    case FindDevice(_, _, _, _, _, _, _) => FindKeepsLinks(c, s, e);
    case FinishLogin(call, id) => FinishKeepsLinks(c, s, call, id);
    case CreateAuthRequest(id, clientId, scopes) => CreateKeepsLinks(c, s, id, clientId, scopes);
    case ReadCode(call, code, id) => ReadKeepsLinks(c, s, call, code, id);
    case _ => CodeOrDeletionKeepsLinks(c, s, e);
  }

  lemma IssuingKeepsDevices(c: Config, s: State, request: TokenRequest, ids: NewIds, current: Option<TokenHash>)
    ensures D.DevicesKept(s.db.devices, Issuing(c, s, request, ids, current).state.db.devices, s.now)
    ensures Issuing(c, s, request, ids, current).state.logins == s.logins
    ensures Issuing(c, s, request, ids, current).state.now == s.now
  {
    hide IssuePair;
    if Issuing(c, s, request, ids, current).reply.IssuedReply? {
      D.PairDevices(R.BeforeInsert(s.db, current), s.now, BuildPair(c, s.now, request, ids).access,
                    R.InsertedRow(c, s, request, ids, current));
    }
  }

  lemma GrantKeepsLinks(c: Config, s: State, call: nat, ids: NewIds)
    requires ValidConfig(c) && LinkInv(c, s)
    ensures LinkInv(c, GrantStep(c, s, call, ids).state)
  {
    hide Issuing, LoginsHeld, RequestsLinked, D.DevicesKept;
    if call in s.codeReads && GrantStep(c, s, call, ids).state != s {
      var t, request := s.(codeReads := s.codeReads - {call}), CodeRequest(s.codeReads[call].request);
      assert LinkInv(c, t);
      IssuingKept(c, t, request, ids, None);
      IssuingKeepsDevices(c, t, request, ids, None);
      var o := Issuing(c, t, request, ids, None);
      KeptKeepsLinks(c, t, o.state.(log := t.log));
      if o.reply.IssuedReply? {
        R.IssuedTables(c, t, request, ids, None);
      }
    }
  }

  lemma RotateKeepsLinks(c: Config, s: State, call: nat, ids: NewIds, scopes: seq<string>)
    requires ValidConfig(c) && LinkInv(c, s)
    ensures LinkInv(c, RotateStep(c, s, call, ids, scopes).state)
  {
    hide Issuing, LoginsHeld, RequestsLinked, D.DevicesKept;
    if call in s.refreshReads && RotateStep(c, s, call, ids, scopes).state != s {
      var t, read := s.(refreshReads := s.refreshReads - {call}), s.refreshReads[call];
      IssuingKept(c, t, RefreshRequest(read, scopes), ids, Some(read.hash));
      IssuingKeepsDevices(c, t, RefreshRequest(read, scopes), ids, Some(read.hash));
      KeptKeepsLinks(c, t, Issuing(c, t, RefreshRequest(read, scopes), ids, Some(read.hash)).state);
    }
  }

  lemma StepKeepsLinks(c: Config, s: State, e: Event)
    requires SlowSweeps(c) && LinkInv(c, s)
    ensures LinkInv(c, Step(c, s, e).state)
  {
    hide LinkInv, LoginStep, GrantStep, RotateStep, Revoked, Swept, Answer;
    LinkedNobody(c, s);
    match e
    case LoginCall(login) => LoginKeepsLinks(c, s, login);
    case TokenCall(Grant(call, ids)) => GrantKeepsLinks(c, s, call, ids);
    case TokenCall(Rotate(call, ids, scopes)) => RotateKeepsLinks(c, s, call, ids, scopes);
    case Revoke(r) => RevocationKeepsLinks(c, s, r);
    case Sweep(table, lag) => SweepKeepsLinks(c, s, table, lag);
    case TokenCall(token) =>
      OtherTokenCallKeepsLinks(c, s, token);
      SameLinksKept(c, s, TokenStep(c, s, token).state);
    case _ =>
      OtherStepKeepsLinks(c, s, e);
      SameLinksKept(c, s, Step(c, s, e).state);
  }

  /** The parts of the state the links are about. */
  ghost predicate SameLinks(s: State, t: State) {
    t.db.devices == s.db.devices && t.db.authRequests == s.db.authRequests && t.logins == s.logins &&
    t.codeReads == s.codeReads && t.log == s.log && s.now <= t.now && ("" !in s.db.users ==> "" !in t.db.users)
  }

  lemma SameLinksKept(c: Config, s: State, t: State)
    requires ValidConfig(c) && LinkInv(c, s) && SameLinks(s, t)
    ensures LinkInv(c, t)
  {
    hide LinkInv;
    LinkedNobody(c, s);
    KeptKeepsLinks(c, s, t);
  }

  lemma OtherTokenCallKeepsLinks(c: Config, s: State, e: TokenEvent)
    requires e.GrantAccess? || e.ReadRefresh?
    ensures SameLinks(s, TokenStep(c, s, e).state)
  {
    hide GrantStep, RotateStep, GetRefresh, GrantAccessStep, SameLinks;
    match e
    case GrantAccess(id, clientId, subject, audience, scopes) =>
      AccessLinks(s, AccessToken(id, clientId, subject, audience, scopes, s.now + c.accessTTL, None, s.now));
    case ReadRefresh(call, raw) => ReadLinks(s, call, raw);
  }

  lemma AccessLinks(s: State, row: AccessToken)
    ensures SameLinks(s, GrantAccessStep(s, row).state)
  {}

  lemma ReadLinks(s: State, call: nat, raw: string)
    ensures SameLinks(s, ReadRefreshStep(s, call, raw).state)
  {}

  lemma OtherStepKeepsLinks(c: Config, s: State, e: Event)
    requires e.Tick? || e.NewUser? || e.Ask?
    ensures SameLinks(s, Step(c, s, e).state)
  {
    hide LoginStep, TokenStep, Revoked, Swept, Answer;
  }

  lemma {:induction false} RunKeepsLinks(c: Config, s: State, events: seq<Event>)
    requires SlowSweeps(c) && LinkInv(c, s)
    ensures LinkInv(c, Run(c, s, events))
    decreases |events|
  {
    hide LinkInv, Step;
    if events == [] {
    } else {
      StepKeepsLinks(c, s, events[0]);
      RunKeepsLinks(c, Step(c, s, events[0]).state, events[1..]);
    }
  }

  // ------------------------------------------------------------ main results

  lemma Began(c: Config)
    ensures Inv(BEGINNING) && LinkInv(c, INIT)
  {}

  /** The token's chain started with the exchange of a request's code, and the last login
      finished on that request before the code was read wrote what the token says. */
  ghost predicate TellsItsLogin(t: History, h: TokenHash) {
    h in t.state.db.refreshTokens &&
    var row, first := t.state.db.refreshTokens[h], C.Origin(t.state.log, h);
    && first in t.starts && t.starts[first].login.Some? && t.starts[first].request in t.created
    && var login := t.starts[first].login.value;
    && row.userId == login.user && row.authTime == login.at && row.amr == ["fed"]
    && row.clientId == t.created[t.starts[first].request].clientId && row.audience == [row.clientId]
    && (LiveRefresh(row, t.state.now) ==> row.deviceSessionId in {None, Some(login.device)})
  }

  /** On every run, for every stored token and chains of any length. */
  lemma TokensTellTheLogin(c: Config, events: seq<Event>, h: TokenHash)
    requires ValidConfig(c) && h in Run(c, INIT, events).db.refreshTokens
    ensures Watch(c, BEGINNING, events).state == Run(c, INIT, events)
    ensures TellsItsLogin(Watch(c, BEGINNING, events), h)
  {
    hide Watch, Run;
    var t := Watch(c, BEGINNING, events);
    WatchIsRun(c, BEGINNING, events);
    Began(c);
    RunKeepsInv(c, BEGINNING, events);
    C.ChainConstancy(c, t.state, h);
    assert RowFrom(t.state.log[C.Origin(t.state.log, h)].row, t.starts[C.Origin(t.state.log, h)], t.created);
  }

  /** The login's device session, for the stored token h. */
  ghost predicate NamesItsDevice(t: History, h: TokenHash) {
    h in t.state.db.refreshTokens && C.Origin(t.state.log, h) in t.starts &&
    t.starts[C.Origin(t.state.log, h)].login.Some? &&
    t.state.db.refreshTokens[h].deviceSessionId == Some(t.starts[C.Origin(t.state.log, h)].login.value.device)
  }

  lemma TokensNameTheDevice(c: Config, events: seq<Event>, h: TokenHash)
    requires SlowSweeps(c) && h in Run(c, INIT, events).db.refreshTokens
    requires LiveRefresh(Run(c, INIT, events).db.refreshTokens[h], Run(c, INIT, events).now)
    ensures NamesItsDevice(Watch(c, BEGINNING, events), h)
  {
    hide Watch, Run, LinkInv;
    var s := Run(c, INIT, events);
    TokensTellTheLogin(c, events, h);
    Began(c);
    RunKeepsLinks(c, INIT, events);
    C.ChainConstancy(c, s, h);
    FirstIsLinked(c, s, C.Origin(s.log, h));
  }

  lemma FirstIsLinked(c: Config, s: State, h: TokenHash)
    requires LinkInv(c, s) && h in s.log && s.log[h].parent.None?
    ensures s.log[h].row.deviceSessionId.Some?
  {}

  /** A history that some run leaves. */
  ghost predicate Observed(c: Config, t: History) {
    exists events :: t == Watch(c, BEGINNING, events)
  }

  lemma {:induction false} WatchAppend(c: Config, t: History, a: seq<Event>, b: seq<Event>)
    ensures Watch(c, t, a + b) == Watch(c, Watch(c, t, a), b)
    decreases |a|
  {
    hide Observe;
    if a == [] {
      assert a + b == b;
    } else {
      assert (a + b)[0] == a[0] && (a + b)[1..] == a[1..] + b;
      WatchAppend(c, Observe(c, t, a[0]), a[1..], b);
    }
  }

  lemma Next(c: Config, t: History, e: Event) returns (next: History)
    requires Observed(c, t)
    ensures next == Observe(c, t, e) && Observed(c, next)
  {
    hide Observe;
    var events :| t == Watch(c, BEGINNING, events);
    next := Observe(c, t, e);
    WatchAppend(c, BEGINNING, events, [e]);
    assert [e][1..] == [];
    assert Watch(c, next, []) == next;
  }

  /** An auth request can be read, by id or by code, for its lifetime after the call that
      created it, to the millisecond, unless it was deleted. */
  lemma RequestLifetime(c: Config, t: History, id: Id)
    requires ValidConfig(c) && Observed(c, t) && id in t.state.db.authRequests
    ensures id in t.created
    ensures GetAuthRequest(t.state.db, c.authTTL, t.state.now, id) ==
      if t.state.now <= t.created[id].at + c.authTTL then Ok(t.state.db.authRequests[id]) else Err(NotFound)
  {
    hide Watch, ReadsOk, StartsOk;
    var events :| t == Watch(c, BEGINNING, events);
    Began(c);
    RunKeepsInv(c, BEGINNING, events);
    StoredRequestFrom(t, id);
  }

  /** A login found its session, the session is revoked at once, ... */
  lemma SlowLogin(c: Config) returns (t: History)
    requires ValidConfig(c)
    ensures Observed(c, t)
    ensures t == BEGINNING.(state := INIT.(
                   now := c.maxRequest, logins := map[0 := Login("u", "ddd", 0)],
                   db := EMPTY_TABLES.(users := {"u"},
                     devices := map["ddd" := DeviceSession("ddd", "u", "", "", "", 0, 0, Some(0))])))
  {
    assert Watch(c, BEGINNING, []) == BEGINNING;
    hide Watch;
    t := Next(c, BEGINNING, NewUser("u"));
    t := Next(c, t, LoginCall(FindDevice(0, "ddd", "ffff", "u", "", "", "")));
    t := Next(c, t, Revoke(RevokeDeviceSession("ddd", "u")));
    t := Next(c, t, Tick(c.maxRequest));
  }

  /** ... the login finishes as late as it may, ... */
  lemma SlowFinish(c: Config) returns (t: History)
    requires ValidConfig(c)
    ensures Observed(c, t)
    ensures t.state.now == c.maxRequest && t.state.db.users == {"u"} && t.state.issued == {"aaaaa"}
    ensures t.state.db.refreshTokens == map[] && t.state.db.tokens == map[]
    ensures "ddd" in t.state.db.devices && t.state.db.devices["ddd"].revokedAt == Some(0)
    ensures "aaaaa" in t.finished && t.finished["aaaaa"].device == "ddd"
    ensures "aaaaa" in t.state.db.authRequests && t.state.db.authRequests["aaaaa"].(authTime := None) == AuthRequest(
              "aaaaa", "app", [], Some("u"), None, ["fed"], true, Some("code"), c.maxRequest, Some("ddd"))
  {
    hide Observed;
    t := SlowLogin(c);
    t := Next(c, t, LoginCall(CreateAuthRequest("aaaaa", "app", [])));
    t := Next(c, t, LoginCall(FinishLogin(0, "aaaaa")));
    t := Next(c, t, LoginCall(SaveAuthCode("aaaaa", "code")));
  }

  /** ... the session is swept before the code is read, ... */
  lemma SlowSweep(c: Config) returns (t: History)
    requires ValidConfig(c) && c.maxRequest + c.authTTL > DEVICE_RETENTION
    ensures Observed(c, t) && t.state.db.users == {"u"} && t.state.issued == {"aaaaa"}
    ensures t.state.db.refreshTokens == map[] && t.state.db.tokens == map[]
    ensures t.state.now == c.maxRequest + c.authTTL
    ensures "aaaaa" in t.state.db.authRequests && t.state.db.authRequests["aaaaa"].(authTime := None) == AuthRequest(
              "aaaaa", "app", [], Some("u"), None, ["fed"], true, Some("code"), c.maxRequest, None)
  {
    hide Observed;
    t := SlowFinish(c);
    t := Next(c, t, Tick(c.authTTL));
    assert "ddd" in StaleDevices(t.state.db, t.state.now, t.state.now - DEVICE_RETENTION);
    t := Next(c, t, Sweep(DeviceSessions, 0));
  }

  lemma SlowRead(c: Config) returns (t: History)
    requires ValidConfig(c) && c.maxRequest + c.authTTL > DEVICE_RETENTION
    ensures Observed(c, t) && t.state.db.users == {"u"} && t.state.issued == {"aaaaa"}
    ensures t.state.db.refreshTokens == map[] && t.state.db.tokens == map[]
    ensures 1 in t.state.codeReads && t.state.codeReads[1].at == t.state.now
    ensures t.state.codeReads[1].request.userId == Some("u") && t.state.codeReads[1].request.deviceSessionId == None
  {
    hide Observed;
    t := SlowSweep(c);
    assert "aaaaa" in RowsWithCode(t.state.db, "code");
    t := Next(c, t, LoginCall(ReadCode(1, "code", "aaaaa")));
  }

  /** ... and the token has no session. */
  lemma SlowExchange(c: Config) returns (t: History)
    requires ValidConfig(c) && c.maxRequest + c.authTTL > DEVICE_RETENTION
    ensures Observed(c, t) && Sha256("333") in t.state.db.refreshTokens
    ensures LiveRefresh(t.state.db.refreshTokens[Sha256("333")], t.state.now)
    ensures t.state.db.refreshTokens[Sha256("333")].deviceSessionId == None
  {
    hide Observed, LoginStep, RotateStep, Revoked, Swept, Answer, C.Origin;
    t := SlowRead(c);
    t := Next(c, t, TokenCall(Grant(1, NewIds("1", "22", "333"))));
  }

  /** Every live token names the device session of its login, on every run, exactly when
      a login and the life of an auth request together fit into the retention. */
  lemma DeviceIsNamedExactly(c: Config)
    requires ValidConfig(c)
    ensures
      (forall t, h | Observed(c, t) && h in t.state.db.refreshTokens &&
        LiveRefresh(t.state.db.refreshTokens[h], t.state.now) :: NamesItsDevice(t, h))
      <==> c.maxRequest + c.authTTL <= DEVICE_RETENTION
  {
    hide Watch, Run;
    if SlowSweeps(c) {
      forall t, h | Observed(c, t) && h in t.state.db.refreshTokens &&
        LiveRefresh(t.state.db.refreshTokens[h], t.state.now)
        ensures NamesItsDevice(t, h)
      {
        var events :| t == Watch(c, BEGINNING, events);
        WatchIsRun(c, BEGINNING, events);
        TokensNameTheDevice(c, events, h);
      }
    } else {
      var t := SlowExchange(c);
      assert !NamesItsDevice(t, Sha256("333"));
    }
  }
}
