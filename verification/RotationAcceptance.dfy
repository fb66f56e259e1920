/** When a refresh token is accepted. Section 6 of RFC 6749 has the server issue new
    tokens for a valid refresh token; here that is exact: a rotation commits if and
    only if the token it presents is stored and has not expired. Nothing else can
    reject it, because every stored token's user and device session exist. */
module RotationAcceptance {
  import opened Prelude
  import opened Tables
  import opened TokenSystem
  import R = RotationChains

  /** The two foreign keys of refresh_tokens. */
  predicate RowKeys(db: Tables, row: RefreshToken) {
    row.userId in db.users && (row.deviceSessionId.Some? ==> row.deviceSessionId.value in db.devices)
  }

  ghost predicate ForeignKeys(db: Tables) {
    forall h | h in db.refreshTokens :: RowKeys(db, db.refreshTokens[h])
  }

  /** No referenced row went, and no new reference came. */
  ghost predicate KeysKept(a: Tables, b: Tables) {
    a.users <= b.users && a.devices.Keys <= b.devices.Keys &&
    forall h | h in b.refreshTokens :: h in a.refreshTokens && b.refreshTokens[h] == a.refreshTokens[h]
  }

  lemma KeptKeys(a: Tables, b: Tables)
    requires ForeignKeys(a) && KeysKept(a, b)
    ensures ForeignKeys(b)
  {
    forall h | h in b.refreshTokens ensures RowKeys(b, b.refreshTokens[h]) {
      assert RowKeys(a, a.refreshTokens[h]);
      assert forall d | d in a.devices.Keys :: d in b.devices.Keys;
    }
  }

  // ------------------------------------------------------------- every event

  lemma PairChecked(db: Tables, now: Time, access: AccessToken, refresh: RefreshToken)
    requires IssuePair(db, now, access, refresh).Ok?
    ensures
      var t := IssuePair(db, now, access, refresh).value;
      RowKeys(db, refresh) && t.users == db.users && t.devices.Keys == db.devices.Keys
  {}

  lemma IssuingKeepsKeys(c: Config, s: State, request: TokenRequest, ids: NewIds, current: Option<TokenHash>)
    requires ForeignKeys(s.db)
    ensures ForeignKeys(Issuing(c, s, request, ids, current).state.db)
  {
    hide IssuePair;
    if Issuing(c, s, request, ids, current).reply.IssuedReply? {
      var row := R.InsertedRow(c, s, request, ids, current);
      var m := R.BeforeInsert(s.db, current);
      var t := Issuing(c, s, request, ids, current).state.db;
      R.PairRows(m, s.now, BuildPair(c, s.now, request, ids).access, row);
      PairChecked(m, s.now, BuildPair(c, s.now, request, ids).access, row);
      forall h | h in t.refreshTokens ensures RowKeys(t, t.refreshTokens[h]) {
        assert RowKeys(m, if h == row.hash then row else s.db.refreshTokens[h]);
        assert forall d :: d in m.devices.Keys <==> d in t.devices.Keys;
      }
    }
  }

  lemma TokenStepKeepsKeys(c: Config, s: State, e: TokenEvent)
    requires ForeignKeys(s.db)
    ensures ForeignKeys(TokenStep(c, s, e).state.db)
  {
    hide Issuing, ForeignKeys;
    match e
    case Grant(call, ids) =>
      if call in s.codeReads {
        IssuingKeepsKeys(c, s.(codeReads := s.codeReads - {call}), CodeRequest(s.codeReads[call].request), ids, None);
      }
    case Rotate(call, ids, scopes) =>
      if call in s.refreshReads {
        IssuingKeepsKeys(c, s.(refreshReads := s.refreshReads - {call}), RefreshRequest(s.refreshReads[call], scopes),
                         ids, Some(s.refreshReads[call].hash));
      }
    case _ => KeptKeys(s.db, TokenStep(c, s, e).state.db);
  }

  /** ON DELETE SET NULL drops the reference with the row. */
  lemma DeletionKeepsKeys(db: Tables, gone: set<Id>)
    requires ForeignKeys(db)
    ensures ForeignKeys(DeleteDevices(db, gone))
  {
    var t := DeleteDevices(db, gone);
    forall h | h in t.refreshTokens ensures RowKeys(t, t.refreshTokens[h]) {
      assert RowKeys(db, db.refreshTokens[h]);
    }
  }

  lemma SweepKeepsKeys(c: Config, db: Tables, now: Time, table: SweptTable, lag: nat)
    requires ForeignKeys(db)
    ensures ForeignKeys(Swept(c, db, now, table, lag))
  {
    hide StaleDevices, ForeignKeys, DeleteDevices;
    if table.DeviceSessions? {
      DeletionKeepsKeys(db, StaleDevices(db, now, now - lag - DEVICE_RETENTION));
    } else {
      KeptKeys(db, Swept(c, db, now, table, lag));
    }
  }

  lemma LoginKeepsKeys(c: Config, s: State, e: LoginEvent)
    ensures KeysKept(s.db, LoginStep(c, s, e).state.db)
  {
    R.LoginLeavesTokens(c, s, e);
  }

  lemma RevocationKeepsKeys(db: Tables, now: Time, r: Revocation)
    requires Revoked(db, now, r).Ok?
    ensures KeysKept(db, Revoked(db, now, r).value)
  {}

  lemma StepKeepsKeys(c: Config, s: State, e: Event)
    requires ForeignKeys(s.db)
    ensures ForeignKeys(Step(c, s, e).state.db)
  {
    hide ForeignKeys, KeysKept, LoginStep, TokenStep, Revoked, Swept, Answer;
    match e
    case TokenCall(token) => TokenStepKeepsKeys(c, s, token);
    case LoginCall(login) =>
      LoginKeepsKeys(c, s, login);
      KeptKeys(s.db, LoginStep(c, s, login).state.db);
    case Revoke(r) =>
      if Revoked(s.db, s.now, r).Ok? {
        RevocationKeepsKeys(s.db, s.now, r);
        KeptKeys(s.db, Revoked(s.db, s.now, r).value);
      }
    case Sweep(table, lag) => SweepKeepsKeys(c, s.db, s.now, table, lag);
    case NewUser(user) => MoreUsers(s.db, user);
    case _ =>
  }

  lemma MoreUsers(db: Tables, user: Id)
    requires ForeignKeys(db)
    ensures ForeignKeys(db.(users := db.users + {user}))
  {
    KeptKeys(db, db.(users := db.users + {user}));
  }

  lemma {:induction false} RunKeepsKeys(c: Config, s: State, events: seq<Event>)
    requires ForeignKeys(s.db)
    ensures ForeignKeys(Run(c, s, events).db)
    decreases |events|
  {
    hide ForeignKeys, Step;
    if events == [] {
    } else {
      StepKeepsKeys(c, s, events[0]);
      RunKeepsKeys(c, Step(c, s, events[0]).state, events[1..]);
    }
  }

  // -------------------------------------------------------------- acceptance

  /** The replacement of a stored row: its user and device session are the row's. */
  lemma ReplacementKeys(c: Config, s: State, request: TokenRequest, ids: NewIds, h: TokenHash)
    requires R.Inv(s) && ForeignKeys(s.db) && h in s.db.refreshTokens
    requires request.RefreshRequest? && R.SameLink(request.domain, s.log[h].row)
    ensures RowKeys(s.db, WithDevice(BuildPair(c, s.now, request, ids).refresh, s.db.refreshTokens[h]))
  {
    assert RowKeys(s.db, s.db.refreshTokens[h]);
  }

  lemma ConsumedDoesNotConflict(db: Tables, ids: NewIds, h: TokenHash)
    requires h in db.refreshTokens && R.NoConflict(db, ids)
    ensures R.NoConflict(Consume(db, h), ids)
  {}

  lemma IssuingAccepts(c: Config, s: State, request: TokenRequest, ids: NewIds, h: TokenHash)
    requires R.Inv(s) && ForeignKeys(s.db) && FreshIds(s, ids) && h in s.log
    requires request.RefreshRequest? && R.SameLink(request.domain, s.log[h].row)
    ensures
      var o := Issuing(c, s, request, ids, Some(h));
      if GetRefresh(s.db, s.now, h).Ok? then o.reply == IssuedReply(ids.access, ids.raw)
      else o == Outcome(s, Failed(NotFound))
  {
    hide IssuePair, Consume, R.Inv, ForeignKeys, R.NoConflict;
    if GetRefresh(s.db, s.now, h).Ok? {
      var p := BuildPair(c, s.now, request, ids);
      R.FreshIdsDoNotConflict(s, ids);
      ReplacementKeys(c, s, request, ids, h);
      ConsumedDoesNotConflict(s.db, ids, h);
      R.PairResult(Consume(s.db, h), s.now, p.(refresh := WithDevice(p.refresh, s.db.refreshTokens[h])), ids);
      ConsumeKeepsKeys(s.db, h);
    }
  }

  lemma ConsumeKeepsKeys(db: Tables, h: TokenHash)
    requires h in db.refreshTokens
    ensures Consume(db, h).users == db.users && Consume(db, h).devices == db.devices
  {}

  lemma RotationAccepts(c: Config, s: State, call: nat, ids: NewIds, scopes: seq<string>)
    requires R.Inv(s) && ForeignKeys(s.db) && call in s.refreshReads && FreshIds(s, ids)
    ensures
      var o := RotateStep(c, s, call, ids, scopes);
      if GetRefresh(s.db, s.now, s.refreshReads[call].hash).Ok? then o.reply == IssuedReply(ids.access, ids.raw)
      else o.reply == Failed(NotFound) && o.state.db == s.db
  {
    hide Issuing;
    var t := s.(refreshReads := s.refreshReads - {call});
    R.QuietKeepsInv(s, t);
    IssuingAccepts(c, t, RefreshRequest(s.refreshReads[call], scopes), ids, s.refreshReads[call].hash);
  }

  lemma ReachableKeys(c: Config, s: State)
    requires Reachable(c, s)
    ensures R.Inv(s) && ForeignKeys(s.db)
  {
    hide R.Inv, ForeignKeys, Run;
    var events :| s == Run(c, INIT, events);
    R.InitInv();
    assert ForeignKeys(INIT.db) by { NoKeys(); }
    R.RunKeepsInv(c, INIT, events);
    RunKeepsKeys(c, INIT, events);
  }

  lemma NoKeys()
    ensures ForeignKeys(INIT.db)
  {}

  /** Issued once, and not, or no longer, good for a refresh. */
  predicate Dead(s: State, h: TokenHash) {
    h in s.log && GetRefresh(s.db, s.now, h).Err?
  }

  lemma QuietKeepsDead(s: State, t: State, h: TokenHash)
    requires R.Quiet(s, t) && Dead(s, h)
    ensures Dead(t, h)
  {}

  lemma IssuingKeepsDead(c: Config, s: State, request: TokenRequest, ids: NewIds, current: Option<TokenHash>,
                         h: TokenHash)
    requires R.Inv(s) && FreshIds(s, ids) && Dead(s, h)
    ensures Dead(Issuing(c, s, request, ids, current).state, h)
  {
    hide R.Inv, Issuing;
    RefusedIssue(c, s, request, ids, current);
    if Issuing(c, s, request, ids, current).reply.IssuedReply? {
      R.IssuedTables(c, s, request, ids, current);
      FreshHash(s, ids, h);
    }
  }

  lemma RefusedIssue(c: Config, s: State, request: TokenRequest, ids: NewIds, current: Option<TokenHash>)
    ensures var o := Issuing(c, s, request, ids, current); o.reply.IssuedReply? || o.state == s
  {}

  lemma FreshHash(s: State, ids: NewIds, h: TokenHash)
    requires R.Inv(s) && FreshIds(s, ids) && h in s.log
    ensures h != Sha256(ids.raw)
  {
    assert R.KnownEntry(s.issued, h, s.log[h].row);
  }

  /** A dead token stays dead, whatever happens. */
  lemma StepKeepsDead(c: Config, s: State, e: Event, h: TokenHash)
    requires R.Inv(s) && Dead(s, h)
    ensures Dead(Step(c, s, e).state, h)
  {
    hide R.Inv, Issuing, LoginStep, Revoked, Swept, Answer, Dead, R.Quiet, FreshIds;
    match e
    case TokenCall(Grant(call, ids)) =>
      var t := s.(codeReads := s.codeReads - {call});
      DeadInRest(s, t, h, ids);
      if call in s.codeReads && FreshIds(s, ids) {
        IssuingKeepsDead(c, t, CodeRequest(s.codeReads[call].request), ids, None, h);
      }
    case TokenCall(Rotate(call, ids, scopes)) =>
      var t := s.(refreshReads := s.refreshReads - {call});
      DeadInRest(s, t, h, ids);
      if call in s.refreshReads && FreshIds(s, ids) {
        IssuingKeepsDead(c, t, RefreshRequest(s.refreshReads[call], scopes), ids, Some(s.refreshReads[call].hash), h);
      }
    case TokenCall(token) => OtherTokenCallKeepsDead(c, s, token, h);
    case _ =>
      R.OtherStepIsQuiet(c, s, e);
      QuietKeepsDead(s, Step(c, s, e).state, h);
  }

  lemma DeadInRest(s: State, t: State, h: TokenHash, ids: NewIds)
    requires R.Inv(s) && Dead(s, h)
    requires t in {s.(codeReads := t.codeReads), s.(refreshReads := t.refreshReads)}
    requires t.refreshReads.Keys <= s.refreshReads.Keys
    requires forall k | k in t.refreshReads :: t.refreshReads[k] == s.refreshReads[k]
    ensures R.Inv(t) && Dead(t, h) && (FreshIds(s, ids) ==> FreshIds(t, ids))
  {
    assert forall k | k in t.refreshReads.Keys :: k in s.refreshReads.Keys;
    R.QuietKeepsInv(s, t);
  }

  lemma OtherTokenCallKeepsDead(c: Config, s: State, e: TokenEvent, h: TokenHash)
    requires Dead(s, h) && (e.GrantAccess? || e.ReadRefresh?)
    ensures Dead(TokenStep(c, s, e).state, h)
  {}

  /** On every run, whatever was revoked, swept or rotated since the token was read:
      the rotation is accepted if and only if the token is stored and live now, and
      otherwise it is refused as not found and leaves every table alone. */
  lemma RotationAcceptedExactly(c: Config, s: State, call: nat, ids: NewIds, scopes: seq<string>)
    requires Reachable(c, s) && call in s.refreshReads && FreshIds(s, ids)
    ensures RotateStep(c, s, call, ids, scopes).reply.IssuedReply? <==>
      GetRefresh(s.db, s.now, s.refreshReads[call].hash).Ok?
    ensures !RotateStep(c, s, call, ids, scopes).reply.IssuedReply? ==>
      RotateStep(c, s, call, ids, scopes).reply == Failed(NotFound) &&
      RotateStep(c, s, call, ids, scopes).state.db == s.db
  {
    hide RotateStep, R.Inv, ForeignKeys, Reachable;
    ReachableKeys(c, s);
    RotationAccepts(c, s, call, ids, scopes);
  }
}
