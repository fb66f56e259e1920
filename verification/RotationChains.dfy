/** What rotation keeps over every run: chains are linear, constant and own at
    most one access token, and access and refresh rows stay paired. */
module RotationChains {
  import opened Prelude
  import opened Tables
  import opened TokenSystem

  type Log = map<TokenHash, Issue>

  /** Equal but for the device session, the one column a later statement may change. */
  predicate SameLink(a: RefreshToken, b: RefreshToken) {
    a.(deviceSessionId := None) == b.(deviceSessionId := None)
  }

  /** Section 12.2 of OpenID Connect Core 1.0: what a refreshed token keeps. */
  predicate Inherits(child: RefreshToken, origin: RefreshToken) {
    child.userId == origin.userId && child.clientId == origin.clientId && child.audience == origin.audience &&
    child.authTime == origin.authTime && child.amr == origin.amr && child.deviceSessionId == origin.deviceSessionId
  }

  predicate Paired(t: AccessToken, row: RefreshToken) {
    t.refreshTokenId == Some(row.id) && row.accessTokenId == Some(t.id) &&
    t.clientId == row.clientId && t.subject == row.userId
  }

  ghost predicate IssuedWith(log: Log, t: AccessToken) {
    exists h :: h in log && Paired(t, log[h].row)
  }

  predicate KnownEntry(issued: set<string>, h: TokenHash, row: RefreshToken) {
    row.hash == h && row.accessTokenId.Some? && row.id in issued && row.accessTokenId.value in issued && h.raw in issued
  }

  ghost predicate KnownLog(log: Log, issued: set<string>) {
    forall h | h in log :: KnownEntry(issued, h, log[h].row)
  }

  ghost predicate DistinctIds(log: Log) {
    forall g, h | g in log && h in log && g != h ::
      log[g].row.id != log[h].row.id && log[g].row.accessTokenId != log[h].row.accessTokenId
  }

  ghost predicate RowsLogged(rows: map<TokenHash, RefreshToken>, log: Log, now: Time) {
    forall h | h in rows :: h in log && SameLink(rows[h], log[h].row) &&
      (LiveRefresh(rows[h], now) ==> rows[h].deviceSessionId == log[h].row.deviceSessionId)
  }

  predicate LinkOk(log: Log, rows: map<TokenHash, RefreshToken>, h: TokenHash)
    requires h in log
  {
    match log[h].parent
    case None => log[h].depth == 0
    case Some(p) => p in log && p !in rows && log[h].depth == log[p].depth + 1 && Inherits(log[h].row, log[p].row)
  }

  ghost predicate Linked(log: Log, rows: map<TokenHash, RefreshToken>) {
    forall h | h in log :: LinkOk(log, rows, h)
  }

  ghost predicate OneSuccessor(log: Log) {
    forall g, h | g in log && h in log && log[g].parent.Some? && log[g].parent == log[h].parent :: g == h
  }

  /** Access rows: known ids, paired with their refresh token, and never one whose refresh token was rotated. */
  ghost predicate AccessOk(tokens: map<Id, AccessToken>, log: Log, issued: set<string>) {
    (forall a | a in tokens ::
       tokens[a].id == a && a in issued && (tokens[a].refreshTokenId.Some? ==> IssuedWith(log, tokens[a]))) &&
    (forall h | h in log && log[h].row.accessTokenId.Some? && log[h].row.accessTokenId.value in tokens ::
       Paired(tokens[log[h].row.accessTokenId.value], log[h].row)) &&
    (forall h | h in log && log[h].parent.Some? && log[h].parent.value in log ::
       AccessGone(tokens, log[log[h].parent.value].row))
  }

  predicate AccessGone(tokens: map<Id, AccessToken>, row: RefreshToken) {
    row.accessTokenId.Some? ==> row.accessTokenId.value !in tokens
  }

  ghost predicate ReadsLogged(copies: map<nat, RefreshToken>, log: Log) {
    forall k | k in copies :: copies[k].hash in log && SameLink(copies[k], log[copies[k].hash].row)
  }

  ghost predicate Inv(s: State) {
    KnownLog(s.log, s.issued) && DistinctIds(s.log) && RowsLogged(s.db.refreshTokens, s.log, s.now) &&
    Linked(s.log, s.db.refreshTokens) && OneSuccessor(s.log) && AccessOk(s.db.tokens, s.log, s.issued) &&
    ReadsLogged(s.refreshReads, s.log)
  }

  // ------------------------------------------------- events that only remove

  /** No new rows, and a row lost its device session only when it was not live. */
  ghost predicate Shrinks(a: Tables, b: Tables, now: Time) {
    AccessShrinks(a.tokens, b.tokens) && RefreshShrinks(a.refreshTokens, b.refreshTokens, now)
  }

  ghost predicate AccessShrinks(a: map<Id, AccessToken>, b: map<Id, AccessToken>) {
    forall t | t in b :: t in a && b[t] == a[t]
  }

  ghost predicate RefreshShrinks(a: map<TokenHash, RefreshToken>, b: map<TokenHash, RefreshToken>, now: Time) {
    forall h | h in b :: h in a && SameLink(b[h], a[h]) && (LiveRefresh(b[h], now) ==> b[h] == a[h])
  }

  lemma ShrinkKeepsAccessOk(a: map<Id, AccessToken>, b: map<Id, AccessToken>, log: Log, issued: set<string>)
    requires AccessOk(a, log, issued) && AccessShrinks(a, b)
    ensures AccessOk(b, log, issued)
  {}

  /** Everything but an issue leaves the history alone and at most drops rows. */
  ghost predicate Quiet(s: State, t: State) {
    Shrinks(s.db, t.db, s.now) && s.now <= t.now && t.log == s.log && s.issued <= t.issued &&
    forall k | k in t.refreshReads :: k in s.refreshReads && t.refreshReads[k] == s.refreshReads[k]
  }

  lemma GrowIssued(tokens: map<Id, AccessToken>, log: Log, issued: set<string>, more: set<string>)
    requires KnownLog(log, issued) && AccessOk(tokens, log, issued) && issued <= more
    ensures KnownLog(log, more) && AccessOk(tokens, log, more)
  {}

  lemma QuietKeepsInv(s: State, t: State)
    requires Inv(s) && Quiet(s, t)
    ensures Inv(t)
  {
    ShrinkKeepsAccessOk(s.db.tokens, t.db.tokens, s.log, s.issued);
    GrowIssued(t.db.tokens, s.log, s.issued, t.issued);
    forall h | h in t.log ensures LinkOk(t.log, t.db.refreshTokens, h) {
      assert LinkOk(s.log, s.db.refreshTokens, h);
    }
  }

  /** DeleteRevokedBefore never nulls the device session of a live token. */
  lemma SweepDevicesShrinks(db: Tables, now: Time, before: Time)
    ensures Shrinks(db, DeleteRevokedBefore(db, now, before), now)
  {}

  // ---------------------------------------------------- events that insert

  /** A newly issued refresh token: nothing of it was ever issued before. */
  predicate FreshRow(issued: set<string>, row: RefreshToken) {
    row.accessTokenId.Some? && row.id !in issued && row.accessTokenId.value !in issued && row.hash.raw !in issued
  }

  function Extended(log: Log, row: RefreshToken, parent: Option<TokenHash>, depth: nat): Log {
    log[row.hash := Issue(row, parent, depth)]
  }

  lemma ExtendKnown(log: Log, issued: set<string>, row: RefreshToken, parent: Option<TokenHash>, depth: nat)
    requires KnownLog(log, issued) && DistinctIds(log) && FreshRow(issued, row)
    ensures row.hash !in log
    ensures KnownLog(Extended(log, row, parent, depth), issued + {row.id, row.accessTokenId.value, row.hash.raw})
    ensures DistinctIds(Extended(log, row, parent, depth))
  {}

  lemma ExtendLinked(log: Log, rows: map<TokenHash, RefreshToken>, row: RefreshToken, parent: Option<TokenHash>,
                     depth: nat)
    requires Linked(log, rows) && row.hash !in log
    requires match parent
             case None => depth == 0
             case Some(p) => p in log && p !in rows && depth == log[p].depth + 1 && Inherits(row, log[p].row)
    ensures Linked(Extended(log, row, parent, depth), rows[row.hash := row])
  {}

  /** The heart of linear rotation: a row that is still in the table has no successor. */
  lemma ExtendOneSuccessor(log: Log, rows: map<TokenHash, RefreshToken>, row: RefreshToken, parent: Option<TokenHash>,
                           depth: nat)
    requires Linked(log, rows) && OneSuccessor(log) && row.hash !in log
    requires parent.Some? ==> parent.value in rows
    ensures OneSuccessor(Extended(log, row, parent, depth))
  {}

  lemma ExtendAccess(tokens: map<Id, AccessToken>, rows: map<TokenHash, RefreshToken>, log: Log, issued: set<string>,
                     t: AccessToken, row: RefreshToken, parent: Option<TokenHash>, depth: nat)
    requires KnownLog(log, issued) && Linked(log, rows) && AccessOk(tokens, log, issued) && FreshRow(issued, row)
    requires Paired(t, row)
    requires parent.Some? ==> parent.value in log && AccessGone(tokens, log[parent.value].row)
    ensures AccessOk(tokens[t.id := t], Extended(log, row, parent, depth),
                     issued + {row.id, row.accessTokenId.value, row.hash.raw})
  {
    var log' := Extended(log, row, parent, depth);
    var tokens' := tokens[t.id := t];
    forall h | h in log ensures log[h].row.accessTokenId != Some(t.id) && h != row.hash {
      assert KnownEntry(issued, h, log[h].row);
    }
    forall a | a in tokens' && tokens'[a].refreshTokenId.Some? ensures IssuedWith(log', tokens'[a]) {
      if a == t.id {
        assert Paired(t, log'[row.hash].row);
      } else {
        var h :| h in log && Paired(tokens[a], log[h].row);
        assert Paired(tokens'[a], log'[h].row);
      }
    }
    forall h | h in log' && log'[h].parent.Some? && log'[h].parent.value in log'
      ensures AccessGone(tokens', log'[log'[h].parent.value].row)
    {
      var p := log'[h].parent.value;
      if h != row.hash {
        assert LinkOk(log, rows, h);
        assert AccessGone(tokens, log[p].row);
      }
    }
  }

  /** The tables right before the two inserts of an issue. */
  function BeforeInsert(db: Tables, current: Option<TokenHash>): Tables {
    if current.Some? && current.value in db.refreshTokens then Consume(db, current.value) else db
  }

  /** The refresh token row an issue inserts. */
  function InsertedRow(c: Config, s: State, request: TokenRequest, ids: NewIds,
                       current: Option<TokenHash>): RefreshToken {
    var refresh := BuildPair(c, s.now, request, ids).refresh;
    if current.Some? && current.value in s.db.refreshTokens then WithDevice(refresh, s.db.refreshTokens[current.value])
    else refresh
  }

  /** The two inserts commit both rows and nothing else in these tables. */
  lemma PairRows(db: Tables, now: Time, access: AccessToken, refresh: RefreshToken)
    requires IssuePair(db, now, access, refresh).Ok?
    ensures IssuePair(db, now, access, refresh).value.tokens == db.tokens[access.id := access.(createdAt := now)]
    ensures
      var rows := IssuePair(db, now, access, refresh).value.refreshTokens;
      rows == db.refreshTokens[refresh.hash := refresh.(createdAt := now)]
  {}

  /** A committed issue, table by table. */
  lemma IssuedTables(c: Config, s: State, request: TokenRequest, ids: NewIds, current: Option<TokenHash>)
    requires Issuing(c, s, request, ids, current).reply.IssuedReply?
    ensures
      var t := Issuing(c, s, request, ids, current).state;
      var m := BeforeInsert(s.db, current);
      var row := InsertedRow(c, s, request, ids, current);
      && (current.Some? ==>
          current.value in s.db.refreshTokens && LiveRefresh(s.db.refreshTokens[current.value], s.now))
      && t.db.tokens == m.tokens[ids.access := BuildPair(c, s.now, request, ids).access]
      && t.db.refreshTokens == m.refreshTokens[row.hash := row]
      && var depth := if current.Some? && current.value in s.log then s.log[current.value].depth + 1 else 0;
      && t.log == Extended(s.log, row, current, depth)
      && t.issued == s.issued + {row.id, row.accessTokenId.value, row.hash.raw}
      && t.now == s.now && t.refreshReads == s.refreshReads
  {
    PairRows(BeforeInsert(s.db, current), s.now, BuildPair(c, s.now, request, ids).access,
             InsertedRow(c, s, request, ids, current));
  }

  lemma ConsumeShrinks(db: Tables, current: TokenHash, now: Time)
    requires current in db.refreshTokens
    ensures Shrinks(db, Consume(db, current), now)
  {}

  lemma ExtendRows(rows: map<TokenHash, RefreshToken>, log: Log, now: Time, row: RefreshToken,
                   parent: Option<TokenHash>, depth: nat)
    requires RowsLogged(rows, log, now) && row.hash !in log
    ensures RowsLogged(rows[row.hash := row], Extended(log, row, parent, depth), now)
  {}

  lemma ExtendCopies(copies: map<nat, RefreshToken>, log: Log, row: RefreshToken, parent: Option<TokenHash>, depth: nat)
    requires ReadsLogged(copies, log) && row.hash !in log
    ensures ReadsLogged(copies, Extended(log, row, parent, depth))
  {}

  lemma InsertKeepsInv(m: State, t: State, access: AccessToken, row: RefreshToken, current: Option<TokenHash>,
                       depth: nat)
    requires Inv(m) && FreshRow(m.issued, row) && Paired(access, row)
    requires match current
             case None => depth == 0
             case Some(p) => p in m.log && p !in m.db.refreshTokens && depth == m.log[p].depth + 1 &&
                             Inherits(row, m.log[p].row) && AccessGone(m.db.tokens, m.log[p].row)
    requires OneSuccessor(Extended(m.log, row, current, depth))
    requires t.db.tokens == m.db.tokens[access.id := access]
    requires t.db.refreshTokens == m.db.refreshTokens[row.hash := row]
    requires t.log == Extended(m.log, row, current, depth) && t.refreshReads == m.refreshReads && t.now == m.now
    requires t.issued == m.issued + {row.id, row.accessTokenId.value, row.hash.raw}
    ensures Inv(t)
  {
    ExtendKnown(m.log, m.issued, row, current, depth);
    ExtendRows(m.db.refreshTokens, m.log, m.now, row, current, depth);
    ExtendCopies(m.refreshReads, m.log, row, current, depth);
    ExtendLinked(m.log, m.db.refreshTokens, row, current, depth);
    ExtendAccess(m.db.tokens, m.db.refreshTokens, m.log, m.issued, access, row, current, depth);
  }

  /** What a rotation inherits, and what it leaves behind. */
  lemma RotationInherits(c: Config, s: State, request: TokenRequest, ids: NewIds, p: TokenHash)
    requires Inv(s) && p in s.db.refreshTokens && LiveRefresh(s.db.refreshTokens[p], s.now)
    requires request.RefreshRequest? && p in s.log && SameLink(request.domain, s.log[p].row)
    ensures Inherits(InsertedRow(c, s, request, ids, Some(p)), s.log[p].row)
    ensures AccessGone(Consume(s.db, p).tokens, s.log[p].row)
  {}

  lemma IssuingKeepsInv(c: Config, s: State, request: TokenRequest, ids: NewIds, current: Option<TokenHash>)
    requires Inv(s) && FreshIds(s, ids) && Issuing(c, s, request, ids, current).reply.IssuedReply?
    requires current.Some? && current.value in s.log ==>
      request.RefreshRequest? && SameLink(request.domain, s.log[current.value].row)
    ensures Inv(Issuing(c, s, request, ids, current).state)
  {
    IssuedTables(c, s, request, ids, current);
    var t := Issuing(c, s, request, ids, current).state;
    var row := InsertedRow(c, s, request, ids, current);
    var m := s.(db := BeforeInsert(s.db, current));
    var depth := if current.Some? && current.value in s.log then s.log[current.value].depth + 1 else 0;
    ExtendKnown(s.log, s.issued, row, current, depth);
    ExtendOneSuccessor(s.log, s.db.refreshTokens, row, current, depth);
    if current.Some? {
      ConsumeShrinks(s.db, current.value, s.now);
      RotationInherits(c, s, request, ids, current.value);
    }
    QuietKeepsInv(s, m);
    InsertKeepsInv(m, t, BuildPair(c, s.now, request, ids).access, row, current, depth);
  }

  // ----------------------------------------- what can reject a fresh pair

  /** No stored row, expired or not, is in the way of the generated ids. */
  ghost predicate NoConflict(db: Tables, ids: NewIds) {
    ids.access !in db.tokens && Sha256(ids.raw) !in db.refreshTokens && !RefreshIdTaken(db, ids.refresh)
  }

  lemma FreshIdsDoNotConflict(s: State, ids: NewIds)
    requires Inv(s) && FreshIds(s, ids)
    ensures NoConflict(s.db, ids)
  {}

  /** With fresh ids only the foreign keys can reject the pair. */
  lemma PairResult(db: Tables, now: Time, p: Pair, ids: NewIds)
    requires NoConflict(db, ids)
    requires p.access.id == ids.access && p.refresh.hash == Sha256(ids.raw) && p.refresh.id == ids.refresh
    ensures
      var d := p.refresh.deviceSessionId;
      IssuePair(db, now, p.access, p.refresh) ==
        if p.refresh.userId !in db.users || (d.Some? && d.value !in db.devices) then Err(ForeignKey)
        else Ok(db.(tokens := db.tokens[ids.access := p.access.(createdAt := now)],
                    refreshTokens := db.refreshTokens[Sha256(ids.raw) := p.refresh.(createdAt := now)],
                    devices := TouchDevice(db, d, now).devices))
  {}

  // ------------------------------------------------------------- every run

  lemma InitInv()
    ensures Inv(INIT)
  {}

  lemma GrantKeepsInv(c: Config, s: State, call: nat, ids: NewIds)
    requires Inv(s)
    ensures Inv(GrantStep(c, s, call, ids).state)
  {
    var t := s.(codeReads := s.codeReads - {call});
    QuietKeepsInv(s, t);
    var o := GrantStep(c, s, call, ids);
    if o.reply.IssuedReply? {
      IssuingKeepsInv(c, t, CodeRequest(s.codeReads[call].request), ids, None);
    }
  }

  lemma RotateKeepsInv(c: Config, s: State, call: nat, ids: NewIds, scopes: seq<string>)
    requires Inv(s)
    ensures Inv(RotateStep(c, s, call, ids, scopes).state)
  {
    var t := s.(refreshReads := s.refreshReads - {call});
    QuietKeepsInv(s, t);
    var o := RotateStep(c, s, call, ids, scopes);
    if o.reply.IssuedReply? {
      IssuingKeepsInv(c, t, RefreshRequest(s.refreshReads[call], scopes), ids, Some(s.refreshReads[call].hash));
    }
  }

  lemma AddUnpairedAccess(tokens: map<Id, AccessToken>, log: Log, issued: set<string>, row: AccessToken)
    requires KnownLog(log, issued) && AccessOk(tokens, log, issued) && row.id !in issued && row.refreshTokenId.None?
    ensures AccessOk(tokens[row.id := row], log, issued + {row.id})
  {}

  lemma GrantAccessKeepsInv(s: State, row: AccessToken)
    requires Inv(s) && row.refreshTokenId.None?
    ensures Inv(GrantAccessStep(s, row).state)
  {
    QuietKeepsInv(s, s.(issued := s.issued + {row.id}));
    if row.id !in s.issued {
      AddUnpairedAccess(s.db.tokens, s.log, s.issued, row);
    }
  }

  lemma AddCopy(rows: map<TokenHash, RefreshToken>, copies: map<nat, RefreshToken>, log: Log, issued: set<string>,
                call: nat, h: TokenHash, now: Time)
    requires KnownLog(log, issued) && RowsLogged(rows, log, now) && ReadsLogged(copies, log) && h in rows
    ensures ReadsLogged(copies[call := rows[h]], log)
  {}

  lemma ReadRefreshKeepsInv(s: State, call: nat, raw: string)
    requires Inv(s)
    ensures Inv(ReadRefreshStep(s, call, raw).state)
  {
    var h := Sha256(raw);
    if h in s.db.refreshTokens {
      AddCopy(s.db.refreshTokens, s.refreshReads, s.log, s.issued, call, h, s.now);
    }
  }

  ghost predicate SameTokens(s: State, t: State) {
    t.db.tokens == s.db.tokens && t.db.refreshTokens == s.db.refreshTokens &&
    t.now == s.now && t.log == s.log && t.refreshReads == s.refreshReads && s.issued <= t.issued
  }

  lemma CreateAuthLeavesTokens(s: State, id: Id, clientId: Id, scopes: seq<string>)
    ensures SameTokens(s, CreateAuthRequestStep(s, id, clientId, scopes).state)
  {}

  lemma FindDeviceLeavesTokens(s: State, call: nat, cookie: Id, freshId: Id, user: Id, userAgent: string, ip: string,
                               name: string)
    ensures SameTokens(s, FindDeviceStep(s, call, cookie, freshId, user, userAgent, ip, name).state)
  {}

  lemma FinishLoginLeavesTokens(c: Config, s: State, call: nat, id: Id)
    ensures SameTokens(s, FinishLoginStep(c, s, call, id).state)
  {}

  lemma SaveCodeLeavesTokens(s: State, id: Id, code: string)
    ensures SameTokens(s, SaveCodeStep(s, id, code).state)
  {}

  lemma ReadCodeLeavesTokens(c: Config, s: State, call: nat, code: string, id: Id)
    ensures SameTokens(s, ReadCodeStep(c, s, call, code, id).state)
  {}

  lemma LoginLeavesTokens(c: Config, s: State, e: LoginEvent)
    ensures SameTokens(s, LoginStep(c, s, e).state)
  {
    hide FindDeviceStep, FinishLoginStep, SaveCodeStep, ReadCodeStep, CreateAuthRequestStep;
    match e
    case CreateAuthRequest(id, clientId, scopes) => CreateAuthLeavesTokens(s, id, clientId, scopes);
    case FindDevice(call, cookie, freshId, user, userAgent, ip, name) =>
      FindDeviceLeavesTokens(s, call, cookie, freshId, user, userAgent, ip, name);
    case FinishLogin(call, authRequest) => FinishLoginLeavesTokens(c, s, call, authRequest);
    case SaveAuthCode(id, code) => SaveCodeLeavesTokens(s, id, code);
    case ReadCode(call, code, id) => ReadCodeLeavesTokens(c, s, call, code, id);
    case DeleteAuth(id) =>
  }

  lemma RevocationShrinks(db: Tables, now: Time, r: Revocation)
    requires Revoked(db, now, r).Ok?
    ensures Shrinks(db, Revoked(db, now, r).value, now)
  {}

  lemma SweepShrinks(c: Config, db: Tables, now: Time, table: SweptTable, lag: nat)
    ensures Shrinks(db, Swept(c, db, now, table, lag), now)
  {}

  lemma TokenStepKeepsInv(c: Config, s: State, e: TokenEvent)
    requires Inv(s)
    ensures Inv(TokenStep(c, s, e).state)
  {
    hide Inv, GrantStep, RotateStep, GrantAccessStep, ReadRefreshStep;
    match e
    case Grant(call, ids) => GrantKeepsInv(c, s, call, ids);
    case GrantAccess(id, clientId, subject, audience, scopes) =>
      GrantAccessKeepsInv(s, AccessToken(id, clientId, subject, audience, scopes, s.now + c.accessTTL, None, s.now));
    case ReadRefresh(call, raw) => ReadRefreshKeepsInv(s, call, raw);
    case Rotate(call, ids, scopes) => RotateKeepsInv(c, s, call, ids, scopes);
  }

  lemma OtherStepIsQuiet(c: Config, s: State, e: Event)
    requires !e.TokenCall?
    ensures Quiet(s, Step(c, s, e).state)
  {
    hide LoginStep, Revoked, Swept, Answer;
    match e
    case LoginCall(login) => LoginLeavesTokens(c, s, login);
    case Revoke(r) =>
      if Revoked(s.db, s.now, r).Ok? {
        RevocationShrinks(s.db, s.now, r);
      }
    case Sweep(table, lag) => SweepShrinks(c, s.db, s.now, table, lag);
    case _ =>
  }

  lemma StepKeepsInv(c: Config, s: State, e: Event)
    requires Inv(s)
    ensures Inv(Step(c, s, e).state)
  {
    if e.TokenCall? {
      TokenStepKeepsInv(c, s, e.token);
    } else {
      OtherStepIsQuiet(c, s, e);
      QuietKeepsInv(s, Step(c, s, e).state);
    }
  }

  lemma {:induction false} RunKeepsInv(c: Config, s: State, events: seq<Event>)
    requires Inv(s)
    ensures Inv(Run(c, s, events))
    decreases |events|
  {
    if events == [] {
    } else {
      StepKeepsInv(c, s, events[0]);
      RunKeepsInv(c, Step(c, s, events[0]).state, events[1..]);
    }
  }
}
