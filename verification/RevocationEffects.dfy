/** What each revocation promises for ever after. A revoked access token is inactive on
    every continuation. A revoked refresh token ends its chain; so do a logout, for all
    chains of the user at the client, and a revoked device session, for all of its chains:
    a stored token of the kind belongs to a chain that started later. */
module RevocationEffects {
  import opened Prelude
  import opened Tables
  import opened TokenSystem
  import R = RotationChains
  import C = ChainTheorems
  import A = RotationAcceptance

  // ---------------------------------------------------------- what is removed

  /** Which stored rows a revocation takes, and when it answers that there are none. */
  lemma RevocationTakes(c: Config, s: State, r: Revocation)
    ensures
      var o := Step(c, s, Revoke(r));
      match r
      case Terminate(user, client) =>
        && o.reply == Done
        && o.state == s.(db := o.state.db)
        && o.state.db.tokens.Keys ==
           (set a | a in s.db.tokens && !(s.db.tokens[a].subject == user && s.db.tokens[a].clientId == client))
        && o.state.db.refreshTokens.Keys ==
           (set h | h in s.db.refreshTokens &&
              !(s.db.refreshTokens[h].userId == user && s.db.refreshTokens[h].clientId == client))
        && OnlyRemoved(s.db, o.state.db)
      case RevokeAccessToken(id, client) =>
        if id in s.db.tokens && s.db.tokens[id].clientId == client
        then o == Outcome(s.(db := s.db.(tokens := s.db.tokens - {id})), Done)
        else o == Outcome(s, Failed(NotFound))
      case RevokeRefreshToken(raw, client) =>
        if Sha256(raw) in s.db.refreshTokens && s.db.refreshTokens[Sha256(raw)].clientId == client
        then o == Outcome(s.(db := s.db.(refreshTokens := s.db.refreshTokens - {Sha256(raw)})), Done)
        else o == Outcome(s, Failed(NotFound))
      case RevokeDeviceSession(d, user) =>
        if ActiveDevice(s.db, d, user) then
          && o.reply == Done && o.state == s.(db := o.state.db) && o.state.db.tokens == s.db.tokens
          && OnlyRemoved(s.db.(devices := o.state.db.devices), o.state.db)
          && o.state.db.devices == s.db.devices[d := s.db.devices[d].(revokedAt := Some(s.now))]
          && o.state.db.refreshTokens.Keys ==
             (set h | h in s.db.refreshTokens && s.db.refreshTokens[h].deviceSessionId != Some(d))
        else o == Outcome(s, Failed(NotFound))
  {}

  // ------------------------------------------------------------ access tokens

  /** Issued once, and not, or no longer, good for access. */
  predicate Spent(s: State, id: Id) {
    id in s.issued && Introspect(s.db, s.now, id) == Inactive
  }

  /** No access row of an id issued before, unless it was there. */
  ghost predicate NoOldAccess(s: State, t: State) {
    s.issued <= t.issued && s.now <= t.now &&
    forall a | a in t.db.tokens && a in s.issued :: a in s.db.tokens && t.db.tokens[a] == s.db.tokens[a]
  }

  lemma NoOldAccessKeepsSpent(s: State, t: State, id: Id)
    requires NoOldAccess(s, t) && Spent(s, id)
    ensures Spent(t, id)
  {}

  lemma IssuingAddsNew(c: Config, s: State, request: TokenRequest, ids: NewIds, current: Option<TokenHash>)
    requires FreshIds(s, ids)
    ensures NoOldAccess(s, Issuing(c, s, request, ids, current).state)
  {
    hide Issuing, IssuePair;
    A.RefusedIssue(c, s, request, ids, current);
    if Issuing(c, s, request, ids, current).reply.IssuedReply? {
      R.IssuedTables(c, s, request, ids, current);
    }
  }

  lemma TokenCallAddsNew(c: Config, s: State, e: TokenEvent)
    ensures NoOldAccess(s, TokenStep(c, s, e).state)
  {
    hide Issuing;
    match e
    case Grant(call, ids) =>
      if call in s.codeReads && FreshIds(s, ids) {
        IssuingAddsNew(c, s.(codeReads := s.codeReads - {call}), CodeRequest(s.codeReads[call].request), ids, None);
      }
    case Rotate(call, ids, scopes) =>
      if call in s.refreshReads && FreshIds(s, ids) {
        var t, read := s.(refreshReads := s.refreshReads - {call}), s.refreshReads[call];
        IssuingAddsNew(c, t, RefreshRequest(read, scopes), ids, Some(read.hash));
      }
    case _ =>
  }

  lemma StepKeepsSpent(c: Config, s: State, e: Event, id: Id)
    requires Spent(s, id)
    ensures Spent(Step(c, s, e).state, id)
  {
    hide Step, TokenStep, Spent;
    if e.TokenCall? {
      TokenCallAddsNew(c, s, e.token);
      StepOfTokenCall(c, s, e.token);
    } else {
      R.OtherStepIsQuiet(c, s, e);
    }
    NoOldAccessKeepsSpent(s, Step(c, s, e).state, id);
  }

  lemma StepOfTokenCall(c: Config, s: State, e: TokenEvent)
    ensures Step(c, s, TokenCall(e)) == TokenStep(c, s, e)
  {}

  lemma {:induction false} RunKeepsSpent(c: Config, s: State, events: seq<Event>, id: Id)
    requires Spent(s, id)
    ensures Spent(Run(c, s, events), id)
    decreases |events|
  {
    hide Step, Spent;
    if events == [] {
    } else {
      StepKeepsSpent(c, s, events[0], id);
      RunKeepsSpent(c, Step(c, s, events[0]).state, events[1..], id);
    }
  }

  // ------------------------------------------------------------------- chains

  /** What a revocation of refresh tokens is about. */
  datatype Kind =
    | ChainOf(first: TokenHash)
    | LoginsAt(user: Id, client: Id)
    | LoginsOn(device: Id)

  predicate OfKind(kind: Kind, log: R.Log, rows: map<TokenHash, RefreshToken>, h: TokenHash)
    requires h in rows
  {
    match kind
    case ChainOf(first) => C.Origin(log, h) == first
    case LoginsAt(user, client) => rows[h].userId == user && rows[h].clientId == client
    case LoginsOn(device) => rows[h].deviceSessionId == Some(device)
  }

  /** Every stored token of the kind belongs to a chain that started later. */
  ghost predicate Over(s: State, kind: Kind, earlier: set<TokenHash>) {
    forall h | h in s.db.refreshTokens && OfKind(kind, s.log, s.db.refreshTokens, h) ::
      C.Origin(s.log, h) !in earlier
  }

  /** The first token of a chain does not change as the history grows. */
  lemma {:induction false} OriginStable(a: State, b: State, h: TokenHash)
    requires R.Inv(a) && C.Grows(a.log, b.log) && h in a.log
    ensures C.Origin(b.log, h) == C.Origin(a.log, h)
    decreases a.log[h].depth
  {
    hide R.KnownLog, R.DistinctIds, R.RowsLogged, R.OneSuccessor, R.AccessOk, R.ReadsLogged;
    assert R.LinkOk(a.log, a.db.refreshTokens, h);
    if a.log[h].parent.Some? {
      OriginStable(a, b, a.log[h].parent.value);
    }
  }

  lemma RowIsLogged(s: State, h: TokenHash)
    requires R.Inv(s) && h in s.db.refreshTokens
    ensures h in s.log
  {}

  /** What is neither an issue nor a read drops rows, or their device sessions. */
  ghost predicate RowsDropped(a: map<TokenHash, RefreshToken>, b: map<TokenHash, RefreshToken>) {
    forall h | h in b :: h in a && b[h] in {a[h], a[h].(deviceSessionId := None)}
  }

  lemma QuietKeepsOver(s: State, t: State, kind: Kind, earlier: set<TokenHash>)
    requires R.Inv(s) && Over(s, kind, earlier) && t.log == s.log
    requires RowsDropped(s.db.refreshTokens, t.db.refreshTokens)
    ensures Over(t, kind, earlier)
  {
    hide R.Inv;
    forall h | h in t.db.refreshTokens && OfKind(kind, t.log, t.db.refreshTokens, h)
      ensures C.Origin(t.log, h) !in earlier
    {
      assert OfKind(kind, s.log, s.db.refreshTokens, h);
    }
  }

  /** The row a rotation stores is of a kind only if the row it replaces is. */
  lemma IssuingKeepsOver(c: Config, s: State, request: TokenRequest, ids: NewIds, current: Option<TokenHash>,
                         kind: Kind, earlier: set<TokenHash>)
    requires R.Inv(s) && Over(s, kind, earlier) && earlier <= s.log.Keys && FreshIds(s, ids)
    requires Issuing(c, s, request, ids, current).reply.IssuedReply?
    requires current.Some? ==>
      current.value in s.log && request.RefreshRequest? && R.SameLink(request.domain, s.log[current.value].row)
    ensures Over(Issuing(c, s, request, ids, current).state, kind, earlier)
  {
    hide Issuing, IssuePair, R.Inv, R.Inherits;
    var t := Issuing(c, s, request, ids, current).state;
    R.IssuedTables(c, s, request, ids, current);
    R.IssuingKeepsInv(c, s, request, ids, current);
    NewIsNew(s, ids);
    var h := Sha256(ids.raw);
    forall g | g in t.db.refreshTokens && OfKind(kind, t.log, t.db.refreshTokens, g)
      ensures C.Origin(t.log, g) !in earlier
    {
      if g != h {
        RowIsLogged(s, g);
        OriginStable(s, t, g);
        assert OfKind(kind, s.log, s.db.refreshTokens, g);
      } else if current.Some? {
        var p := current.value;
        NewOrigin(t, h, p);
        OriginStable(s, t, p);
        SuccessorOfKind(c, s, request, ids, p);
        assert OfKind(kind, s.log, s.db.refreshTokens, p);
      }
    }
  }

  lemma NewIsNew(s: State, ids: NewIds)
    requires R.Inv(s) && FreshIds(s, ids)
    ensures Sha256(ids.raw) !in s.log
  {}

  lemma NewOrigin(t: State, h: TokenHash, p: TokenHash)
    requires R.Inv(t) && h in t.log && t.log[h].parent == Some(p)
    ensures C.Origin(t.log, h) == C.Origin(t.log, p)
  {
    hide R.KnownLog, R.DistinctIds, R.RowsLogged, R.OneSuccessor, R.AccessOk, R.ReadsLogged;
    assert R.LinkOk(t.log, t.db.refreshTokens, h);
  }

  lemma SuccessorOfKind(c: Config, s: State, request: TokenRequest, ids: NewIds, p: TokenHash)
    requires R.Inv(s) && p in s.db.refreshTokens && LiveRefresh(s.db.refreshTokens[p], s.now)
    requires request.RefreshRequest? && p in s.log && R.SameLink(request.domain, s.log[p].row)
    ensures
      var row := R.InsertedRow(c, s, request, ids, Some(p));
      row.userId == s.db.refreshTokens[p].userId && row.clientId == s.db.refreshTokens[p].clientId &&
      row.deviceSessionId == s.db.refreshTokens[p].deviceSessionId
  {}

  lemma TokenCallKeepsOver(c: Config, s: State, e: TokenEvent, kind: Kind, earlier: set<TokenHash>)
    requires R.Inv(s) && Over(s, kind, earlier) && earlier <= s.log.Keys
    ensures Over(TokenStep(c, s, e).state, kind, earlier)
  {
    hide R.Inv, Issuing, Over, FreshIds, GetRefresh;
    match e
    case Grant(call, ids) =>
      if call in s.codeReads && FreshIds(s, ids) {
        var t, request := s.(codeReads := s.codeReads - {call}), CodeRequest(s.codeReads[call].request);
        WithoutCall(s, t, ids, kind, earlier);
        A.RefusedIssue(c, t, request, ids, None);
        if Issuing(c, t, request, ids, None).reply.IssuedReply? {
          IssuingKeepsOver(c, t, request, ids, None, kind, earlier);
        }
      }
    case Rotate(call, ids, scopes) =>
      if call in s.refreshReads && FreshIds(s, ids) {
        var t, read := s.(refreshReads := s.refreshReads - {call}), s.refreshReads[call];
        WithoutCall(s, t, ids, kind, earlier);
        A.RefusedIssue(c, t, RefreshRequest(read, scopes), ids, Some(read.hash));
        ReadIsLogged(s, call);
        if Issuing(c, t, RefreshRequest(read, scopes), ids, Some(read.hash)).reply.IssuedReply? {
          IssuingKeepsOver(c, t, RefreshRequest(read, scopes), ids, Some(read.hash), kind, earlier);
        }
      }
    case _ => SameRowsKeepOver(s, TokenStep(c, s, e).state, kind, earlier);
  }

  lemma SameRowsKeepOver(s: State, t: State, kind: Kind, earlier: set<TokenHash>)
    requires Over(s, kind, earlier) && t.log == s.log && t.db.refreshTokens == s.db.refreshTokens
    ensures Over(t, kind, earlier)
  {}

  lemma ReadIsLogged(s: State, call: nat)
    requires R.Inv(s) && call in s.refreshReads
    ensures s.refreshReads[call].hash in s.log
    ensures R.SameLink(s.refreshReads[call], s.log[s.refreshReads[call].hash].row)
  {}

  lemma WithoutCall(s: State, t: State, ids: NewIds, kind: Kind, earlier: set<TokenHash>)
    requires R.Inv(s) && FreshIds(s, ids) && Over(s, kind, earlier)
    requires t in {s.(codeReads := t.codeReads), s.(refreshReads := t.refreshReads)}
    requires forall k | k in t.refreshReads :: k in s.refreshReads && t.refreshReads[k] == s.refreshReads[k]
    ensures R.Inv(t) && FreshIds(t, ids) && Over(t, kind, earlier)
  {
    R.QuietKeepsInv(s, t);
    SameRowsKeepOver(s, t, kind, earlier);
  }

  lemma RevocationDrops(db: Tables, now: Time, r: Revocation)
    requires Revoked(db, now, r).Ok?
    ensures RowsDropped(db.refreshTokens, Revoked(db, now, r).value.refreshTokens)
  {}

  lemma SweepDrops(c: Config, db: Tables, now: Time, table: SweptTable, lag: nat)
    ensures RowsDropped(db.refreshTokens, Swept(c, db, now, table, lag).refreshTokens)
  {}

  lemma StepKeepsOver(c: Config, s: State, e: Event, kind: Kind, earlier: set<TokenHash>)
    requires R.Inv(s) && Over(s, kind, earlier) && earlier <= s.log.Keys
    ensures Over(Step(c, s, e).state, kind, earlier)
  {
    hide R.Inv, Over, TokenStep, LoginStep, Revoked, Swept, Answer;
    match e
    case TokenCall(token) => TokenCallKeepsOver(c, s, token, kind, earlier);
    case LoginCall(login) =>
      R.LoginLeavesTokens(c, s, login);
      SameRowsKeepOver(s, LoginStep(c, s, login).state, kind, earlier);
    case Revoke(r) =>
      if Revoked(s.db, s.now, r).Ok? {
        RevocationDrops(s.db, s.now, r);
        QuietKeepsOver(s, Step(c, s, e).state, kind, earlier);
      }
    case Sweep(table, lag) =>
      SweepDrops(c, s.db, s.now, table, lag);
      QuietKeepsOver(s, Step(c, s, e).state, kind, earlier);
    case _ => SameRowsKeepOver(s, Step(c, s, e).state, kind, earlier);
  }

  lemma GrowingKeys(a: R.Log, b: R.Log, earlier: set<TokenHash>)
    requires C.Grows(a, b) && earlier <= a.Keys
    ensures earlier <= b.Keys
  {
    assert forall h | h in a.Keys :: h in b;
  }

  lemma {:induction false} RunKeepsOver(c: Config, s: State, events: seq<Event>, kind: Kind, earlier: set<TokenHash>)
    requires R.Inv(s) && Over(s, kind, earlier) && earlier <= s.log.Keys
    ensures Over(Run(c, s, events), kind, earlier)
    decreases |events|
  {
    hide R.Inv, Over, Step, C.Grows;
    if events == [] {
    } else {
      StepKeepsOver(c, s, events[0], kind, earlier);
      R.StepKeepsInv(c, s, events[0]);
      C.StepGrows(c, s, events[0]);
      GrowingKeys(s.log, Step(c, s, events[0]).state.log, earlier);
      RunKeepsOver(c, Step(c, s, events[0]).state, events[1..], kind, earlier);
    }
  }

  lemma {:induction false} RunKeepsDead(c: Config, s: State, events: seq<Event>, h: TokenHash)
    requires R.Inv(s) && A.ForeignKeys(s.db) && A.Dead(s, h)
    ensures
      var t := Run(c, s, events);
      && A.Dead(t, h)
      && forall call, ids, scopes :: call in t.refreshReads && t.refreshReads[call].hash == h && FreshIds(t, ids) ==>
           RotateStep(c, t, call, ids, scopes).reply == Failed(NotFound)
    decreases |events|
  {
    hide R.Inv, A.ForeignKeys, Step, RotateStep, FreshIds;
    if events == [] {
      forall call, ids, scopes | call in s.refreshReads && s.refreshReads[call].hash == h && FreshIds(s, ids)
        ensures RotateStep(c, s, call, ids, scopes).reply == Failed(NotFound)
      {
        A.RotationAccepts(c, s, call, ids, scopes);
      }
    } else {
      A.StepKeepsDead(c, s, events[0], h);
      A.StepKeepsKeys(c, s, events[0]);
      R.StepKeepsInv(c, s, events[0]);
      RunKeepsDead(c, Step(c, s, events[0]).state, events[1..], h);
    }
  }

  // ------------------------------------------------------------ main results

  lemma NoneOfKind(s: State, kind: Kind, earlier: set<TokenHash>)
    requires forall h | h in s.db.refreshTokens.Keys :: !OfKind(kind, s.log, s.db.refreshTokens, h)
    ensures Over(s, kind, earlier)
  {}

  lemma OneRowOfTheChain(c: Config, s: State, h: TokenHash)
    requires Reachable(c, s) && h in s.db.refreshTokens
    ensures Over(s.(db := s.db.(refreshTokens := s.db.refreshTokens - {h})), ChainOf(C.Origin(s.log, h)), s.log.Keys)
  {
    hide Reachable, R.Inv;
    var t := s.(db := s.db.(refreshTokens := s.db.refreshTokens - {h}));
    A.ReachableKeys(c, s);
    RowIsLogged(s, h);
    forall g | g in t.db.refreshTokens.Keys ensures C.Origin(t.log, g) != C.Origin(s.log, h) {
      RowIsLogged(s, g);
      C.LinearRotation(c, s, g, h);
    }
    NoneOfKind(t, ChainOf(C.Origin(s.log, h)), s.log.Keys);
  }

  /** RFC 7009 for a refresh token: once its revocation is answered with success, it is
      refused at every later rotation, whatever was read before, and no token of its
      chain is stored ever again. */
  lemma RefreshRevocationIsFinal(c: Config, s: State, raw: string, client: Id, events: seq<Event>)
    requires Reachable(c, s) && Step(c, s, Revoke(RevokeRefreshToken(raw, client))).reply == Done
    ensures
      var t, h := Run(c, Step(c, s, Revoke(RevokeRefreshToken(raw, client))).state, events), Sha256(raw);
      && A.Dead(t, h)
      && (forall call, ids, scopes :: call in t.refreshReads && t.refreshReads[call].hash == h && FreshIds(t, ids) ==>
            RotateStep(c, t, call, ids, scopes).reply == Failed(NotFound))
      && (forall g | g in t.db.refreshTokens :: C.Origin(t.log, g) != C.Origin(s.log, h))
  {
    hide Reachable, R.Inv, A.ForeignKeys, Run, RotateStep, FreshIds, Step;
    var r, h := RevokeRefreshToken(raw, client), Sha256(raw);
    var m := Step(c, s, Revoke(r)).state;
    A.ReachableKeys(c, s);
    R.StepKeepsInv(c, s, Revoke(r));
    A.StepKeepsKeys(c, s, Revoke(r));
    RevocationTakes(c, s, r);
    RowIsLogged(s, h);
    RunKeepsDead(c, m, events, h);
    OneRowOfTheChain(c, s, h);
    OriginLogged(s, h);
    RunKeepsOver(c, m, events, ChainOf(C.Origin(s.log, h)), s.log.Keys);
    assert Over(Run(c, m, events), ChainOf(C.Origin(s.log, h)), s.log.Keys);
  }

  lemma OriginLogged(s: State, h: TokenHash)
    requires R.Inv(s) && h in s.log
    ensures C.Origin(s.log, h) in s.log
  {
    C.OriginInherited(s, h);
  }

  /** RFC 7009 for an access token: it is inactive for ever. */
  lemma AccessRevocationIsFinal(c: Config, s: State, id: Id, client: Id, events: seq<Event>)
    requires Reachable(c, s) && Step(c, s, Revoke(RevokeAccessToken(id, client))).reply == Done
    ensures
      var t := Run(c, Step(c, s, Revoke(RevokeAccessToken(id, client))).state, events);
      Introspect(t.db, t.now, id) == Inactive
  {
    hide Reachable, R.Inv, A.ForeignKeys, Run, Step;
    A.ReachableKeys(c, s);
    RevocationTakes(c, s, RevokeAccessToken(id, client));
    AccessIsIssued(s, id);
    RunKeepsSpent(c, Step(c, s, Revoke(RevokeAccessToken(id, client))).state, events, id);
  }

  lemma AccessIsIssued(s: State, id: Id)
    requires R.Inv(s) && id in s.db.tokens
    ensures id in s.issued
  {}

  /** After a logout every access token of the user at the client that there was is
      inactive for ever, and every refresh token of theirs that is ever stored belongs
      to a chain that started after it. */
  lemma LogoutIsFinal(c: Config, s: State, user: Id, client: Id, events: seq<Event>)
    requires Reachable(c, s)
    ensures
      var t := Run(c, Step(c, s, Revoke(Terminate(user, client))).state, events);
      && (forall a | a in s.db.tokens && s.db.tokens[a].subject == user && s.db.tokens[a].clientId == client ::
            Introspect(t.db, t.now, a) == Inactive)
      && (forall h | h in t.db.refreshTokens && t.db.refreshTokens[h].userId == user &&
            t.db.refreshTokens[h].clientId == client :: C.Origin(t.log, h) !in s.log)
  {
    hide Reachable, R.Inv, A.ForeignKeys, Run, Step, Introspect;
    var m := Step(c, s, Revoke(Terminate(user, client))).state;
    A.ReachableKeys(c, s);
    R.StepKeepsInv(c, s, Revoke(Terminate(user, client)));
    RevocationTakes(c, s, Terminate(user, client));
    assert m.log == s.log && m.issued == s.issued;
    forall a | a in s.db.tokens && s.db.tokens[a].subject == user && s.db.tokens[a].clientId == client
      ensures Introspect(Run(c, m, events).db, Run(c, m, events).now, a) == Inactive
    {
      AccessIsIssued(s, a);
      assert a !in m.db.tokens.Keys;
      GoneIsSpent(m, a);
      RunKeepsSpent(c, m, events, a);
    }
    NoneOfKind(m, LoginsAt(user, client), s.log.Keys);
    RunKeepsOver(c, m, events, LoginsAt(user, client), s.log.Keys);
    var t := Run(c, m, events);
    forall h | h in t.db.refreshTokens && t.db.refreshTokens[h].userId == user &&
      t.db.refreshTokens[h].clientId == client
      ensures C.Origin(t.log, h) !in s.log
    {
      assert OfKind(LoginsAt(user, client), t.log, t.db.refreshTokens, h);
    }
  }

  lemma GoneIsSpent(s: State, id: Id)
    requires id in s.issued && id !in s.db.tokens
    ensures Spent(s, id)
  {}

  /** Once a device session is revoked, a refresh token of it that is ever stored belongs
      to a chain that started later: an exchange that was in flight. */
  lemma DeviceRevocationIsFinal(c: Config, s: State, d: Id, user: Id, events: seq<Event>)
    requires Reachable(c, s) && Step(c, s, Revoke(RevokeDeviceSession(d, user))).reply == Done
    ensures
      var t := Run(c, Step(c, s, Revoke(RevokeDeviceSession(d, user))).state, events);
      forall h | h in t.db.refreshTokens && t.db.refreshTokens[h].deviceSessionId == Some(d) ::
        C.Origin(t.log, h) !in s.log
  {
    hide Reachable, R.Inv, A.ForeignKeys, Run, Step;
    var m := Step(c, s, Revoke(RevokeDeviceSession(d, user))).state;
    A.ReachableKeys(c, s);
    R.StepKeepsInv(c, s, Revoke(RevokeDeviceSession(d, user)));
    RevocationTakes(c, s, RevokeDeviceSession(d, user));
    assert m.log == s.log;
    NoneOfKind(m, LoginsOn(d), s.log.Keys);
    RunKeepsOver(c, m, events, LoginsOn(d), s.log.Keys);
    var t := Run(c, m, events);
    forall h | h in t.db.refreshTokens && t.db.refreshTokens[h].deviceSessionId == Some(d)
      ensures C.Origin(t.log, h) !in s.log
    {
      assert OfKind(LoginsOn(d), t.log, t.db.refreshTokens, h);
    }
  }
}
