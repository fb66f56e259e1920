/** Results about rotation chains, for every state the service can reach. */
module ChainTheorems {
  import opened Prelude
  import opened Tables
  import opened TokenSystem
  import opened RotationChains

  lemma ReachableInv(c: Config, s: State)
    requires Reachable(c, s)
    ensures Inv(s)
  {
    var events :| s == Run(c, INIT, events);
    RunKeepsInv(c, INIT, events);
  }

  /** The original login's token: follow the replaced tokens back to the first. */
  function Origin(log: Log, h: TokenHash): TokenHash
    decreases if h in log then log[h].depth else 0
  {
    if h in log && log[h].parent.Some? && log[h].parent.value in log && log[log[h].parent.value].depth < log[h].depth
    then Origin(log, log[h].parent.value)
    else h
  }

  // ------------------------------------------------------------- constancy

  lemma {:induction false} OriginInherited(s: State, h: TokenHash)
    requires Inv(s) && h in s.log
    ensures Origin(s.log, h) in s.log && s.log[Origin(s.log, h)].parent.None?
    ensures Inherits(s.log[h].row, s.log[Origin(s.log, h)].row)
    decreases s.log[h].depth
  {
    assert LinkOk(s.log, s.db.refreshTokens, h);
    if s.log[h].parent.Some? {
      OriginInherited(s, s.log[h].parent.value);
    }
  }

  /** Section 12.2 of OpenID Connect Core 1.0 over chains of any length: every stored
      token carries the user, client, audience, auth_time and AMR of the original
      login, and every live one carries its device session. */
  lemma ChainConstancy(c: Config, s: State, h: TokenHash)
    requires Reachable(c, s) && h in s.db.refreshTokens
    ensures Origin(s.log, h) in s.log && s.log[Origin(s.log, h)].parent.None?
    ensures
      var row, first := s.db.refreshTokens[h], s.log[Origin(s.log, h)].row;
      && row.userId == first.userId && row.clientId == first.clientId && row.audience == first.audience
      && row.authTime == first.authTime && row.amr == first.amr
      && (LiveRefresh(row, s.now) ==> row.deviceSessionId == first.deviceSessionId)
  {
    ReachableInv(c, s);
    OriginInherited(s, h);
  }

  // ------------------------------------------------------------- linearity

  /** Along a chain, a position determines the token. */
  lemma {:induction false} PositionIsUnique(s: State, g: TokenHash, h: TokenHash)
    requires Inv(s) && g in s.log && h in s.log
    requires Origin(s.log, g) == Origin(s.log, h) && s.log[g].depth == s.log[h].depth
    ensures g == h
    decreases s.log[g].depth
  {
    assert LinkOk(s.log, s.db.refreshTokens, g) && LinkOk(s.log, s.db.refreshTokens, h);
    if s.log[g].parent.Some? {
      PositionIsUnique(s, s.log[g].parent.value, s.log[h].parent.value);
    }
  }

  /** Every token of a chain but the last was replaced. */
  lemma {:induction false} EarlierWasReplaced(s: State, g: TokenHash, h: TokenHash) returns (next: TokenHash)
    requires Inv(s) && g in s.log && h in s.log
    requires Origin(s.log, g) == Origin(s.log, h) && s.log[g].depth < s.log[h].depth
    ensures next in s.log && s.log[next].parent == Some(g)
    decreases s.log[h].depth
  {
    assert LinkOk(s.log, s.db.refreshTokens, h);
    var p := s.log[h].parent.value;
    if s.log[p].depth == s.log[g].depth {
      PositionIsUnique(s, g, p);
      next := h;
    } else {
      next := EarlierWasReplaced(s, g, p);
    }
  }

  /** Section 10.4 of RFC 6749: a refresh token has at most one successor, and a
      chain has at most one stored refresh token and at most one stored access token. */
  lemma LinearRotation(c: Config, s: State, g: TokenHash, h: TokenHash)
    requires Reachable(c, s) && g in s.log && h in s.log && g != h
    ensures s.log[g].parent.Some? ==> s.log[g].parent != s.log[h].parent
    ensures Origin(s.log, g) == Origin(s.log, h) ==> !(g in s.db.refreshTokens && h in s.db.refreshTokens)
    ensures Origin(s.log, g) == Origin(s.log, h) ==>
      AccessGone(s.db.tokens, s.log[g].row) || AccessGone(s.db.tokens, s.log[h].row)
  {
    ReachableInv(c, s);
    if Origin(s.log, g) == Origin(s.log, h) {
      if s.log[g].depth == s.log[h].depth {
        PositionIsUnique(s, g, h);
      } else {
        var before := s.log[g].depth < s.log[h].depth;
        var earlier, later := if before then g else h, if before then h else g;
        var next := EarlierWasReplaced(s, earlier, later);
        assert LinkOk(s.log, s.db.refreshTokens, next);
        assert AccessGone(s.db.tokens, s.log[s.log[next].parent.value].row);
      }
    }
  }

  /** History is never rewritten. */
  predicate Grows(a: Log, b: Log) {
    forall h | h in a :: h in b && b[h] == a[h]
  }

  lemma TokenStepGrows(c: Config, s: State, e: TokenEvent)
    requires KnownLog(s.log, s.issued)
    ensures Grows(s.log, TokenStep(c, s, e).state.log)
  {}

  lemma StepGrows(c: Config, s: State, e: Event)
    requires Inv(s)
    ensures Grows(s.log, Step(c, s, e).state.log)
  {
    hide TokenStep, LoginStep, Revoked, Swept, Answer, Shrinks;
    if e.TokenCall? {
      TokenStepGrows(c, s, e.token);
    } else {
      OtherStepIsQuiet(c, s, e);
    }
  }

  /** Once replaced, a refresh token is never accepted again, whatever happens later. */
  lemma {:induction false} ReplacedForEver(c: Config, s: State, events: seq<Event>, h: TokenHash)
    requires Inv(s) && h in s.log && s.log[h].parent.Some?
    ensures
      var t := Run(c, s, events);
      && s.log[h].parent.value !in t.db.refreshTokens
      && forall call, ids, scopes :: call in t.refreshReads && t.refreshReads[call].hash == s.log[h].parent.value ==>
           RotateStep(c, t, call, ids, scopes).reply in {Ignored, Failed(NotFound)}
    decreases |events|
  {
    hide Step;
    if events == [] {
      assert LinkOk(s.log, s.db.refreshTokens, h);
    } else {
      StepGrows(c, s, events[0]);
      StepKeepsInv(c, s, events[0]);
      ReplacedForEver(c, Step(c, s, events[0]).state, events[1..], h);
    }
  }

  ghost predicate SameExcept<K, V>(a: map<K, V>, b: map<K, V>, except: set<K>) {
    (forall k | k in a && k !in except :: k in b && b[k] == a[k]) && (forall k | k in b && k !in except :: k in a)
  }

  lemma ConsumeThenAdd(db: Tables, current: TokenHash, access: AccessToken, row: RefreshToken)
    requires current in db.refreshTokens && db.refreshTokens[current].accessTokenId.Some?
    ensures SameExcept(db.tokens, Consume(db, current).tokens[access.id := access],
                       {access.id, db.refreshTokens[current].accessTokenId.value})
    ensures SameExcept(db.refreshTokens, Consume(db, current).refreshTokens[row.hash := row], {row.hash, current})
  {}

  /** The stored pair of tokens: live for their lifetimes from now on, to the
      millisecond, paired with each other, and introspected as what they are. */
  ghost predicate Delivered(c: Config, t: State, ids: NewIds, scopes: seq<string>) {
    ids.access in t.db.tokens && Sha256(ids.raw) in t.db.refreshTokens &&
    var access, next := t.db.tokens[ids.access], t.db.refreshTokens[Sha256(ids.raw)];
    && Paired(access, next) && next.scopes == scopes
    && Introspect(t.db, t.now, ids.access) == Active(next.userId, next.clientId, scopes, next.audience,
                                                     t.now + c.accessTTL, t.now)
    && (forall later :: GetAccess(t.db, later, ids.access).Ok? <==> later < t.now + c.accessTTL)
    && (forall later :: GetRefresh(t.db, later, Sha256(ids.raw)).Ok? <==> later < t.now + c.refreshTTL)
  }

  /** What a successful rotation delivers: a live pair with the narrowed scopes, and
      otherwise what the chain carries. */
  lemma RotationDelivers(c: Config, s: State, request: TokenRequest, ids: NewIds, prev: TokenHash)
    requires ValidConfig(c) && Inv(s)
    requires request.RefreshRequest? && prev in s.log && SameLink(request.domain, s.log[prev].row)
    requires Issuing(c, s, request, ids, Some(prev)).reply.IssuedReply?
    ensures
      var t := Issuing(c, s, request, ids, Some(prev)).state;
      Delivered(c, t, ids, request.currentScopes) && Inherits(t.db.refreshTokens[Sha256(ids.raw)], s.log[prev].row)
  {
    hide Issuing, IssuePair, Inv, Inherits;
    IssuedTables(c, s, request, ids, Some(prev));
    RotationInherits(c, s, request, ids, prev);
  }

  /** What a successful code exchange delivers: a live pair that starts a chain with
      what the auth request holds of the login. */
  lemma GrantDelivers(c: Config, s: State, call: nat, ids: NewIds)
    requires ValidConfig(c) && GrantStep(c, s, call, ids).reply.IssuedReply?
    ensures
      var t, r := GrantStep(c, s, call, ids).state, s.codeReads[call].request;
      && Delivered(c, t, ids, r.scopes)
      && t.log[Sha256(ids.raw)].parent.None?
      && var row := t.db.refreshTokens[Sha256(ids.raw)];
      && row.userId == r.userId.GetOr("") && row.clientId == r.clientId && row.audience == [r.clientId]
      && row.authTime == r.authTime.GetOr(ZERO_TIME) && row.amr == r.amr && row.deviceSessionId == r.deviceSessionId
  {
    hide Issuing, IssuePair;
    IssuedTables(c, s.(codeReads := s.codeReads - {call}), CodeRequest(s.codeReads[call].request), ids, None);
  }

  /** What a client gets for its own credentials: an access token without a refresh token,
      introspected as what was asked for until its lifetime is over. */
  lemma AccessGrantDelivers(c: Config, s: State, e: TokenEvent)
    requires ValidConfig(c) && e.GrantAccess? && TokenStep(c, s, e).reply.Done?
    ensures
      var t := TokenStep(c, s, e).state;
      && e.id !in s.db.tokens && t.db == s.db.(tokens := t.db.tokens) && t.db.tokens - {e.id} == s.db.tokens
      && Introspect(t.db, t.now, e.id) == Active(e.subject, e.clientId, e.scopes, e.audience,
                                                 s.now + c.accessTTL, s.now)
      && t.db.tokens[e.id].refreshTokenId.None? && t.log == s.log
      && forall later :: GetAccess(t.db, later, e.id).Ok? <==> later < s.now + c.accessTTL
  {}

  /** What a finished login leaves in the auth request, and that it leaves the rest. */
  lemma LoginRecords(c: Config, s: State, call: nat, id: Id)
    requires call in s.logins && id in s.db.authRequests && FinishLoginStep(c, s, call, id).reply.Done?
    ensures
      var t := FinishLoginStep(c, s, call, id).state;
      var r := CodeRequest(t.db.authRequests[id]);
      && r.Subject() == s.logins[call].user && r.DeviceSession() == Some(s.logins[call].device)
      && r.AuthTime() == s.now && r.Amr() == ["fed"] && r.authRequest.isDone
      && r.authRequest.code == s.db.authRequests[id].code && r.authRequest.createdAt == s.db.authRequests[id].createdAt
      && r.Scopes() == s.db.authRequests[id].scopes && r.ClientId() == s.db.authRequests[id].clientId
      && t.db.authRequests - {id} == s.db.authRequests - {id}
  {}

  /** What a successful rotation takes: the presented token was live and is gone with
      its access token, and no row but those of the two pairs changed. */
  lemma RotationConsumes(c: Config, s: State, request: TokenRequest, ids: NewIds, prev: TokenHash)
    requires Inv(s) && FreshIds(s, ids) && prev in s.log
    requires Issuing(c, s, request, ids, Some(prev)).reply.IssuedReply?
    ensures
      var t := Issuing(c, s, request, ids, Some(prev)).state;
      && GetRefresh(s.db, s.now, prev).Ok? && GetRefresh(t.db, t.now, prev) == Err(NotFound)
      && Introspect(t.db, t.now, s.log[prev].row.accessTokenId.GetOr("")) == Inactive
      && AccessGone(t.db.tokens, s.log[prev].row)
      && SameExcept(s.db.tokens, t.db.tokens, {ids.access, s.log[prev].row.accessTokenId.GetOr("")})
      && SameExcept(s.db.refreshTokens, t.db.refreshTokens, {Sha256(ids.raw), prev})
  {
    hide Issuing, IssuePair, SameExcept;
    IssuedTables(c, s, request, ids, Some(prev));
    assert KnownEntry(s.issued, prev, s.log[prev].row);
    ConsumeThenAdd(s.db, prev, BuildPair(c, s.now, request, ids).access, InsertedRow(c, s, request, ids, Some(prev)));
  }

  // --------------------------------------------------------------- pairing

  /** Between rows that co-exist, the two foreign ids are each other's inverse,
      and the rows agree on client and subject. */
  lemma PairingIsABijection(c: Config, s: State, a: Id, h: TokenHash)
    requires Reachable(c, s) && a in s.db.tokens && h in s.db.refreshTokens
    ensures s.db.tokens[a].refreshTokenId == Some(s.db.refreshTokens[h].id) <==>
      s.db.refreshTokens[h].accessTokenId == Some(a)
    ensures s.db.refreshTokens[h].accessTokenId == Some(a) ==> Paired(s.db.tokens[a], s.db.refreshTokens[h])
  {
    ReachableInv(c, s);
    if s.db.tokens[a].refreshTokenId == Some(s.db.refreshTokens[h].id) {
      assert IssuedWith(s.log, s.db.tokens[a]);
      var g :| g in s.log && Paired(s.db.tokens[a], s.log[g].row);
      assert g == h;
    }
  }

  /** The pairing is injective on both sides. */
  lemma PairingIsInjective(c: Config, s: State)
    requires Reachable(c, s)
    ensures forall g, h | g in s.db.refreshTokens && h in s.db.refreshTokens && g != h ::
      s.db.refreshTokens[g].accessTokenId != s.db.refreshTokens[h].accessTokenId &&
      s.db.refreshTokens[g].id != s.db.refreshTokens[h].id
    ensures forall a, b | a in s.db.tokens && b in s.db.tokens && s.db.tokens[a].refreshTokenId.Some? &&
      s.db.tokens[a].refreshTokenId == s.db.tokens[b].refreshTokenId :: a == b
  {
    ReachableInv(c, s);
    forall a, b | a in s.db.tokens && b in s.db.tokens && s.db.tokens[a].refreshTokenId.Some? &&
      s.db.tokens[a].refreshTokenId == s.db.tokens[b].refreshTokenId
      ensures a == b
    {
      var g :| g in s.log && Paired(s.db.tokens[a], s.log[g].row);
      assert IssuedWith(s.log, s.db.tokens[b]);
      var h :| h in s.log && Paired(s.db.tokens[b], s.log[h].row);
      assert g == h;
    }
  }
}
