/** The tokens of a BFF session are good tokens of its user: what a callback or a refresh
    stores is introspected as active, for the session's user, until the stored expiry. */
module SessionTokens {
  import opened Prelude
  import opened SessionStore
  import opened Tables
  import opened RefreshProtocol
  import I = TokenSystem
  import R = RotationChains
  import C = ChainTheorems
  import F = SessionFate
  import M = AuthMiddleware

  /** Every refresh token issued to a session was issued to the session's user. */
  ghost predicate OwnersAgree(s: State) {
    forall raw | raw in s.owner :: OwnerAgrees(s, raw)
  }

  predicate OwnerAgrees(s: State, raw: string) {
    Sha256(raw) in s.idp.log && raw in s.owner && s.owner[raw] in s.births &&
    s.idp.log[Sha256(raw)].row.userId == s.births[s.owner[raw]].userId
  }

  lemma {:induction false} IdpGrows(c: I.Config, s: I.State, calls: seq<I.Event>)
    requires R.Inv(s)
    ensures C.Grows(s.log, I.Run(c, s, calls).log)
    decreases |calls|
  {
    hide R.Inv, I.Step;
    if calls == [] {
    } else {
      C.StepGrows(c, s, calls[0]);
      R.StepKeepsInv(c, s, calls[0]);
      IdpGrows(c, I.Step(c, s, calls[0]).state, calls[1..]);
    }
  }

  lemma StepGrows(c: Config, s: State, e: Event)
    requires Inv(s)
    ensures C.Grows(s.idp.log, Step(c, s, e).idp.log)
  {
    hide Step, R.Inv, C.Grows;
    var calls := F.IdpRuns(c, s, e);
    IdpGrows(c.idp, s.idp, calls);
  }

  /** What one issue stores is introspected as the session says. */
  ghost predicate ActiveFor(idp: I.State, sess: Session) {
    var answer := I.Introspect(idp.db, idp.now, sess.accessToken);
    answer.Active? && answer.subject == sess.userId && answer.expiration == sess.tokenExpiry &&
    answer.issuedAt == idp.now
  }

  // -------------------------------------------------- at identity-service

  lemma IssuedEntry(c: I.Config, s: I.State, request: I.TokenRequest, ids: I.NewIds, current: Option<TokenHash>)
    requires I.Issuing(c, s, request, ids, current).reply.IssuedReply?
    ensures
      var t, h := I.Issuing(c, s, request, ids, current).state, Sha256(ids.raw);
      h in t.log && h in t.db.refreshTokens && t.log[h].row == t.db.refreshTokens[h] && t.now == s.now
  {
    hide CreateAccessAndRefresh;
  }

  /** The new tokens belong to the user: the refresh token by its row, the access token
      by what introspection answers. */
  ghost predicate TokensOf(c: I.Config, t: I.State, ids: I.NewIds, user: Id) {
    Sha256(ids.raw) in t.log && t.log[Sha256(ids.raw)].row.userId == user &&
    var answer := I.Introspect(t.db, t.now, ids.access);
    answer.Active? && answer.subject == user && answer.expiration == t.now + c.accessTTL && answer.issuedAt == t.now
  }

  lemma GrantGives(c: I.Config, s: I.State, call: nat, ids: I.NewIds)
    requires I.ValidConfig(c) && I.GrantStep(c, s, call, ids).reply.IssuedReply?
    ensures
      var t := I.GrantStep(c, s, call, ids).state;
      call in s.codeReads && TokensOf(c, t, ids, I.CodeRequest(s.codeReads[call].request).Subject()) && t.now == s.now
  {
    hide I.Issuing, I.Introspect;
    C.GrantDelivers(c, s, call, ids);
    IssuedEntry(c, s.(codeReads := s.codeReads - {call}), I.CodeRequest(s.codeReads[call].request), ids, None);
  }

  lemma RotationGives(c: I.Config, s: I.State, call: nat, ids: I.NewIds, scopes: seq<string>)
    requires I.ValidConfig(c) && R.Inv(s) && I.RotateStep(c, s, call, ids, scopes).reply.IssuedReply?
    ensures
      var t := I.RotateStep(c, s, call, ids, scopes).state;
      && call in s.refreshReads && s.refreshReads[call].hash in s.log
      && TokensOf(c, t, ids, s.log[s.refreshReads[call].hash].row.userId) && t.now == s.now
  {
    var s' := s.(refreshReads := s.refreshReads - {call});
    var request, h := I.RefreshRequest(s.refreshReads[call], scopes), s.refreshReads[call].hash;
    R.QuietKeepsInv(s, s');
    hide I.Issuing, I.Introspect, R.Inv, R.SameLink;
    assert h in s.log && R.SameLink(request.domain, s.log[h].row) by { CopyLinked(s, call); }
    C.RotationDelivers(c, s', request, ids, h);
    IssuedEntry(c, s', request, ids, Some(h));
  }

  lemma CopyLinked(s: I.State, call: nat)
    requires R.Inv(s) && call in s.refreshReads
    ensures s.refreshReads[call].hash in s.log
    ensures R.SameLink(s.refreshReads[call], s.log[s.refreshReads[call].hash].row)
  {}

  lemma EndpointGives(c: I.Config, s: I.State, call: nat, raw: string, ids: I.NewIds, scopes: seq<string>)
    requires I.ValidConfig(c) && R.Inv(s) && TokenEndpoint(c, s, call, raw, ids, scopes).Some?
    requires TokenEndpoint(c, s, call, raw, ids, scopes).value.reply.IssuedReply?
    ensures
      var t := TokenEndpoint(c, s, call, raw, ids, scopes).value.state;
      ids.raw != "" && Sha256(raw) in s.log && TokensOf(c, t, ids, s.log[Sha256(raw)].row.userId) && t.now == s.now
  {
    hide R.Inv, I.RotateStep, TokensOf;
    var read := I.ReadRefreshStep(s, call, raw);
    R.ReadRefreshKeepsInv(s, call, raw);
    if read.reply.refresh.Ok? {
      ReadHash(s, raw);
      RotationGives(c, read.state, call, ids, scopes);
    }
  }

  // --------------------------------------------------------------- every run

  lemma StillAgrees(s: State, t: State, raw: string)
    requires OwnerAgrees(s, raw) && C.Grows(s.idp.log, t.idp.log) && raw in t.owner && t.owner[raw] == s.owner[raw]
    requires s.owner[raw] in t.births && t.births[s.owner[raw]] == s.births[s.owner[raw]]
    ensures OwnerAgrees(t, raw)
  {}

  lemma CallbackKeepsOwners(c: Config, s: State, e: Event)
    requires I.ValidConfig(c.idp) && Inv(s) && OwnersAgree(s) && e.Callback?
    ensures OwnersAgree(Step(c, s, e))
  {
    hide Inv, I.GrantStep, TokensOf, OwnerAgrees, C.Grows;
    var t := Step(c, s, e);
    StepGrows(c, s, e);
    if e.sid !in s.births && e.call in s.idp.codeReads && I.GrantStep(c.idp, s.idp, e.call, e.ids).reply.IssuedReply? {
      GrantGives(c.idp, s.idp, e.call, e.ids);
      assert OwnerAgrees(t, e.ids.raw) by { NewOwnerAgrees(c, t, e.ids, t.births[e.sid].userId); }
    }
    forall raw | raw in t.owner ensures OwnerAgrees(t, raw) {
      if raw in s.owner && t.owner[raw] == s.owner[raw] {
        StepKeepsBirths(c, s, e, s.owner[raw]) by { OwnerIsBorn(s, raw); }
        StillAgrees(s, t, raw);
      }
    }
  }

  lemma OwnerIsBorn(s: State, raw: string)
    requires OwnerAgrees(s, raw)
    ensures raw in s.owner && s.owner[raw] in s.births
  {}

  lemma NewOwnerAgrees(c: Config, t: State, ids: I.NewIds, user: Id)
    requires TokensOf(c.idp, t.idp, ids, user) && ids.raw in t.owner && t.owner[ids.raw] in t.births
    requires t.births[t.owner[ids.raw]].userId == user
    ensures OwnerAgrees(t, ids.raw)
  {}

  lemma ExchangeKeepsOwners(c: Config, s: State, e: Event)
    requires I.ValidConfig(c.idp) && Inv(s) && OwnersAgree(s) && e.Exchange?
    ensures OwnersAgree(Step(c, s, e))
  {
    hide Inv, TokenEndpoint, TokensOf, OwnerAgrees, C.Grows, Expiring;
    var t := Step(c, s, e);
    StepGrows(c, s, e);
    if e.req in s.requests && s.requests[e.req].Holding? {
      var copy := s.requests[e.req].copy;
      var o := TokenEndpoint(c.idp, s.idp, e.call, copy.refreshToken, e.ids, e.scopes);
      if o.Some? && o.value.reply.IssuedReply? {
        M.InvOfIdp(s);
        EndpointGives(c.idp, s.idp, e.call, copy.refreshToken, e.ids, e.scopes);
        CopyAgrees(s, e.req);
        InHolding(s, e.req);
        assert t.idp == o.value.state && t.owner == s.owner[e.ids.raw := s.requests[e.req].sid] && t.births == s.births;
        NewOwnerAgrees(c, t, e.ids, copy.userId);
      }
    }
    hide Step;
    forall raw | raw in t.owner ensures OwnerAgrees(t, raw) {
      if raw in s.owner && t.owner[raw] == s.owner[raw] {
        StepKeepsBirths(c, s, e, s.owner[raw]) by { OwnerIsBorn(s, raw); }
        StillAgrees(s, t, raw);
      }
    }
  }

  /** The holder's copy names the user its token was issued to. */
  lemma CopyAgrees(s: State, r: nat)
    requires Inv(s) && OwnersAgree(s) && r in s.requests && s.requests[r].Holding?
    ensures
      var q := s.requests[r];
      && Sha256(q.copy.refreshToken) in s.idp.log && s.idp.log[Sha256(q.copy.refreshToken)].row.userId == q.copy.userId
      && q.sid in s.births && s.births[q.sid].userId == q.copy.userId
  {
    hide R.Inv;
    InHolding(s, r);
    assert OwnerAgrees(s, s.requests[r].copy.refreshToken);
  }

  lemma OtherKeepsOwners(c: Config, s: State, e: Event)
    requires Inv(s) && OwnersAgree(s) && !e.Callback? && !e.Exchange?
    ensures OwnersAgree(Step(c, s, e))
  {
    hide Inv, OwnerAgrees, C.Grows, CallbackStep, ExchangeStep, I.Step, Load, Expiring, MayElapse, IdpMay;
    var t := Step(c, s, e);
    StepGrows(c, s, e);
    assert t.owner == s.owner;
    forall raw | raw in t.owner ensures OwnerAgrees(t, raw) {
      StepKeepsBirths(c, s, e, s.owner[raw]) by { OwnerIsBorn(s, raw); }
      StillAgrees(s, t, raw);
    }
  }

  lemma {:induction false} RunKeepsOwners(c: Config, s: State, events: seq<Event>)
    requires I.ValidConfig(c.idp) && Inv(s) && OwnersAgree(s)
    ensures OwnersAgree(Run(c, s, events))
    decreases |events|
  {
    hide Inv, OwnersAgree, Step;
    if events == [] {
    } else {
      if events[0].Callback? {
        CallbackKeepsOwners(c, s, events[0]);
      } else if events[0].Exchange? {
        ExchangeKeepsOwners(c, s, events[0]);
      } else {
        OtherKeepsOwners(c, s, events[0]);
      }
      StepKeepsInv(c, s, events[0]);
      RunKeepsOwners(c, Step(c, s, events[0]), events[1..]);
    }
  }

  lemma ReachableOwners(c: Config, s: State)
    requires I.ValidConfig(c.idp) && Reachable(c, s)
    ensures Inv(s) && OwnersAgree(s)
  {
    hide Inv;
    var events :| s == Run(c, INIT, events);
    InitInv();
    RunKeepsInv(c, INIT, events);
    RunKeepsOwners(c, INIT, events);
  }

  // ------------------------------------------------------------ main results

  /** What a refresh is about to store is good: its access token is introspected as
      active, for the session's user, until the stored expiry. */
  lemma RefreshIsActive(c: Config, s: State, e: Event)
    requires I.ValidConfig(c.idp) && Reachable(c, s) && e.Exchange? && e.req in s.requests && s.requests[e.req].Holding?
    requires Step(c, s, e).requests[e.req].Exchanged?
    ensures ActiveFor(Step(c, s, e).idp, Step(c, s, e).requests[e.req].next)
  {
    hide Reachable, Inv, OwnersAgree, TokenEndpoint, I.Introspect;
    ReachableOwners(c, s);
    M.InvOfIdp(s);
    CopyAgrees(s, e.req);
    EndpointGives(c.idp, s.idp, e.call, s.requests[e.req].copy.refreshToken, e.ids, e.scopes);
  }

  /** So is what a login stores: a session opened now, with the tokens of the exchange. */
  lemma CallbackIsActive(c: Config, s: State, e: Event)
    requires I.ValidConfig(c.idp) && e.Callback? && e.sid !in s.births && e.sid in Step(c, s, e).births
    ensures e.sid in Step(c, s, e).redis.sessions
    ensures ActiveFor(Step(c, s, e).idp, Step(c, s, e).redis.sessions[e.sid].session)
    ensures
      var t := Step(c, s, e);
      var sess := t.redis.sessions[e.sid].session;
      && sess.createdAt == s.idp.now && sess.lastActiveAt == s.idp.now && sess.refreshToken == e.ids.raw
      && sess.accessToken == e.ids.access && sess.idToken == e.idToken && sess.deviceSessionId == e.device
      && t.redis.sessions - {e.sid} == s.redis.sessions - {e.sid} && t.redis.locks == s.redis.locks
  {
    hide I.GrantStep, I.Introspect;
    GrantGives(c.idp, s.idp, e.call, e.ids);
  }
}
