/** What becomes of a session: exactly when a refresh keeps it and when a logout is
    final, by the one thing that decides, whether a copied token is still live. */
module SessionFate {
  import opened Prelude
  import opened SessionStore
  import opened Tables
  import opened RefreshProtocol
  import I = TokenSystem
  import R = RotationChains
  import A = RotationAcceptance
  import M = AuthMiddleware

  /** identity-service would accept the token now. */
  predicate Live(s: State, raw: string) {
    GetRefresh(s.idp.db, s.idp.now, Sha256(raw)).Ok?
  }

  // ----------------------------------------- identity-service under the BFF

  lemma EndpointRuns(c: I.Config, s: I.State, call: nat, raw: string, ids: I.NewIds, scopes: seq<string>)
    requires TokenEndpoint(c, s, call, raw, ids, scopes).Some?
    ensures
      var t := TokenEndpoint(c, s, call, raw, ids, scopes).value.state;
      t == I.Run(c, s, [I.TokenCall(I.ReadRefresh(call, raw))]) ||
      t == I.Run(c, s, [I.TokenCall(I.ReadRefresh(call, raw)), I.TokenCall(I.Rotate(call, ids, scopes))])
  {
    hide I.ReadRefreshStep, I.RotateStep;
    var read, rotate := I.TokenCall(I.ReadRefresh(call, raw)), I.TokenCall(I.Rotate(call, ids, scopes));
    assert [read][1..] == [] && [read, rotate][1..] == [rotate] && [rotate][1..] == [];
    var t := I.Step(c, s, read).state;
    assert I.Run(c, t, []) == t;
    assert I.Run(c, t, [rotate]) == I.Run(c, I.Step(c, t, rotate).state, []);
  }

  lemma TickStep(c: I.Config, s: I.State, time: nat)
    ensures I.Step(c, s, I.Tick(time)).state == s.(now := s.now + time)
  {}

  lemma GrantCall(c: I.Config, s: I.State, call: nat, ids: I.NewIds)
    ensures I.Step(c, s, I.TokenCall(I.Grant(call, ids))) == I.GrantStep(c, s, call, ids)
  {}

  lemma CallbackIdp(c: Config, s: State, sid: Sid, call: nat, ids: I.NewIds, idToken: string, device: string)
    ensures
      var t := CallbackStep(c, s, sid, call, ids, idToken, device);
      t.idp == s.idp || t.idp == I.GrantStep(c.idp, s.idp, call, ids).state
  {
    hide I.GrantStep;
  }

  lemma ExchangeIdp(c: Config, s: State, r: nat, call: nat, ids: I.NewIds, scopes: seq<string>, idToken: string,
                    device: string)
    ensures
      var t := ExchangeStep(c, s, r, call, ids, scopes, idToken, device);
      t.idp == s.idp || (r in s.requests && s.requests[r].Holding? &&
                         var o := TokenEndpoint(c.idp, s.idp, call, s.requests[r].copy.refreshToken, ids, scopes);
                         o.Some? && t.idp == o.value.state)
  {
    hide TokenEndpoint;
  }

  predicate CallsIdp(e: Event) {
    e.Elapse? || e.Callback? || e.Exchange? || e.Idp?
  }

  lemma OthersLeaveIdp(c: Config, s: State, e: Event)
    requires !CallsIdp(e)
    ensures Step(c, s, e).idp == s.idp
  {
    hide Load, Expiring, CallbackStep, ExchangeStep, I.Step;
  }

  /** Every step of the protocol is a run, possibly empty, of identity-service. */
  lemma IdpRuns(c: Config, s: State, e: Event) returns (calls: seq<I.Event>)
    ensures Step(c, s, e).idp == I.Run(c.idp, s.idp, calls)
  {
    hide I.Step, I.Run, I.GrantStep, TokenEndpoint, MayElapse, IdpMay, CallbackStep, ExchangeStep, ArriveStep,
         TryLockStep, SaveStep, LeaveStep, ReloadStep, ExchangeFailsStep, StoreErrorStep;
    calls := [];
    I.RunNone(c.idp, s.idp);
    if !CallsIdp(e) {
      OthersLeaveIdp(c, s, e);
    } else {
      match e
      case Elapse(time) =>
        if MayElapse(s, time) {
          calls := [I.Tick(time)];
          I.RunOne(c.idp, s.idp, I.Tick(time));
          TickStep(c.idp, s.idp, time);
        }
      case Callback(sid, call, ids, idToken, device) =>
        CallbackIdp(c, s, sid, call, ids, idToken, device);
        if Step(c, s, e).idp != s.idp {
          calls := [I.TokenCall(I.Grant(call, ids))];
          I.RunOne(c.idp, s.idp, I.TokenCall(I.Grant(call, ids)));
          GrantCall(c.idp, s.idp, call, ids);
        }
      case Exchange(r, call, ids, scopes, idToken, device) =>
        ExchangeIdp(c, s, r, call, ids, scopes, idToken, device);
        if Step(c, s, e).idp != s.idp {
          var raw := s.requests[r].copy.refreshToken;
          EndpointRuns(c.idp, s.idp, call, raw, ids, scopes);
          calls := [I.TokenCall(I.ReadRefresh(call, raw))];
          if Step(c, s, e).idp != I.Run(c.idp, s.idp, calls) {
            calls := [I.TokenCall(I.ReadRefresh(call, raw)), I.TokenCall(I.Rotate(call, ids, scopes))];
          }
        }
      case Idp(event) =>
        if IdpMay(s, event) {
          calls := [event];
          I.RunOne(c.idp, s.idp, event);
        }
      case _ =>
    }
  }

  lemma {:induction false} RunIsRunOfIdp(c: Config, s: State, events: seq<Event>) returns (calls: seq<I.Event>)
    ensures Run(c, s, events).idp == I.Run(c.idp, s.idp, calls)
    decreases |events|
  {
    hide Step, I.Run;
    if events == [] {
      calls := [];
      I.RunNone(c.idp, s.idp);
    } else {
      var first := IdpRuns(c, s, events[0]);
      var rest := RunIsRunOfIdp(c, Step(c, s, events[0]), events[1..]);
      calls := first + rest;
      I.RunAppend(c.idp, s.idp, first, rest);
    }
  }

  /** So whatever holds of identity-service on every run of its own holds here. */
  lemma IdpReachable(c: Config, s: State)
    requires Reachable(c, s)
    ensures I.Reachable(c.idp, s.idp)
  {
    hide Run, I.Run;
    var events :| s == Run(c, INIT, events);
    var calls := RunIsRunOfIdp(c, INIT, events);
    assert s.idp == I.Run(c.idp, I.INIT, calls);
  }

  lemma ReachableKeys(c: Config, s: State)
    requires Reachable(c, s)
    ensures R.Inv(s.idp) && A.ForeignKeys(s.idp.db)
  {
    hide Reachable, I.Reachable, R.Inv, A.ForeignKeys;
    IdpReachable(c, s);
    A.ReachableKeys(c.idp, s.idp);
  }

  lemma {:induction false} IdpKeepsDead(c: I.Config, s: I.State, calls: seq<I.Event>, h: TokenHash)
    requires R.Inv(s) && A.Dead(s, h)
    ensures A.Dead(I.Run(c, s, calls), h)
    decreases |calls|
  {
    hide R.Inv, I.Step, A.Dead;
    if calls == [] {
    } else {
      A.StepKeepsDead(c, s, calls[0], h);
      R.StepKeepsInv(c, s, calls[0]);
      IdpKeepsDead(c, I.Step(c, s, calls[0]).state, calls[1..], h);
    }
  }

  // -------------------------------------------------- what a refresh decides

  /** Section 6 of RFC 6749 at the token endpoint: accepted if and only if live. */
  lemma EndpointAccepts(c: I.Config, s: I.State, call: nat, raw: string, ids: I.NewIds, scopes: seq<string>)
    requires R.Inv(s) && A.ForeignKeys(s.db) && I.FreshIds(s, ids) && ids.raw != ""
    ensures
      var o := TokenEndpoint(c, s, call, raw, ids, scopes);
      o.Some? && (o.value.reply.IssuedReply? <==> GetRefresh(s.db, s.now, Sha256(raw)).Ok?)
  {
    hide R.Inv, A.ForeignKeys, I.RotateStep, I.FreshIds;
    var read := I.ReadRefreshStep(s, call, raw);
    if read.reply.refresh.Ok? {
      R.ReadRefreshKeepsInv(s, call, raw);
      ReadHash(s, raw);
      assert I.FreshIds(read.state, ids) by { SameIssued(s, read.state, ids); }
      A.RotationAccepts(c, read.state, call, ids, scopes);
    }
  }

  lemma SameIssued(s: I.State, t: I.State, ids: I.NewIds)
    requires I.FreshIds(s, ids) && t.issued == s.issued
    ensures I.FreshIds(t, ids)
  {}

  lemma HolderIsAnswered(c: Config, s: State, r: nat, e: Event)
    requires Reachable(c, s) && r in s.requests && s.requests[r].Holding?
    requires e.Exchange? && e.req == r && I.FreshIds(s.idp, e.ids) && e.ids.raw != ""
    ensures
      var q, t := s.requests[r], Step(c, s, e);
      && t.idp.now == s.idp.now && t.redis == s.redis && r in t.requests
      && t.requests == s.requests[r := t.requests[r]] && t.requests[r].sid == q.sid
      && if Live(s, q.copy.refreshToken) then t.requests[r].Exchanged?
         else t.requests[r] == Leaving(q.sid, true, q.since)
  {
    hide Reachable, R.Inv, A.ForeignKeys, Inv, Step, TokenEndpoint, Expiring, I.FreshIds;
    ReachableKeys(c, s);
    ReachableInv(c, s);
    InHolding(s, r);
    M.HolderExchanges(c, s, r, e);
    EndpointAccepts(c.idp, s.idp, e.call, s.requests[r].copy.refreshToken, e.ids, e.scopes);
  }

  lemma IssuedIsLive(c: I.Config, s: I.State, request: I.TokenRequest, ids: I.NewIds, current: Option<TokenHash>)
    requires I.ValidConfig(c) && I.Issuing(c, s, request, ids, current).reply.IssuedReply?
    ensures
      var t := I.Issuing(c, s, request, ids, current).state;
      GetRefresh(t.db, t.now, Sha256(ids.raw)).Ok?
  {
    hide I.Issuing;
    R.IssuedTables(c, s, request, ids, current);
  }

  lemma EndpointDelivers(c: I.Config, s: I.State, call: nat, raw: string, ids: I.NewIds, scopes: seq<string>)
    requires I.ValidConfig(c) && TokenEndpoint(c, s, call, raw, ids, scopes).Some?
    requires TokenEndpoint(c, s, call, raw, ids, scopes).value.reply.IssuedReply?
    ensures
      var t := TokenEndpoint(c, s, call, raw, ids, scopes).value.state;
      ids.raw != "" && GetRefresh(t.db, t.now, Sha256(ids.raw)).Ok?
  {
    hide I.Issuing;
    var t := I.ReadRefreshStep(s, call, raw).state;
    IssuedIsLive(c, t.(refreshReads := t.refreshReads - {call}), I.RefreshRequest(t.refreshReads[call], scopes), ids,
                 Some(t.refreshReads[call].hash));
  }

  /** The session a holder is about to save has a live token, and names the copy it presented. */
  lemma NextIsLive(c: Config, s: State, r: nat, e: Event)
    requires I.ValidConfig(c.idp) && r in s.requests && s.requests[r].Holding? && e.Exchange? && e.req == r
    requires Step(c, s, e).requests[r].Exchanged?
    ensures
      var t := Step(c, s, e);
      Live(t, t.requests[r].next.refreshToken) && t.requests[r].presented == s.requests[r].copy.refreshToken
  {
    hide TokenEndpoint;
    EndpointDelivers(c.idp, s.idp, e.call, s.requests[r].copy.refreshToken, e.ids, e.scopes);
  }

  function Rest(r: nat): seq<Event> {
    [SaveNext(r), Leave(r), DeleteFailed(r)]
  }

  /** A refresh by the lock holder ends with the session stored if and only if the token
      the holder loaded before the lock is still live; otherwise the session is deleted. */
  lemma RefreshKeepsExactly(c: Config, s: State, r: nat, e: Event)
    requires Reachable(c, s) && r in s.requests && s.requests[r].Holding? && c.ttl.idle > 0
    requires e.Exchange? && e.req == r && I.FreshIds(s.idp, e.ids) && e.ids.raw != ""
    ensures
      var t := Run(c, s, [e] + Rest(r));
      && (HasSession(t.redis, s.requests[r].sid, t.idp.now) <==> Live(s, s.requests[r].copy.refreshToken))
      && (!Live(s, s.requests[r].copy.refreshToken) ==> s.requests[r].sid !in t.redis.sessions)
      && t.requests == s.requests - {r}
  {
    hide Reachable, Step, Run, I.FreshIds, Live;
    HolderIsAnswered(c, s, r, e);
    var t := Step(c, s, e);
    RunFirst(c, s, e, Rest(r));
    M.AloneFinishes(c, t, r, t.requests[r]);
    assert t.requests - {r} == s.requests - {r};
    RunKeepsTime(c, t, r);
  }

  lemma RunFirst(c: Config, s: State, e: Event, rest: seq<Event>)
    ensures Run(c, s, [e] + rest) == Run(c, Step(c, s, e), rest)
  {
    assert ([e] + rest)[0] == e && ([e] + rest)[1..] == rest;
  }

  lemma RunKeepsTime(c: Config, s: State, r: nat)
    ensures Run(c, s, Rest(r)).idp.now == s.idp.now
  {
    hide Run, Step;
    RunThree(c, s, SaveNext(r), Leave(r), DeleteFailed(r));
    OthersLeaveIdp(c, s, SaveNext(r));
    OthersLeaveIdp(c, Step(c, s, SaveNext(r)), Leave(r));
    OthersLeaveIdp(c, Step(c, Step(c, s, SaveNext(r)), Leave(r)), DeleteFailed(r));
  }

  /** When the stored session is good, the holder keeps it if and only if what it loaded
      before the lock is what is stored now. */
  lemma StaleExactly(c: Config, s: State, r: nat, e: Event)
    requires Reachable(c, s) && r in s.requests && s.requests[r].Holding? && c.ttl.idle > 0
    requires e.Exchange? && e.req == r && I.FreshIds(s.idp, e.ids) && e.ids.raw != ""
    requires s.requests[r].sid in s.redis.sessions && Live(s, s.redis.sessions[s.requests[r].sid].session.refreshToken)
    ensures
      var t := Run(c, s, [e] + Rest(r));
      HasSession(t.redis, s.requests[r].sid, t.idp.now) <==>
      s.requests[r].copy.refreshToken == s.redis.sessions[s.requests[r].sid].session.refreshToken
  {
    hide Reachable, Run, I.FreshIds, Spent, R.Inv, A.ForeignKeys;
    RefreshKeepsExactly(c, s, r, e);
    CopyIsSpentExactlyWhenStale(c, s, r);
    ReachableKeys(c, s);
    if Live(s, s.requests[r].copy.refreshToken) {
      StoredRowUnspent(s.idp, s.requests[r].copy.refreshToken);
    }
  }

  // ------------------------------------------------------ when logout is final

  /** The request may yet store the session: it is past its exchange, or the token it
      loaded would be accepted. */
  predicate MayStore(s: State, q: Request) {
    q.Exchanged? || ((q.Acquiring? || q.Holding?) && Live(s, q.copy.refreshToken))
  }

  ghost predicate InFlight(s: State, sid: Sid) {
    exists r :: r in s.requests && s.requests[r].sid == sid && MayStore(s, s.requests[r])
  }

  /** Not loadable, and every copy still around is of a dead token. */
  predicate Harmless(s: State, sid: Sid, q: Request) {
    q.sid == sid ==> !q.Exchanged? && (q.Acquiring? || q.Holding? ==> A.Dead(s.idp, Sha256(q.copy.refreshToken)))
  }

  ghost predicate Over(s: State, sid: Sid) {
    sid in s.births && !HasSession(s.redis, sid, s.idp.now) &&
    forall r | r in s.requests :: Harmless(s, sid, s.requests[r])
  }

  lemma HarmlessLater(s: State, t: State, sid: Sid, q: Request)
    requires Harmless(s, sid, q)
    requires forall h | A.Dead(s.idp, h) :: A.Dead(t.idp, h)
    ensures Harmless(t, sid, q)
  {}

  lemma StepKeepsDeadTokens(c: Config, s: State, e: Event, h: TokenHash)
    requires Inv(s) && A.Dead(s.idp, h)
    ensures A.Dead(Step(c, s, e).idp, h)
  {
    hide Step, A.Dead, R.Inv;
    var calls := IdpRuns(c, s, e);
    IdpKeepsDead(c.idp, s.idp, calls, h);
  }

  lemma StepKeepsTime(c: Config, s: State, e: Event)
    requires Inv(s)
    ensures s.idp.now <= Step(c, s, e).idp.now
  {
    hide Inv, CallbackStep, ExchangeStep, I.Step, ArriveStep, TryLockStep, SaveStep, LeaveStep, ReloadStep,
         ExchangeFailsStep, StoreErrorStep, TokenEndpoint, I.GrantStep, R.Inv;
    assert R.Inv(s.idp) by { M.InvOfIdp(s); }
    match e
    case Callback(sid, call, ids, idToken, device) =>
      CallbackIdp(c, s, sid, call, ids, idToken, device);
      GrantLog(c.idp, s.idp, call, ids);
    case Exchange(r, call, ids, scopes, idToken, device) =>
      ExchangeIdp(c, s, r, call, ids, scopes, idToken, device);
      if Step(c, s, e).idp != s.idp {
        EndpointLog(c.idp, s.idp, call, s.requests[r].copy.refreshToken, ids, scopes);
      }
    case Idp(event) => if IdpMay(s, event) { SameNow(c.idp, s.idp, event); }
    case Elapse(time) =>
    case _ => OthersLeaveIdp(c, s, e);
  }

  /** The exchange is the one step that goes past it, and it needs a live token. */
  lemma DeadIsRefused(c: I.Config, s: I.State, call: nat, raw: string, ids: I.NewIds, scopes: seq<string>)
    requires A.Dead(s, Sha256(raw)) && TokenEndpoint(c, s, call, raw, ids, scopes).Some?
    ensures !TokenEndpoint(c, s, call, raw, ids, scopes).value.reply.IssuedReply?
  {
    hide I.RotateStep, I.FreshIds;
  }

  lemma ExchangeKeepsOver(c: Config, s: State, sid: Sid, e: Event)
    requires Inv(s) && Over(s, sid) && e.Exchange?
    ensures Over(Step(c, s, e), sid)
  {
    hide Inv, TokenEndpoint, A.Dead, Expiring;
    var t := Step(c, s, e);
    StepKeepsTime(c, s, e);
    forall h | A.Dead(s.idp, h) ensures A.Dead(t.idp, h) {
      StepKeepsDeadTokens(c, s, e, h);
    }
    if e.req in s.requests && s.requests[e.req].Holding? {
      var q := s.requests[e.req];
      var o := TokenEndpoint(c.idp, s.idp, e.call, q.copy.refreshToken, e.ids, e.scopes);
      assert Harmless(s, sid, q);
      if q.sid == sid && o.Some? {
        DeadIsRefused(c.idp, s.idp, e.call, q.copy.refreshToken, e.ids, e.scopes);
      }
    }
    forall r | r in t.requests ensures Harmless(t, sid, t.requests[r]) {
      if r in s.requests {
        HarmlessLater(s, t, sid, s.requests[r]);
      }
    }
  }

  /** Steps that move a request without storing its session. */
  lemma OtherKeepsOver(c: Config, s: State, sid: Sid, e: Event)
    requires Inv(s) && Over(s, sid) && !CallsIdp(e)
    ensures Over(Step(c, s, e), sid)
  {
    hide Inv, A.Dead, Expiring, PastHardLimit;
    OthersLeaveIdp(c, s, e);
    hide I.Step, CallbackStep, ExchangeStep;
  }

  lemma IdpKeepsOver(c: Config, s: State, sid: Sid, e: Event)
    requires Inv(s) && Over(s, sid) && (e.Elapse? || e.Idp? || e.Callback?)
    ensures Over(Step(c, s, e), sid)
  {
    hide Inv, A.Dead, I.Step, I.GrantStep, MayElapse, IdpMay;
    var t := Step(c, s, e);
    StepKeepsTime(c, s, e);
    forall h | A.Dead(s.idp, h) ensures A.Dead(t.idp, h) {
      StepKeepsDeadTokens(c, s, e, h);
    }
    forall r | r in t.requests ensures Harmless(t, sid, t.requests[r]) {
      HarmlessLater(s, t, sid, s.requests[r]);
    }
  }

  lemma StepKeepsOver(c: Config, s: State, sid: Sid, e: Event)
    requires Inv(s) && Over(s, sid)
    ensures Over(Step(c, s, e), sid)
  {
    hide Inv, Over, Step;
    if e.Exchange? {
      ExchangeKeepsOver(c, s, sid, e);
    } else if CallsIdp(e) {
      IdpKeepsOver(c, s, sid, e);
    } else {
      OtherKeepsOver(c, s, sid, e);
    }
  }

  lemma {:induction false} RunKeepsOver(c: Config, s: State, sid: Sid, events: seq<Event>)
    requires Inv(s) && Over(s, sid)
    ensures Over(Run(c, s, events), sid)
    decreases |events|
  {
    hide Inv, Over, Step;
    if events == [] {
    } else {
      StepKeepsOver(c, s, sid, events[0]);
      StepKeepsInv(c, s, events[0]);
      RunKeepsOver(c, Step(c, s, events[0]), sid, events[1..]);
    }
  }

  /** A session that is not loadable, and that no request in flight may store, never
      comes back. */
  lemma LogoutIsFinal(c: Config, s: State, sid: Sid, events: seq<Event>)
    requires Reachable(c, s) && sid in s.births && !HasSession(s.redis, sid, s.idp.now) && !InFlight(s, sid)
    ensures !HasSession(Run(c, s, events).redis, sid, Run(c, s, events).idp.now)
  {
    hide Reachable, Run;
    ReachableInv(c, s);
    NotInFlight(s, sid);
    hide Inv;
    RunKeepsOver(c, s, sid, events);
  }

  lemma NotInFlight(s: State, sid: Sid)
    requires Inv(s) && sid in s.births && !HasSession(s.redis, sid, s.idp.now) && !InFlight(s, sid)
    ensures Over(s, sid)
  {
    hide R.Inv, Excluded, StoredUnspent, NextUnspent, OneUnspent;
    forall r | r in s.requests ensures Harmless(s, sid, s.requests[r]) {
      assert RequestOk(s, s.requests[r]);
    }
  }

  // ------------------------------------------------- and when it is not final

  ghost predicate HeldBySomeone(s: State, sid: Sid) {
    exists p :: p in s.requests && Critical(s.requests[p]) && s.requests[p].sid == sid
  }

  /** Every lock that is held has a holder in its critical section. */
  ghost predicate LocksHaveHolders(s: State) {
    forall sid | HasLock(s.redis, sid, s.idp.now) :: HeldBySomeone(s, sid)
  }

  /** Nobody leaves the critical section, and no lock is taken. */
  ghost predicate HoldersStay(s: State, t: State) {
    t.redis.locks == s.redis.locks && s.idp.now <= t.idp.now &&
    forall p | p in s.requests && Critical(s.requests[p]) ::
      p in t.requests && Critical(t.requests[p]) && t.requests[p].sid == s.requests[p].sid
  }

  lemma StayingKeepsHolders(s: State, t: State)
    requires LocksHaveHolders(s) && HoldersStay(s, t)
    ensures LocksHaveHolders(t)
  {
    forall sid | HasLock(t.redis, sid, t.idp.now) ensures HeldBySomeone(t, sid) {
      assert HasLock(s.redis, sid, s.idp.now);
      var p :| p in s.requests && Critical(s.requests[p]) && s.requests[p].sid == sid;
      assert p in t.requests && t.requests[p].sid == sid;
    }
  }

  lemma LockKeepsHolders(s: State, r: nat)
    requires LocksHaveHolders(s)
    ensures LocksHaveHolders(TryLockStep(s, r))
  {
    var t := TryLockStep(s, r);
    forall sid | HasLock(t.redis, sid, t.idp.now) ensures HeldBySomeone(t, sid) {
      if HasLock(s.redis, sid, s.idp.now) {
        var p :| p in s.requests && Critical(s.requests[p]) && s.requests[p].sid == sid;
        assert p in t.requests && t.requests[p] == s.requests[p];
      } else {
        assert t.requests[r].sid == sid;
      }
    }
  }

  lemma LeaveKeepsHolders(s: State, r: nat)
    requires LocksHaveHolders(s)
    ensures LocksHaveHolders(LeaveStep(s, r))
  {
    var t := LeaveStep(s, r);
    forall sid | HasLock(t.redis, sid, t.idp.now) ensures HeldBySomeone(t, sid) {
      assert HasLock(s.redis, sid, s.idp.now);
      var p :| p in s.requests && Critical(s.requests[p]) && s.requests[p].sid == sid;
      assert p in t.requests && t.requests[p] == s.requests[p];
    }
  }

  lemma IdpCallsStay(c: Config, s: State, e: Event)
    requires CallsIdp(e) && s.idp.now <= Step(c, s, e).idp.now
    ensures HoldersStay(s, Step(c, s, e))
  {
    hide I.Step, I.GrantStep, TokenEndpoint, Expiring, MayElapse, IdpMay;
  }

  lemma RequestsStay(c: Config, s: State, e: Event)
    requires !CallsIdp(e) && !e.TryLock? && !e.Leave?
    ensures HoldersStay(s, Step(c, s, e))
  {
    hide I.Step, CallbackStep, ExchangeStep, Expiring, PastHardLimit;
  }

  lemma StepKeepsHolders(c: Config, s: State, e: Event)
    requires Inv(s) && LocksHaveHolders(s)
    ensures LocksHaveHolders(Step(c, s, e))
  {
    hide Inv, LocksHaveHolders, HoldersStay, CallbackStep, ExchangeStep, I.Step, ArriveStep, TryLockStep, SaveStep,
         LeaveStep, ReloadStep, ExchangeFailsStep, StoreErrorStep;
    match e
    case TryLock(r) => LockKeepsHolders(s, r);
    case Leave(r) => LeaveKeepsHolders(s, r);
    case _ =>
      StepKeepsTime(c, s, e);
      if CallsIdp(e) {
        IdpCallsStay(c, s, e);
      } else {
        RequestsStay(c, s, e);
      }
      StayingKeepsHolders(s, Step(c, s, e));
  }

  lemma {:induction false} RunKeepsHolders(c: Config, s: State, events: seq<Event>)
    requires Inv(s) && LocksHaveHolders(s)
    ensures LocksHaveHolders(Run(c, s, events))
    decreases |events|
  {
    hide Inv, LocksHaveHolders, Step;
    if events == [] {
    } else {
      StepKeepsHolders(c, s, events[0]);
      StepKeepsInv(c, s, events[0]);
      RunKeepsHolders(c, Step(c, s, events[0]), events[1..]);
    }
  }

  lemma ReachableHolders(c: Config, s: State)
    requires Reachable(c, s)
    ensures LocksHaveHolders(s)
  {
    hide Inv;
    var events :| s == Run(c, INIT, events);
    InitInv();
    RunKeepsHolders(c, INIT, events);
  }

  /** The session is loadable after these events. */
  ghost predicate Returns(c: Config, s: State, sid: Sid, events: seq<Event>) {
    HasSession(Run(c, s, events).redis, sid, Run(c, s, events).idp.now)
  }

  lemma ReturnsLater(c: Config, s: State, sid: Sid, e: Event, rest: seq<Event>)
    requires Returns(c, Step(c, s, e), sid, rest)
    ensures Returns(c, s, sid, [e] + rest)
  {
    hide Step;
    RunFirst(c, s, e, rest);
  }

  lemma StepReachable(c: Config, s: State, e: Event)
    requires Reachable(c, s)
    ensures Reachable(c, Step(c, s, e))
  {
    hide Step;
    var events :| s == Run(c, INIT, events);
    RunAppend(c, INIT, events, [e]);
    RunFirst(c, s, e, []);
    assert [e] + [] == [e];
    assert Run(c, s, [e]) == Step(c, s, e) by { assert Run(c, Step(c, s, e), []) == Step(c, s, e); }
  }

  lemma ExchangedReturns(c: Config, s: State, r: nat)
    requires r in s.requests && s.requests[r].Exchanged? && c.ttl.idle > 0
    ensures Returns(c, s, s.requests[r].sid, [SaveNext(r)])
  {
    hide Step;
    var t := Step(c, s, SaveNext(r));
    assert HasSession(t.redis, s.requests[r].sid, t.idp.now) by { SavedIsStored(c, s, r); }
    assert Returns(c, t, s.requests[r].sid, []);
    ReturnsLater(c, s, s.requests[r].sid, SaveNext(r), []);
    assert [SaveNext(r)] + [] == [SaveNext(r)];
  }

  lemma SavedIsStored(c: Config, s: State, r: nat)
    requires r in s.requests && s.requests[r].Exchanged? && c.ttl.idle > 0
    ensures HasSession(Step(c, s, SaveNext(r)).redis, s.requests[r].sid, Step(c, s, SaveNext(r)).idp.now)
  {}

  lemma HolderReturns(c: Config, s: State, r: nat, ids: I.NewIds) returns (events: seq<Event>)
    requires Reachable(c, s) && r in s.requests && s.requests[r].Holding? && Live(s, s.requests[r].copy.refreshToken)
    requires I.FreshIds(s.idp, ids) && ids.raw != "" && c.ttl.idle > 0
    ensures Returns(c, s, s.requests[r].sid, events)
  {
    hide Reachable, Step, I.FreshIds, Live, Returns;
    var e := Exchange(r, 0, ids, [], "", "");
    HolderIsAnswered(c, s, r, e);
    ExchangedReturns(c, Step(c, s, e), r);
    ReturnsLater(c, s, s.requests[r].sid, e, [SaveNext(r)]);
    events := [e] + [SaveNext(r)];
  }

  lemma LockIsTaken(c: Config, s: State, r: nat)
    requires r in s.requests && s.requests[r].Acquiring? && !HasLock(s.redis, s.requests[r].sid, s.idp.now)
    ensures
      var t := Step(c, s, TryLock(r));
      t.idp == s.idp && r in t.requests && t.requests[r] == Holding(s.requests[r].sid, s.requests[r].copy, s.idp.now)
  {}

  lemma FreeLockReturns(c: Config, s: State, r: nat, ids: I.NewIds) returns (events: seq<Event>)
    requires Reachable(c, s) && r in s.requests && s.requests[r].Acquiring? && Live(s, s.requests[r].copy.refreshToken)
    requires !HasLock(s.redis, s.requests[r].sid, s.idp.now)
    requires I.FreshIds(s.idp, ids) && ids.raw != "" && c.ttl.idle > 0
    ensures Returns(c, s, s.requests[r].sid, events)
  {
    hide Reachable, Step, I.FreshIds, Returns;
    LockIsTaken(c, s, r);
    StepReachable(c, s, TryLock(r));
    var rest := HolderReturns(c, Step(c, s, TryLock(r)), r, ids);
    ReturnsLater(c, s, s.requests[r].sid, TryLock(r), rest);
    events := [TryLock(r)] + rest;
  }

  /** The holder leaves, and r finds the lock free. */
  lemma LeavingFreesLock(c: Config, s: State, p: nat, r: nat)
    requires p in s.requests && s.requests[p].Leaving?
    requires r in s.requests && r != p && s.requests[r].sid == s.requests[p].sid
    ensures
      var t := Step(c, s, Leave(p));
      t.idp == s.idp && r in t.requests && t.requests[r] == s.requests[r] &&
      !HasLock(t.redis, s.requests[r].sid, t.idp.now)
  {}

  lemma AfterLeavingReturns(c: Config, s: State, p: nat, r: nat, ids: I.NewIds) returns (events: seq<Event>)
    requires Reachable(c, s) && r in s.requests && s.requests[r].Acquiring? && Live(s, s.requests[r].copy.refreshToken)
    requires p in s.requests && s.requests[p].Leaving? && s.requests[p].sid == s.requests[r].sid
    requires I.FreshIds(s.idp, ids) && ids.raw != "" && c.ttl.idle > 0
    ensures Returns(c, s, s.requests[r].sid, events)
  {
    hide Reachable, Step, I.FreshIds, Returns;
    LeavingFreesLock(c, s, p, r);
    StepReachable(c, s, Leave(p));
    var rest := FreeLockReturns(c, Step(c, s, Leave(p)), r, ids);
    ReturnsLater(c, s, s.requests[r].sid, Leave(p), rest);
    events := [Leave(p)] + rest;
  }

  lemma ExchangeMayFail(c: Config, s: State, p: nat)
    requires p in s.requests && s.requests[p].Holding? && Expiring(s.requests[p].copy, s.idp.now)
    ensures
      var t := Step(c, s, ExchangeFails(p));
      t == s.(requests := s.requests[p := Leaving(s.requests[p].sid, true, s.requests[p].since)])
  {}

  lemma AcquirerReturns(c: Config, s: State, r: nat, ids: I.NewIds) returns (events: seq<Event>)
    requires Reachable(c, s) && r in s.requests && s.requests[r].Acquiring? && Live(s, s.requests[r].copy.refreshToken)
    requires I.FreshIds(s.idp, ids) && ids.raw != "" && c.ttl.idle > 0
    ensures Returns(c, s, s.requests[r].sid, events)
  {
    hide Reachable, Step, I.FreshIds, Returns, Inv, Expiring;
    var sid := s.requests[r].sid;
    if !HasLock(s.redis, sid, s.idp.now) {
      events := FreeLockReturns(c, s, r, ids);
    } else {
      ReachableHolders(c, s);
      var p :| p in s.requests && Critical(s.requests[p]) && s.requests[p].sid == sid;
      if s.requests[p].Exchanged? {
        ExchangedReturns(c, s, p);
        events := [SaveNext(p)];
      } else if s.requests[p].Leaving? {
        events := AfterLeavingReturns(c, s, p, r, ids);
      } else {
        ReachableInv(c, s);
        InHolding(s, p);
        ExchangeMayFail(c, s, p);
        StepReachable(c, s, ExchangeFails(p));
        var rest := AfterLeavingReturns(c, Step(c, s, ExchangeFails(p)), p, r, ids);
        ReturnsLater(c, s, sid, ExchangeFails(p), rest);
        events := [ExchangeFails(p)] + rest;
      }
    }
  }

  lemma InFlightReturns(c: Config, s: State, sid: Sid, ids: I.NewIds) returns (events: seq<Event>)
    requires Reachable(c, s) && InFlight(s, sid) && I.FreshIds(s.idp, ids) && ids.raw != "" && c.ttl.idle > 0
    ensures Returns(c, s, sid, events)
  {
    hide Reachable, I.FreshIds, Returns, Live;
    var r :| r in s.requests && s.requests[r].sid == sid && MayStore(s, s.requests[r]);
    match s.requests[r]
    case Exchanged(_, _, _, _) => ExchangedReturns(c, s, r); events := [SaveNext(r)];
    case Holding(_, _, _) => events := HolderReturns(c, s, r, ids);
    case Acquiring(_, _) => events := AcquirerReturns(c, s, r, ids);
  }

  /** A session that cannot be loaded, by logout, failure or expiry, comes back in some
      continuation if and only if a request of it is past its exchange, or is before it
      with a copy whose token is still live. */
  lemma LogoutIsFinalExactly(c: Config, s: State, sid: Sid)
    requires Reachable(c, s) && sid in s.births && !HasSession(s.redis, sid, s.idp.now) && c.ttl.idle > 0
    ensures (exists events :: Returns(c, s, sid, events)) <==> InFlight(s, sid)
  {
    hide Reachable, I.FreshIds, InFlight, Run;
    if InFlight(s, sid) {
      var ids := I.SomeFreshIds(s.idp);
      var events := InFlightReturns(c, s, sid, ids);
    } else {
      forall events ensures !Returns(c, s, sid, events) {
        LogoutIsFinal(c, s, sid, events);
      }
    }
  }

  /** In particular a refresh past its exchange undoes a logout, with its own two last steps. */
  lemma RefreshOutlivesLogout(c: Config, s: State, r: nat)
    requires r in s.requests && s.requests[r].Exchanged? && c.ttl.idle > 0
    ensures
      var t := Run(c, s, [Logout(s.requests[r].sid), SaveNext(r), Leave(r)]);
      HasSession(t.redis, s.requests[r].sid, t.idp.now) &&
      t.redis.sessions[s.requests[r].sid].session == s.requests[r].next
  {
    hide Run, CallbackStep, ArriveStep, TryLockStep, ExchangeStep, ReloadStep, I.Step, MayElapse, IdpMay, Load;
    var q := s.requests[r];
    RunThree(c, s, Logout(q.sid), SaveNext(r), Leave(r));
    var s1 := Step(c, s, Logout(q.sid));
    assert s1.requests == s.requests && s1.idp == s.idp;
    assert SaveStep(c, s1, r).requests[r] == Leaving(q.sid, false, q.since);
  }

  // ------------------------------------------------------------- such a run

  lemma Next(c: Config, s: State, e: Event) returns (t: State)
    requires Reachable(c, s)
    ensures t == Step(c, s, e) && Reachable(c, t)
  {
    hide Step;
    StepReachable(c, s, e);
    t := Step(c, s, e);
  }

  /** The access token runs out before the session and the refresh token do. */
  predicate Usual(c: Config) {
    I.ValidConfig(c.idp) && c.idp.accessTTL < c.idp.refreshTTL && c.idp.accessTTL < c.ttl.idle &&
    c.idp.accessTTL < c.ttl.hard
  }

  lemma IdpNext(c: Config, s: State, e: I.Event) returns (t: State)
    requires Reachable(c, s) && IdpMay(s, e)
    ensures t == s.(idp := I.Step(c.idp, s.idp, e).state) && Reachable(c, t)
  {
    hide I.Step, IdpMay, Reachable;
    t := Next(c, s, Idp(e));
  }

  /** A user has a device session and a finished login. */
  lemma LogIn(c: Config) returns (s: State)
    requires I.ValidConfig(c.idp)
    ensures Reachable(c, s) && s.idp.now == 1 && s == INIT.(idp := s.idp) && "device" in s.idp.db.devices
    ensures s.idp.issued == {"request"} && s.idp.db.users == {"user"}
    ensures s.idp.codes == map[] && s.idp.codeReads == map[]
    ensures s.idp.db.refreshTokens == map[] && s.idp.db.tokens == map[]
    ensures "request" in s.idp.db.authRequests && s.idp.db.authRequests["request"].createdAt == 1
    ensures s.idp.db.authRequests["request"].userId == Some("user")
    ensures s.idp.db.authRequests["request"].deviceSessionId == Some("device")
  {
    hide Reachable, Step;
    s := FirstMoment(c);
    s := IdpNext(c, s, I.NewUser("user"));
    s := IdpNext(c, s, I.LoginCall(I.CreateAuthRequest("request", "client", [])));
    s := IdpNext(c, s, I.LoginCall(I.FindDevice(0, "device", "other", "user", "", "", "")));
    s := IdpNext(c, s, I.LoginCall(I.FinishLogin(0, "request")));
  }

  lemma EmptyReachable(c: Config)
    ensures Reachable(c, INIT)
  {
    assert Run(c, INIT, []) == INIT;
  }

  lemma FirstMoment(c: Config) returns (s: State)
    ensures Reachable(c, s) && s == INIT.(idp := I.INIT.(now := 1))
  {
    EmptyReachable(c);
    hide Reachable;
    s := Next(c, INIT, Elapse(1));
  }

  /** The login's code was read, too. */
  lemma ReadsCode(c: Config) returns (s: State)
    requires I.ValidConfig(c.idp)
    ensures Reachable(c, s) && s.idp.now == 1 && s == INIT.(idp := s.idp) && "device" in s.idp.db.devices
    ensures s.idp.issued == {"request"} && s.idp.db.users == {"user"}
    ensures s.idp.db.refreshTokens == map[] && s.idp.db.tokens == map[]
    ensures 0 in s.idp.codeReads && s.idp.codeReads[0].at == 1 && s.idp.codeReads[0].request.userId == Some("user")
    ensures s.idp.codeReads[0].request.deviceSessionId == Some("device")
  {
    hide Reachable, Step;
    s := LogIn(c);
    s := IdpNext(c, s, I.LoginCall(I.SaveAuthCode("request", "code")));
    assert "request" in RowsWithCode(s.idp.db, "code");
    s := IdpNext(c, s, I.LoginCall(I.ReadCode(0, "code", "request")));
  }

  const FIRST := I.NewIds("access", "refresh-id", "refresh")
  const SECOND := I.NewIds("access-2", "refresh-id-2", "refresh-2")

  lemma Granted(c: I.Config, s: I.State)
    requires I.ValidConfig(c) && s.now == 1 && s.issued == {"request"} && s.db.users == {"user"}
    requires s.db.refreshTokens == map[] && s.db.tokens == map[] && "device" in s.db.devices
    requires 0 in s.codeReads && s.codeReads[0].at == 1 && s.codeReads[0].request.userId == Some("user")
    requires s.codeReads[0].request.deviceSessionId == Some("device")
    ensures
      var o := I.GrantStep(c, s, 0, FIRST);
      && o.reply.IssuedReply? && o.state.now == 1 && o.state.issued == {"request", "access", "refresh-id", "refresh"}
      && Sha256("refresh") in o.state.db.refreshTokens
      && o.state.db.refreshTokens[Sha256("refresh")].expiration == 1 + c.refreshTTL
  {
    assert I.FreshIds(s, FIRST);
  }

  /** The BFF has a session. */
  lemma SignedIn(c: Config) returns (s: State)
    requires Usual(c)
    ensures Reachable(c, s) && s.idp.now == 1 && s.requests == map[] && s.redis.locks == map[] && "sid" in s.births
    ensures s.idp.issued == {"request", "access", "refresh-id", "refresh"}
    ensures "sid" in s.redis.sessions && s.redis.sessions["sid"].expiresAt == 1 + c.ttl.idle
    ensures
      var sess := s.redis.sessions["sid"].session;
      sess.refreshToken == "refresh" && sess.tokenExpiry == 1 + c.idp.accessTTL && sess.createdAt == 1
    ensures Sha256("refresh") in s.idp.db.refreshTokens
    ensures s.idp.db.refreshTokens[Sha256("refresh")].expiration == 1 + c.idp.refreshTTL
  {
    hide Reachable, I.GrantStep, I.Step, ArriveStep, TryLockStep, SaveStep, LeaveStep, ReloadStep, ExchangeStep;
    s := ReadsCode(c);
    Granted(c.idp, s.idp);
    s := Next(c, s, Callback("sid", 0, FIRST, "", ""));
  }

  /** Two requests loaded it when its access token had run out, and one was answered. */
  lemma TwoRequests(c: Config) returns (s: State)
    requires Usual(c)
    ensures Reachable(c, s) && s.requests.Keys == {0, 1} && "sid" in s.births
    ensures s.requests[0].Exchanged? && s.requests[0].sid == "sid" && s.requests[0].presented == "refresh"
    ensures Live(s, s.requests[0].next.refreshToken)
    ensures s.requests[1].Acquiring? && s.requests[1].sid == "sid" && s.requests[1].copy.refreshToken == "refresh"
  {
    hide Reachable, I.Step, I.GrantStep, TokenEndpoint, SaveStep, LeaveStep, ReloadStep, CallbackStep, I.FreshIds;
    s := Loaded(c);
    var e := Exchange(0, 0, SECOND, [], "", "");
    assert I.FreshIds(s.idp, SECOND) by { SecondIsFresh(s.idp); }
    HolderIsAnswered(c, s, 0, e);
    NextIsLive(c, s, 0, e);
    s := Next(c, s, e);
  }

  lemma SecondIsFresh(s: I.State)
    requires s.issued == {"request", "access", "refresh-id", "refresh"}
    ensures I.FreshIds(s, SECOND)
  {}

  lemma TwoLoads(c: Config) returns (s: State)
    requires Usual(c)
    ensures Reachable(c, s) && s.requests.Keys == {0, 1} && "sid" in s.births && s.redis.locks == map[]
    ensures forall r | r in s.requests ::
      s.requests[r].Acquiring? && s.requests[r].sid == "sid" && s.requests[r].copy.refreshToken == "refresh"
    ensures s.idp.issued == {"request", "access", "refresh-id", "refresh"} && Live(s, "refresh")
  {
    hide Reachable, I.Step, I.GrantStep, ExchangeStep, TryLockStep, SaveStep, LeaveStep, ReloadStep, CallbackStep;
    s := SignedIn(c);
    s := Next(c, s, Elapse(c.idp.accessTTL));
    s := Next(c, s, Arrive(0, "sid"));
    s := Next(c, s, Arrive(1, "sid"));
  }

  lemma Loaded(c: Config) returns (s: State)
    requires Usual(c)
    ensures Reachable(c, s) && s.requests.Keys == {0, 1} && "sid" in s.births
    ensures s.requests[0].Holding? && s.requests[0].sid == "sid" && s.requests[0].copy.refreshToken == "refresh"
    ensures s.requests[1].Acquiring? && s.requests[1].sid == "sid" && s.requests[1].copy.refreshToken == "refresh"
    ensures s.idp.issued == {"request", "access", "refresh-id", "refresh"} && Live(s, "refresh")
  {
    hide Reachable;
    s := TwoLoads(c);
    LockIsTaken(c, s, 0);
    var t := s;
    s := Next(c, s, TryLock(0));
  }

  lemma SecondLocks(c: Config) returns (s: State)
    requires Usual(c)
    ensures Reachable(c, s) && "sid" in s.redis.sessions && Live(s, s.redis.sessions["sid"].session.refreshToken)
    ensures 1 in s.requests && s.requests[1].Holding? && s.requests[1].sid == "sid"
    ensures s.requests[1].copy.refreshToken != s.redis.sessions["sid"].session.refreshToken
  {
    hide Reachable, Step, Run;
    var s0 := TwoRequests(c);
    SecondLockerIsStale(c, s0, 0, 1);
    RunThree(c, s0, SaveNext(0), Leave(0), TryLock(1));
    OthersLeaveIdp(c, s0, SaveNext(0));
    s := Next(c, s0, SaveNext(0));
    OthersLeaveIdp(c, s, Leave(0));
    s := Next(c, s, Leave(0));
    OthersLeaveIdp(c, s, TryLock(1));
    s := Next(c, s, TryLock(1));
  }

  /** The first stored its new tokens and left; the second locks with its old copy and
      ends the session, though the token stored by then is live. */
  lemma SecondRequestEndsSession(c: Config) returns (s: State, e: Event)
    requires Usual(c)
    ensures Reachable(c, s) && "sid" in s.redis.sessions && Live(s, s.redis.sessions["sid"].session.refreshToken)
    ensures 1 in s.requests && s.requests[1].Holding? && s.requests[1].sid == "sid" && e.Exchange? && e.req == 1
    ensures "sid" !in Run(c, s, [e] + Rest(1)).redis.sessions
  {
    hide Reachable, Step, Run, Live, I.FreshIds, Spent;
    s := SecondLocks(c);
    var ids := I.SomeFreshIds(s.idp);
    e := Exchange(1, 0, ids, [], "", "");
    StaleExactly(c, s, 1, e);
    RefreshKeepsExactly(c, s, 1, e);
  }
}
