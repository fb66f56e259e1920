/** The BFF's Auth middleware as it is written: one request, a session object it
    assigns to, and the store, with nobody interfering. */
module AuthMiddleware {
  import opened Prelude
  import opened SessionStore
  import I = TokenSystem
  import P = RefreshProtocol
  import R = RotationChains

  /** *session.Session */
  class SessionRef {
    var sess: Session

    constructor (sess: Session)
      ensures this.sess == sess
    {
      this.sess := sess;
    }
  }

  /** What the token endpoint answers, and when. */
  datatype Exchange = Refused | Answered(at: Time, access: string, refresh: string, expiry: Time, idToken: string,
                                         device: string)

  function Refreshed(sess: Session, a: Exchange): Session
    requires a.Answered?
  {
    P.Refreshed(sess, a.at, a.expiry, I.NewIds(a.access, "", a.refresh), a.idToken, a.device)
  }

  /** Which Redis calls fail, without effect. Auth ignores the errors of the last two. */
  datatype Faults = Faults(load: bool, lock: bool, reload: bool, save: bool, release: bool, delete: bool)

  const NO_FAULTS := Faults(false, false, false, false, false, false)

  function Unlocked(r: Redis, sid: Sid, f: Faults): Redis {
    if f.release then r else Release(r, sid)
  }

  /** What refreshTokens leaves in the store, and what it hands on. */
  function RefreshSpec(r: Redis, ttl: Ttl, now: Time, sid: Sid, sess: Session, a: Exchange, f: Faults): Loaded {
    var got := Acquire(r, now, sid);
    if f.lock then Loaded(r, Err(StoreFailed))
    else if !got.ok then
      var l := Load(r, ttl, now + P.RELOAD_DELAY, sid);
      if f.reload then Loaded(r, Err(StoreFailed))
      else Loaded(l.redis, if l.session.Ok? then l.session else Err(RefreshFailed))
    else if !P.Expiring(sess, now) then Loaded(Unlocked(got.redis, sid, f), Ok(sess))
    else if a.Refused? then Loaded(Unlocked(got.redis, sid, f), Err(RefreshFailed))
    else if f.save then Loaded(Unlocked(got.redis, sid, f), Err(StoreFailed))
    else Loaded(Unlocked(Save(got.redis, ttl, a.at, sid, Refreshed(sess, a)), sid, f), Ok(Refreshed(sess, a)))
  }

  /** What Auth leaves in the store, and the session it serves the request with. */
  function AuthSpec(r: Redis, ttl: Ttl, now: Time, sid: Sid, a: Exchange, f: Faults): Loaded {
    var l := Load(r, ttl, now, sid);
    if f.load then Loaded(r, Err(StoreFailed))
    else if l.session.Err? || !P.Expiring(l.session.value, now) then l
    else
      var t := RefreshSpec(l.redis, ttl, now, sid, l.session.value, a, f);
      if t.session == Err(RefreshFailed) && !f.delete then Loaded(Delete(t.redis, sid), t.session) else t
  }

  /** Section 6 of RFC 6749: what the client takes over from the answer. The answer may
      leave out the refresh token, and here the ID token and device session too. */
  predicate Renewed(before: Session, a: Exchange, after: Session)
    requires a.Answered?
  {
    && after.accessToken == a.access && after.tokenExpiry == a.expiry && after.lastActiveAt == a.at
    && after.refreshToken == (if a.refresh == "" then before.refreshToken else a.refresh)
    && after.idToken == (if a.idToken == "" then before.idToken else a.idToken)
    && after.deviceSessionId == (if a.device == "" then before.deviceSessionId else a.device)
    && after.userId == before.userId && after.createdAt == before.createdAt
  }

  /** The session is loadable: not idle too long, and not past its hard limit. */
  predicate Loadable(r: Redis, ttl: Ttl, now: Time, sid: Sid) {
    sid in r.sessions && now < r.sessions[sid].expiresAt && WithinLimit(r.sessions[sid].session, ttl, now)
  }

  predicate WithinLimit(sess: Session, ttl: Ttl, now: Time) {
    sess.createdAt == ZERO_TIME || now <= sess.createdAt + ttl.hard
  }

  /** The assignments to the shared session after a successful exchange. */
  method AssignTokens(sess: SessionRef, a: Exchange)
    requires a.Answered?
    modifies sess
    ensures Renewed(old(sess.sess), a, sess.sess) && sess.sess == Refreshed(old(sess.sess), a)
  {
    sess.sess := sess.sess.(accessToken := a.access);
    if a.refresh != "" {
      sess.sess := sess.sess.(refreshToken := a.refresh);
    }
    sess.sess := sess.sess.(tokenExpiry := a.expiry);
    if a.idToken != "" {
      sess.sess := sess.sess.(idToken := a.idToken);
    }
    if a.device != "" {
      sess.sess := sess.sess.(deviceSessionId := a.device);
    }
    sess.sess := sess.sess.(lastActiveAt := a.at);
  }

  method RefreshTokens(store: Store, now: Time, sid: Sid, sess: SessionRef, answer: Exchange, f: Faults)
    returns (r: Result<SessionRef>)
    modifies store`sessions, store`locks, sess
    ensures
      var spec := RefreshSpec(old(store.View()), store.ttl, now, sid, old(sess.sess), answer, f);
      && store.View() == spec.redis
      && (if r.Ok? then spec.session == Ok(r.value.sess) else spec.session == Err(r.error))
    ensures
      var acquired := !f.lock && Acquire(old(store.View()), now, sid).ok;
      && (r.Ok? && acquired ==> r.value == sess)
      && var refreshes := acquired && P.Expiring(old(sess.sess), now) && answer.Answered?;
      sess.sess == if refreshes then Refreshed(old(sess.sess), answer) else old(sess.sess)
    ensures
      var before := old(store.View());
      var free := sid !in before.locks || before.locks[sid] <= now;
      && (f.lock ==> r == Err(StoreFailed) && store.View() == before)
      && (!f.lock && !free && !f.reload ==> (r.Ok? <==> Loadable(before, store.ttl, now + 500, sid)))
      && (!f.lock && !free && r.Err? ==> r.error == if f.reload then StoreFailed else RefreshFailed)
      && (!f.lock && !free && r.Ok? ==> fresh(r.value) && r.value.sess == before.sessions[sid].session)
      && (!f.lock && free && old(sess.sess).tokenExpiry - now >= 60 * 1000 ==>
           r == Ok(sess) && sess.sess == old(sess.sess))
      && (!f.lock && free && old(sess.sess).tokenExpiry - now < 60 * 1000 && answer.Refused? ==>
           r == Err(RefreshFailed))
      && (!f.lock && free && old(sess.sess).tokenExpiry - now < 60 * 1000 && answer.Answered? ==>
           Renewed(old(sess.sess), answer, sess.sess) &&
           if f.save then r == Err(StoreFailed)
           else r == Ok(sess) && sid in store.sessions && store.sessions[sid].session == sess.sess)
  {
    if f.lock {
      return Err(StoreFailed);
    }
    var acquired := store.AcquireRefreshLock(now, sid);
    if !acquired {
      if f.reload {
        return Err(StoreFailed);
      }
      var reloaded := store.LoadSession(now + P.RELOAD_DELAY, sid);
      if reloaded.Err? {
        return Err(RefreshFailed);
      }
      var other := new SessionRef(reloaded.value);
      return Ok(other);
    }
    if sess.sess.tokenExpiry - now >= P.REFRESH_MARGIN {
      r := Ok(sess);
    } else {
      match answer
      case Refused => r := Err(RefreshFailed);
      case Answered(at, _, _, _, _, _) =>
        AssignTokens(sess, answer);
        if f.save {
          r := Err(StoreFailed);
        } else {
          store.SaveSession(at, sid, sess.sess);
          r := Ok(sess);
        }
    }
    if !f.release {
      store.ReleaseRefreshLock(sid);  // deferred
    }
  }

  method Auth(store: Store, now: Time, sid: Sid, answer: Exchange, f: Faults) returns (r: Result<Session>)
    modifies store`sessions, store`locks
    ensures
      var spec := AuthSpec(old(store.View()), store.ttl, now, sid, answer, f);
      store.View() == spec.redis && r == spec.session
    ensures
      var before := old(store.View());
      var free := sid !in before.locks || before.locks[sid] <= now;
      && (f.load ==> r == Err(StoreFailed))
      && (!f.load && !Loadable(before, store.ttl, now, sid) ==> r == Err(NotFound))
      && (!f.load && Loadable(before, store.ttl, now, sid) ==>
           var loaded := before.sessions[sid].session;
           && (loaded.tokenExpiry - now >= 60 * 1000 ==> r == Ok(loaded))
           && (loaded.tokenExpiry - now < 60 * 1000 && !f.lock ==>
                && (free && answer.Refused? ==> r == Err(RefreshFailed) && (!f.delete ==> sid !in store.sessions))
                && (free && answer.Answered? && !f.save ==>
                     r.Ok? && Renewed(loaded, answer, r.value) &&
                     sid in store.sessions && store.sessions[sid].session == r.value)
                && (!free && !f.reload ==>
                     r == if 500 < store.ttl.idle && WithinLimit(loaded, store.ttl, now + 500) then Ok(loaded)
                          else Err(RefreshFailed))))
  {
    hide RefreshSpec, Renewed, Refreshed, Load, Acquire, Save, Release;
    if f.load {
      return Err(StoreFailed);
    }
    var loaded := store.LoadSession(now, sid);
    if loaded.Err? {
      return loaded;
    }
    var sess := new SessionRef(loaded.value);
    if sess.sess.tokenExpiry - now < P.REFRESH_MARGIN {
      var refreshed := RefreshTokens(store, now, sid, sess, answer, f);
      if refreshed.Err? {
        if refreshed.error == RefreshFailed && !f.delete {
          store.DeleteSession(sid);
        }
        return Err(refreshed.error);
      }
      sess := refreshed.value;
    }
    return Ok(sess.sess);
  }

  /** Alone, a request keeps its session stored exactly when it serves it, stores what
      it serves, keeps the user and creation time, and leaves no lock behind. */
  lemma AloneAuthKeepsWhatItServes(r: Redis, ttl: Ttl, now: Time, sid: Sid, a: Exchange)
    requires ttl.idle > 0 && !HasLock(r, sid, now)
    requires a.Answered? ==> a.at >= now
    ensures
      var l, t := Load(r, ttl, now, sid), AuthSpec(r, ttl, now, sid, a, NO_FAULTS);
      && (t.session.Ok? <==> l.session.Ok? && (P.Expiring(l.session.value, now) ==> a.Answered?))
      && (t.session.Ok? ==>
           HasSession(t.redis, sid, now) && t.redis.sessions[sid].session == t.session.value &&
           t.session.value.userId == l.session.value.userId && t.session.value.createdAt == l.session.value.createdAt)
      && (t.session.Err? ==> !HasSession(t.redis, sid, now))
      && !HasLock(t.redis, sid, now)
      && (forall other | other != sid ::
           (other in t.redis.sessions <==> other in r.sessions) &&
           (other in r.sessions ==> t.redis.sessions[other] == r.sessions[other]))
  {}

  /** A failing store is answered as an internal error and never costs a session: what
      was stored is stored still, although its token is spent if it was the Save that failed. */
  lemma FaultKeepsSession(r: Redis, ttl: Ttl, now: Time, sid: Sid, a: Exchange, f: Faults)
    requires ttl.idle > 0 && AuthSpec(r, ttl, now, sid, a, f).session == Err(StoreFailed)
    ensures
      var t := AuthSpec(r, ttl, now, sid, a, f).redis;
      && (HasSession(t, sid, now) <==> HasSession(r, sid, now))
      && (HasSession(r, sid, now) ==> t.sessions[sid].session == r.sessions[sid].session)
  {}

  function AnswerOf(c: P.Config, s: I.State, call: nat, raw: string, ids: I.NewIds, scopes: seq<string>,
                    idToken: string, device: string): Exchange {
    var o := P.TokenEndpoint(c.idp, s, call, raw, ids, scopes);
    if o.Some? && o.value.reply.IssuedReply?
    then Answered(s.now, ids.access, ids.raw, s.now + c.idp.accessTTL, idToken, device)
    else Refused
  }

  /** From an expiring session that nobody has locked, up to the exchange. */
  lemma AloneExchanges(c: P.Config, s: P.State, r: nat, sid: Sid, e: P.Event)
    requires r !in s.requests && Load(s.redis, c.ttl, s.idp.now, sid).session.Ok? && !HasLock(s.redis, sid, s.idp.now)
    requires P.Expiring(s.redis.sessions[sid].session, s.idp.now) && P.Inv(s)
    requires e.Exchange? && e.req == r && I.FreshIds(s.idp, e.ids) && e.ids.raw != ""
    ensures
      var l := Load(s.redis, c.ttl, s.idp.now, sid);
      var a := AnswerOf(c, s.idp, e.call, l.session.value.refreshToken, e.ids, e.scopes, e.idToken, e.device);
      var t := P.Run(c, s, [P.Arrive(r, sid), P.TryLock(r), e]);
      && t.idp.now == s.idp.now && t.redis == Acquire(l.redis, s.idp.now, sid).redis
      && t.requests == s.requests[r := if a.Refused? then P.Leaving(sid, true, s.idp.now)
                                       else P.Exchanged(sid, l.session.value.refreshToken,
                                                        Refreshed(l.session.value, a), s.idp.now)]
  {
    hide P.Run, P.TokenEndpoint, P.ExchangeStep, P.Inv, R.Inv, P.CallbackStep, P.SaveStep, P.LeaveStep, P.ReloadStep,
      I.Step, P.MayElapse, P.IdpMay;
    P.RunThree(c, s, P.Arrive(r, sid), P.TryLock(r), e);
    var sess := s.redis.sessions[sid].session;
    var s1 := P.Step(c, s, P.Arrive(r, sid));
    assert s1 == s.(redis := Load(s.redis, c.ttl, s.idp.now, sid).redis,
                    requests := s.requests[r := P.Acquiring(sid, sess)]);
    var s2 := P.Step(c, s1, P.TryLock(r));
    assert s2.requests == s.requests[r := P.Holding(sid, sess, s.idp.now)] && s2.idp == s.idp;
    InvOfIdp(s);
    HolderExchanges(c, s2, r, e);
  }

  lemma HolderExchanges(c: P.Config, s: P.State, r: nat, e: P.Event)
    requires r in s.requests && s.requests[r].Holding? && P.Expiring(s.requests[r].copy, s.idp.now) && R.Inv(s.idp)
    requires e.Exchange? && e.req == r && I.FreshIds(s.idp, e.ids) && e.ids.raw != ""
    ensures
      var q, t := s.requests[r], P.Step(c, s, e);
      var a := AnswerOf(c, s.idp, e.call, q.copy.refreshToken, e.ids, e.scopes, e.idToken, e.device);
      && t.idp.now == s.idp.now && t.redis == s.redis
      && t.requests == s.requests[r := if a.Refused? then P.Leaving(q.sid, true, q.since)
                                       else P.Exchanged(q.sid, q.copy.refreshToken, Refreshed(q.copy, a), q.since)]
  {
    hide R.Inv, I.ReadRefreshStep, I.RotateStep, I.FreshIds, P.Issued;
    P.EndpointLog(c.idp, s.idp, e.call, s.requests[r].copy.refreshToken, e.ids, e.scopes);
  }

  lemma InvOfIdp(s: P.State)
    requires P.Inv(s)
    ensures R.Inv(s.idp)
  {}

  /** From the answer to the end. */
  lemma AloneFinishes(c: P.Config, s: P.State, r: nat, q: P.Request)
    requires r in s.requests && s.requests[r] == q && (q.Exchanged? || (q.Leaving? && q.failed))
    ensures
      var t := P.Run(c, s, [P.SaveNext(r), P.Leave(r), P.DeleteFailed(r)]);
      && t.requests == s.requests - {r}
      && t.redis == if q.Exchanged? then Release(Save(s.redis, c.ttl, s.idp.now, q.sid, q.next), q.sid)
                    else Delete(Release(s.redis, q.sid), q.sid)
  {
    hide P.Run, P.CallbackStep, P.ArriveStep, P.TryLockStep, P.ExchangeStep, P.ReloadStep, I.Step, P.MayElapse,
      P.IdpMay, Load;
    P.RunThree(c, s, P.SaveNext(r), P.Leave(r), P.DeleteFailed(r));
  }

  /** The protocol's events, uninterrupted, are the method: a request that refreshes
      alone leaves the store as Auth does. */
  lemma AloneRunIsAuth(c: P.Config, s: P.State, r: nat, sid: Sid, e: P.Event)
    requires r !in s.requests && Load(s.redis, c.ttl, s.idp.now, sid).session.Ok? && !HasLock(s.redis, sid, s.idp.now)
    requires P.Expiring(s.redis.sessions[sid].session, s.idp.now) && P.Inv(s)
    requires e.Exchange? && e.req == r && I.FreshIds(s.idp, e.ids) && e.ids.raw != ""
    ensures
      var a := AnswerOf(c, s.idp, e.call, s.redis.sessions[sid].session.refreshToken, e.ids, e.scopes, e.idToken,
                        e.device);
      var t := P.Run(c, s, [P.Arrive(r, sid), P.TryLock(r), e] + [P.SaveNext(r), P.Leave(r), P.DeleteFailed(r)]);
      t.redis == AuthSpec(s.redis, c.ttl, s.idp.now, sid, a, NO_FAULTS).redis && t.requests == s.requests
  {
    hide P.Run, P.TokenEndpoint, P.Inv;
    AloneExchanges(c, s, r, sid, e);
    P.RunAppend(c, s, [P.Arrive(r, sid), P.TryLock(r), e], [P.SaveNext(r), P.Leave(r), P.DeleteFailed(r)]);
    var t := P.Run(c, s, [P.Arrive(r, sid), P.TryLock(r), e]);
    AloneFinishes(c, t, r, t.requests[r]);
    assert t.requests - {r} == s.requests;
  }

  lemma WaiterReloads(c: P.Config, s: P.State, r: nat, sid: Sid)
    requires r in s.requests && s.requests[r].Waiting? && s.requests[r].sid == sid && s.idp.now >= s.requests[r].until
    ensures
      var t, l := P.Run(c, s, [P.Reload(r), P.DeleteFailed(r)]), Load(s.redis, c.ttl, s.idp.now, sid);
      t.idp == s.idp && t.requests == s.requests - {r} &&
      t.redis == if l.session.Ok? then l.redis else Delete(l.redis, sid)
  {
    hide P.CallbackStep, P.ArriveStep, P.TryLockStep, P.ExchangeStep, I.Step, P.MayElapse, P.IdpMay, Load;
    assert [P.Reload(r), P.DeleteFailed(r)][1..] == [P.DeleteFailed(r)] && [P.DeleteFailed(r)][1..] == [];
    var t := P.Step(c, s, P.Reload(r));
    assert P.Run(c, t, [P.DeleteFailed(r)]) == P.Step(c, t, P.DeleteFailed(r));
  }

  /** So they are when another request holds the lock: the waiting request leaves the store
      as Auth does, which looks at it again when half a second has passed. */
  lemma AloneWaitIsAuth(c: P.Config, s: P.State, r: nat, sid: Sid, a: Exchange)
    requires r !in s.requests && Load(s.redis, c.ttl, s.idp.now, sid).session.Ok? && HasLock(s.redis, sid, s.idp.now)
    requires P.Expiring(s.redis.sessions[sid].session, s.idp.now) && P.MayElapse(s, 500)
    ensures
      var t := P.Run(c, s, [P.Arrive(r, sid), P.TryLock(r), P.Elapse(500)] + [P.Reload(r), P.DeleteFailed(r)]);
      && t.redis == AuthSpec(s.redis, c.ttl, s.idp.now, sid, a, NO_FAULTS).redis && t.requests == s.requests
      && t.idp == s.idp.(now := s.idp.now + 500)
  {
    hide P.Run, P.CallbackStep, P.ExchangeStep, P.SaveStep, P.LeaveStep, I.Step, P.IdpMay;
    var sess := s.redis.sessions[sid].session;
    P.RunAppend(c, s, [P.Arrive(r, sid), P.TryLock(r), P.Elapse(500)], [P.Reload(r), P.DeleteFailed(r)]);
    P.RunThree(c, s, P.Arrive(r, sid), P.TryLock(r), P.Elapse(500));
    var s1 := P.Step(c, s, P.Arrive(r, sid));
    assert s1 == s.(redis := Load(s.redis, c.ttl, s.idp.now, sid).redis,
                    requests := s.requests[r := P.Acquiring(sid, sess)]);
    var s2 := P.Step(c, s1, P.TryLock(r));
    assert s2 == s1.(requests := s.requests[r := P.Waiting(sid, s.idp.now + 500)]);
    var s3 := P.Step(c, s2, P.Elapse(500));
    assert s3 == s2.(idp := s.idp.(now := s.idp.now + 500));
    WaiterReloads(c, s3, r, sid);
    assert s3.requests - {r} == s.requests;
  }
}
