/** The BFF's callback, logout and profile handlers, over the session store. */
module AuthHandler {
  import opened Prelude
  import opened SessionStore
  import opened AuthMiddleware
  import P = RefreshProtocol
  import I = TokenSystem

  datatype CallbackEnd = ExchangeFailed | SaveFailed | SignedIn

  class Handler {
    const store: Store

    constructor (store: Store)
      ensures this.store == store
    {
      this.store := store;
    }

    /** A code exchange opens a session under the generated id; nothing else is stored. */
    method Callback(now: Time, sid: Sid, userId: string, answer: Exchange, saveFails: bool) returns (r: CallbackEnd)
      modifies store`sessions
      ensures r == if answer.Refused? then ExchangeFailed else if saveFails then SaveFailed else SignedIn
      ensures r != SignedIn ==> store.View() == old(store.View())
      ensures r == SignedIn ==>
        && OthersKept(old(store.View()), store.View(), sid)
        && (forall t :: HasSession(store.View(), sid, t) <==> t < now + store.ttl.idle)
        && sid in store.sessions
        && var sess := store.sessions[sid].session;
        && sess.userId == userId && sess.createdAt == now && sess.lastActiveAt == now
        && sess.accessToken == answer.access && sess.refreshToken == answer.refresh && sess.idToken == answer.idToken
        && sess.tokenExpiry == answer.expiry && sess.deviceSessionId == answer.device
      ensures r == SignedIn && sid in store.sessions ==>
        store.sessions[sid].session ==
        P.Opened(userId, answer.access, answer.refresh, answer.idToken, answer.expiry, answer.device, now)
    {
      match answer
      case Refused => return ExchangeFailed;
      case Answered(_, access, refresh, expiry, idToken, device) =>
        var sess := Session(userId, access, refresh, idToken, expiry, device, now, now);
        if saveFails {
          return SaveFailed;
        }
        store.SaveSession(now, sid, sess);
        return SignedIn;
    }

    /** Deletes the cookie's session, if there is a cookie; an error of the store is ignored. */
    method Logout(cookie: Option<Sid>, deleteFails: bool)
      modifies store`sessions
      ensures store.locks == old(store.locks)
      ensures store.sessions ==
        if cookie.Some? && !deleteFails then old(store.sessions) - {cookie.value} else old(store.sessions)
    {
      if cookie.Some? && !deleteFails {
        store.DeleteSession(cookie.value);
      }
    }

    /** Who is signed in: the user of the cookie's session, if it is loadable. */
    method Me(now: Time, cookie: Option<Sid>, loadFails: bool) returns (user: Option<string>)
      modifies store`sessions
      ensures user ==
        if cookie.Some? && !loadFails && Loadable(old(store.View()), store.ttl, now, cookie.value)
        then Some(old(store.sessions)[cookie.value].session.userId) else None
      ensures user.Some? ==>
        store.sessions == old(store.sessions)[cookie.value :=
          old(store.sessions)[cookie.value].(expiresAt := now + store.ttl.idle)]
    {
      if cookie.None? || loadFails {
        return None;
      }
      var sess := store.LoadSession(now, cookie.value);
      return if sess.Ok? then Some(sess.value.userId) else None;
    }
  }

  /** The sessions after a look at one of them: it lasts its idle TTL from now if it is
      loadable, and is deleted if only the hard limit keeps it from being so. */
  ghost predicate LookedAt(a: Redis, b: Redis, ttl: Ttl, now: Time, sid: Sid) {
    b.locks == a.locks &&
    if Loadable(a, ttl, now, sid) then b.sessions == a.sessions[sid := a.sessions[sid].(expiresAt := now + ttl.idle)]
    else if sid in a.sessions && now < a.sessions[sid].expiresAt then b.sessions == a.sessions - {sid}
    else b.sessions == a.sessions
  }

  /** In the interleaved protocol the handlers and a request with time to spare do the same
      to the store, and nothing else: who looks keeps the session alive, who logs out ends
      it, and only a request whose session is about to expire goes on to refresh it. */
  lemma HandlersInterleaved(c: P.Config, s: P.State, r: nat, sid: Sid)
    requires r !in s.requests
    ensures
      var t := P.Step(c, s, P.Me(sid));
      t == s.(redis := t.redis) && LookedAt(s.redis, t.redis, c.ttl, s.idp.now, sid)
    ensures P.Step(c, s, P.Logout(sid)) == s.(redis := s.redis.(sessions := s.redis.sessions - {sid}))
    ensures
      var t := P.Step(c, s, P.Arrive(r, sid));
      && t == s.(redis := t.redis, requests := t.requests) && LookedAt(s.redis, t.redis, c.ttl, s.idp.now, sid)
      && t.requests ==
         if Loadable(s.redis, c.ttl, s.idp.now, sid) &&
            s.redis.sessions[sid].session.tokenExpiry - s.idp.now < 60 * 1000
         then s.requests[r := P.Acquiring(sid, s.redis.sessions[sid].session)] else s.requests
  {
    hide P.CallbackStep, P.ExchangeStep, P.TryLockStep, P.SaveStep, P.LeaveStep, P.ReloadStep, I.Step,
      P.MayElapse, P.IdpMay;
  }
}
