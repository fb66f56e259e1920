/** RevokeAllOtherSessions: the loop over the user's sessions and its net effect. */
module RevokeOthers {
  import opened Prelude
  import opened T = Tables
  import opened Repositories
  import O = DeviceOwnership

  /** Every session of `ds` revoked, each with its refresh tokens, and nothing else. */
  function RevokedAll(db: Tables, now: Time, ds: set<Id>): Tables {
    db.(devices := map d | d in db.devices :: if d in ds then db.devices[d].(revokedAt := Some(now)) else db.devices[d],
        refreshTokens := map h | h in db.refreshTokens && !NamesOneOf(db.refreshTokens[h], ds) :: db.refreshTokens[h])
  }

  predicate NamesOneOf(t: RefreshToken, ds: set<Id>) {
    t.deviceSessionId.Some? && t.deviceSessionId.value in ds
  }

  lemma RevokedNone(db: Tables, now: Time)
    ensures RevokedAll(db, now, {}) == db
  {}

  /** One more session: it is still active, so RevokeByID succeeds on it. */
  lemma RevokedOneMore(db: Tables, now: Time, done: set<Id>, d: Id, user: Id)
    requires ActiveDevice(db, d, user) && d !in done
    ensures RevokeDevice(RevokedAll(db, now, done), now, d, user) == Ok(RevokedAll(db, now, done + {d}))
  {
    var a, b := RevokedAll(db, now, done), RevokedAll(db, now, done + {d});
    assert ActiveDevice(a, d, user);
    assert a.devices[d := a.devices[d].(revokedAt := Some(now))] == b.devices;
    assert WithoutTokensOf(a.refreshTokens, d) == b.refreshTokens;
  }

  class SessionHandler {
    const sessions: DeviceSessionRepository

    constructor (sessions: DeviceSessionRepository)
      ensures this.sessions == sessions
    {
      this.sessions := sessions;
    }

    method RevokeAllOtherSessions(now: Time, user: Id, current: Id)
      modifies sessions.db
      ensures sessions.db.View() == RevokedAll(old(sessions.db.View()), now,
                                               ActiveDevices(old(sessions.db.View()), user) - {current})
      ensures
        var a, b := old(sessions.db.View()), sessions.db.View();
        && b == a.(devices := b.devices, refreshTokens := b.refreshTokens) && b.devices.Keys == a.devices.Keys
        && (forall d | d in a.devices :: b.devices[d] ==
              if a.devices[d].userId == user && a.devices[d].revokedAt.None? && d != current
              then a.devices[d].(revokedAt := Some(now)) else a.devices[d])
        && (forall h | h in b.refreshTokens :: h in a.refreshTokens && b.refreshTokens[h] == a.refreshTokens[h])
        && (forall h | h in a.refreshTokens :: h !in b.refreshTokens <==>
              var d := a.refreshTokens[h].deviceSessionId;
              d.Some? && d.value in a.devices && d.value != current && a.devices[d.value].userId == user &&
              a.devices[d.value].revokedAt.None?)
    {
      ghost var begin := sessions.db.View();
      var active := sessions.ListActiveByUserID(user);
      assert forall d :: d in active <==> d in ActiveDevices(begin, user);
      ghost var done := {};
      RevokedNone(begin, now);
      for i := 0 to |active|
        invariant done == set k | 0 <= k < i && active[k] != current :: active[k]
        invariant sessions.db.View() == RevokedAll(begin, now, done)
      {
        assert active[i] in active;
        if active[i] != current {
          RevokedOneMore(begin, now, done, active[i], user);
          var ignored := sessions.RevokeByID(now, active[i], user);
          done := done + {active[i]};
        }
      }
      assert done == ActiveDevices(begin, user) - {current};
    }
  }

  /** Afterwards the user's active sessions are exactly the earlier ones meeting
      {current}; the other sessions hold no refresh token; and, because a session's
      tokens are its owner's, every other user's rows and the current session's
      tokens are as before. */
  lemma OthersRevoked(db: Tables, now: Time, user: Id, current: Id)
    requires O.Owned(db)
    ensures
      var others := ActiveDevices(db, user) - {current};
      var after := RevokedAll(db, now, others);
      && ActiveDevices(after, user) == ActiveDevices(db, user) * {current}
      && (forall u | u != user :: ActiveDevices(after, u) == ActiveDevices(db, u))
      && (forall h | h in after.refreshTokens :: !NamesOneOf(after.refreshTokens[h], others))
      && (forall h | h in db.refreshTokens &&
          (db.refreshTokens[h].userId != user || db.refreshTokens[h].deviceSessionId == Some(current)) ::
            h in after.refreshTokens && after.refreshTokens[h] == db.refreshTokens[h])
      && (forall d | d in db.devices && (db.devices[d].userId != user || d == current) ::
            d in after.devices && after.devices[d] == db.devices[d])
      && after.tokens == db.tokens && after.authRequests == db.authRequests
  {}
}
