/** Returning logins. A browser that presents the cookie of its device session gets that
    session back at every login of its user, until the user revokes it. */
module DeviceReuse {
  import opened Prelude
  import opened Tables
  import opened TokenSystem
  import R = RotationChains

  /** The one event that ends an active session. */
  function RevocationOf(d: Id, user: Id): Event {
    Revoke(RevokeDeviceSession(d, user))
  }

  /** The user's active sessions stay so. */
  ghost predicate ActiveKept(a: Tables, b: Tables, d: Id, user: Id) {
    ActiveDevice(a, d, user) ==> ActiveDevice(b, d, user)
  }

  // ------------------------------------------------------------- every event

  lemma PairKeepsActive(db: Tables, now: Time, access: AccessToken, refresh: RefreshToken, d: Id, user: Id)
    requires IssuePair(db, now, access, refresh).Ok?
    ensures ActiveKept(db, IssuePair(db, now, access, refresh).value, d, user)
  {}

  lemma IssuingKeepsActive(c: Config, s: State, request: TokenRequest, ids: NewIds, current: Option<TokenHash>, d: Id,
                           user: Id)
    ensures ActiveKept(s.db, Issuing(c, s, request, ids, current).state.db, d, user)
  {
    hide IssuePair;
    if Issuing(c, s, request, ids, current).reply.IssuedReply? {
      PairKeepsActive(R.BeforeInsert(s.db, current), s.now, BuildPair(c, s.now, request, ids).access,
                      R.InsertedRow(c, s, request, ids, current), d, user);
    }
  }

  lemma TokenCallKeepsActive(c: Config, s: State, e: TokenEvent, d: Id, user: Id)
    ensures ActiveKept(s.db, TokenStep(c, s, e).state.db, d, user)
  {
    hide Issuing;
    match e
    case Grant(call, ids) =>
      if call in s.codeReads {
        var t := s.(codeReads := s.codeReads - {call});
        IssuingKeepsActive(c, t, CodeRequest(s.codeReads[call].request), ids, None, d, user);
      }
    case Rotate(call, ids, scopes) =>
      if call in s.refreshReads {
        var t, read := s.(refreshReads := s.refreshReads - {call}), s.refreshReads[call];
        IssuingKeepsActive(c, t, RefreshRequest(read, scopes), ids, Some(read.hash), d, user);
      }
    case _ =>
  }

  lemma LoginCallKeepsActive(c: Config, s: State, e: LoginEvent, d: Id, user: Id)
    ensures ActiveKept(s.db, LoginStep(c, s, e).state.db, d, user)
  {}

  lemma RevocationKeepsActive(db: Tables, now: Time, r: Revocation, d: Id, user: Id)
    requires r != RevokeDeviceSession(d, user) && Revoked(db, now, r).Ok?
    ensures ActiveKept(db, Revoked(db, now, r).value, d, user)
  {}

  /** The sweep deletes revoked sessions only. */
  lemma SweepKeepsActive(c: Config, db: Tables, now: Time, table: SweptTable, lag: nat, d: Id, user: Id)
    ensures ActiveKept(db, Swept(c, db, now, table, lag), d, user)
  {}

  lemma StepKeepsActive(c: Config, s: State, e: Event, d: Id, user: Id)
    requires ActiveDevice(s.db, d, user) && e != RevocationOf(d, user)
    ensures ActiveDevice(Step(c, s, e).state.db, d, user)
  {
    hide LoginStep, TokenStep, Revoked, Swept, Answer;
    match e
    case LoginCall(login) => LoginCallKeepsActive(c, s, login, d, user);
    case TokenCall(token) => TokenCallKeepsActive(c, s, token, d, user);
    case Revoke(r) =>
      if Revoked(s.db, s.now, r).Ok? {
        RevocationKeepsActive(s.db, s.now, r, d, user);
      }
    case Sweep(table, lag) => SweepKeepsActive(c, s.db, s.now, table, lag, d, user);
    case _ =>
  }

  lemma {:induction false} RunKeepsActive(c: Config, s: State, events: seq<Event>, d: Id, user: Id)
    requires ActiveDevice(s.db, d, user) && RevocationOf(d, user) !in events
    ensures ActiveDevice(Run(c, s, events).db, d, user)
    decreases |events|
  {
    hide Step, ActiveDevice;
    if events == [] {
    } else {
      StepKeepsActive(c, s, events[0], d, user);
      RunKeepsActive(c, Step(c, s, events[0]).state, events[1..], d, user);
    }
  }

  // ------------------------------------------------------------ main results

  /** The session a login found, whichever way. */
  function FoundBy(s: State, e: LoginEvent): Option<Id>
    requires e.FindDevice?
  {
    var o := FindDeviceStep(s, e.call, e.cookie, e.freshId, e.user, e.userAgent, e.ip, e.name);
    if o.reply.Done? then Some(o.state.logins[e.call].device) else None
  }

  /** What a login does to the sessions, from the rows: an active session of the user under
      the cookie's id is found and marked as used, and otherwise a new one is created, under
      the cookie's id if that is free. Every other session is left alone. */
  lemma LoginFinds(c: Config, s: State, e: LoginEvent)
    requires e.FindDevice? && FoundBy(s, e).Some?
    ensures
      var t, d := LoginStep(c, s, e).state.db, FoundBy(s, e).value;
      && ActiveDevice(t, d, e.user) && t == s.db.(devices := t.devices)
      && t.devices - {d} == s.db.devices - {d}
      && d == (if e.cookie !in s.db.devices || ActiveDevice(s.db, e.cookie, e.user) then e.cookie else e.freshId)
      && (d in s.db.devices <==> ActiveDevice(s.db, e.cookie, e.user))
      && t.devices[d] ==
        if d in s.db.devices
        then s.db.devices[d].(userAgent := e.userAgent, ipAddress := e.ip, lastUsedAt := s.now)
        else DeviceSession(d, e.user, e.userAgent, e.ip, e.name, s.now, s.now, None)
  {}

  /** A login with the cookie of a session the user has not revoked finds that session,
      however long ago and whatever happened since; it creates none. */
  lemma SessionIsFoundAgain(c: Config, s: State, first: LoginEvent, events: seq<Event>, second: LoginEvent)
    requires first.FindDevice? && FoundBy(s, first).Some?
    requires RevocationOf(FoundBy(s, first).value, first.user) !in events
    requires second.FindDevice? && second.user == first.user && second.cookie == FoundBy(s, first).value
    ensures
      var t := Run(c, LoginStep(c, s, first).state, events);
      FoundBy(t, second) == FoundBy(s, first) && LoginStep(c, t, second).state.db.devices.Keys == t.db.devices.Keys
  {
    LoginFinds(c, s, first);
    RunKeepsActive(c, LoginStep(c, s, first).state, events, FoundBy(s, first).value, first.user);
  }

  /** Two logins of one user with one cookie, and no revocation of the session between
      them: they find the same session exactly when the cookie was free or the user's
      active session. (A cookie of another user's session, or of a revoked one, leads to
      a new session, which the caller has to put into the cookie.) */
  lemma SameCookieSameSession(c: Config, s: State, first: LoginEvent, events: seq<Event>, second: LoginEvent)
    requires first.FindDevice? && FoundBy(s, first).Some?
    requires RevocationOf(FoundBy(s, first).value, first.user) !in events
    requires second.FindDevice? && second.user == first.user && second.cookie == first.cookie
    ensures FoundBy(Run(c, LoginStep(c, s, first).state, events), second) == FoundBy(s, first) <==>
      first.cookie !in s.db.devices || ActiveDevice(s.db, first.cookie, first.user)
  {
    hide Run;
    LoginFinds(c, s, first);
    var t, d := Run(c, LoginStep(c, s, first).state, events), FoundBy(s, first).value;
    RunKeepsActive(c, LoginStep(c, s, first).state, events, d, first.user);
    if first.cookie == d {
      SessionIsFoundAgain(c, s, first, events, second);
    } else if FoundBy(t, second).Some? {
      LoginFinds(c, t, second);
    }
  }
}
