/** The BFF's token refresh across both services: any number of requests share
    Redis sessions, take turns through the refresh lock, and spend single-use
    refresh tokens at identity-service, which meanwhile does anything it can do. */
module RefreshProtocol {
  import opened Prelude
  import opened SessionStore
  import opened Tables
  import I = TokenSystem
  import R = RotationChains
  import C = ChainTheorems

  /** Milliseconds: refresh when less than this is left; wait this long for another's refresh. */
  const REFRESH_MARGIN: int := 60 * 1000
  const RELOAD_DELAY: int := 500

  datatype Config = Config(idp: I.Config, ttl: Ttl)

  /** Where a request that has to refresh is. Requests with time to spare are served at once. */
  datatype Request =
    | Acquiring(sid: Sid, copy: Session)
    | Waiting(sid: Sid, until: int)
    | Holding(sid: Sid, copy: Session, since: int)
    | Exchanged(sid: Sid, presented: string, next: Session, since: int)
    | Leaving(sid: Sid, failed: bool, since: int)  // before the deferred release
    | Failing(sid: Sid)                            // before Auth deletes the session

  datatype Birth = Birth(userId: string, createdAt: int)

  /** The clock is idp.now. `owner` and `births` are history: which session a refresh
      token was issued to, and how each session was created. */
  datatype State = State(idp: I.State, redis: Redis, requests: map<nat, Request>, owner: map<string, Sid>,
                         births: map<Sid, Birth>)

  const INIT := State(I.INIT, Redis(map[], map[]), map[], map[], map[])

  datatype Event =
    | Elapse(time: nat)
    | Callback(sid: Sid, call: nat, ids: I.NewIds, idToken: string, device: string)
    | Arrive(req: nat, sid: Sid)
    | Me(sid: Sid)
    | TryLock(req: nat)
    | Exchange(req: nat, call: nat, ids: I.NewIds, scopes: seq<string>, idToken: string, device: string)
    | ExchangeFails(req: nat)
    | SaveNext(req: nat)
    | Leave(req: nat)
    | DeleteFailed(req: nat)
    | Reload(req: nat)
    | StoreError(req: nat)
    | Logout(sid: Sid)
    | Idp(event: I.Event)

  predicate Critical(q: Request) {
    q.Holding? || q.Exchanged? || q.Leaving?
  }

  /** Critical sections are shorter than the lock's time limit. */
  predicate MayElapse(s: State, time: nat) {
    forall r | r in s.requests && Critical(s.requests[r]) :: s.idp.now + time < s.requests[r].since + LOCK_TTL
  }

  predicate Expiring(sess: Session, now: int) {
    sess.tokenExpiry - now < REFRESH_MARGIN
  }

  /** What refreshTokens assigns to the session; CreatedAt and UserID are not among it. */
  function Refreshed(copy: Session, now: int, expiry: int, ids: I.NewIds, idToken: string, device: string): Session {
    copy.(accessToken := ids.access,
          refreshToken := if ids.raw != "" then ids.raw else copy.refreshToken,
          tokenExpiry := expiry,
          idToken := if idToken != "" then idToken else copy.idToken,
          deviceSessionId := if device != "" then device else copy.deviceSessionId,
          lastActiveAt := now)
  }

  function ArriveStep(c: Config, s: State, r: nat, sid: Sid): State {
    if r in s.requests then s
    else
      var l := Load(s.redis, c.ttl, s.idp.now, sid);
      var s' := s.(redis := l.redis);
      if l.session.Ok? && Expiring(l.session.value, s.idp.now)
      then s'.(requests := s.requests[r := Acquiring(sid, l.session.value)])
      else s'
  }

  function TryLockStep(s: State, r: nat): State {
    if !(r in s.requests && s.requests[r].Acquiring?) then s
    else
      var q := s.requests[r];
      var a := Acquire(s.redis, s.idp.now, q.sid);
      s.(redis := a.redis,
         requests := s.requests[r := if a.ok then Holding(q.sid, q.copy, s.idp.now)
                                     else Waiting(q.sid, s.idp.now + RELOAD_DELAY)])
  }

  /** The token endpoint's answer to a presented refresh token: None when the ids the
      event carries were not fresh. */
  function TokenEndpoint(c: I.Config, s: I.State, call: nat, raw: string, ids: I.NewIds,
                         scopes: seq<string>): Option<I.Outcome> {
    if !I.FreshIds(s, ids) || ids.raw == "" then None
    else
      var read := I.ReadRefreshStep(s, call, raw);
      if read.reply.refresh.Err? then Some(read) else Some(I.RotateStep(c, read.state, call, ids, scopes))
  }

  function ExchangeStep(c: Config, s: State, r: nat, call: nat, ids: I.NewIds, scopes: seq<string>, idToken: string,
                        device: string): State {
    if !(r in s.requests && s.requests[r].Holding?) then s
    else
      var q := s.requests[r];
      if !Expiring(q.copy, s.idp.now) then s.(requests := s.requests[r := Leaving(q.sid, false, q.since)])
      else match TokenEndpoint(c.idp, s.idp, call, q.copy.refreshToken, ids, scopes)
        case None => s
        case Some(o) =>
          if o.reply.IssuedReply? then
            s.(idp := o.state, owner := s.owner[ids.raw := q.sid],
               requests := s.requests[r := Exchanged(q.sid, q.copy.refreshToken,
                 Refreshed(q.copy, s.idp.now, s.idp.now + c.idp.accessTTL, ids, idToken, device), q.since)])
          else s.(idp := o.state, requests := s.requests[r := Leaving(q.sid, true, q.since)])
  }

  /** The call to the token endpoint fails and nothing was rotated, good though the token may be. */
  function ExchangeFailsStep(s: State, r: nat): State {
    if !(r in s.requests && s.requests[r].Holding? && Expiring(s.requests[r].copy, s.idp.now)) then s
    else s.(requests := s.requests[r := Leaving(s.requests[r].sid, true, s.requests[r].since)])
  }

  /** Redis fails to answer a lock attempt or a reload: the request ends with an internal
      error. An error of the final delete is ignored. */
  function StoreErrorStep(s: State, r: nat): State {
    if r in s.requests && (s.requests[r].Acquiring? || s.requests[r].Waiting? || s.requests[r].Failing?)
    then s.(requests := s.requests - {r}) else s
  }

  function SaveStep(c: Config, s: State, r: nat): State {
    if !(r in s.requests && s.requests[r].Exchanged?) then s
    else
      var q := s.requests[r];
      s.(redis := Save(s.redis, c.ttl, s.idp.now, q.sid, q.next),
         requests := s.requests[r := Leaving(q.sid, false, q.since)])
  }

  function LeaveStep(s: State, r: nat): State {
    if !(r in s.requests && s.requests[r].Leaving?) then s
    else
      var q := s.requests[r];
      s.(redis := Release(s.redis, q.sid),
         requests := if q.failed then s.requests[r := Failing(q.sid)] else s.requests - {r})
  }

  function ReloadStep(c: Config, s: State, r: nat): State {
    if !(r in s.requests && s.requests[r].Waiting? && s.idp.now >= s.requests[r].until) then s
    else
      var q := s.requests[r];
      var l := Load(s.redis, c.ttl, s.idp.now, q.sid);
      s.(redis := l.redis, requests := if l.session.Ok? then s.requests - {r} else s.requests[r := Failing(q.sid)])
  }

  /** The session a login opens. */
  function Opened(user: string, access: string, refresh: string, idToken: string, expiry: int, device: string,
                  now: int): Session {
    Session(user, access, refresh, idToken, expiry, device, now, now)
  }

  function CallbackStep(c: Config, s: State, sid: Sid, call: nat, ids: I.NewIds, idToken: string,
                        device: string): State {
    if sid in s.births || call !in s.idp.codeReads then s
    else
      var user := I.CodeRequest(s.idp.codeReads[call].request).Subject();
      var o := I.GrantStep(c.idp, s.idp, call, ids);
      if !o.reply.IssuedReply? then s.(idp := o.state)
      else
        var now := s.idp.now;
        var sess := Opened(user, ids.access, ids.raw, idToken, now + c.idp.accessTTL, device, now);
        s.(idp := o.state, redis := Save(s.redis, c.ttl, now, sid, sess), owner := s.owner[ids.raw := sid],
           births := s.births[sid := Birth(user, now)])
  }

  /** The rest of identity-service; a session's refresh token is presented by the BFF alone. */
  predicate IdpMay(s: State, e: I.Event) {
    match e
    case Tick(_) => false
    case TokenCall(Rotate(call, _, _)) => !(call in s.idp.refreshReads && s.idp.refreshReads[call].hash.raw in s.owner)
    case _ => true
  }

  function Step(c: Config, s: State, e: Event): State {
    match e
    case Elapse(time) => if MayElapse(s, time) then s.(idp := s.idp.(now := s.idp.now + time)) else s
    case Callback(sid, call, ids, idToken, device) => CallbackStep(c, s, sid, call, ids, idToken, device)
    case Arrive(r, sid) => ArriveStep(c, s, r, sid)
    case Me(sid) => s.(redis := Load(s.redis, c.ttl, s.idp.now, sid).redis)
    case TryLock(r) => TryLockStep(s, r)
    case Exchange(r, call, ids, scopes, idToken, device) => ExchangeStep(c, s, r, call, ids, scopes, idToken, device)
    case ExchangeFails(r) => ExchangeFailsStep(s, r)
    case SaveNext(r) => SaveStep(c, s, r)
    case Leave(r) => LeaveStep(s, r)
    case DeleteFailed(r) =>
      if r in s.requests && s.requests[r].Failing?
      then s.(redis := Delete(s.redis, s.requests[r].sid), requests := s.requests - {r}) else s
    case Reload(r) => ReloadStep(c, s, r)
    case StoreError(r) => StoreErrorStep(s, r)
    case Logout(sid) => s.(redis := Delete(s.redis, sid))
    case Idp(event) => if IdpMay(s, event) then s.(idp := I.Step(c.idp, s.idp, event).state) else s
  }

  function Run(c: Config, s: State, events: seq<Event>): State
    decreases |events|
  {
    if events == [] then s else Run(c, Step(c, s, events[0]), events[1..])
  }

  // -------------------------------------------------------------- invariant

  /** The token was rotated: it has a successor. */
  ghost predicate Spent(log: R.Log, raw: string) {
    exists h :: h in log && log[h].parent == Some(Sha256(raw))
  }

  /** The session's token was issued to it, and who it belongs to never changed. */
  predicate Genuine(s: State, sid: Sid, sess: Session) {
    sess.refreshToken in s.owner && s.owner[sess.refreshToken] == sid &&
    sid in s.births && s.births[sid] == Birth(sess.userId, sess.createdAt)
  }

  predicate RequestOk(s: State, q: Request) {
    match q
    case Acquiring(sid, copy) => Genuine(s, sid, copy) && Expiring(copy, s.idp.now)
    case Holding(sid, copy, _) => Genuine(s, sid, copy) && Expiring(copy, s.idp.now)
    case Exchanged(sid, _, next, _) => Genuine(s, sid, next)
    case _ => true
  }

  ghost predicate AllGenuine(s: State) {
    (forall raw | raw in s.owner :: Sha256(raw) in s.idp.log && s.owner[raw] in s.births) &&
    (forall sid | sid in s.redis.sessions :: Genuine(s, sid, s.redis.sessions[sid].session)) &&
    (forall r | r in s.requests :: RequestOk(s, s.requests[r]))
  }

  /** The holder's key is in place and has not expired. */
  predicate KeyHeld(redis: Redis, now: int, q: Request) {
    Critical(q) ==>
      q.since <= now < q.since + LOCK_TTL && q.sid in redis.locks && redis.locks[q.sid] == q.since + LOCK_TTL
  }

  ghost predicate Excluded(s: State) {
    (forall r | r in s.requests :: KeyHeld(s.redis, s.idp.now, s.requests[r])) &&
    (forall p, r | p in s.requests && r in s.requests && Critical(s.requests[p]) && Critical(s.requests[r]) &&
       s.requests[p].sid == s.requests[r].sid :: p == r)
  }

  /** The holder of the session's lock presented this token and has not saved yet. */
  ghost predicate BeingReplaced(s: State, sid: Sid, raw: string) {
    exists r ::
      r in s.requests && s.requests[r].Exchanged? && s.requests[r].sid == sid && s.requests[r].presented == raw
  }

  ghost predicate StoredUnspent(s: State) {
    forall sid | sid in s.redis.sessions ::
      Spent(s.idp.log, s.redis.sessions[sid].session.refreshToken) ==>
        BeingReplaced(s, sid, s.redis.sessions[sid].session.refreshToken)
  }

  ghost predicate NextUnspent(s: State) {
    forall r | r in s.requests && s.requests[r].Exchanged? ::
      !Spent(s.idp.log, s.requests[r].next.refreshToken) && Spent(s.idp.log, s.requests[r].presented)
  }

  /** Of the tokens ever issued to a session, at most one is good for a refresh. */
  ghost predicate OneUnspent(s: State) {
    forall a, b | a in s.owner && b in s.owner && s.owner[a] == s.owner[b] ::
      !Spent(s.idp.log, a) && !Spent(s.idp.log, b) ==> a == b
  }

  ghost predicate Inv(s: State) {
    R.Inv(s.idp) && AllGenuine(s) && Excluded(s) && StoredUnspent(s) && NextUnspent(s) && OneUnspent(s)
  }

  // ------------------------------------------- what an issue does to the log

  /** One new token, the successor of `parent` if there is one. */
  ghost predicate Issued(a: R.Log, b: R.Log, raw: string, parent: Option<TokenHash>) {
    Sha256(raw) !in a && Sha256(raw) in b && b[Sha256(raw)].parent == parent && b == a[Sha256(raw) := b[Sha256(raw)]]
  }

  lemma SpentAfter(a: R.Log, b: R.Log, raw: string, parent: Option<TokenHash>, x: string)
    requires Issued(a, b, raw, parent)
    ensures Spent(b, x) <==> Spent(a, x) || parent == Some(Sha256(x))
  {
    if Spent(a, x) {
      var h :| h in a && a[h].parent == Some(Sha256(x));
      assert b[h].parent == Some(Sha256(x));
    }
    if parent == Some(Sha256(x)) {
      assert b[Sha256(raw)].parent == Some(Sha256(x));
    }
  }

  lemma NewTokenUnspent(s: I.State, b: R.Log, raw: string, parent: Option<TokenHash>)
    requires R.Inv(s) && Issued(s.log, b, raw, parent) && (parent.Some? ==> parent.value in s.log)
    ensures !Spent(b, raw)
  {}

  lemma IssuingLog(c: I.Config, s: I.State, request: I.TokenRequest, ids: I.NewIds, current: Option<TokenHash>)
    requires R.KnownLog(s.log, s.issued) && I.FreshIds(s, ids)
    ensures
      var o := I.Issuing(c, s, request, ids, current);
      if o.reply.IssuedReply? then Issued(s.log, o.state.log, ids.raw, current) && o.state.now == s.now
      else o.state == s
  {}

  lemma GrantLog(c: I.Config, s: I.State, call: nat, ids: I.NewIds)
    requires R.Inv(s)
    ensures
      var o := I.GrantStep(c, s, call, ids);
      if o.reply.IssuedReply? then Issued(s.log, o.state.log, ids.raw, None) && o.state.now == s.now
      else o.state.log == s.log && o.state.now == s.now
  {
    hide I.Issuing;
    if call in s.codeReads && I.FreshIds(s, ids) {
      IssuingLog(c, s.(codeReads := s.codeReads - {call}), I.CodeRequest(s.codeReads[call].request), ids, None);
    }
  }

  lemma RotateLog(c: I.Config, s: I.State, call: nat, ids: I.NewIds, scopes: seq<string>)
    requires R.Inv(s)
    ensures
      var o := I.RotateStep(c, s, call, ids, scopes);
      if o.reply.IssuedReply?
      then call in s.refreshReads && o.state.now == s.now &&
           Issued(s.log, o.state.log, ids.raw, Some(s.refreshReads[call].hash))
      else o.state.log == s.log && o.state.now == s.now
  {
    hide I.Issuing;
    if call in s.refreshReads && I.FreshIds(s, ids) {
      IssuingLog(c, s.(refreshReads := s.refreshReads - {call}), I.RefreshRequest(s.refreshReads[call], scopes), ids,
                 Some(s.refreshReads[call].hash));
    }
  }

  /** identity-service moved on without spending a token of any session. */
  ghost predicate Unharmed(s: State, t: I.State) {
    R.Inv(t) && t.now == s.idp.now && C.Grows(s.idp.log, t.log) &&
    forall raw | raw in s.owner :: Spent(t.log, raw) ==> Spent(s.idp.log, raw)
  }

  lemma IdpIsHarmless(c: I.Config, s: State, e: I.Event)
    requires R.Inv(s.idp) && IdpMay(s, e)
    ensures Unharmed(s, I.Step(c, s.idp, e).state)
  {
    hide R.Inv, I.LoginStep, I.GrantStep, I.RotateStep, I.Revoked, I.Swept, R.Shrinks, Spent, C.Grows, Issued;
    R.StepKeepsInv(c, s.idp, e);
    C.StepGrows(c, s.idp, e);
    forall raw | raw in s.owner ensures Spent(I.Step(c, s.idp, e).state.log, raw) ==> Spent(s.idp.log, raw) {
      HarmlessTo(c, s, e, raw);
    }
    SameNow(c, s.idp, e);
  }

  lemma SameNow(c: I.Config, s: I.State, e: I.Event)
    requires !e.Tick? && R.Inv(s)
    ensures I.Step(c, s, e).state.now == s.now
  {
    hide R.Inv, I.LoginStep, I.GrantStep, I.RotateStep, I.Revoked, I.Swept;
    match e
    case LoginCall(l) => R.LoginLeavesTokens(c, s, l);
    case TokenCall(Grant(call, ids)) => GrantLog(c, s, call, ids);
    case TokenCall(Rotate(call, ids, scopes)) => RotateLog(c, s, call, ids, scopes);
    case _ =>
  }

  lemma HarmlessTo(c: I.Config, s: State, e: I.Event, raw: string)
    requires R.Inv(s.idp) && IdpMay(s, e) && raw in s.owner
    ensures Spent(I.Step(c, s.idp, e).state.log, raw) ==> Spent(s.idp.log, raw)
  {
    hide R.Inv, I.LoginStep, I.GrantStep, I.RotateStep, I.Revoked, I.Swept, R.Shrinks, Spent, Issued;
    var t := I.Step(c, s.idp, e).state;
    if !e.TokenCall? {
      R.OtherStepIsQuiet(c, s.idp, e);
    } else {
      match e.token
      case Grant(call, ids) =>
        GrantLog(c, s.idp, call, ids);
        if I.GrantStep(c, s.idp, call, ids).reply.IssuedReply? {
          SpentAfter(s.idp.log, t.log, ids.raw, None, raw);
        }
      case Rotate(call, ids, scopes) =>
        RotateLog(c, s.idp, call, ids, scopes);
        if I.RotateStep(c, s.idp, call, ids, scopes).reply.IssuedReply? {
          SpentAfter(s.idp.log, t.log, ids.raw, Some(s.idp.refreshReads[call].hash), raw);
        }
      case _ =>
    }
  }

  /** The token endpoint spends the presented token, or none. */
  lemma EndpointLog(c: I.Config, s: I.State, call: nat, raw: string, ids: I.NewIds, scopes: seq<string>)
    requires R.Inv(s) && TokenEndpoint(c, s, call, raw, ids, scopes).Some?
    ensures
      var o := TokenEndpoint(c, s, call, raw, ids, scopes).value;
      && R.Inv(o.state) && o.state.now == s.now
      && if o.reply.IssuedReply?
         then Issued(s.log, o.state.log, ids.raw, Some(Sha256(raw))) &&
              Sha256(raw) in s.log && Sha256(raw) in s.db.refreshTokens
         else o.state.log == s.log
  {
    hide R.Inv, I.RotateStep, I.FreshIds;
    var read := I.ReadRefreshStep(s, call, raw);
    R.ReadRefreshKeepsInv(s, call, raw);
    if read.reply.refresh.Ok? {
      ReadHash(s, raw);
      R.RotateKeepsInv(c, read.state, call, ids, scopes);
      RotateLog(c, read.state, call, ids, scopes);
    }
  }

  lemma ReadHash(s: I.State, raw: string)
    requires R.Inv(s) && Sha256(raw) in s.db.refreshTokens
    ensures Sha256(raw) in s.log && s.db.refreshTokens[Sha256(raw)].hash == Sha256(raw)
  {}

  // ------------------------------------------------ every step keeps it all

  lemma SpentGrows(a: R.Log, b: R.Log, raw: string)
    requires C.Grows(a, b) && Spent(a, raw)
    ensures Spent(b, raw)
  {}

  lemma IdpFrame(s: State, t: I.State)
    requires Inv(s) && Unharmed(s, t)
    ensures Inv(s.(idp := t))
  {
    hide R.Inv, Spent;
    var s' := s.(idp := t);
    forall raw | Spent(s.idp.log, raw) ensures Spent(t.log, raw) {
      SpentGrows(s.idp.log, t.log, raw);
    }
    forall sid | sid in s.redis.sessions && Spent(t.log, s.redis.sessions[sid].session.refreshToken)
      ensures BeingReplaced(s', sid, s.redis.sessions[sid].session.refreshToken)
    {
      assert Genuine(s, sid, s.redis.sessions[sid].session);
      assert BeingReplaced(s, sid, s.redis.sessions[sid].session.refreshToken);
    }
  }

  /** Loads and deletes: no session is stored that was not. */
  predicate Slid(a: Redis, b: Redis) {
    b.locks == a.locks &&
    forall sid | sid in b.sessions :: sid in a.sessions && b.sessions[sid].session == a.sessions[sid].session
  }

  lemma RedisFrame(s: State, redis: Redis)
    requires Inv(s) && Slid(s.redis, redis)
    ensures Inv(s.(redis := redis))
  {
    hide R.Inv, Spent, StoredUnspent;
    StillBeingReplaced(s, s.(redis := redis));
  }

  /** Requests other than r stay as they are. */
  ghost predicate OnlyMoves(a: map<nat, Request>, b: map<nat, Request>, r: nat) {
    forall p | p != r :: (p in b <==> p in a) && (p in b ==> b[p] == a[p])
  }

  lemma StillBeingReplaced(s: State, t: State)
    requires StoredUnspent(s) && t.idp.log == s.idp.log
    requires forall r | r in s.requests && s.requests[r].Exchanged? :: r in t.requests && t.requests[r] == s.requests[r]
    requires forall sid | sid in t.redis.sessions ::
               sid in s.redis.sessions && t.redis.sessions[sid].session == s.redis.sessions[sid].session
    ensures StoredUnspent(t)
  {}

  /** A request outside the critical section does not matter to the others. */
  lemma RequestFrame(s: State, r: nat, requests: map<nat, Request>)
    requires Inv(s) && OnlyMoves(s.requests, requests, r)
    requires r in s.requests ==> !Critical(s.requests[r])
    requires r in requests ==> !Critical(requests[r]) && RequestOk(s, requests[r])
    ensures Inv(s.(requests := requests))
  {
    hide R.Inv, Spent, StoredUnspent;
    StillBeingReplaced(s, s.(requests := requests));
  }

  lemma ElapseKeepsExcluded(s: State, time: nat)
    requires Excluded(s) && MayElapse(s, time)
    ensures Excluded(s.(idp := s.idp.(now := s.idp.now + time)))
  {}

  lemma ElapseKeepsInv(c: Config, s: State, time: nat)
    requires Inv(s) && MayElapse(s, time)
    ensures Inv(s.(idp := s.idp.(now := s.idp.now + time)))
  {
    hide R.Inv, Spent, StoredUnspent, Excluded;
    ElapseKeepsExcluded(s, time);
    R.StepKeepsInv(c.idp, s.idp, I.Tick(time));
    StillBeingReplaced(s, s.(idp := s.idp.(now := s.idp.now + time)));
  }

  lemma ArriveKeepsInv(c: Config, s: State, r: nat, sid: Sid)
    requires Inv(s)
    ensures Inv(ArriveStep(c, s, r, sid))
  {
    hide Inv;
    if r !in s.requests {
      var l := Load(s.redis, c.ttl, s.idp.now, sid);
      var s' := s.(redis := l.redis);
      RedisFrame(s, l.redis);
      if l.session.Ok? && Expiring(l.session.value, s.idp.now) {
        LoadedIsGenuine(s, sid);
        RequestFrame(s', r, s.requests[r := Acquiring(sid, l.session.value)]);
      }
    }
  }

  lemma LoadedIsGenuine(s: State, sid: Sid)
    requires Inv(s) && sid in s.redis.sessions
    ensures Genuine(s, sid, s.redis.sessions[sid].session)
  {}

  lemma ReloadKeepsInv(c: Config, s: State, r: nat)
    requires Inv(s)
    ensures Inv(ReloadStep(c, s, r))
  {
    hide Inv;
    if r in s.requests && s.requests[r].Waiting? && s.idp.now >= s.requests[r].until {
      var sid := s.requests[r].sid;
      var l := Load(s.redis, c.ttl, s.idp.now, sid);
      RedisFrame(s, l.redis);
      RequestFrame(s.(redis := l.redis), r, if l.session.Ok? then s.requests - {r} else s.requests[r := Failing(sid)]);
    }
  }

  lemma StoreErrorKeepsInv(s: State, r: nat)
    requires Inv(s)
    ensures Inv(StoreErrorStep(s, r))
  {
    hide Inv;
    if r in s.requests && (s.requests[r].Acquiring? || s.requests[r].Waiting? || s.requests[r].Failing?) {
      RequestFrame(s, r, s.requests - {r});
    }
  }

  lemma DeleteFailedKeepsInv(c: Config, s: State, r: nat)
    requires Inv(s) && r in s.requests && s.requests[r].Failing?
    ensures Inv(Step(c, s, DeleteFailed(r)))
  {
    hide Inv;
    RedisFrame(s, Delete(s.redis, s.requests[r].sid));
    RequestFrame(s.(redis := Delete(s.redis, s.requests[r].sid)), r, s.requests - {r});
  }

  lemma TryLockKeepsInv(s: State, r: nat)
    requires Inv(s)
    ensures Inv(TryLockStep(s, r))
  {
    hide R.Inv, Spent, StoredUnspent;
    StillBeingReplaced(s, TryLockStep(s, r));
  }

  /** Release deletes the key unconditionally, yet only its own. */
  lemma LeaveKeepsExcluded(s: State, r: nat)
    requires Excluded(s)
    ensures Excluded(LeaveStep(s, r))
  {}

  lemma LeaveKeepsInv(s: State, r: nat)
    requires Inv(s)
    ensures Inv(LeaveStep(s, r))
  {
    hide R.Inv, Spent, StoredUnspent, Excluded;
    LeaveKeepsExcluded(s, r);
    StillBeingReplaced(s, LeaveStep(s, r));
  }

  /** The holder stores the token it got: unspent, as only the holder could have spent it. */
  lemma SaveKeepsInv(c: Config, s: State, r: nat)
    requires Inv(s)
    ensures Inv(SaveStep(c, s, r))
  {
    hide R.Inv, Spent;
    if r in s.requests && s.requests[r].Exchanged? {
      var s' := SaveStep(c, s, r);
      forall sid | sid in s'.redis.sessions && Spent(s'.idp.log, s'.redis.sessions[sid].session.refreshToken)
        ensures BeingReplaced(s', sid, s'.redis.sessions[sid].session.refreshToken)
      {
        assert sid != s.requests[r].sid && BeingReplaced(s, sid, s.redis.sessions[sid].session.refreshToken);
        var p :|
          p in s.requests && s.requests[p].Exchanged? && s.requests[p].sid == sid &&
          s.requests[p].presented == s.redis.sessions[sid].session.refreshToken;
        assert p in s'.requests && s'.requests[p] == s.requests[p];
      }
    }
  }

  /** A committed exchange by the lock holder r: the token it presented was unspent. */
  ghost predicate Exchanges(s: State, r: nat, idp: I.State, ids: I.NewIds, next: Session) {
    && r in s.requests && s.requests[r].Holding?
    && R.Inv(idp) && idp.now == s.idp.now
    && var copy := s.requests[r].copy;
    && Issued(s.idp.log, idp.log, ids.raw, Some(Sha256(copy.refreshToken)))
    && !Spent(s.idp.log, copy.refreshToken) && !Spent(idp.log, ids.raw)
    && next.refreshToken == ids.raw && next.userId == copy.userId && next.createdAt == copy.createdAt
  }

  function AfterExchange(s: State, r: nat, idp: I.State, ids: I.NewIds, next: Session): State
    requires r in s.requests && s.requests[r].Holding?
  {
    var q := s.requests[r];
    s.(idp := idp, owner := s.owner[ids.raw := q.sid],
       requests := s.requests[r := Exchanged(q.sid, q.copy.refreshToken, next, q.since)])
  }

  lemma ExchangedGenuine(s: State, r: nat, idp: I.State, ids: I.NewIds, next: Session)
    requires AllGenuine(s) && Exchanges(s, r, idp, ids, next)
    ensures AllGenuine(AfterExchange(s, r, idp, ids, next))
  {
    hide R.Inv, Spent;
    assert Sha256(ids.raw) !in s.idp.log;
  }

  lemma ExchangedExcluded(s: State, r: nat, idp: I.State, ids: I.NewIds, next: Session)
    requires Excluded(s) && Exchanges(s, r, idp, ids, next)
    ensures Excluded(AfterExchange(s, r, idp, ids, next))
  {
    hide R.Inv, Spent, Issued;
  }

  /** Only the holder's own session can have the presented token stored. */
  lemma ExchangedStored(s: State, r: nat, idp: I.State, ids: I.NewIds, next: Session)
    requires AllGenuine(s) && StoredUnspent(s) && Exchanges(s, r, idp, ids, next)
    ensures StoredUnspent(AfterExchange(s, r, idp, ids, next))
  {
    hide R.Inv, Spent, Issued, RequestOk;
    var t := AfterExchange(s, r, idp, ids, next);
    var copy := s.requests[r].copy;
    assert RequestOk(s, s.requests[r]);
    assert Genuine(s, s.requests[r].sid, copy) by { HolderGenuine(s, s.requests[r]); }
    forall sid | sid in t.redis.sessions && Spent(t.idp.log, t.redis.sessions[sid].session.refreshToken)
      ensures BeingReplaced(t, sid, t.redis.sessions[sid].session.refreshToken)
    {
      var x := t.redis.sessions[sid].session.refreshToken;
      SpentAfter(s.idp.log, idp.log, ids.raw, Some(Sha256(copy.refreshToken)), x);
      assert Genuine(s, sid, s.redis.sessions[sid].session);
      if Spent(s.idp.log, x) {
        var p :|
          p in s.requests && s.requests[p].Exchanged? && s.requests[p].sid == sid && s.requests[p].presented == x;
        assert p in t.requests && t.requests[p] == s.requests[p];
      } else {
        assert t.requests[r].presented == x && t.requests[r].sid == sid;
      }
    }
  }

  lemma HolderGenuine(s: State, q: Request)
    requires RequestOk(s, q)
    ensures q.Holding? ==> Genuine(s, q.sid, q.copy) && Expiring(q.copy, s.idp.now)
    ensures q.Exchanged? ==> Genuine(s, q.sid, q.next)
  {}

  /** Another holder's new token is not spent: it belongs to another session. */
  lemma ExchangedNext(s: State, r: nat, idp: I.State, ids: I.NewIds, next: Session)
    requires AllGenuine(s) && Excluded(s) && NextUnspent(s) && Exchanges(s, r, idp, ids, next)
    ensures NextUnspent(AfterExchange(s, r, idp, ids, next))
  {
    hide R.Inv, Spent, Issued, RequestOk;
    var t := AfterExchange(s, r, idp, ids, next);
    HolderGenuine(s, s.requests[r]);
    forall p | p in t.requests && t.requests[p].Exchanged?
      ensures !Spent(t.idp.log, t.requests[p].next.refreshToken) && Spent(t.idp.log, t.requests[p].presented)
    {
      SpentAfter(s.idp.log, idp.log, ids.raw, Some(Sha256(s.requests[r].copy.refreshToken)), t.requests[p].presented);
      if p != r {
        HolderGenuine(s, s.requests[p]);
        SpentAfter(s.idp.log, idp.log, ids.raw, Some(Sha256(s.requests[r].copy.refreshToken)),
                   t.requests[p].next.refreshToken);
      }
    }
  }

  lemma ExchangedOne(s: State, r: nat, idp: I.State, ids: I.NewIds, next: Session)
    requires AllGenuine(s) && OneUnspent(s) && Exchanges(s, r, idp, ids, next)
    ensures OneUnspent(AfterExchange(s, r, idp, ids, next))
  {
    hide R.Inv, Spent, Issued, RequestOk;
    var copy := s.requests[r].copy;
    HolderGenuine(s, s.requests[r]);
    forall x ensures Spent(idp.log, x) <==> Spent(s.idp.log, x) || x == copy.refreshToken {
      SpentAfter(s.idp.log, idp.log, ids.raw, Some(Sha256(copy.refreshToken)), x);
    }
  }

  /** Rotation only takes tokens that were never rotated. */
  lemma StoredRowUnspent(s: I.State, raw: string)
    requires R.Inv(s) && Sha256(raw) in s.db.refreshTokens
    ensures !Spent(s.log, raw)
  {}

  lemma ExchangeIssues(s: State, r: nat, idp: I.State, ids: I.NewIds, next: Session)
    requires Inv(s) && Exchanges(s, r, idp, ids, next)
    ensures Inv(AfterExchange(s, r, idp, ids, next))
  {
    hide Spent, StoredUnspent, NextUnspent, OneUnspent, AllGenuine, Excluded, R.Inv, Issued;
    ExchangedGenuine(s, r, idp, ids, next);
    ExchangedExcluded(s, r, idp, ids, next);
    ExchangedStored(s, r, idp, ids, next);
    ExchangedNext(s, r, idp, ids, next);
    ExchangedOne(s, r, idp, ids, next);
  }

  /** A refused exchange: identity-service's history is as it was. */
  lemma RefusedKeepsInv(s: State, r: nat, idp: I.State)
    requires Inv(s) && r in s.requests && s.requests[r].Holding?
    requires R.Inv(idp) && idp.now == s.idp.now && idp.log == s.idp.log
    ensures Inv(s.(idp := idp, requests := s.requests[r := Leaving(s.requests[r].sid, true, s.requests[r].since)]))
  {
    hide R.Inv, Spent, StoredUnspent, Excluded;
    var t := s.(idp := idp, requests := s.requests[r := Leaving(s.requests[r].sid, true, s.requests[r].since)]);
    StillBeingReplaced(s, t);
    RefusedKeepsExcluded(s, t, r);
  }

  lemma RefusedKeepsExcluded(s: State, t: State, r: nat)
    requires Excluded(s) && r in s.requests && s.requests[r].Holding?
    requires t.redis == s.redis && t.idp.now == s.idp.now
    requires t.requests == s.requests[r := Leaving(s.requests[r].sid, true, s.requests[r].since)]
    ensures Excluded(t)
  {}

  /** Only the token, the user and the creation time matter. */
  lemma SameExchange(s: State, r: nat, idp: I.State, ids: I.NewIds, a: Session, b: Session)
    requires Exchanges(s, r, idp, ids, a) && b.refreshToken == a.refreshToken
    requires b.userId == a.userId && b.createdAt == a.createdAt
    ensures Exchanges(s, r, idp, ids, b)
  {
    hide R.Inv, Spent, Issued;
  }

  lemma ExchangeKeepsInv(c: Config, s: State, r: nat, call: nat, ids: I.NewIds, scopes: seq<string>, idToken: string,
                         device: string)
    requires Inv(s)
    ensures Inv(ExchangeStep(c, s, r, call, ids, scopes, idToken, device))
  {
    hide Inv, TokenEndpoint, Exchanges, Expiring;
    if r in s.requests && s.requests[r].Holding? {
      var q := s.requests[r];
      var o := TokenEndpoint(c.idp, s.idp, call, q.copy.refreshToken, ids, scopes);
      InHolding(s, r);
      if o.Some? {
        EndpointIssues(c, s, r, call, ids, scopes);
        if o.value.reply.IssuedReply? {
          SameExchange(s, r, o.value.state, ids, q.copy.(refreshToken := ids.raw),
                       Refreshed(q.copy, s.idp.now, s.idp.now + c.idp.accessTTL, ids, idToken, device));
          ExchangeIssues(s, r, o.value.state, ids,
                         Refreshed(q.copy, s.idp.now, s.idp.now + c.idp.accessTTL, ids, idToken, device));
        } else {
          RefusedKeepsInv(s, r, o.value.state);
        }
      }
    }
  }

  lemma ExchangeFailsKeepsInv(s: State, r: nat)
    requires Inv(s)
    ensures Inv(ExchangeFailsStep(s, r))
  {
    hide Inv;
    if r in s.requests && s.requests[r].Holding? && Expiring(s.requests[r].copy, s.idp.now) {
      InHolding(s, r);
      RefusedKeepsInv(s, r, s.idp);
    }
  }

  /** A holder's copy is as genuine and as expiring as when it was loaded. */
  lemma InHolding(s: State, r: nat)
    requires Inv(s) && r in s.requests && s.requests[r].Holding?
    ensures R.Inv(s.idp) && Genuine(s, s.requests[r].sid, s.requests[r].copy) && Expiring(s.requests[r].copy, s.idp.now)
  {}

  lemma EndpointIssues(c: Config, s: State, r: nat, call: nat, ids: I.NewIds, scopes: seq<string>)
    requires Inv(s) && r in s.requests && s.requests[r].Holding?
    requires TokenEndpoint(c.idp, s.idp, call, s.requests[r].copy.refreshToken, ids, scopes).Some?
    ensures
      var o := TokenEndpoint(c.idp, s.idp, call, s.requests[r].copy.refreshToken, ids, scopes).value;
      var copy := s.requests[r].copy;
      && R.Inv(o.state) && o.state.now == s.idp.now
      && if !o.reply.IssuedReply? then o.state.log == s.idp.log
         else ids.raw != "" && Exchanges(s, r, o.state, ids, copy.(refreshToken := ids.raw))
  {
    hide Inv, R.Inv, Spent, Issued, I.ReadRefreshStep, I.RotateStep, I.FreshIds;
    var raw := s.requests[r].copy.refreshToken;
    InHolding(s, r);
    EndpointLog(c.idp, s.idp, call, raw, ids, scopes);
    var o := TokenEndpoint(c.idp, s.idp, call, raw, ids, scopes).value;
    if o.reply.IssuedReply? {
      StoredRowUnspent(s.idp, raw);
      NewTokenUnspent(s.idp, o.state.log, ids.raw, Some(Sha256(raw)));
    }
  }

  /** A new login's first token starts a chain of its own, under a session id never used. */
  ghost predicate Begins(s: State, sid: Sid, idp: I.State, raw: string) {
    sid !in s.births && R.Inv(idp) && idp.now == s.idp.now && Issued(s.idp.log, idp.log, raw, None) &&
    !Spent(idp.log, raw)
  }

  function AfterCallback(c: Config, s: State, sid: Sid, idp: I.State, sess: Session): State {
    s.(idp := idp, redis := Save(s.redis, c.ttl, s.idp.now, sid, sess), owner := s.owner[sess.refreshToken := sid],
       births := s.births[sid := Birth(sess.userId, sess.createdAt)])
  }

  lemma RequestStillOk(s: State, t: State, q: Request)
    requires RequestOk(s, q) && t.idp.now == s.idp.now
    requires forall raw | raw in s.owner :: raw in t.owner && t.owner[raw] == s.owner[raw]
    requires forall sid | sid in s.births :: sid in t.births && t.births[sid] == s.births[sid]
    ensures RequestOk(t, q)
  {}

  lemma CallbackGenuine(c: Config, s: State, sid: Sid, idp: I.State, sess: Session)
    requires AllGenuine(s) && Begins(s, sid, idp, sess.refreshToken)
    ensures AllGenuine(AfterCallback(c, s, sid, idp, sess))
  {
    hide R.Inv, Spent, RequestOk, Expiring;
    assert Sha256(sess.refreshToken) !in s.idp.log;
    forall r | r in s.requests ensures RequestOk(AfterCallback(c, s, sid, idp, sess), s.requests[r]) {
      RequestStillOk(s, AfterCallback(c, s, sid, idp, sess), s.requests[r]);
    }
  }

  lemma CallbackSpends(c: Config, s: State, sid: Sid, idp: I.State, sess: Session)
    requires AllGenuine(s) && Begins(s, sid, idp, sess.refreshToken)
    requires StoredUnspent(s) && NextUnspent(s) && OneUnspent(s)
    ensures
      var t := AfterCallback(c, s, sid, idp, sess);
      StoredUnspent(t) && NextUnspent(t) && OneUnspent(t)
  {
    hide R.Inv, Spent, Issued;
    var t := AfterCallback(c, s, sid, idp, sess);
    forall x ensures Spent(idp.log, x) <==> Spent(s.idp.log, x) {
      SpentAfter(s.idp.log, idp.log, sess.refreshToken, None, x);
    }
    forall other | other in t.redis.sessions && Spent(t.idp.log, t.redis.sessions[other].session.refreshToken)
      ensures BeingReplaced(t, other, t.redis.sessions[other].session.refreshToken)
    {
      assert BeingReplaced(s, other, s.redis.sessions[other].session.refreshToken);
    }
  }

  lemma CallbackKeepsExcluded(c: Config, s: State, sid: Sid, idp: I.State, sess: Session)
    requires Excluded(s) && idp.now == s.idp.now
    ensures Excluded(AfterCallback(c, s, sid, idp, sess))
  {}

  lemma CallbackKeepsInv(c: Config, s: State, sid: Sid, call: nat, ids: I.NewIds, idToken: string, device: string)
    requires Inv(s)
    ensures Inv(CallbackStep(c, s, sid, call, ids, idToken, device))
  {
    hide I.GrantStep, Spent, Issued, R.Inv, AllGenuine, Excluded, StoredUnspent, NextUnspent, OneUnspent, C.Grows;
    if sid !in s.births && call in s.idp.codeReads {
      var o := I.GrantStep(c.idp, s.idp, call, ids);
      GrantLog(c.idp, s.idp, call, ids);
      R.GrantKeepsInv(c.idp, s.idp, call, ids);
      if o.reply.IssuedReply? {
        NewTokenUnspent(s.idp, o.state.log, ids.raw, None);
        var user := I.CodeRequest(s.idp.codeReads[call].request).Subject();
        var sess := Opened(user, ids.access, ids.raw, idToken, s.idp.now + c.idp.accessTTL, device, s.idp.now);
        CallbackGenuine(c, s, sid, o.state, sess);
        CallbackSpends(c, s, sid, o.state, sess);
        CallbackKeepsExcluded(c, s, sid, o.state, sess);
      } else {
        SameLogIsHarmless(s, o.state);
        IdpFrame(s, o.state);
      }
    }
  }

  lemma SameLogIsHarmless(s: State, t: I.State)
    requires R.Inv(t) && t.now == s.idp.now && t.log == s.idp.log
    ensures Unharmed(s, t)
  {}

  lemma InitInv()
    ensures Inv(INIT)
  {}

  lemma StepKeepsInv(c: Config, s: State, e: Event)
    requires Inv(s)
    ensures Inv(Step(c, s, e))
  {
    hide Inv, CallbackStep, ArriveStep, TryLockStep, ExchangeStep, ExchangeFailsStep, SaveStep, LeaveStep, ReloadStep,
      StoreErrorStep, I.Step;
    match e
    case Elapse(time) => if MayElapse(s, time) { ElapseKeepsInv(c, s, time); }
    case Callback(sid, call, ids, idToken, device) => CallbackKeepsInv(c, s, sid, call, ids, idToken, device);
    case Arrive(r, sid) => ArriveKeepsInv(c, s, r, sid);
    case Me(sid) => RedisFrame(s, Load(s.redis, c.ttl, s.idp.now, sid).redis);
    case TryLock(r) => TryLockKeepsInv(s, r);
    case Exchange(r, call, ids, scopes, idToken, device) =>
      ExchangeKeepsInv(c, s, r, call, ids, scopes, idToken, device);
    case ExchangeFails(r) => ExchangeFailsKeepsInv(s, r);
    case SaveNext(r) => SaveKeepsInv(c, s, r);
    case Leave(r) => LeaveKeepsInv(s, r);
    case DeleteFailed(r) => if r in s.requests && s.requests[r].Failing? { DeleteFailedKeepsInv(c, s, r); }
    case Reload(r) => ReloadKeepsInv(c, s, r);
    case StoreError(r) => StoreErrorKeepsInv(s, r);
    case Logout(sid) => RedisFrame(s, Delete(s.redis, sid));
    case Idp(event) => if IdpMay(s, event) { IdpEventKeepsInv(c, s, event); }
  }

  lemma IdpEventKeepsInv(c: Config, s: State, e: I.Event)
    requires Inv(s) && IdpMay(s, e)
    ensures Inv(s.(idp := I.Step(c.idp, s.idp, e).state))
  {
    hide R.Inv, AllGenuine, Excluded, StoredUnspent, NextUnspent, OneUnspent, Unharmed, I.Step;
    IdpIsHarmless(c.idp, s, e);
    IdpFrame(s, I.Step(c.idp, s.idp, e).state);
  }

  lemma {:induction false} RunKeepsInv(c: Config, s: State, events: seq<Event>)
    requires Inv(s)
    ensures Inv(Run(c, s, events))
    decreases |events|
  {
    hide Inv, Step;
    if events == [] {
    } else {
      StepKeepsInv(c, s, events[0]);
      RunKeepsInv(c, Step(c, s, events[0]), events[1..]);
    }
  }

  /** Some run of both services reaches the state. */
  ghost predicate Reachable(c: Config, s: State) {
    exists events :: s == Run(c, INIT, events)
  }

  lemma ReachableInv(c: Config, s: State)
    requires Reachable(c, s)
    ensures Inv(s)
  {
    hide Inv;
    var events :| s == Run(c, INIT, events);
    InitInv();
    RunKeepsInv(c, INIT, events);
  }

  // ---------------------------------------------------------- main results

  /** No two requests are ever inside the critical section of one session. */
  lemma MutualExclusion(c: Config, s: State, p: nat, r: nat)
    requires Reachable(c, s) && p in s.requests && r in s.requests
    requires Critical(s.requests[p]) && Critical(s.requests[r]) && s.requests[p].sid == s.requests[r].sid
    ensures p == r
  {
    ReachableInv(c, s);
  }

  /** A stored session's refresh token was never consumed by a rotation, except while
      the one holder of the session's lock is between its exchange and its Save. */
  lemma StoredTokenIsUnspent(c: Config, s: State, sid: Sid)
    requires Reachable(c, s) && sid in s.redis.sessions
    ensures
      var raw := s.redis.sessions[sid].session.refreshToken;
      Spent(s.idp.log, raw) ==> BeingReplaced(s, sid, raw)
  {
    ReachableInv(c, s);
  }

  /** What the holder has then is good, and the next to be stored. */
  lemma NextTokenIsUnspent(c: Config, s: State, r: nat)
    requires Reachable(c, s) && r in s.requests && s.requests[r].Exchanged?
    ensures !Spent(s.idp.log, s.requests[r].next.refreshToken)
    ensures SaveStep(c, s, r).redis.sessions[s.requests[r].sid].session == s.requests[r].next
  {
    ReachableInv(c, s);
  }

  /** auth.go:98 re-checks the copy loaded before the lock, so its branch is never taken. */
  lemma RecheckIsDead(c: Config, s: State, r: nat)
    requires Reachable(c, s) && r in s.requests && s.requests[r].Holding?
    ensures Expiring(s.requests[r].copy, s.idp.now)
  {
    ReachableInv(c, s);
    HolderGenuine(s, s.requests[r]);
  }

  /** What the re-check would have to ask: the holder's copy is spent exactly when it
      is no longer what the store holds. */
  lemma CopyIsSpentExactlyWhenStale(c: Config, s: State, r: nat)
    requires Reachable(c, s) && r in s.requests && s.requests[r].Holding? && s.requests[r].sid in s.redis.sessions
    ensures Spent(s.idp.log, s.requests[r].copy.refreshToken) <==>
      s.requests[r].copy.refreshToken != s.redis.sessions[s.requests[r].sid].session.refreshToken
  {
    hide Spent, R.Inv;
    ReachableInv(c, s);
    var sid, raw := s.requests[r].sid, s.redis.sessions[s.requests[r].sid].session.refreshToken;
    HolderGenuine(s, s.requests[r]);
    assert Genuine(s, sid, s.redis.sessions[sid].session);
    if Spent(s.idp.log, raw) {
      StoredTokenIsUnspent(c, s, sid);
    }
  }

  lemma SpentIsRefused(c: I.Config, s: I.State, call: nat, raw: string, ids: I.NewIds, scopes: seq<string>)
    requires R.Inv(s) && Spent(s.log, raw) && I.FreshIds(s, ids) && ids.raw != ""
    ensures TokenEndpoint(c, s, call, raw, ids, scopes) == Some(I.Outcome(s, I.RefreshReply(Err(NotFound))))
  {
    hide Spent, R.Inv, I.RotateStep;
    if Sha256(raw) in s.db.refreshTokens {
      StoredRowUnspent(s, raw);
    }
  }

  lemma {:induction false} RunAppend(c: Config, s: State, a: seq<Event>, b: seq<Event>)
    ensures Run(c, s, a + b) == Run(c, Run(c, s, a), b)
    decreases |a|
  {
    hide Step;
    if a == [] {
      assert a + b == b;
    } else {
      assert (a + b)[0] == a[0] && (a + b)[1..] == a[1..] + b;
      RunAppend(c, Step(c, s, a[0]), a[1..], b);
    }
  }

  lemma RunThree(c: Config, s: State, a: Event, b: Event, d: Event)
    ensures Run(c, s, [a, b, d]) == Step(c, Step(c, Step(c, s, a), b), d)
  {
    hide Step;
    assert [a, b, d][1..] == [b, d] && [b, d][1..] == [d] && [d][1..] == [];
    var t := Step(c, s, a);
    assert Run(c, t, [b, d]) == Run(c, Step(c, t, b), [d]);
  }

  /** The exchange of a stale copy is refused, and the session is deleted, however
      fresh the tokens are that another request stored meanwhile. */
  lemma StaleCopyEndsSession(c: Config, s: State, r: nat, call: nat, ids: I.NewIds, scopes: seq<string>,
                             idToken: string, device: string)
    requires Reachable(c, s) && r in s.requests && s.requests[r].Holding? && s.requests[r].sid in s.redis.sessions
    requires s.requests[r].copy.refreshToken != s.redis.sessions[s.requests[r].sid].session.refreshToken
    requires I.FreshIds(s.idp, ids) && ids.raw != ""
    ensures
      var t := Run(c, s, [Exchange(r, call, ids, scopes, idToken, device), Leave(r), DeleteFailed(r)]);
      t == s.(redis := Delete(Release(s.redis, s.requests[r].sid), s.requests[r].sid), requests := s.requests - {r})
  {
    hide Spent, Inv, Reachable, Run;
    var q := s.requests[r];
    CopyIsSpentExactlyWhenStale(c, s, r);
    ReachableInv(c, s);
    InHolding(s, r);
    SpentIsRefused(c.idp, s.idp, call, q.copy.refreshToken, ids, scopes);
    RefusalDeletes(c, s, r, call, ids, scopes, idToken, device);
  }

  lemma RefusalDeletes(c: Config, s: State, r: nat, call: nat, ids: I.NewIds, scopes: seq<string>, idToken: string,
                       device: string)
    requires r in s.requests && s.requests[r].Holding? && Expiring(s.requests[r].copy, s.idp.now)
    requires
      var raw := s.requests[r].copy.refreshToken;
      TokenEndpoint(c.idp, s.idp, call, raw, ids, scopes) == Some(I.Outcome(s.idp, I.RefreshReply(Err(NotFound))))
    ensures
      var t := Run(c, s, [Exchange(r, call, ids, scopes, idToken, device), Leave(r), DeleteFailed(r)]);
      t == s.(redis := Delete(Release(s.redis, s.requests[r].sid), s.requests[r].sid), requests := s.requests - {r})
  {
    hide Run, TokenEndpoint, CallbackStep, ArriveStep, TryLockStep, SaveStep, ReloadStep, I.Step, MayElapse, IdpMay,
      Load;
    var q := s.requests[r];
    var s1 := s.(requests := s.requests[r := Leaving(q.sid, true, q.since)]);
    var s2 := s.(redis := Release(s.redis, q.sid), requests := s.requests[r := Failing(q.sid)]);
    assert Step(c, s, Exchange(r, call, ids, scopes, idToken, device)) == s1;
    assert s1.requests[r := Failing(q.sid)] == s2.requests;
    assert Step(c, s1, Leave(r)) == s2;
    assert s2.requests - {r} == s.requests - {r};
    RunThree(c, s, Exchange(r, call, ids, scopes, idToken, device), Leave(r), DeleteFailed(r));
  }

  /** Two requests that loaded the same session: the one that locks second, after the
      first has stored the new tokens and left, holds a stale copy. */
  lemma SecondLockerIsStale(c: Config, s: State, a: nat, b: nat)
    requires Reachable(c, s) && a != b && a in s.requests && b in s.requests && s.requests[a].Exchanged?
    requires s.requests[b].Acquiring? && s.requests[b].sid == s.requests[a].sid
    requires s.requests[b].copy.refreshToken == s.requests[a].presented
    ensures
      var t := Run(c, s, [SaveNext(a), Leave(a), TryLock(b)]);
      && b in t.requests && t.requests[b] == Holding(s.requests[b].sid, s.requests[b].copy, s.idp.now)
      && s.requests[b].sid in t.redis.sessions
      && t.redis.sessions[s.requests[b].sid].session == s.requests[a].next
      && t.requests[b].copy.refreshToken != s.requests[a].next.refreshToken
  {
    hide Spent, R.Inv, Run, CallbackStep, ArriveStep, ExchangeStep, ReloadStep, I.Step, MayElapse, IdpMay, Load;
    ReachableInv(c, s);
    RunThree(c, s, SaveNext(a), Leave(a), TryLock(b));
  }

  // ---------------------------------------------------------------- lifetime

  lemma StepKeepsBirths(c: Config, s: State, e: Event, sid: Sid)
    requires sid in s.births
    ensures sid in Step(c, s, e).births && Step(c, s, e).births[sid] == s.births[sid]
  {
    hide I.Step, I.GrantStep, TokenEndpoint;
  }

  lemma {:induction false} RunKeepsBirths(c: Config, s: State, events: seq<Event>, sid: Sid)
    requires sid in s.births
    ensures sid in Run(c, s, events).births && Run(c, s, events).births[sid] == s.births[sid]
    decreases |events|
  {
    hide Step;
    if events == [] {
    } else {
      StepKeepsBirths(c, s, events[0], sid);
      RunKeepsBirths(c, Step(c, s, events[0]), events[1..], sid);
    }
  }

  /** Whatever refreshes it, a session keeps its user and creation time for ever, so
      none of them moves the hard limit. */
  lemma RefreshNeverExtends(c: Config, s: State, events: seq<Event>, sid: Sid)
    requires Reachable(c, s) && sid in s.births
    ensures
      var t := Run(c, s, events);
      && (sid in t.redis.sessions ==>
           t.redis.sessions[sid].session.userId == s.births[sid].userId &&
           t.redis.sessions[sid].session.createdAt == s.births[sid].createdAt)
      && (s.births[sid].createdAt != ZERO_TIME && t.idp.now > s.births[sid].createdAt + c.ttl.hard ==>
           Load(t.redis, c.ttl, t.idp.now, sid).session == Err(NotFound))
  {
    hide Run, Reachable, Inv;
    ReachableInv(c, s);
    RunKeepsInv(c, s, events);
    RunKeepsBirths(c, s, events, sid);
    var t := Run(c, s, events);
    if sid in t.redis.sessions {
      LoadedIsGenuine(t, sid);
    }
  }
}
