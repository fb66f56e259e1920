/** The BFF's Redis session store: keys with an expiry, and how long a session lives. */
module SessionStore {
  import opened Prelude

  type Time = int
  type Sid = string

  /** Milliseconds. */
  const LOCK_TTL: Time := 10 * 1000

  /** time.Time's zero value, which Load does not hold against a session. */
  const ZERO_TIME: Time := 0

  datatype Session = Session(
    userId: string, accessToken: string, refreshToken: string, idToken: string, tokenExpiry: Time,
    deviceSessionId: string, createdAt: Time, lastActiveAt: Time)

  datatype Entry = Entry(session: Session, expiresAt: Time)

  /** session:* keys, and the expiry of each refresh_lock:* key. */
  datatype Redis = Redis(sessions: map<Sid, Entry>, locks: map<Sid, Time>)

  datatype Ttl = Ttl(idle: Time, hard: Time)

  predicate HasSession(r: Redis, sid: Sid, now: Time) {
    sid in r.sessions && now < r.sessions[sid].expiresAt
  }

  predicate HasLock(r: Redis, sid: Sid, now: Time) {
    sid in r.locks && now < r.locks[sid]
  }

  predicate PastHardLimit(s: Session, ttl: Ttl, now: Time) {
    s.createdAt != ZERO_TIME && now > s.createdAt + ttl.hard
  }

  function Save(r: Redis, ttl: Ttl, now: Time, sid: Sid, s: Session): Redis {
    r.(sessions := r.sessions[sid := Entry(s, now + ttl.idle)])
  }

  function Delete(r: Redis, sid: Sid): Redis {
    r.(sessions := r.sessions - {sid})
  }

  datatype Loaded = Loaded(redis: Redis, session: Result<Session>)

  /** A hit slides the idle expiry; a session past its hard limit is deleted instead. */
  function Load(r: Redis, ttl: Ttl, now: Time, sid: Sid): Loaded {
    if !HasSession(r, sid, now) then Loaded(r, Err(NotFound))
    else if PastHardLimit(r.sessions[sid].session, ttl, now) then Loaded(Delete(r, sid), Err(NotFound))
    else Loaded(Save(r, ttl, now, sid, r.sessions[sid].session), Ok(r.sessions[sid].session))
  }

  datatype Acquired = Acquired(redis: Redis, ok: bool)

  /** SET NX with a time limit. */
  function Acquire(r: Redis, now: Time, sid: Sid): Acquired {
    if HasLock(r, sid, now) then Acquired(r, false) else Acquired(r.(locks := r.locks[sid := now + LOCK_TTL]), true)
  }

  /** DEL, whoever holds the key. */
  function Release(r: Redis, sid: Sid): Redis {
    r.(locks := r.locks - {sid})
  }

  /** No other session, and no lock, is touched. */
  ghost predicate OthersKept(a: Redis, b: Redis, sid: Sid) {
    b.locks == a.locks && b.sessions - {sid} == a.sessions - {sid}
  }

  class Store {
    var sessions: map<Sid, Entry>
    var locks: map<Sid, Time>
    const ttl: Ttl

    constructor (ttl: Ttl)
      ensures this.ttl == ttl && View() == Redis(map[], map[])
    {
      this.ttl, sessions, locks := ttl, map[], map[];
    }

    function View(): Redis
      reads this
    {
      Redis(sessions, locks)
    }

    method SaveSession(now: Time, sid: Sid, sess: Session)
      modifies this`sessions
      ensures View() == Save(old(View()), ttl, now, sid, sess)
      ensures forall t :: HasSession(View(), sid, t) <==> t < now + ttl.idle
      ensures OthersKept(old(View()), View(), sid)
    {
      sessions := sessions[sid := Entry(sess, now + ttl.idle)];
    }

    method LoadSession(now: Time, sid: Sid) returns (r: Result<Session>)
      modifies this`sessions
      ensures View() == Load(old(View()), ttl, now, sid).redis && r == Load(old(View()), ttl, now, sid).session
      ensures
        var created := if sid in old(sessions) then old(sessions)[sid].session.createdAt else 0;
        var found := sid in old(sessions) && now < old(sessions)[sid].expiresAt;
        if !found then r == Err(NotFound) && sessions == old(sessions)
        else if created != 0 && now - created > ttl.hard then r == Err(NotFound) && sessions == old(sessions) - {sid}
        else r == Ok(old(sessions)[sid].session) && sessions == old(sessions)[sid := Entry(r.value, now + ttl.idle)]
    {
      if sid !in sessions || now >= sessions[sid].expiresAt {
        return Err(NotFound);
      }
      sessions := sessions[sid := sessions[sid].(expiresAt := now + ttl.idle)];  // GETEX
      var sess := sessions[sid].session;
      if sess.createdAt != ZERO_TIME && now > sess.createdAt + ttl.hard {
        DeleteSession(sid);
        return Err(NotFound);
      }
      return Ok(sess);
    }

    method DeleteSession(sid: Sid)
      modifies this`sessions
      ensures View() == Delete(old(View()), sid)
      ensures forall t :: !HasSession(View(), sid, t)
      ensures OthersKept(old(View()), View(), sid)
    {
      sessions := sessions - {sid};
    }

    method AcquireRefreshLock(now: Time, sid: Sid) returns (acquired: bool)
      modifies this`locks
      ensures View() == Acquire(old(View()), now, sid).redis && acquired == Acquire(old(View()), now, sid).ok
      ensures acquired <==> sid !in old(locks) || old(locks)[sid] <= now
      ensures locks == if acquired then old(locks)[sid := now + 10 * 1000] else old(locks)
    {
      if sid in locks && now < locks[sid] {
        return false;
      }
      locks := locks[sid := now + LOCK_TTL];
      return true;
    }

    method ReleaseRefreshLock(sid: Sid)
      modifies this`locks
      ensures View() == Release(old(View()), sid)
      ensures forall other, t :: HasLock(View(), other, t) <==> other != sid && HasLock(old(View()), other, t)
    {
      locks := locks - {sid};
    }
  }

  // ---------------------------------------------------------- exact lifetime

  datatype Action = Saved(session: Session) | LoadedNow | Deleted

  datatype Call = Call(at: Time, sid: Sid, action: Action)

  function Apply(r: Redis, ttl: Ttl, c: Call): Redis {
    match c.action
    case Saved(s) => Save(r, ttl, c.at, c.sid, s)
    case LoadedNow => Load(r, ttl, c.at, c.sid).redis
    case Deleted => Delete(r, c.sid)
  }

  /** The store after a history of calls on any sessions. */
  function After(ttl: Ttl, h: seq<Call>): Redis
    decreases |h|
  {
    if h == [] then Redis(map[], map[]) else Apply(After(ttl, h[..|h| - 1]), ttl, h[|h| - 1])
  }

  datatype Touch = Touch(at: Time, session: Session)

  /** The last Save or successful Load of the session, unless deleted since; defined
      on the history alone. */
  function LastTouch(ttl: Ttl, h: seq<Call>, sid: Sid): Option<Touch>
    decreases |h|, 0
  {
    if h == [] then None
    else
      var rest, c := h[..|h| - 1], h[|h| - 1];
      if c.sid != sid then LastTouch(ttl, rest, sid)
      else match c.action
        case Saved(s) => Some(Touch(c.at, s))
        case Deleted => None
        case LoadedNow =>
          if Alive(ttl, rest, sid, c.at) then Some(Touch(c.at, LastTouch(ttl, rest, sid).value.session))
          else LastTouch(ttl, rest, sid)
  }

  /** Less than the idle TTL since the last touch, and not past the hard limit. */
  predicate Alive(ttl: Ttl, h: seq<Call>, sid: Sid, t: Time)
    ensures Alive(ttl, h, sid, t) ==> LastTouch(ttl, h, sid).Some?
    decreases |h|, 1
  {
    var last := LastTouch(ttl, h, sid);
    last.Some? && t - last.value.at < ttl.idle &&
    (last.value.session.createdAt == ZERO_TIME || t <= last.value.session.createdAt + ttl.hard)
  }

  predicate Ordered(h: seq<Call>) {
    forall i, j | 0 <= i < j < |h| :: h[i].at <= h[j].at
  }

  /** What the keys say agrees with what the history says, from `now` on. */
  predicate Tracks(ttl: Ttl, r: Redis, h: seq<Call>, sid: Sid, now: Time) {
    var last := LastTouch(ttl, h, sid);
    if sid in r.sessions then
      last == Some(Touch(r.sessions[sid].expiresAt - ttl.idle, r.sessions[sid].session))
    else
      last.Some? ==> now - last.value.at >= ttl.idle || PastHardLimit(last.value.session, ttl, now)
  }

  lemma {:induction false} HistoryTracks(ttl: Ttl, h: seq<Call>, sid: Sid, now: Time)
    requires Ordered(h) && (h != [] ==> h[|h| - 1].at <= now)
    ensures Tracks(ttl, After(ttl, h), h, sid, now)
    decreases |h|
  {
    if h == [] {
    } else {
      HistoryTracks(ttl, h[..|h| - 1], sid, h[|h| - 1].at);
    }
  }

  /** Over any history, Load at a later time succeeds exactly when the session is
      alive by the history, and returns what was last saved. */
  lemma ExactLifetime(ttl: Ttl, h: seq<Call>, sid: Sid, t: Time)
    requires Ordered(h) && (h != [] ==> h[|h| - 1].at <= t)
    ensures Load(After(ttl, h), ttl, t, sid).session ==
      if Alive(ttl, h, sid, t) then Ok(LastTouch(ttl, h, sid).value.session) else Err(NotFound)
  {
    HistoryTracks(ttl, h, sid, t);
  }

  /** However often it is loaded, and whatever is saved under it as long as creation
      times stay, a session answers no Load past the hard limit. */
  lemma HardLimitIsFinal(ttl: Ttl, h: seq<Call>, sid: Sid, t: Time, createdAt: Time)
    requires Ordered(h) && (h != [] ==> h[|h| - 1].at <= t) && createdAt != ZERO_TIME && t > createdAt + ttl.hard
    requires forall c | c in h && c.sid == sid && c.action.Saved? :: c.action.session.createdAt == createdAt
    ensures Load(After(ttl, h), ttl, t, sid).session == Err(NotFound)
  {
    ExactLifetime(ttl, h, sid, t);
    LastTouchCreatedAt(ttl, h, sid, createdAt);
  }

  lemma {:induction false} LastTouchCreatedAt(ttl: Ttl, h: seq<Call>, sid: Sid, createdAt: Time)
    requires forall c | c in h && c.sid == sid && c.action.Saved? :: c.action.session.createdAt == createdAt
    ensures LastTouch(ttl, h, sid).Some? ==> LastTouch(ttl, h, sid).value.session.createdAt == createdAt
    decreases |h|
  {
    if h == [] {
    } else {
      assert h[|h| - 1] in h;
      LastTouchCreatedAt(ttl, h[..|h| - 1], sid, createdAt);
    }
  }

  // -------------------------------------------------------------- exact lock

  datatype LockCall = Take(at: Time, sid: Sid) | Drop(at: Time, sid: Sid)

  function ApplyLock(r: Redis, c: LockCall): Redis {
    match c
    case Take(at, sid) => Acquire(r, at, sid).redis
    case Drop(_, sid) => Release(r, sid)
  }

  function AfterLocks(h: seq<LockCall>): Redis
    decreases |h|
  {
    if h == [] then Redis(map[], map[]) else ApplyLock(AfterLocks(h[..|h| - 1]), h[|h| - 1])
  }

  /** When the session's lock was last granted, unless anyone released it since;
      defined on the history alone. */
  function Granted(h: seq<LockCall>, sid: Sid): Option<Time>
    decreases |h|
  {
    if h == [] then None
    else
      var rest, c := Granted(h[..|h| - 1], sid), h[|h| - 1];
      if c.sid != sid then rest
      else if c.Drop? then None
      else if rest.Some? && c.at - rest.value < LOCK_TTL then rest
      else Some(c.at)
  }

  lemma {:induction false} GrantedIsKept(h: seq<LockCall>, sid: Sid)
    ensures var r := AfterLocks(h);
      if sid in r.locks then Granted(h, sid) == Some(r.locks[sid] - LOCK_TTL) else Granted(h, sid).None?
    decreases |h|
  {
    if h == [] {
    } else {
      GrantedIsKept(h[..|h| - 1], sid);
    }
  }

  /** Over any history, the lock is refused exactly while the last grant is younger than
      LOCK_TTL and nobody released it: a holder that never does blocks others that long. */
  lemma ExactLock(h: seq<LockCall>, sid: Sid, t: Time)
    ensures Acquire(AfterLocks(h), t, sid).ok <==> !(Granted(h, sid).Some? && t < Granted(h, sid).value + LOCK_TTL)
  {
    GrantedIsKept(h, sid);
  }
}
