/** The repositories of identity-service, statement by statement over mutable
    tables. Each method is proved against the transaction it is meant to be:
    on an error the tables are what they were before the call. */
module Repositories {
  import opened Prelude
  import opened T = Tables
  import I = TokenSystem

  class Database {
    var users: set<Id>
    var tokens: map<Id, AccessToken>
    var refreshTokens: map<TokenHash, RefreshToken>
    var devices: map<Id, DeviceSession>
    var authRequests: map<Id, AuthRequest>

    constructor ()
      ensures View() == EMPTY_TABLES
    {
      users, tokens, refreshTokens, devices, authRequests := {}, map[], map[], map[], map[];
    }

    function View(): Tables
      reads this
    {
      Tables(users, tokens, refreshTokens, devices, authRequests)
    }

    /** tx.Rollback. */
    method Rollback(begin: Tables)
      modifies this
      ensures View() == begin
    {
      users, tokens, refreshTokens := begin.users, begin.tokens, begin.refreshTokens;
      devices, authRequests := begin.devices, begin.authRequests;
    }

    method InsertToken(row: AccessToken) returns (err: Option<Error>)
      modifies this
      ensures Executed(InsertAccess(old(View()), row), old(View()), err)
    {
      if row.id in tokens {
        return Some(DuplicateKey);
      }
      tokens := tokens[row.id := row];
      return None;
    }

    method InsertRefreshToken(row: RefreshToken) returns (err: Option<Error>)
      modifies this
      ensures Executed(InsertRefresh(old(View()), row), old(View()), err)
    {
      if row.hash in refreshTokens || RefreshIdTaken(View(), row.id) {
        return Some(DuplicateKey);
      }
      if row.userId !in users || (row.deviceSessionId.Some? && row.deviceSessionId.value !in devices) {
        return Some(ForeignKey);
      }
      refreshTokens := refreshTokens[row.hash := row];
      return None;
    }

    /** The call did what the transaction does, or nothing and reported why. */
    ghost predicate Executed(r: Result<Tables>, begin: Tables, err: Option<Error>)
      reads this
    {
      match r
      case Ok(t) => err == None && View() == t
      case Err(e) => err == Some(e) && View() == begin
    }
  }

  predicate IsLive(rows: map<TokenHash, RefreshToken>, now: Time, user: Id, client: Id, h: TokenHash) {
    h in rows && rows[h].userId == user && rows[h].clientId == client && rows[h].expiration > now
  }

  /** Column by column, what a committed grant or rotation did: the consumed rows and
      their access tokens are gone, the new rows are stored, the second linked to the
      consumed row's device session if it names none, and that session was used now. */
  predicate Rotated(a: Tables, b: Tables, now: Time, access: AccessToken, refresh: RefreshToken,
                    current: Option<TokenHash>)
    requires current.Some? ==> current.value in a.refreshTokens
  {
    var gone := if current.Some? then {current.value} else {};
    var paired := if current.Some? then a.refreshTokens[current.value].accessTokenId else None;
    var inherited := if current.Some? then a.refreshTokens[current.value].deviceSessionId else None;
    var device := if refresh.deviceSessionId.Some? then refresh.deviceSessionId else inherited;
    && b.users == a.users && b.authRequests == a.authRequests
    && access.id in b.tokens && b.tokens[access.id] == access.(createdAt := now)
    && b.tokens - {access.id} == a.tokens - (if paired.Some? then {paired.value} else {}) - {access.id}
    && refresh.hash in b.refreshTokens
    && b.refreshTokens[refresh.hash] == refresh.(createdAt := now, deviceSessionId := device)
    && b.refreshTokens - {refresh.hash} == a.refreshTokens - gone - {refresh.hash}
    && b.devices.Keys == a.devices.Keys
    && (forall d | d in a.devices ::
          b.devices[d] == if device == Some(d) then a.devices[d].(lastUsedAt := now) else a.devices[d])
  }

  class TokenRepository {
    const db: Database

    constructor (db: Database)
      ensures this.db == db
    {
      this.db := db;
    }

    method CreateAccess(access: AccessToken) returns (err: Option<Error>)
      modifies db
      ensures db.Executed(InsertAccess(old(db.View()), access), old(db.View()), err)
      ensures err.None? <==> access.id !in old(db.tokens)
      ensures db.tokens == if err.None? then old(db.tokens)[access.id := access] else old(db.tokens)
      ensures db.View() == old(db.View()).(tokens := db.tokens)
    {
      err := db.InsertToken(access);
    }

    /** The rotation transaction: look up, delete the old access token, consume the
        presented refresh token, insert both rows, touch the device session. */
    method CreateAccessAndRefresh(now: Time, access: AccessToken, refresh: RefreshToken, current: Option<TokenHash>)
      returns (err: Option<Error>)
      modifies db
      ensures db.Executed(T.CreateAccessAndRefresh(old(db.View()), now, access, refresh, current), old(db.View()), err)
      ensures err.Some? ==> db.View() == old(db.View())
      ensures err.None? && current.Some? ==>
        current.value in old(db.refreshTokens) && old(db.refreshTokens)[current.value].expiration > now
      ensures err.None? ==>
        Rotated(old(db.View()), db.View(), now, access, refresh, current)
    {
      var begin := db.View();
      var row := refresh.(createdAt := now);
      if current.Some? {
        var oldAccessId, oldDevice: Option<Id> := None, None;
        if current.value in db.refreshTokens {
          oldAccessId := db.refreshTokens[current.value].accessTokenId;
          oldDevice := db.refreshTokens[current.value].deviceSessionId;
        }
        if row.deviceSessionId.None? && oldDevice.Some? {
          row := row.(deviceSessionId := oldDevice);
        }
        if oldAccessId.Some? {
          db.tokens := db.tokens - {oldAccessId.value};
        }
        if current.value !in db.refreshTokens || db.refreshTokens[current.value].expiration <= now {
          db.Rollback(begin);
          return Some(NotFound);
        }
        db.refreshTokens := db.refreshTokens - {current.value};
      }
      err := db.InsertToken(access.(createdAt := now));
      if err.Some? {
        db.Rollback(begin);
        return;
      }
      err := db.InsertRefreshToken(row);
      if err.Some? {
        db.Rollback(begin);
        return;
      }
      if row.deviceSessionId.Some? && row.deviceSessionId.value in db.devices {
        var d := row.deviceSessionId.value;
        db.devices := db.devices[d := db.devices[d].(lastUsedAt := now)];
      }
      hide Rotated;
      assert T.CreateAccessAndRefresh(begin, now, access, refresh, current) == Ok(db.View());
      RotationColumns(begin, now, access, refresh, current);
    }

    method GetByID(now: Time, id: Id) returns (r: Result<AccessToken>)
      ensures r == GetAccess(db.View(), now, id)
      ensures r == if id in db.tokens && db.tokens[id].expiration > now then Ok(db.tokens[id]) else Err(NotFound)
      ensures forall before | before <= now :: r == GetAccess(SweepAccess(db.View(), before), now, id)
    {
      if id in db.tokens && db.tokens[id].expiration > now {
        return Ok(db.tokens[id]);
      }
      return Err(NotFound);
    }

    method GetRefreshToken(now: Time, h: TokenHash) returns (r: Result<RefreshToken>)
      ensures r == GetRefresh(db.View(), now, h)
      ensures r == if h in db.refreshTokens && db.refreshTokens[h].expiration > now then Ok(db.refreshTokens[h])
                   else Err(NotFound)
      ensures forall before | before <= now :: r == GetRefresh(SweepRefresh(db.View(), before), now, h)
    {
      if h in db.refreshTokens && db.refreshTokens[h].expiration > now {
        return Ok(db.refreshTokens[h]);
      }
      return Err(NotFound);
    }

    /** The user and the id of a live refresh token. */
    method GetRefreshInfo(now: Time, raw: string) returns (r: Result<(Id, Id)>)
      ensures r == I.RefreshInfo(db.View(), now, raw)
      ensures
        var h := Sha256(raw);
        if h in db.refreshTokens && db.refreshTokens[h].expiration > now
        then r == Ok((db.refreshTokens[h].userId, db.refreshTokens[h].id)) else r == Err(NotFound)
    {
      var row := GetRefreshToken(now, Sha256(raw));
      if row.Err? {
        return Err(row.error);
      }
      return Ok((row.value.userId, row.value.id));
    }

    method DeleteByUserAndClient(user: Id, client: Id)
      modifies db
      ensures db.View() == TerminateSession(old(db.View()), user, client)
      ensures forall h | h in old(db.refreshTokens) :: h !in db.refreshTokens <==>
        old(db.refreshTokens)[h].userId == user && old(db.refreshTokens)[h].clientId == client
      ensures forall a | a in old(db.tokens) :: a !in db.tokens <==>
        old(db.tokens)[a].subject == user && old(db.tokens)[a].clientId == client
      ensures OnlyRemoved(old(db.View()), db.View())
    {
      db.refreshTokens := map h | h in db.refreshTokens &&
        !(db.refreshTokens[h].userId == user && db.refreshTokens[h].clientId == client) :: db.refreshTokens[h];
      db.tokens := map a | a in db.tokens && !(db.tokens[a].subject == user && db.tokens[a].clientId == client) ::
                     db.tokens[a];
    }

    method Revoke(id: Id, client: Id) returns (err: Option<Error>)
      modifies db
      ensures db.Executed(RevokeAccess(old(db.View()), id, client), old(db.View()), err)
      ensures err == if id in old(db.tokens) && old(db.tokens)[id].clientId == client then None else Some(NotFound)
      ensures err.None? ==> id !in db.tokens
      ensures db.View() == old(db.View()).(tokens := db.tokens) && db.tokens - {id} == old(db.tokens) - {id}
    {
      if !(id in db.tokens && db.tokens[id].clientId == client) {
        return Some(NotFound);
      }
      db.tokens := db.tokens - {id};
      return None;
    }

    method RevokeRefreshToken(h: TokenHash, client: Id) returns (err: Option<Error>)
      modifies db
      ensures db.Executed(RevokeRefresh(old(db.View()), h, client), old(db.View()), err)
      ensures err == if h in old(db.refreshTokens) && old(db.refreshTokens)[h].clientId == client then None
                     else Some(NotFound)
      ensures err.None? ==> h !in db.refreshTokens
      ensures db.View() == old(db.View()).(refreshTokens := db.refreshTokens)
      ensures db.refreshTokens - {h} == old(db.refreshTokens) - {h}
    {
      if !(h in db.refreshTokens && db.refreshTokens[h].clientId == client) {
        return Some(NotFound);
      }
      db.refreshTokens := db.refreshTokens - {h};
      return None;
    }

    /** Two statements; the counts are their RowsAffected. */
    method DeleteExpired(before: Time) returns (accessDeleted: nat, refreshDeleted: nat)
      modifies db
      ensures db.View() == SweepRefresh(SweepAccess(old(db.View()), before), before)
      ensures forall a :: a in db.tokens <==> a in old(db.tokens) && old(db.tokens)[a].expiration >= before
      ensures forall h :: h in db.refreshTokens <==>
        h in old(db.refreshTokens) && old(db.refreshTokens)[h].expiration >= before
      ensures OnlyRemoved(old(db.View()), db.View())
      ensures accessDeleted == |old(db.tokens)| - |db.tokens|
      ensures refreshDeleted == |old(db.refreshTokens)| - |db.refreshTokens|
    {
      accessDeleted := DeleteExpiredAccess(before);
      refreshDeleted := DeleteExpiredRefresh(before);
    }

    method DeleteExpiredAccess(before: Time) returns (deleted: nat)
      modifies db`tokens
      ensures db.View() == SweepAccess(old(db.View()), before)
      ensures deleted == |old(db.tokens)| - |db.tokens|
    {
      var expired := set a | a in db.tokens && db.tokens[a].expiration < before;
      deleted := |expired|;
      RemovalCount(db.tokens, expired);
      db.tokens := db.tokens - expired;
    }

    method DeleteExpiredRefresh(before: Time) returns (deleted: nat)
      modifies db`refreshTokens
      ensures db.View() == SweepRefresh(old(db.View()), before)
      ensures deleted == |old(db.refreshTokens)| - |db.refreshTokens|
    {
      var expired := set h | h in db.refreshTokens && db.refreshTokens[h].expiration < before;
      deleted := |expired|;
      RemovalCount(db.refreshTokens, expired);
      db.refreshTokens := db.refreshTokens - expired;
    }

    method GetLatestDeviceSessionID(now: Time, user: Id, client: Id) returns (d: Option<Id>)
      ensures var answers := LatestDevices(db.View(), now, user, client);
              if answers == {} then d == None else d in answers
      ensures (exists h :: IsLive(db.refreshTokens, now, user, client, h)) ==>
        exists h :: IsLive(db.refreshTokens, now, user, client, h) && db.refreshTokens[h].deviceSessionId == d &&
                    forall g | IsLive(db.refreshTokens, now, user, client, g) ::
                      db.refreshTokens[g].createdAt <= db.refreshTokens[h].createdAt
      ensures !(exists h :: IsLive(db.refreshTokens, now, user, client, h)) ==> d == None
    {
      LiveRows(db.View(), now, user, client);
      var rows := set h | h in db.refreshTokens && Candidate(db.View(), now, user, client, h);
      if rows == {} {
        forall h | h in db.refreshTokens ensures !Candidate(db.View(), now, user, client, h) {
          assert h !in rows;
        }
        return None;
      }
      var best :| best in rows;
      var rest := rows - {best};
      while rest != {}
        invariant best in rows && rest <= rows
        invariant forall g | g in rows && g !in rest ::
                    db.refreshTokens[g].createdAt <= db.refreshTokens[best].createdAt
        decreases rest
      {
        var h :| h in rest;
        if db.refreshTokens[h].createdAt > db.refreshTokens[best].createdAt {
          best := h;
        }
        rest := rest - {h};
      }
      assert LatestRow(db.View(), now, user, client, best);
      assert db.refreshTokens[best].deviceSessionId in LatestDevices(db.View(), now, user, client);
      return db.refreshTokens[best].deviceSessionId;
    }
  }

  lemma LiveRows(db: Tables, now: Time, user: Id, client: Id)
    ensures forall h :: IsLive(db.refreshTokens, now, user, client, h) <==> Candidate(db, now, user, client, h)
  {}

  lemma RotationColumns(db: Tables, now: Time, access: AccessToken, refresh: RefreshToken, current: Option<TokenHash>)
    requires T.CreateAccessAndRefresh(db, now, access, refresh, current).Ok?
    ensures current.Some? ==> current.value in db.refreshTokens && db.refreshTokens[current.value].expiration > now
    ensures Rotated(db, T.CreateAccessAndRefresh(db, now, access, refresh, current).value, now, access, refresh,
                    current)
  {
    hide IssuePair;
    if current.None? {
      PairColumns(db, now, access, refresh);
    } else {
      PairColumns(Consume(db, current.value), now, access, WithDevice(refresh, db.refreshTokens[current.value]));
    }
  }

  lemma PairColumns(db: Tables, now: Time, access: AccessToken, refresh: RefreshToken)
    requires IssuePair(db, now, access, refresh).Ok?
    ensures
      var t := IssuePair(db, now, access, refresh).value;
      && t.users == db.users && t.authRequests == db.authRequests
      && t.tokens == db.tokens[access.id := access.(createdAt := now)]
      && t.refreshTokens == db.refreshTokens[refresh.hash := refresh.(createdAt := now)]
      && t.devices.Keys == db.devices.Keys
      && (forall d | d in db.devices :: t.devices[d] ==
            if refresh.deviceSessionId == Some(d) then db.devices[d].(lastUsedAt := now) else db.devices[d])
  {}

  /** RowsAffected of a DELETE. */
  lemma RemovalCount<K, V>(m: map<K, V>, gone: set<K>)
    requires gone <= m.Keys
    ensures |m - gone| == |m| - |gone|
  {}

  predicate IsActive(devices: map<Id, DeviceSession>, d: Id, user: Id) {
    d in devices && devices[d].userId == user && devices[d].revokedAt.None?
  }

  /** ON DELETE SET NULL: the rows that named a deleted session name none now; nothing else changed. */
  ghost predicate Unlinked(a: Tables, b: Tables, gone: set<Id>) {
    && b.users == a.users && b.tokens == a.tokens && b.devices == a.devices - gone
    && b.refreshTokens.Keys == a.refreshTokens.Keys && b.authRequests.Keys == a.authRequests.Keys
    && (forall h | h in a.refreshTokens :: b.refreshTokens[h] ==
          var d := a.refreshTokens[h].deviceSessionId;
          if d.Some? && d.value in gone then a.refreshTokens[h].(deviceSessionId := None) else a.refreshTokens[h])
    && (forall r | r in a.authRequests :: b.authRequests[r] ==
          var d := a.authRequests[r].deviceSessionId;
          if d.Some? && d.value in gone then a.authRequests[r].(deviceSessionId := None) else a.authRequests[r])
  }

  /** Distinct rows, most recently used first. */
  ghost predicate ByLastUse(devices: map<Id, DeviceSession>, ids: seq<Id>) {
    (forall i | 0 <= i < |ids| :: ids[i] in devices) &&
    (forall i, j | 0 <= i < j < |ids| :: ids[i] != ids[j] && devices[ids[i]].lastUsedAt >= devices[ids[j]].lastUsedAt)
  }

  class DeviceSessionRepository {
    const db: Database

    constructor (db: Database)
      ensures this.db == db
    {
      this.db := db;
    }

    method Create(now: Time, id: Id, user: Id, userAgent: string, ip: string, name: string) returns (r: Result<Id>)
      modifies db
      ensures r.Ok? <==> id !in old(db.devices) && user in old(db.users)
      ensures db.View() == old(db.View()).(devices := db.devices)
      ensures r.Ok? ==> r.value == id
      ensures r.Ok? ==>
        db.devices == old(db.devices)[id := DeviceSession(id, user, userAgent, ip, name, now, now, None)]
      ensures match CreateDevice(old(db.View()), DeviceSession(id, user, userAgent, ip, name, now, now, None))
              case Ok(t) => r == Ok(id) && db.View() == t
              case Err(e) => r == Err(e) && db.View() == old(db.View())
    {
      if id in db.devices {
        return Err(DuplicateKey);
      }
      if user !in db.users {
        return Err(ForeignKey);
      }
      db.devices := db.devices[id := DeviceSession(id, user, userAgent, ip, name, now, now, None)];
      return Ok(id);
    }

    method FindOrCreate(now: Time, id: Id, freshId: Id, user: Id, userAgent: string, ip: string, name: string)
      returns (r: Result<Id>)
      modifies db
      ensures db.View() == old(db.View()).(devices := db.devices)
      ensures IsActive(old(db.devices), id, user) ==> r == Ok(id)
      ensures IsActive(old(db.devices), id, user) ==>
        var row := old(db.devices)[id];
        db.devices == old(db.devices)[id := row.(userAgent := userAgent, ipAddress := ip, lastUsedAt := now)]
      ensures !IsActive(old(db.devices), id, user) && r.Ok? ==>
        r.value !in old(db.devices) && r.value == (if id in old(db.devices) then freshId else id) &&
        db.devices == old(db.devices)[r.value := DeviceSession(r.value, user, userAgent, ip, name, now, now, None)]
      ensures r.Err? ==> db.devices == old(db.devices) && !IsActive(old(db.devices), id, user)
      ensures r.Err? ==> user !in old(db.users) || (id in old(db.devices) && freshId in old(db.devices))
      ensures match FindOrCreateDevice(old(db.View()), now, id, freshId, user, userAgent, ip, name)
              case Ok(found) => r == Ok(found.id) && db.View() == found.db
              case Err(e) => r == Err(e) && db.View() == old(db.View())
    {
      if id in db.devices {
        var ds := db.devices[id];
        if ds.userId != user || ds.revokedAt.Some? {
          r := Create(now, freshId, user, userAgent, ip, name);
          return;
        }
        db.devices := db.devices[id := ds.(userAgent := userAgent, ipAddress := ip, lastUsedAt := now)];
        return Ok(id);
      }
      r := Create(now, id, user, userAgent, ip, name);
    }

    method RevokeByID(now: Time, id: Id, user: Id) returns (err: Option<Error>)
      modifies db
      ensures db.Executed(RevokeDevice(old(db.View()), now, id, user), old(db.View()), err)
      ensures err == if IsActive(old(db.devices), id, user) then None else Some(NotFound)
      ensures err.Some? ==> db.View() == old(db.View())
      ensures err.None? ==>
        && OnlyRemoved(old(db.View()).(devices := db.devices), db.View()) && db.tokens == old(db.tokens)
        && db.devices == old(db.devices)[id := old(db.devices)[id].(revokedAt := Some(now))]
        && (forall h | h in old(db.refreshTokens) ::
              h !in db.refreshTokens <==> old(db.refreshTokens)[h].deviceSessionId == Some(id))
    {
      if !(id in db.devices && db.devices[id].userId == user && db.devices[id].revokedAt.None?) {
        return Some(NotFound);
      }
      db.devices := db.devices[id := db.devices[id].(revokedAt := Some(now))];
      db.refreshTokens := map h | h in db.refreshTokens && db.refreshTokens[h].deviceSessionId != Some(id) ::
                            db.refreshTokens[h];
      return None;
    }

    /** The rows in ORDER BY last_used_at DESC, appended one by one. */
    method ListActiveByUserID(user: Id) returns (sessions: seq<Id>)
      ensures forall d :: d in sessions <==> d in ActiveDevices(db.View(), user)
      ensures forall d :: d in sessions <==> IsActive(db.devices, d, user)
      ensures ByLastUse(db.devices, sessions)
    {
      var rows := ActiveDevices(db.View(), user);
      sessions := [];
      while rows != {}
        invariant rows <= ActiveDevices(db.View(), user)
        invariant forall d :: d in sessions <==> d in ActiveDevices(db.View(), user) && d !in rows
        invariant ByLastUse(db.devices, sessions)
        invariant forall i, d | 0 <= i < |sessions| && d in rows ::
                    db.devices[sessions[i]].lastUsedAt >= db.devices[d].lastUsedAt
        decreases rows
      {
        var next := MostRecent(rows);
        sessions := sessions + [next];
        rows := rows - {next};
      }
    }

    method MostRecent(rows: set<Id>) returns (best: Id)
      requires rows != {} && rows <= db.devices.Keys
      ensures best in rows && forall d | d in rows :: db.devices[d].lastUsedAt <= db.devices[best].lastUsedAt
    {
      best :| best in rows;
      var rest := rows - {best};
      while rest != {}
        invariant best in rows && rest <= rows
        invariant forall d | d in rows && d !in rest :: db.devices[d].lastUsedAt <= db.devices[best].lastUsedAt
        decreases rest
      {
        var d :| d in rest;
        if db.devices[d].lastUsedAt > db.devices[best].lastUsedAt {
          best := d;
        }
        rest := rest - {d};
      }
    }

    method DeleteRevokedBefore(now: Time, before: Time) returns (deleted: nat)
      modifies db
      ensures db.View() == T.DeleteRevokedBefore(old(db.View()), now, before)
      ensures Unlinked(old(db.View()), db.View(), old(db.devices).Keys - db.devices.Keys)
      ensures forall d | d in old(db.devices) :: d !in db.devices <==>
        old(db.devices)[d].revokedAt.Some? && old(db.devices)[d].revokedAt.value < before &&
        forall h | h in old(db.refreshTokens) && old(db.refreshTokens)[h].deviceSessionId == Some(d) ::
          old(db.refreshTokens)[h].expiration <= now
      ensures deleted == |old(db.devices)| - |db.devices|
    {
      var gone := set d | d in db.devices && db.devices[d].revokedAt.Some? && db.devices[d].revokedAt.value < before
                        && !HasLiveToken(db.View(), now, d);
      deleted := |gone|;
      RemovalCount(db.devices, gone);
      db.devices := db.devices - gone;
      db.refreshTokens := map h | h in db.refreshTokens ::
        db.refreshTokens[h].(deviceSessionId := Unlink(db.refreshTokens[h].deviceSessionId, gone));
      db.authRequests := map r | r in db.authRequests ::
        db.authRequests[r].(deviceSessionId := Unlink(db.authRequests[r].deviceSessionId, gone));
    }
  }

  predicate Carries(rows: map<Id, AuthRequest>, id: Id, code: string) {
    id in rows && rows[id].code == Some(code)
  }

  class AuthRequestService {
    const db: Database
    const ttl: Time

    constructor (db: Database, ttl: Time)
      ensures this.db == db && this.ttl == ttl
    {
      this.db, this.ttl := db, ttl;
    }

    /** Columns that the statement does not name take their defaults. */
    method Create(now: Time, id: Id, clientId: Id, scopes: seq<string>) returns (err: Option<Error>)
      modifies db
      ensures db.Executed(
        InsertAuthRequest(old(db.View()), AuthRequest(id, clientId, scopes, None, None, [], false, None, now, None)),
        old(db.View()), err)
      ensures err.None? <==> id !in old(db.authRequests)
      ensures db.View() == old(db.View()).(authRequests := db.authRequests)
      ensures err.None? ==>
        db.authRequests - {id} == old(db.authRequests) && id in db.authRequests &&
        var r := db.authRequests[id];
        && r.id == id && r.clientId == clientId && r.scopes == scopes && r.createdAt == now
        && r.userId.None? && r.authTime.None? && r.amr == [] && !r.isDone && r.code.None? && r.deviceSessionId.None?
    {
      if id in db.authRequests {
        return Some(DuplicateKey);
      }
      var row := AuthRequest(id, clientId, scopes, None, None, [], false, None, now, None);
      db.authRequests := db.authRequests[id := row];
      return None;
    }

    method GetByID(now: Time, id: Id) returns (r: Result<AuthRequest>)
      ensures r == GetAuthRequest(db.View(), ttl, now, id)
      ensures r == if id in db.authRequests && now <= db.authRequests[id].createdAt + ttl then Ok(db.authRequests[id])
                   else Err(NotFound)
      ensures forall cutoff | cutoff <= now - ttl ::
                r == GetAuthRequest(SweepAuthRequests(db.View(), cutoff), ttl, now, id)
    {
      if id !in db.authRequests {
        return Err(NotFound);
      }
      var ar := db.authRequests[id];
      if now > ar.createdAt + ttl {
        return Err(NotFound);
      }
      return Ok(ar);
    }

    /** Takes whichever row the query returns first. */
    method GetByCode(now: Time, code: string) returns (r: Result<AuthRequest>)
      ensures r in GetAuthRequestByCode(db.View(), ttl, now, code)
      ensures r.Ok? ==>
        exists id :: Carries(db.authRequests, id, code) && r.value == db.authRequests[id] &&
          now <= r.value.createdAt + ttl
      ensures r.Err? && (exists id :: Carries(db.authRequests, id, code)) ==>
        exists id :: Carries(db.authRequests, id, code) && now > db.authRequests[id].createdAt + ttl
      ensures r.Err? ==> r == Err(NotFound)
    {
      var rows := set id | id in db.authRequests && db.authRequests[id].code == Some(code);
      if rows == {} {
        forall id | id in db.authRequests ensures !Carries(db.authRequests, id, code) {
          assert id !in rows;
        }
        return Err(NotFound);
      }
      var id :| id in rows;
      assert Carries(db.authRequests, id, code);
      r := GetByID(now, id);
    }

    method SaveCode(id: Id, code: string)
      modifies db
      ensures db.View() == T.SaveCode(old(db.View()), id, code)
      ensures db.View() == old(db.View()).(authRequests := db.authRequests)
      ensures db.authRequests == if id !in old(db.authRequests) then old(db.authRequests)
                                 else old(db.authRequests)[id := old(db.authRequests)[id].(code := Some(code))]
    {
      if id in db.authRequests {
        db.authRequests := db.authRequests[id := db.authRequests[id].(code := Some(code))];
      }
    }

    method CompleteLogin(id: Id, user: Id, authTime: Time, amr: seq<string>, d: Option<Id>) returns (err: Option<Error>)
      modifies db
      ensures db.Executed(T.CompleteLogin(old(db.View()), id, user, authTime, amr, d), old(db.View()), err)
      ensures err == if id in old(db.authRequests) && d.Some? && d.value !in db.devices then Some(ForeignKey) else None
      ensures db.View() == old(db.View()).(authRequests := db.authRequests)
      ensures db.authRequests - {id} == old(db.authRequests) - {id}
      ensures id in db.authRequests <==> id in old(db.authRequests)
      ensures err.None? && id in db.authRequests ==>
        var a, b := old(db.authRequests)[id], db.authRequests[id];
        && b.userId == Some(user) && b.authTime == Some(authTime) && b.amr == amr && b.isDone && b.deviceSessionId == d
        && b.id == a.id && b.clientId == a.clientId && b.scopes == a.scopes && b.code == a.code
        && b.createdAt == a.createdAt
    {
      if id in db.authRequests {
        if d.Some? && d.value !in db.devices {
          return Some(ForeignKey);
        }
        var ar := db.authRequests[id];
        ar := ar.(userId := Some(user), authTime := Some(authTime), amr := amr);
        ar := ar.(isDone := true, deviceSessionId := d);
        db.authRequests := db.authRequests[id := ar];
      }
      return None;
    }

    method Delete(id: Id)
      modifies db
      ensures db.View() == DeleteAuthRequest(old(db.View()), id)
      ensures id !in db.authRequests && db.authRequests == old(db.authRequests) - {id}
      ensures db.View() == old(db.View()).(authRequests := db.authRequests)
    {
      db.authRequests := db.authRequests - {id};
    }

    /** runAuthRequestCleanup: cutoff = now - ttl. */
    method CleanUp(now: Time) returns (deleted: nat)
      modifies db
      ensures db.View() == SweepAuthRequests(old(db.View()), now - ttl)
      ensures db.View() == old(db.View()).(authRequests := db.authRequests)
      ensures forall r ::
        r in db.authRequests <==> r in old(db.authRequests) && old(db.authRequests)[r].createdAt + ttl >= now
      ensures forall r | r in db.authRequests :: db.authRequests[r] == old(db.authRequests)[r]
      ensures deleted == |old(db.authRequests)| - |db.authRequests|
    {
      var cutoff := now - ttl;
      var expired := set r | r in db.authRequests && db.authRequests[r].createdAt < cutoff;
      deleted := |expired|;
      RemovalCount(db.authRequests, expired);
      db.authRequests := db.authRequests - expired;
    }
  }
}
