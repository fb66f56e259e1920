/** The statements of RevocationRace, when nobody interferes, are the transactions of Tables:
    a grant, a rotation, a revocation and the deletes each leave what the transaction does. */
module SerialRace {
  import opened Prelude
  import opened Tables
  import opened RevocationRace
  import R = RotationChains

  /** The race's view of the committed tables. */
  ghost predicate Abstracts(s: State, db: Tables) {
    s.rows.Keys == db.refreshTokens.Keys && s.tokens == db.tokens.Keys && s.sessions.Keys == db.devices.Keys &&
    (forall h | h in s.rows ::
       s.rows[h] == Row(db.refreshTokens[h].deviceSessionId, db.refreshTokens[h].accessTokenId)) &&
    (forall d | d in s.sessions :: s.sessions[d] == db.devices[d].revokedAt.Some?)
  }

  /** Nobody holds a lock, and the transaction's number is free. */
  predicate Quiet(s: State, i: TxId) {
    s.locks == map[] && i !in s.txs
  }

  lemma RunFrom(s: State, e: Event, events: seq<Event>)
    ensures Run(s, [e] + events) == Run(Step(s, e), events)
  {
    hide Step;
    assert ([e] + events)[1..] == events;
  }

  lemma RunThree(s: State, a: Event, b: Event, c: Event)
    ensures Run(s, [a, b, c]) == Step(Step(Step(s, a), b), c)
  {
    hide Step;
    assert [a, b, c][1..] == [b, c] && [b, c][1..] == [c] && [c][1..] == [];
    assert Run(Step(s, a), [b, c]) == Run(Step(Step(s, a), b), [c]);
  }

  // --------------------------------------------------------- issuing, alone

  /** All locks are the transaction's own, and it is in this state. */
  predicate Alone(s: State, i: TxId, tx: Tx) {
    i in s.txs && s.txs[i] == tx && forall r | r in s.locks :: s.locks[r] == i
  }

  lemma CommitAlone(s: State, i: TxId, tx: Tx, hash: TokenHash, access: Id)
    requires Alone(s, i, tx) && tx.Issuing? && tx.pc == Touched && hash !in s.used && access !in s.tokens
    ensures
      var t := Step(s, CommitIssue(i, hash, access));
      && t.rows == (if tx.current.Some? then s.rows - {tx.current.value} else s.rows)[
                     hash := Row(tx.device, Some(access))]
      && t.tokens == (if tx.access.Some? then s.tokens - {tx.access.value} else s.tokens) + {access}
      && t.sessions == s.sessions && t.locks == map[] && t.txs == s.txs - {i}
  {
    assert s.rows - {} == s.rows && s.tokens - {} == s.tokens;
  }

  lemma TouchAlone(s: State, i: TxId, tx: Tx)
    requires Alone(s, i, tx) && tx.Issuing? && tx.pc == Consumed
    requires tx.device.Some? ==> tx.device.value in s.sessions
    ensures
      var t := Step(Step(s, InsertRows(i)), TouchSession(i));
      t == s.(txs := s.txs[i := tx.(pc := Touched)], locks := t.locks) && Alone(t, i, tx.(pc := Touched))
  {}

  /** From the consumed row, or from the start of a grant, to the commit. */
  lemma InsertsAlone(s: State, i: TxId, tx: Tx, hash: TokenHash, access: Id)
    requires Alone(s, i, tx) && tx.Issuing? && tx.pc == Consumed && hash !in s.used && access !in s.tokens
    requires tx.device.Some? ==> tx.device.value in s.sessions
    ensures
      var t := Run(s, [InsertRows(i), TouchSession(i), CommitIssue(i, hash, access)]);
      && t.rows == (if tx.current.Some? then s.rows - {tx.current.value} else s.rows)[
                     hash := Row(tx.device, Some(access))]
      && t.tokens == (if tx.access.Some? then s.tokens - {tx.access.value} else s.tokens) + {access}
      && t.sessions == s.sessions && t.locks == map[] && t.txs == s.txs - {i}
  {
    hide Run, Step, Alone;
    RunThree(s, InsertRows(i), TouchSession(i), CommitIssue(i, hash, access));
    TouchAlone(s, i, tx);
    var t := Step(Step(s, InsertRows(i)), TouchSession(i));
    CommitAlone(t, i, tx.(pc := Touched), hash, access);
    assert t.txs - {i} == s.txs - {i};
  }

  /** The two inserts of an issue, in the race's view. */
  lemma PairAbstracts(s: State, t: State, db: Tables, now: Time, access: AccessToken, refresh: RefreshToken)
    requires Abstracts(s, db) && IssuePair(db, now, access, refresh).Ok? && refresh.accessTokenId == Some(access.id)
    requires t.sessions == s.sessions && t.tokens == s.tokens + {access.id}
    requires t.rows == s.rows[refresh.hash := Row(refresh.deviceSessionId, Some(access.id))]
    ensures Abstracts(t, IssuePair(db, now, access, refresh).value)
  {
    hide IssuePair;
    var u := IssuePair(db, now, access, refresh).value;
    R.PairRows(db, now, access, refresh);
    PairDevices(db, now, access, refresh);
    assert forall d :: d in u.devices.Keys <==> d in db.devices.Keys;
    assert forall h :: h in s.rows.Keys <==> h in db.refreshTokens.Keys;
  }

  lemma PairDevices(db: Tables, now: Time, access: AccessToken, refresh: RefreshToken)
    requires IssuePair(db, now, access, refresh).Ok?
    ensures
      var t := IssuePair(db, now, access, refresh).value;
      && t.devices.Keys == db.devices.Keys
      && (forall d | d in t.devices :: t.devices[d].revokedAt == db.devices[d].revokedAt)
      && access.id !in db.tokens && (refresh.deviceSessionId.Some? ==> refresh.deviceSessionId.value in db.devices)
  {}

  lemma GrantAlone(s: State, i: TxId, db: Tables, now: Time, access: AccessToken, refresh: RefreshToken)
    requires Abstracts(s, db) && Quiet(s, i) && refresh.hash !in s.used && refresh.accessTokenId == Some(access.id)
    requires CreateAccessAndRefresh(db, now, access, refresh, None).Ok?
    ensures
      var t := Run(Step(s, BeginGrant(i, refresh.deviceSessionId)),
                   [InsertRows(i), TouchSession(i), CommitIssue(i, refresh.hash, access.id)]);
      && Abstracts(t, CreateAccessAndRefresh(db, now, access, refresh, None).value) && Quiet(t, i) && t.txs == s.txs
  {
    hide Run, IssuePair, IssueStep;
    var begun := Step(s, BeginGrant(i, refresh.deviceSessionId));
    PairDevices(db, now, access, refresh);
    assert refresh.deviceSessionId.Some? ==> refresh.deviceSessionId.value in s.sessions.Keys;
    InsertsAlone(begun, i, begun.txs[i], refresh.hash, access.id);
    assert begun.txs - {i} == s.txs;
    PairAbstracts(s, Run(begun, [InsertRows(i), TouchSession(i), CommitIssue(i, refresh.hash, access.id)]), db, now,
                  access, refresh);
  }

  lemma DeletesAccessAlone(s: State, i: TxId, h: TokenHash)
    requires Quiet(s, i) && h in s.rows
    ensures
      var t := Step(Step(Step(s, BeginRotation(i, h)), Lookup(i)), DeleteAccess(i));
      var access := s.rows[h].access;
      var tx := Issuing(AccessDeleted, Some(h), s.rows[h].device,
                        if access.Some? && access.value in s.tokens then access else None);
      && t == s.(txs := s.txs[i := tx], locks := t.locks) && Alone(t, i, tx)
      && (RefreshRow(h) in t.locks ==> t.locks[RefreshRow(h)] == i)
  {
    hide RevokeStep, PurgeStep;
  }

  /** Up to the deleted refresh token. */
  lemma ConsumesAlone(s: State, i: TxId, h: TokenHash)
    requires Quiet(s, i) && h in s.rows
    ensures
      var begun := Step(s, BeginRotation(i, h));
      var t := Run(begun, [Lookup(i), DeleteAccess(i), ConsumeRefresh(i)]);
      var access := s.rows[h].access;
      var tx := Issuing(Consumed, Some(h), s.rows[h].device,
                        if access.Some? && access.value in s.tokens then access else None);
      t == s.(txs := s.txs[i := tx], locks := t.locks) && Alone(t, i, tx)
  {
    hide Run, Step;
    var begun := Step(s, BeginRotation(i, h));
    RunThree(begun, Lookup(i), DeleteAccess(i), ConsumeRefresh(i));
    DeletesAccessAlone(s, i, h);
    var t := Step(Step(begun, Lookup(i)), DeleteAccess(i));
    TakesRefresh(t, i, h);
  }

  lemma TakesRefresh(s: State, i: TxId, h: TokenHash)
    requires At(s, i, AccessDeleted) && s.txs[i].current == Some(h) && h in s.rows
    requires forall r | r in s.locks :: s.locks[r] == i
    ensures
      var t := Step(s, ConsumeRefresh(i));
      t == s.(txs := s.txs[i := s.txs[i].(pc := Consumed)], locks := s.locks[RefreshRow(h) := i])
  {}

  lemma LooksInVain(s: State, i: TxId, h: TokenHash)
    requires Quiet(s, i) && h !in s.rows
    ensures Step(Step(Step(s, BeginRotation(i, h)), Lookup(i)), DeleteAccess(i)) ==
      s.(txs := s.txs[i := Issuing(AccessDeleted, Some(h), None, None)])
  {
    hide RevokeStep, PurgeStep;
  }

  lemma RollsBack(s: State, i: TxId, h: TokenHash)
    requires Quiet(s, i) && h !in s.rows
    ensures Step(s.(txs := s.txs[i := Issuing(AccessDeleted, Some(h), None, None)]), ConsumeRefresh(i)) == s
  {
    hide RevokeStep, PurgeStep;
    assert s.txs[i := Issuing(AccessDeleted, Some(h), None, None)] - {i} == s.txs;
  }

  /** A rotation of a token that is not stored leaves no trace. */
  lemma RefusedAlone(s: State, i: TxId, h: TokenHash)
    requires Quiet(s, i) && h !in s.rows
    ensures Run(Step(s, BeginRotation(i, h)), [Lookup(i), DeleteAccess(i), ConsumeRefresh(i)]) == s
  {
    hide Run, Step;
    RunThree(Step(s, BeginRotation(i, h)), Lookup(i), DeleteAccess(i), ConsumeRefresh(i));
    LooksInVain(s, i, h);
    RollsBack(s, i, h);
  }

  lemma ConsumeAbstracts(s: State, db: Tables, h: TokenHash)
    requires Abstracts(s, db) && h in db.refreshTokens
    ensures
      var access := db.refreshTokens[h].accessTokenId;
      Abstracts(s.(rows := s.rows - {h}, tokens := if access.Some? then s.tokens - {access.value} else s.tokens),
                Consume(db, h))
  {
    assert forall g :: g in s.rows.Keys <==> g in db.refreshTokens.Keys;
  }

  lemma SeesRow(s: State, db: Tables, h: TokenHash)
    requires Abstracts(s, db) && h in db.refreshTokens
    ensures h in s.rows && s.rows[h] == Row(db.refreshTokens[h].deviceSessionId, db.refreshTokens[h].accessTokenId)
    ensures s.tokens == db.tokens.Keys && s.sessions.Keys == db.devices.Keys
  {
    assert h in s.rows.Keys;
  }

  /** A rotation by itself: the seven statements do what the transaction does. */
  lemma RotationAlone(s: State, i: TxId, db: Tables, now: Time, access: AccessToken, refresh: RefreshToken,
                      h: TokenHash)
    requires Abstracts(s, db) && Quiet(s, i) && refresh.hash !in s.used && access.id !in s.tokens
    requires refresh.accessTokenId == Some(access.id) && refresh.deviceSessionId.None?
    requires CreateAccessAndRefresh(db, now, access, refresh, Some(h)).Ok?
    ensures
      var begun := Step(s, BeginRotation(i, h));
      var t := Run(begun, [Lookup(i), DeleteAccess(i), ConsumeRefresh(i)] +
                          [InsertRows(i), TouchSession(i), CommitIssue(i, refresh.hash, access.id)]);
      && Abstracts(t, CreateAccessAndRefresh(db, now, access, refresh, Some(h)).value) && Quiet(t, i) && t.txs == s.txs
  {
    hide Run, IssuePair, IssueStep, Consume, Abstracts, Alone;
    var begun := Step(s, BeginRotation(i, h));
    var inserts := [InsertRows(i), TouchSession(i), CommitIssue(i, refresh.hash, access.id)];
    RunSplit(begun, [Lookup(i), DeleteAccess(i), ConsumeRefresh(i)], inserts);
    SeesRow(s, db, h);
    ConsumesAlone(s, i, h);
    var m := Run(begun, [Lookup(i), DeleteAccess(i), ConsumeRefresh(i)]);
    var row := WithDevice(refresh, db.refreshTokens[h]);
    ConsumeAbstracts(s, db, h);
    PairDevices(Consume(db, h), now, access, row);
    ConsumedDevices(db, h);
    assert row.deviceSessionId.Some? ==> row.deviceSessionId.value in s.sessions.Keys;
    InsertsAlone(m, i, m.txs[i], refresh.hash, access.id);
    assert m.txs - {i} == s.txs;
    var gone := db.refreshTokens[h].accessTokenId;
    var left := s.(rows := s.rows - {h}, tokens := if gone.Some? then s.tokens - {gone.value} else s.tokens);
    PairAbstracts(left, Run(m, inserts), Consume(db, h), now, access, row);
  }

  lemma ConsumedDevices(db: Tables, h: TokenHash)
    requires h in db.refreshTokens
    ensures Consume(db, h).devices == db.devices
  {}

  // -------------------------------------------------------- deleting, alone

  lemma DeletesOne(s: State, i: TxId, tx: Tx, h: TokenHash)
    requires Alone(s, i, tx) && tx.Revoking? && tx.phase == Deleting && h in tx.todo && tx.todo <= s.rows.Keys
    ensures
      var t, next := Step(s, DeleteOne(i, h)), tx.(todo := tx.todo - {h}, hits := tx.hits + {h});
      t == s.(txs := s.txs[i := next], locks := t.locks) && Alone(t, i, next)
  {
    hide IssueStep, PurgeStep;
    assert h in s.rows.Keys;
  }

  /** The DELETE of a revocation, row by row in any order. */
  lemma {:induction false} DeletesAlone(s: State, i: TxId, tx: Tx) returns (events: seq<Event>)
    requires Alone(s, i, tx) && tx.Revoking? && tx.phase == Deleting && tx.todo <= s.rows.Keys
    ensures
      var t := Run(s, events);
      && t == s.(txs := s.txs[i := tx.(todo := {}, hits := tx.hits + tx.todo)], locks := t.locks)
      && Alone(t, i, tx.(todo := {}, hits := tx.hits + tx.todo))
    decreases |tx.todo|
  {
    hide Step;
    if tx.todo == {} {
      events := [];
      assert tx.hits + tx.todo == tx.hits;
      assert s.txs[i := tx] == s.txs;
    } else {
      var h :| h in tx.todo;
      var t, next := Step(s, DeleteOne(i, h)), tx.(todo := tx.todo - {h}, hits := tx.hits + {h});
      DeletesOne(s, i, tx, h);
      var rest := DeletesAlone(t, i, next);
      events := [DeleteOne(i, h)] + rest;
      assert next.hits + next.todo == tx.hits + tx.todo;
      RunFrom(s, DeleteOne(i, h), rest);
    }
  }

  lemma RevokedAbstracts(s: State, t: State, db: Tables, now: Time, d: Id, user: Id)
    requires Abstracts(s, db) && RevokeDevice(db, now, d, user).Ok?
    requires t.sessions == s.sessions[d := true] && t.tokens == s.tokens && t.rows == s.rows - TokensOf(s, d)
    ensures Abstracts(t, RevokeDevice(db, now, d, user).value)
  {
    assert forall g :: g in s.rows.Keys <==> g in db.refreshTokens.Keys;
    assert forall e :: e in s.sessions.Keys <==> e in db.devices.Keys;
  }

  lemma MarksAlone(s: State, i: TxId, d: Id)
    requires Quiet(s, i) && d in s.sessions && !s.sessions[d]
    ensures
      var t := Run(s, [BeginRevocation(i, d), MarkRevoked(i), Snapshot(i)]);
      var tx := Revoking(Deleting, d, TokensOf(s, d), {});
      t == s.(txs := s.txs[i := tx], locks := t.locks) && Alone(t, i, tx)
  {
    hide Run, TokensOf, IssueStep, PurgeStep;
    RunThree(s, BeginRevocation(i, d), MarkRevoked(i), Snapshot(i));
    var t := Step(Step(s, BeginRevocation(i, d)), MarkRevoked(i));
    SameTokens(s, t, d);
  }

  lemma EndsAlone(s: State, i: TxId, tx: Tx)
    requires Alone(s, i, tx) && tx.Revoking? && tx.phase == Deleting && tx.todo == {}
    ensures Step(s, CommitRevocation(i)) ==
      s.(rows := s.rows - tx.hits, sessions := s.sessions[tx.session := true], txs := s.txs - {i}, locks := map[])
  {
    assert Ended(s, i).locks == map[];
  }

  /** A revocation by itself: the session is marked, and its tokens are gone. */
  lemma RevocationAlone(s: State, i: TxId, db: Tables, now: Time, d: Id, user: Id) returns (events: seq<Event>)
    requires Abstracts(s, db) && Quiet(s, i) && RevokeDevice(db, now, d, user).Ok?
    ensures
      var t := Run(s, events);
      Abstracts(t, RevokeDevice(db, now, d, user).value) && Quiet(t, i) && t.txs == s.txs
  {
    hide Run, Step, Alone, RevokeDevice, Abstracts;
    Active(s, db, now, d, user);
    var first := [BeginRevocation(i, d), MarkRevoked(i), Snapshot(i)];
    MarksAlone(s, i, d);
    var a := Run(s, first);
    var deletes := DeletesAlone(a, i, a.txs[i]);
    var b := Run(a, deletes);
    RunSplit(s, first, deletes);
    RunAppend(s, first + deletes, CommitRevocation(i));
    events := first + deletes + [CommitRevocation(i)];
    EndsAlone(b, i, b.txs[i]);
    assert b.txs - {i} == s.txs;
    RevokedAbstracts(s, Run(s, events), db, now, d, user);
  }

  lemma Active(s: State, db: Tables, now: Time, d: Id, user: Id)
    requires Abstracts(s, db) && RevokeDevice(db, now, d, user).Ok?
    ensures d in s.sessions && !s.sessions[d]
  {
    assert d in db.devices.Keys;
  }

  lemma PurgesOne(s: State, i: TxId, tx: Tx, r: Resource)
    requires Alone(s, i, tx) && tx.Purging?
    requires match r
             case RefreshRow(h) => h in s.rows
             case AccessRow(a) => a in s.tokens
             case DeviceRow(_) => false
    ensures
      var t := Step(s, if r.RefreshRow? then PurgeRefresh(i, r.hash) else PurgeAccess(i, r.access));
      var next :=
        if r.RefreshRow? then tx.(gone := tx.gone + {r.hash}) else tx.(goneAccess := tx.goneAccess + {r.access});
      t == s.(txs := s.txs[i := next], locks := t.locks) && Alone(t, i, next)
  {
    hide IssueStep, RevokeStep;
  }

  /** Any other transaction that deletes tokens: the rows it names, one after the other. */
  lemma {:induction false} PurgesRefresh(s: State, i: TxId, tx: Tx, rows: set<TokenHash>) returns (events: seq<Event>)
    requires Alone(s, i, tx) && tx.Purging? && rows <= s.rows.Keys
    ensures
      var t, done := Run(s, events), Purging(tx.gone + rows, tx.goneAccess);
      t == s.(txs := s.txs[i := done], locks := t.locks) && Alone(t, i, done)
    decreases |rows|
  {
    hide Step;
    if rows == {} {
      events := [];
      assert tx.gone + rows == tx.gone && s.txs[i := tx] == s.txs;
    } else {
      var h :| h in rows;
      var t := Step(s, PurgeRefresh(i, h));
      assert h in s.rows.Keys;
      PurgesOne(s, i, tx, RefreshRow(h));
      var rest := PurgesRefresh(t, i, t.txs[i], rows - {h});
      events := [PurgeRefresh(i, h)] + rest;
      assert tx.gone + {h} + (rows - {h}) == tx.gone + rows;
      RunFrom(s, PurgeRefresh(i, h), rest);
    }
  }

  lemma {:induction false} PurgesAccess(s: State, i: TxId, tx: Tx, tokens: set<Id>) returns (events: seq<Event>)
    requires Alone(s, i, tx) && tx.Purging? && tokens <= s.tokens
    ensures
      var t, done := Run(s, events), Purging(tx.gone, tx.goneAccess + tokens);
      t == s.(txs := s.txs[i := done], locks := t.locks) && Alone(t, i, done)
    decreases |tokens|
  {
    hide Step;
    if tokens == {} {
      events := [];
      assert tx.goneAccess + tokens == tx.goneAccess && s.txs[i := tx] == s.txs;
    } else {
      var a :| a in tokens;
      var t := Step(s, PurgeAccess(i, a));
      PurgesOne(s, i, tx, AccessRow(a));
      var rest := PurgesAccess(t, i, t.txs[i], tokens - {a});
      events := [PurgeAccess(i, a)] + rest;
      assert tx.goneAccess + {a} + (tokens - {a}) == tx.goneAccess + tokens;
      RunFrom(s, PurgeAccess(i, a), rest);
    }
  }

  lemma PurgeEnds(s: State, i: TxId, tx: Tx)
    requires Alone(s, i, tx) && tx.Purging?
    ensures Step(s, CommitPurge(i)) ==
      s.(rows := s.rows - tx.gone, tokens := s.tokens - tx.goneAccess, txs := s.txs - {i}, locks := map[])
  {
    assert Ended(s, i).locks == map[];
  }

  lemma RemovedAbstracts(s: State, t: State, a: Tables, b: Tables)
    requires Abstracts(s, a) && OnlyRemoved(a, b) && t.sessions == s.sessions
    requires t.rows == s.rows - (a.refreshTokens.Keys - b.refreshTokens.Keys)
    requires t.tokens == s.tokens - (a.tokens.Keys - b.tokens.Keys)
    ensures Abstracts(t, b)
  {
    assert forall h :: h in s.rows.Keys <==> h in a.refreshTokens.Keys;
    assert forall h | h in b.refreshTokens.Keys :: h in a.refreshTokens;
    assert forall x | x in b.tokens.Keys :: x in a.tokens;
  }

  /** So a purge by itself is any transaction that only removes tokens: a logout, a revoked
      token, an expiry sweep. */
  lemma PurgeAlone(s: State, i: TxId, a: Tables, b: Tables) returns (events: seq<Event>)
    requires Abstracts(s, a) && Quiet(s, i) && OnlyRemoved(a, b)
    ensures Abstracts(Run(s, events), b) && Quiet(Run(s, events), i) && Run(s, events).txs == s.txs
  {
    hide Run, Alone, Abstracts, OnlyRemoved;
    var begun := Step(s, BeginPurge(i));
    var rows, tokens := a.refreshTokens.Keys - b.refreshTokens.Keys, a.tokens.Keys - b.tokens.Keys;
    SameKeys(s, a);
    BegunAlone(s, i);
    var first := PurgesRefresh(begun, i, Purging({}, {}), rows);
    var l := Run(begun, first);
    var second := PurgesAccess(l, i, l.txs[i], tokens);
    var m := Run(l, second);
    RunSplit(begun, first, second);
    var deletes := first + second;
    PurgeEnds(m, i, m.txs[i]);
    RunAppend(begun, deletes, CommitPurge(i));
    events := [BeginPurge(i)] + (deletes + [CommitPurge(i)]);
    RunFrom(s, BeginPurge(i), deletes + [CommitPurge(i)]);
    assert m.txs - {i} == s.txs;
    assert {} + rows == rows && {} + tokens == tokens;
    RemovedAbstracts(s, Run(s, events), a, b);
  }

  lemma BegunAlone(s: State, i: TxId)
    requires Quiet(s, i)
    ensures Alone(Step(s, BeginPurge(i)), i, Purging({}, {}))
  {}

  lemma SameKeys(s: State, db: Tables)
    requires Abstracts(s, db)
    ensures s.rows.Keys == db.refreshTokens.Keys && s.tokens == db.tokens.Keys
  {}

  /** And a single-statement delete is the revocation of one refresh token. */
  lemma RevokeOneAlone(s: State, i: TxId, db: Tables, h: TokenHash, client: Id)
    requires Abstracts(s, db) && Quiet(s, i) && RevokeRefresh(db, h, client).Ok?
    ensures Abstracts(Step(s, RevokeOne(h)), RevokeRefresh(db, h, client).value)
  {
    assert forall g :: g in s.rows.Keys <==> g in db.refreshTokens.Keys;
  }
}
