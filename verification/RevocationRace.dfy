/** Rotations, grants and session revocations interleaved statement by statement
    under PostgreSQL's READ COMMITTED: a statement sees committed rows, UPDATE and
    DELETE lock the rows they hit until the transaction ends and wait for rows
    locked by others, and any transaction may be aborted at any time (a deadlock
    victim, an error, a client that went away). */
module RevocationRace {
  import opened Prelude
  import opened Tables

  type TxId = nat

  datatype Resource = AccessRow(access: Id) | RefreshRow(hash: TokenHash) | DeviceRow(device: Id)

  /** How far the issuing transaction got; a grant presents no token and starts at Consumed. */
  datatype Progress = Begun | Looked | AccessDeleted | Consumed | Inserted | Touched

  datatype Phase = Started | Marked | Deleting

  datatype Tx =
    | Issuing(pc: Progress, current: Option<TokenHash>, device: Option<Id>, access: Option<Id>)
    | Revoking(phase: Phase, session: Id, todo: set<TokenHash>, hits: set<TokenHash>)
    | Purging(gone: set<TokenHash>, goneAccess: set<Id>)  // any other transaction that deletes tokens, row by row

  datatype Row = Row(device: Option<Id>, access: Option<Id>)

  /** `rows`, `tokens` and `sessions` are what is committed; sessions maps to "revoked".
      `used` are the hashes of every token ever stored. */
  datatype State = State(
    rows: map<TokenHash, Row>,
    tokens: set<Id>,
    sessions: map<Id, bool>,
    used: set<TokenHash>,
    locks: map<Resource, TxId>,
    txs: map<TxId, Tx>)

  datatype Event =
    | NewSession(session: Id)
    | BeginRotation(tx: TxId, current: TokenHash)
    | BeginGrant(tx: TxId, device: Option<Id>)
    | BeginRevocation(tx: TxId, session: Id)
    | Lookup(tx: TxId)                              // token_repo.go:48-51
    | DeleteAccess(tx: TxId)                        // :60-66
    | ConsumeRefresh(tx: TxId)                      // :68-80
    | InsertRows(tx: TxId)                          // :83-106
    | TouchSession(tx: TxId)                        // :108-115
    | CommitIssue(tx: TxId, newHash: TokenHash, access: Id)
    | MarkRevoked(tx: TxId)                         // device_session_repo.go:86-95
    | Snapshot(tx: TxId)                            // :97, start of the DELETE
    | DeleteOne(tx: TxId, hash: TokenHash)          // :97, one row of it
    | CommitRevocation(tx: TxId)
    | BeginPurge(tx: TxId)
    | PurgeRefresh(tx: TxId, hash: TokenHash)       // token_repo.go:154
    | PurgeAccess(tx: TxId, access: Id)             // :158
    | CommitPurge(tx: TxId)
    | Abort(tx: TxId)
    | RevokeOne(hash: TokenHash)                    // any single-statement DELETE of a refresh token

  predicate Free(s: State, r: Resource, i: TxId) {
    r in s.locks ==> s.locks[r] == i
  }

  function Ended(s: State, i: TxId): State {
    s.(txs := s.txs - {i}, locks := map r | r in s.locks && s.locks[r] != i :: s.locks[r])
  }

  function Locked(s: State, i: TxId, tx: Tx, r: Resource): State {
    s.(txs := s.txs[i := tx], locks := s.locks[r := i])
  }

  predicate At(s: State, i: TxId, pc: Progress) {
    i in s.txs && s.txs[i].Issuing? && s.txs[i].pc == pc
  }

  predicate In(s: State, i: TxId, phase: Phase) {
    i in s.txs && s.txs[i].Revoking? && s.txs[i].phase == phase
  }

  function TokensOf(s: State, d: Id): set<TokenHash> {
    set h | h in s.rows && s.rows[h].device == Some(d)
  }

  function IssueStep(s: State, e: Event): State {
    match e
    case Lookup(i) =>
      if !At(s, i, Begun) || s.txs[i].current.None? then s
      else
        var h := s.txs[i].current.value;
        s.(txs := s.txs[i := if h in s.rows
                             then s.txs[i].(pc := Looked, device := s.rows[h].device, access := s.rows[h].access)
                             else s.txs[i].(pc := Looked)])
    case DeleteAccess(i) =>
      if !At(s, i, Looked) then s
      else if s.txs[i].access.None? then s.(txs := s.txs[i := s.txs[i].(pc := AccessDeleted)])
      else if !Free(s, AccessRow(s.txs[i].access.value), i) then s
      else if s.txs[i].access.value !in s.tokens then  // no row deleted, none locked
        s.(txs := s.txs[i := s.txs[i].(pc := AccessDeleted, access := None)])
      else Locked(s, i, s.txs[i].(pc := AccessDeleted), AccessRow(s.txs[i].access.value))
    case ConsumeRefresh(i) =>
      if !At(s, i, AccessDeleted) || s.txs[i].current.None? || !Free(s, RefreshRow(s.txs[i].current.value), i) then s
      else if s.txs[i].current.value !in s.rows then Ended(s, i)  // no row deleted: ErrNotFound, rollback
      else Locked(s, i, s.txs[i].(pc := Consumed), RefreshRow(s.txs[i].current.value))
    case InsertRows(i) =>
      if !At(s, i, Consumed) then s
      else if s.txs[i].device.Some? && s.txs[i].device.value !in s.sessions then Ended(s, i)  // foreign key
      else s.(txs := s.txs[i := s.txs[i].(pc := Inserted)])
    case TouchSession(i) =>
      if !At(s, i, Inserted) then s
      else if s.txs[i].device.None? then s.(txs := s.txs[i := s.txs[i].(pc := Touched)])
      else if !Free(s, DeviceRow(s.txs[i].device.value), i) then s
      else Locked(s, i, s.txs[i].(pc := Touched), DeviceRow(s.txs[i].device.value))
    case CommitIssue(i, newHash, access) =>
      if !At(s, i, Touched) || newHash in s.used || access in s.tokens then s
      else
        var consumed := if s.txs[i].current.Some? then {s.txs[i].current.value} else {};
        var deleted := if s.txs[i].access.Some? then {s.txs[i].access.value} else {};
        Ended(s.(rows := (s.rows - consumed)[newHash := Row(s.txs[i].device, Some(access))],
                 tokens := s.tokens - deleted + {access}, used := s.used + {newHash}), i)
    case _ => s
  }

  function RevokeStep(s: State, e: Event): State {
    match e
    case MarkRevoked(i) =>
      if !In(s, i, Started) || !Free(s, DeviceRow(s.txs[i].session), i) then s
      else if s.txs[i].session !in s.sessions || s.sessions[s.txs[i].session] then Ended(s, i)  // ErrNotFound
      else Locked(s, i, s.txs[i].(phase := Marked), DeviceRow(s.txs[i].session))
    case Snapshot(i) =>
      if !In(s, i, Marked) then s
      else s.(txs := s.txs[i := s.txs[i].(phase := Deleting, todo := TokensOf(s, s.txs[i].session))])
    case DeleteOne(i, h) =>
      if !In(s, i, Deleting) || h !in s.txs[i].todo || !Free(s, RefreshRow(h), i) then s
      else if h !in s.rows then s.(txs := s.txs[i := s.txs[i].(todo := s.txs[i].todo - {h})])
      else Locked(s, i, s.txs[i].(todo := s.txs[i].todo - {h}, hits := s.txs[i].hits + {h}), RefreshRow(h))
    case CommitRevocation(i) =>
      if !In(s, i, Deleting) || s.txs[i].todo != {} then s
      else Ended(s.(rows := s.rows - s.txs[i].hits, sessions := s.sessions[s.txs[i].session := true]), i)
    case _ => s
  }

  function PurgeStep(s: State, e: Event): State {
    match e
    case PurgeRefresh(i, h) =>
      if !IsPurging(s, i) || h !in s.rows || !Free(s, RefreshRow(h), i) then s
      else Locked(s, i, s.txs[i].(gone := s.txs[i].gone + {h}), RefreshRow(h))
    case PurgeAccess(i, a) =>
      if !IsPurging(s, i) || a !in s.tokens || !Free(s, AccessRow(a), i) then s
      else Locked(s, i, s.txs[i].(goneAccess := s.txs[i].goneAccess + {a}), AccessRow(a))
    case CommitPurge(i) =>
      if !IsPurging(s, i) then s
      else Ended(s.(rows := s.rows - s.txs[i].gone, tokens := s.tokens - s.txs[i].goneAccess), i)
    case _ => s
  }

  predicate IsPurging(s: State, i: TxId) {
    i in s.txs && s.txs[i].Purging?
  }

  /** An event that is not enabled, because its transaction is elsewhere or must
      wait for a lock, leaves the state alone. */
  function Step(s: State, e: Event): State {
    match e
    case NewSession(d) => if d in s.sessions then s else s.(sessions := s.sessions[d := false])
    case BeginRotation(i, h) => if i in s.txs then s else s.(txs := s.txs[i := Issuing(Begun, Some(h), None, None)])
    case BeginGrant(i, d) => if i in s.txs then s else s.(txs := s.txs[i := Issuing(Consumed, None, d, None)])
    case BeginRevocation(i, d) => if i in s.txs then s else s.(txs := s.txs[i := Revoking(Started, d, {}, {})])
    case BeginPurge(i) => if i in s.txs then s else s.(txs := s.txs[i := Purging({}, {})])
    case Abort(i) => Ended(s, i)
    case RevokeOne(h) => if RefreshRow(h) in s.locks then s else s.(rows := s.rows - {h})
    case _ => if IsIssueEvent(e) then IssueStep(s, e) else if IsPurgeEvent(e) then PurgeStep(s, e) else RevokeStep(s, e)
  }

  predicate IsPurgeEvent(e: Event) {
    e.PurgeRefresh? || e.PurgeAccess? || e.CommitPurge?
  }

  predicate IsIssueEvent(e: Event) {
    e.Lookup? || e.DeleteAccess? || e.ConsumeRefresh? || e.InsertRows? || e.TouchSession? || e.CommitIssue?
  }

  function Run(s: State, events: seq<Event>): State
    decreases |events|
  {
    if events == [] then s else Run(Step(s, events[0]), events[1..])
  }

  const EMPTY := State(map[], {}, map[], {}, map[], map[])

  // -------------------------------------------------------------- invariant

  function Rank(pc: Progress): nat {
    match pc
    case Begun => 0
    case Looked => 1
    case AccessDeleted => 2
    case Consumed => 3
    case Inserted => 4
    case Touched => 5
  }

  /** The locks a transaction holds follow from where it is. */
  predicate Holds(tx: Tx, r: Resource) {
    match (tx, r)
    case (Issuing(pc, _, _, access), AccessRow(a)) => access == Some(a) && Rank(pc) >= 2
    case (Issuing(pc, current, _, _), RefreshRow(h)) => current == Some(h) && Rank(pc) >= 3
    case (Issuing(pc, _, device, _), DeviceRow(d)) => device == Some(d) && Rank(pc) >= 5
    case (Revoking(phase, session, _, _), DeviceRow(d)) => session == d && phase != Started
    case (Revoking(_, _, _, hits), RefreshRow(h)) => h in hits
    case (Revoking(_, _, _, _), AccessRow(_)) => false
    case (Purging(gone, _), RefreshRow(h)) => h in gone
    case (Purging(_, goneAccess), AccessRow(a)) => a in goneAccess
    case (Purging(_, _), DeviceRow(_)) => false
  }

  ghost predicate LocksHeld(locks: map<Resource, TxId>, txs: map<TxId, Tx>) {
    forall r | r in locks :: locks[r] in txs && Holds(txs[locks[r]], r)
  }

  ghost predicate HoldersLock(locks: map<Resource, TxId>, txs: map<TxId, Tx>) {
    forall i, r | i in txs && Holds(txs[i], r) :: r in locks && locks[r] == i
  }

  predicate IssuingOk(rows: map<TokenHash, Row>, used: set<TokenHash>, tx: Tx)
    requires tx.Issuing?
  {
    (tx.pc == Begun ==> tx.device.None?) &&
    (tx.current.None? ==> Rank(tx.pc) >= 3) &&
    (tx.current.Some? && Rank(tx.pc) >= 3 ==> tx.current.value in rows) &&
    (tx.current.Some? && tx.device.Some? ==> tx.current.value in used) &&
    (tx.current.Some? && tx.device.Some? && tx.current.value in rows ==> rows[tx.current.value].device == tx.device)
  }

  /** While its session row is locked, nothing can be added to what it has to delete. */
  predicate RevokingOk(rows: map<TokenHash, Row>, tx: Tx)
    requires tx.Revoking?
  {
    (tx.phase != Deleting ==> tx.hits == {}) &&
    (forall h | h in tx.hits :: h in rows && rows[h].device == Some(tx.session)) &&
    (forall h | h in tx.todo && h in rows :: rows[h].device == Some(tx.session)) &&
    (forall h | h in tx.todo :: h !in tx.hits) &&
    (tx.phase == Deleting ==>
       forall h | h in rows && rows[h].device == Some(tx.session) :: h in tx.todo || h in tx.hits)
  }

  predicate TxOk(s: State, tx: Tx) {
    match tx
    case Issuing(_, _, _, _) => IssuingOk(s.rows, s.used, tx)
    case Revoking(_, _, todo, _) => RevokingOk(s.rows, tx) && todo <= s.used
    case Purging(_, _) => true
  }

  ghost predicate TxsOk(s: State) {
    forall i | i in s.txs :: TxOk(s, s.txs[i])
  }

  ghost predicate Inv(s: State) {
    LocksHeld(s.locks, s.txs) && HoldersLock(s.locks, s.txs) && TxsOk(s) && s.rows.Keys <= s.used
  }

  lemma EndedKeepsInv(s: State, i: TxId)
    requires Inv(s)
    ensures Inv(Ended(s, i))
  {}

  /** Taking a free lock and moving on. */
  lemma LockedKeepsLocks(s: State, i: TxId, tx: Tx, r: Resource)
    requires Inv(s) && i in s.txs && Free(s, r, i)
    requires forall q :: Holds(tx, q) <==> Holds(s.txs[i], q) || q == r
    ensures LocksHeld(Locked(s, i, tx, r).locks, Locked(s, i, tx, r).txs)
    ensures HoldersLock(Locked(s, i, tx, r).locks, Locked(s, i, tx, r).txs)
  {}

  /** A step of one transaction that takes no lock and changes no row. */
  lemma ProgressKeepsInv(s: State, i: TxId, tx: Tx)
    requires Inv(s) && TxOk(s, tx)
    requires forall q :: Holds(tx, q) <==> i in s.txs && Holds(s.txs[i], q)
    ensures Inv(s.(txs := s.txs[i := tx]))
  {}

  lemma LockingKeepsInv(s: State, i: TxId, tx: Tx, r: Resource)
    requires Inv(s) && i in s.txs && Free(s, r, i) && TxOk(s, tx)
    requires forall q :: Holds(tx, q) <==> Holds(s.txs[i], q) || q == r
    ensures Inv(Locked(s, i, tx, r))
  {
    LockedKeepsLocks(s, i, tx, r);
  }

  lemma IssueStepKeepsInv(s: State, e: Event)
    requires Inv(s) && IsIssueEvent(e)
    ensures Inv(IssueStep(s, e))
  {
    hide Inv;
    match e
    case Lookup(i) => LookupKeepsInv(s, i);
    case DeleteAccess(i) => DeleteAccessKeepsInv(s, i);
    case ConsumeRefresh(i) => ConsumeKeepsInv(s, i);
    case InsertRows(i) => InsertKeepsInv(s, i);
    case TouchSession(i) => TouchKeepsInv(s, i);
    case CommitIssue(i, newHash, access) => CommitIssueKeepsInv(s, i, newHash, access);
  }

  lemma LookupKeepsInv(s: State, i: TxId)
    requires Inv(s)
    ensures Inv(IssueStep(s, Lookup(i)))
  {
    if At(s, i, Begun) && s.txs[i].current.Some? {
      assert TxOk(s, s.txs[i]);
      ProgressKeepsInv(s, i, IssueStep(s, Lookup(i)).txs[i]);
    }
  }

  lemma DeleteAccessKeepsInv(s: State, i: TxId)
    requires Inv(s)
    ensures Inv(IssueStep(s, DeleteAccess(i)))
  {
    if At(s, i, Looked) {
      assert TxOk(s, s.txs[i]);
      var tx := s.txs[i].(pc := AccessDeleted);
      if tx.access.None? {
        ProgressKeepsInv(s, i, tx);
      } else if tx.access.value !in s.tokens {
        ProgressKeepsInv(s, i, tx.(access := None));
      } else if Free(s, AccessRow(tx.access.value), i) {
        LockingKeepsInv(s, i, tx, AccessRow(tx.access.value));
      }
    }
  }

  lemma ConsumeKeepsInv(s: State, i: TxId)
    requires Inv(s)
    ensures Inv(IssueStep(s, ConsumeRefresh(i)))
  {
    if At(s, i, AccessDeleted) && s.txs[i].current.Some? && Free(s, RefreshRow(s.txs[i].current.value), i) {
      assert TxOk(s, s.txs[i]);
      if s.txs[i].current.value in s.rows {
        LockingKeepsInv(s, i, s.txs[i].(pc := Consumed), RefreshRow(s.txs[i].current.value));
      } else {
        EndedKeepsInv(s, i);
      }
    }
  }

  lemma InsertKeepsInv(s: State, i: TxId)
    requires Inv(s)
    ensures Inv(IssueStep(s, InsertRows(i)))
  {
    if At(s, i, Consumed) {
      assert TxOk(s, s.txs[i]);
      if s.txs[i].device.Some? && s.txs[i].device.value !in s.sessions {
        EndedKeepsInv(s, i);
      } else {
        ProgressKeepsInv(s, i, s.txs[i].(pc := Inserted));
      }
    }
  }

  lemma TouchKeepsInv(s: State, i: TxId)
    requires Inv(s)
    ensures Inv(IssueStep(s, TouchSession(i)))
  {
    if At(s, i, Inserted) {
      assert TxOk(s, s.txs[i]);
      var tx := s.txs[i].(pc := Touched);
      if tx.device.None? {
        ProgressKeepsInv(s, i, tx);
      } else if Free(s, DeviceRow(tx.device.value), i) {
        LockingKeepsInv(s, i, tx, DeviceRow(tx.device.value));
      }
    }
  }

  /** No two transactions hold one row. */
  lemma Exclusive(s: State, i: TxId, j: TxId, r: Resource)
    requires Inv(s) && i in s.txs && j in s.txs && i != j && Holds(s.txs[i], r)
    ensures !Holds(s.txs[j], r)
  {
    assert r in s.locks && s.locks[r] == i;
  }

  /** Changing committed rows is fine for a transaction that touches neither. */
  lemma OtherTxOk(s: State, t: State, j: TxId, gone: set<TokenHash>, added: set<TokenHash>)
    requires Inv(s) && j in s.txs && s.used <= t.used && added !! s.used && added <= t.rows.Keys
    requires forall h | h in t.rows :: (h in s.rows && h !in gone && t.rows[h] == s.rows[h]) || h in added
    requires forall h | h in s.rows && h !in gone :: h in t.rows
    requires forall h | h in gone :: !Holds(s.txs[j], RefreshRow(h))
    requires forall h, d | h in added && t.rows[h].device == Some(d) :: !Holds(s.txs[j], DeviceRow(d))
    ensures TxOk(t, s.txs[j])
  {}

  /** The device row lock of line 110 is what keeps a revocation's list complete. */
  lemma CommitIssueKeepsInv(s: State, i: TxId, newHash: TokenHash, access: Id)
    requires Inv(s)
    ensures Inv(IssueStep(s, CommitIssue(i, newHash, access)))
  {
    if At(s, i, Touched) && newHash !in s.used && access !in s.tokens {
      assert TxOk(s, s.txs[i]);
      var tx := s.txs[i];
      var gone := if tx.current.Some? then {tx.current.value} else {};
      var deleted := if tx.access.Some? then {tx.access.value} else {};
      var t := s.(rows := (s.rows - gone)[newHash := Row(tx.device, Some(access))],
                  tokens := s.tokens - deleted + {access}, used := s.used + {newHash});
      forall j | j in s.txs && j != i ensures TxOk(t, s.txs[j]) {
        forall h | h in gone ensures !Holds(s.txs[j], RefreshRow(h)) {
          Exclusive(s, i, j, RefreshRow(h));
        }
        if tx.device.Some? {
          Exclusive(s, i, j, DeviceRow(tx.device.value));
        }
        OtherTxOk(s, t, j, gone, {newHash});
      }
      EndedAfterCommit(s, t, i);
    }
  }

  lemma EndedAfterCommit(s: State, t: State, i: TxId)
    requires Inv(s) && t.txs == s.txs && t.locks == s.locks && t.rows.Keys <= t.used
    requires forall j | j in s.txs && j != i :: TxOk(t, s.txs[j])
    ensures Inv(Ended(t, i))
  {}

  lemma MarkKeepsInv(s: State, i: TxId)
    requires Inv(s)
    ensures Inv(RevokeStep(s, MarkRevoked(i)))
  {
    if In(s, i, Started) && Free(s, DeviceRow(s.txs[i].session), i) {
      assert TxOk(s, s.txs[i]);
      if s.txs[i].session !in s.sessions || s.sessions[s.txs[i].session] {
        EndedKeepsInv(s, i);
      } else {
        LockingKeepsInv(s, i, s.txs[i].(phase := Marked), DeviceRow(s.txs[i].session));
      }
    }
  }

  lemma SnapshotKeepsInv(s: State, i: TxId)
    requires Inv(s)
    ensures Inv(RevokeStep(s, Snapshot(i)))
  {
    if In(s, i, Marked) {
      assert TxOk(s, s.txs[i]);
      ProgressKeepsInv(s, i, s.txs[i].(phase := Deleting, todo := TokensOf(s, s.txs[i].session)));
    }
  }

  lemma DeleteOneKeepsInv(s: State, i: TxId, h: TokenHash)
    requires Inv(s)
    ensures Inv(RevokeStep(s, DeleteOne(i, h)))
  {
    if In(s, i, Deleting) && h in s.txs[i].todo && Free(s, RefreshRow(h), i) {
      assert TxOk(s, s.txs[i]);
      if h in s.rows {
        LockingKeepsInv(s, i, s.txs[i].(todo := s.txs[i].todo - {h}, hits := s.txs[i].hits + {h}), RefreshRow(h));
      } else {
        ProgressKeepsInv(s, i, s.txs[i].(todo := s.txs[i].todo - {h}));
      }
    }
  }

  lemma CommitRevocationKeepsInv(s: State, i: TxId)
    requires Inv(s)
    ensures Inv(RevokeStep(s, CommitRevocation(i)))
  {
    if In(s, i, Deleting) && s.txs[i].todo == {} {
      assert TxOk(s, s.txs[i]);
      var gone := s.txs[i].hits;
      var t := s.(rows := s.rows - gone, sessions := s.sessions[s.txs[i].session := true]);
      forall j | j in s.txs && j != i ensures TxOk(t, s.txs[j]) {
        forall h | h in gone ensures !Holds(s.txs[j], RefreshRow(h)) {
          Exclusive(s, i, j, RefreshRow(h));
        }
        OtherTxOk(s, t, j, gone, {});
      }
      EndedAfterCommit(s, t, i);
    }
  }

  lemma PurgeKeepsInv(s: State, e: Event)
    requires Inv(s) && IsPurgeEvent(e)
    ensures Inv(PurgeStep(s, e))
  {
    hide Inv;
    if IsPurging(s, e.tx) {
      match e
      case PurgeRefresh(i, h) =>
        if h in s.rows && Free(s, RefreshRow(h), i) {
          LockingKeepsInv(s, i, s.txs[i].(gone := s.txs[i].gone + {h}), RefreshRow(h));
        }
      case PurgeAccess(i, a) =>
        if a in s.tokens && Free(s, AccessRow(a), i) {
          LockingKeepsInv(s, i, s.txs[i].(goneAccess := s.txs[i].goneAccess + {a}), AccessRow(a));
        }
      case CommitPurge(i) => CommitPurgeKeepsInv(s, i);
      case _ =>
    }
  }

  lemma CommitPurgeKeepsInv(s: State, i: TxId)
    requires Inv(s) && IsPurging(s, i)
    ensures Inv(PurgeStep(s, CommitPurge(i)))
  {
    hide TxOk, LocksHeld, HoldersLock;
    var gone := s.txs[i].gone;
    var t := s.(rows := s.rows - gone, tokens := s.tokens - s.txs[i].goneAccess);
    forall j | j in s.txs && j != i ensures TxOk(t, s.txs[j]) {
      forall h | h in gone ensures !Holds(s.txs[j], RefreshRow(h)) {
        Exclusive(s, i, j, RefreshRow(h));
      }
      OtherTxOk(s, t, j, gone, {});
    }
    EndedAfterCommit(s, t, i);
  }

  lemma NobodyHolds(s: State, r: Resource)
    requires Inv(s) && r !in s.locks
    ensures forall j | j in s.txs :: !Holds(s.txs[j], r)
  {}

  lemma RevokeOneKeepsInv(s: State, h: TokenHash)
    requires Inv(s)
    ensures Inv(Step(s, RevokeOne(h)))
  {
    hide TxOk, LocksHeld, HoldersLock, Holds, IssueStep, RevokeStep, PurgeStep;
    if RefreshRow(h) !in s.locks {
      var t := s.(rows := s.rows - {h});
      NobodyHolds(s, RefreshRow(h));
      forall j | j in s.txs ensures TxOk(t, s.txs[j]) {
        OtherTxOk(s, t, j, {h}, {});
      }
    }
  }

  lemma StepKeepsInv(s: State, e: Event)
    requires Inv(s)
    ensures Inv(Step(s, e))
  {
    hide Inv, IssueStep, RevokeStep, PurgeStep;
    match e
    case NewSession(d) => SessionKeepsInv(s, d);
    case BeginRotation(i, h) => BeginKeepsInv(s, i, Issuing(Begun, Some(h), None, None));
    case BeginGrant(i, d) => BeginKeepsInv(s, i, Issuing(Consumed, None, d, None));
    case BeginRevocation(i, d) => BeginKeepsInv(s, i, Revoking(Started, d, {}, {}));
    case BeginPurge(i) => BeginKeepsInv(s, i, Purging({}, {}));
    case PurgeRefresh(_, _) => PurgeKeepsInv(s, e);
    case PurgeAccess(_, _) => PurgeKeepsInv(s, e);
    case CommitPurge(_) => PurgeKeepsInv(s, e);
    case Abort(i) => EndedKeepsInv(s, i);
    case RevokeOne(h) => RevokeOneKeepsInv(s, h);
    case MarkRevoked(i) => MarkKeepsInv(s, i);
    case Snapshot(i) => SnapshotKeepsInv(s, i);
    case DeleteOne(i, h) => DeleteOneKeepsInv(s, i, h);
    case CommitRevocation(i) => CommitRevocationKeepsInv(s, i);
    case _ => IssueStepKeepsInv(s, e);
  }

  lemma SessionKeepsInv(s: State, d: Id)
    requires Inv(s)
    ensures Inv(s.(sessions := s.sessions[d := false]))
  {}

  lemma BeginKeepsInv(s: State, i: TxId, tx: Tx)
    requires Inv(s)
    requires (exists h :: tx == Issuing(Begun, Some(h), None, None)) ||
             (exists d :: tx == Issuing(Consumed, None, d, None)) ||
             (exists d :: tx == Revoking(Started, d, {}, {})) || tx == Purging({}, {})
    ensures i in s.txs || Inv(s.(txs := s.txs[i := tx]))
  {
    if i !in s.txs {
      ProgressKeepsInv(s, i, tx);
    }
  }

  lemma {:induction false} RunKeepsInv(s: State, events: seq<Event>)
    requires Inv(s)
    ensures Inv(Run(s, events))
    decreases |events|
  {
    hide Inv, Step;
    if events == [] {
    } else {
      StepKeepsInv(s, events[0]);
      RunKeepsInv(Step(s, events[0]), events[1..]);
    }
  }

  // ------------------------------------------------------------ main results

  /** A transaction that has yet to store a token for the session. */
  predicate MayStore(tx: Tx, d: Id) {
    tx.Issuing? && tx.device == Some(d)
  }

  /** What a committed revocation leaves: no token of the session, and every rotation
      still holding the session's id presents a token that is gone. */
  ghost predicate Final(s: State, d: Id) {
    (forall h | h in s.rows :: s.rows[h].device != Some(d)) &&
    (forall i | i in s.txs && MayStore(s.txs[i], d) :: Doomed(s, s.txs[i]))
  }

  predicate Doomed(s: State, tx: Tx)
    requires tx.Issuing?
  {
    tx.current.Some? && Rank(tx.pc) < 3 && tx.current.value !in s.rows && tx.current.value in s.used
  }

  ghost predicate NoGrantInFlight(s: State, d: Id) {
    forall i | i in s.txs && MayStore(s.txs[i], d) :: s.txs[i].current.Some?
  }

  lemma CommitIsFinal(s: State, i: TxId)
    requires Inv(s) && In(s, i, Deleting) && s.txs[i].todo == {} && NoGrantInFlight(s, s.txs[i].session)
    ensures Final(Step(s, CommitRevocation(i)), s.txs[i].session)
  {
    assert TxOk(s, s.txs[i]);
    var d := s.txs[i].session;
    var t := Step(s, CommitRevocation(i));
    forall j | j in t.txs && MayStore(t.txs[j], d) ensures Doomed(t, t.txs[j]) {
      var tx := s.txs[j];
      assert TxOk(s, tx);
      var h := tx.current.value;
      if h in s.rows {
        assert h in s.txs[i].hits;
        Exclusive(s, i, j, RefreshRow(h));
      }
    }
  }

  predicate Regrants(e: Event, d: Id) {
    e.BeginGrant? && e.device == Some(d)
  }

  /** A transaction moves, ends or begins; the committed tokens stay or go. */
  lemma FinalFrame(s: State, t: State, i: TxId, d: Id)
    requires Final(s, d) && s.used <= t.used
    requires forall h | h in t.rows ::
               (h in s.rows && t.rows[h] == s.rows[h]) || (h !in s.used && t.rows[h].device != Some(d))
    requires forall j | j in t.txs && j != i :: j in s.txs && t.txs[j] == s.txs[j]
    requires i in t.txs && MayStore(t.txs[i], d) ==> Doomed(t, t.txs[i])
    ensures Final(t, d)
  {}

  lemma LookupKeepsFinal(s: State, i: TxId, d: Id)
    requires Inv(s) && Final(s, d)
    ensures Final(IssueStep(s, Lookup(i)), d)
  {}

  lemma MoveKeepsFinal(s: State, t: State, i: TxId, tx: Tx, d: Id)
    requires Final(s, d) && i in s.txs && s.txs[i].Issuing? && t.rows == s.rows && t.used == s.used
    requires t.txs == s.txs[i := tx] || t.txs == s.txs - {i}
    requires tx.Issuing? && tx.current == s.txs[i].current && tx.device == s.txs[i].device
    requires Rank(tx.pc) < 3 || i !in t.txs || !MayStore(s.txs[i], d)
    ensures Final(t, d)
  {}

  /** A doomed rotation gets no further than the DELETE that finds no row. */
  lemma DeletesKeepFinal(s: State, e: Event, d: Id)
    requires Final(s, d) && (e.DeleteAccess? || e.ConsumeRefresh?)
    ensures Final(IssueStep(s, e), d)
  {
    var i, t := e.tx, IssueStep(s, e);
    if t != s {
      assert MayStore(s.txs[i], d) ==> Doomed(s, s.txs[i]);
      hide Final;
      MoveKeepsFinal(s, t, i, if i in t.txs then t.txs[i] else s.txs[i], d);
    }
  }

  lemma InsertsKeepFinal(s: State, e: Event, d: Id)
    requires Final(s, d) && (e.InsertRows? || e.TouchSession?)
    ensures Final(IssueStep(s, e), d)
  {
    var i, t := e.tx, IssueStep(s, e);
    if t != s {
      assert !MayStore(s.txs[i], d);
      hide Final;
      MoveKeepsFinal(s, t, i, if i in t.txs then t.txs[i] else s.txs[i], d);
    }
  }

  lemma CommitIssueKeepsFinal(s: State, i: TxId, newHash: TokenHash, access: Id, d: Id)
    requires Final(s, d)
    ensures Final(IssueStep(s, CommitIssue(i, newHash, access)), d)
  {}

  lemma IssueKeepsFinal(s: State, e: Event, d: Id)
    requires Inv(s) && Final(s, d) && IsIssueEvent(e)
    ensures Final(IssueStep(s, e), d)
  {
    hide Inv, Final, IssueStep;
    match e
    case Lookup(i) => LookupKeepsFinal(s, i, d);
    case CommitIssue(i, newHash, access) => CommitIssueKeepsFinal(s, i, newHash, access, d);
    case DeleteAccess(_) => DeletesKeepFinal(s, e, d);
    case ConsumeRefresh(_) => DeletesKeepFinal(s, e, d);
    case _ => InsertsKeepFinal(s, e, d);
  }

  lemma RevokeKeepsFinal(s: State, e: Event, d: Id)
    requires Final(s, d)
    requires e.MarkRevoked? || e.Snapshot? || e.DeleteOne? || e.CommitRevocation?
    ensures Final(RevokeStep(s, e), d)
  {}

  lemma PurgeKeepsFinal(s: State, e: Event, d: Id)
    requires Final(s, d) && IsPurgeEvent(e)
    ensures Final(PurgeStep(s, e), d)
  {
    var t := PurgeStep(s, e);
    if t != s {
      assert !(e.tx in t.txs && MayStore(t.txs[e.tx], d));
      hide Final;
      FinalFrame(s, t, e.tx, d);
    }
  }

  lemma FinalIsKept(s: State, e: Event, d: Id)
    requires Inv(s) && Final(s, d) && !Regrants(e, d)
    ensures Final(Step(s, e), d)
  {
    hide Inv, Final, IssueStep, RevokeStep, PurgeStep;
    match e
    case NewSession(x) => FinalFrame(s, Step(s, e), 0, d) by { SameTxs(s, Step(s, e), d); }
    case RevokeOne(h) => FinalFrame(s, Step(s, e), 0, d) by { SameTxs(s, Step(s, e), d); }
    case MarkRevoked(i) => RevokeKeepsFinal(s, e, d);
    case Snapshot(i) => RevokeKeepsFinal(s, e, d);
    case DeleteOne(i, h) => RevokeKeepsFinal(s, e, d);
    case CommitRevocation(i) => RevokeKeepsFinal(s, e, d);
    case PurgeRefresh(_, _) => PurgeKeepsFinal(s, e, d);
    case PurgeAccess(_, _) => PurgeKeepsFinal(s, e, d);
    case CommitPurge(_) => PurgeKeepsFinal(s, e, d);
    case BeginPurge(i) => BeginKeepsFinal(s, e, i, d);
    case BeginRotation(i, h) => BeginKeepsFinal(s, e, i, d);
    case BeginGrant(i, x) => BeginKeepsFinal(s, e, i, d);
    case BeginRevocation(i, x) => BeginKeepsFinal(s, e, i, d);
    case Abort(i) => BeginKeepsFinal(s, e, i, d);
    case _ => IssueKeepsFinal(s, e, d);
  }

  lemma SameTxs(s: State, t: State, d: Id)
    requires Final(s, d) && t.txs == s.txs && t.used == s.used && t.rows.Keys <= s.rows.Keys
    ensures 0 in t.txs && MayStore(t.txs[0], d) ==> Doomed(t, t.txs[0])
  {}

  lemma BeginKeepsFinal(s: State, e: Event, i: TxId, d: Id)
    requires Final(s, d) && !Regrants(e, d)
    requires e in {Abort(i), BeginPurge(i)} || (e.BeginRotation? && e.tx == i) || (e.BeginGrant? && e.tx == i) ||
             (e.BeginRevocation? && e.tx == i)
    ensures Final(Step(s, e), d)
  {}

  lemma {:induction false} FinalForEver(s: State, d: Id, events: seq<Event>)
    requires Inv(s) && Final(s, d) && forall e | e in events :: !Regrants(e, d)
    ensures Final(Run(s, events), d)
    decreases |events|
  {
    hide Inv, Final, Step;
    if events == [] {
    } else {
      assert events[0] in events;
      FinalIsKept(s, events[0], d);
      StepKeepsInv(s, events[0]);
      FinalForEver(Step(s, events[0]), d, events[1..]);
    }
  }

  /** No token of the session is stored at the end of this continuation. */
  predicate EndsWithoutTokens(s: State, d: Id, after: seq<Event>) {
    forall h | h in Run(s, after).rows :: Run(s, after).rows[h].device != Some(d)
  }

  /** Rotation cannot outlive revocation. Once RevokeByID commits with no code
      exchange in flight for its session, then over every continuation that starts no
      new one, the session has no refresh token and no transaction about to store one. */
  lemma RotationCannotOutliveRevocation(before: seq<Event>, i: TxId, after: seq<Event>)
    requires var s := Run(EMPTY, before);
             In(s, i, Deleting) && s.txs[i].todo == {} && NoGrantInFlight(s, s.txs[i].session) &&
             forall e | e in after :: !Regrants(e, s.txs[i].session)
    ensures
      var s := Run(EMPTY, before);
      var t := Run(Step(s, CommitRevocation(i)), after);
      && EndsWithoutTokens(Step(s, CommitRevocation(i)), s.txs[i].session, after)
      && (forall j | j in t.txs && MayStore(t.txs[j], s.txs[i].session) ::
            !At(t, j, Consumed) && !At(t, j, Inserted) && !At(t, j, Touched))
  {
    hide Inv, Step;
    var s := Run(EMPTY, before);
    EmptyInv();
    RunKeepsInv(EMPTY, before);
    CommitIsFinal(s, i);
    StepKeepsInv(s, CommitRevocation(i));
    FinalForEver(Step(s, CommitRevocation(i)), s.txs[i].session, after);
  }

  lemma EmptyInv()
    ensures Inv(EMPTY)
  {}

  /** Who holds what while both are under way. */
  lemma HeldApart(s: State, i: TxId, j: TxId)
    requires Inv(s) && In(s, i, Deleting) && j in s.txs && MayStore(s.txs[j], s.txs[i].session)
    ensures !At(s, j, Touched) && DeviceRow(s.txs[i].session) in s.locks && s.locks[DeviceRow(s.txs[i].session)] == i
    ensures s.txs[j].current.Some? && Rank(s.txs[j].pc) >= 3 ==>
      var r := RefreshRow(s.txs[j].current.value);
      r in s.locks && s.locks[r] == j && s.txs[j].current.value in s.txs[i].todo
  {
    assert TxOk(s, s.txs[i]) && TxOk(s, s.txs[j]);
    assert Holds(s.txs[i], DeviceRow(s.txs[i].session));
    Exclusive(s, i, j, DeviceRow(s.txs[i].session));
    if s.txs[j].current.Some? && Rank(s.txs[j].pc) >= 3 {
      assert Holds(s.txs[j], RefreshRow(s.txs[j].current.value));
      Exclusive(s, j, i, RefreshRow(s.txs[j].current.value));
    }
  }

  /** Why aborts are part of the protocol: a rotation that consumed a token of the
      session and the revocation of that session wait for each other. */
  lemma RotationAndRevocationDeadlock(s: State, i: TxId, j: TxId)
    requires Inv(s) && In(s, i, Deleting) && j in s.txs && MayStore(s.txs[j], s.txs[i].session)
    requires s.txs[j].current.Some? && Rank(s.txs[j].pc) >= 3
    ensures At(s, j, Consumed) || At(s, j, Inserted)
    ensures At(s, j, Inserted) ==> IssueStep(s, TouchSession(j)) == s
    ensures RevokeStep(s, DeleteOne(i, s.txs[j].current.value)) == s && RevokeStep(s, CommitRevocation(i)) == s
  {
    hide Inv;
    HeldApart(s, i, j);
  }

  /** A code exchange in flight for the session does outlive its revocation. */
  lemma GrantOutlivesRevocation(s: State, i: TxId, j: TxId, newHash: TokenHash, access: Id) returns (t: State)
    requires Inv(s) && In(s, i, Deleting) && s.txs[i].todo == {} && j in s.txs
    requires MayStore(s.txs[j], s.txs[i].session) && s.txs[j].current.None? && newHash !in s.used && access !in s.tokens
    ensures t == Run(RevokeStep(s, CommitRevocation(i)),
                     [InsertRows(j), TouchSession(j), CommitIssue(j, newHash, access)])
    ensures newHash in t.rows && t.rows[newHash].device == Some(s.txs[i].session)
  {
    assert TxOk(s, s.txs[j]);
    HeldApart(s, i, j);
    var s0 := RevokeStep(s, CommitRevocation(i));
    assert forall r | r in s0.locks :: s0.locks[r] != i;
    assert DeviceRow(s.txs[i].session) !in s0.locks;
    hide Inv, RevokeStep;
    t := LetItCommit(s0, j, newHash, access, s.txs[i].session);
  }

  lemma LetItCommit(s: State, j: TxId, newHash: TokenHash, access: Id, d: Id) returns (t: State)
    requires j in s.txs && MayStore(s.txs[j], d) && s.txs[j].current.None? && d in s.sessions
    requires newHash !in s.used && access !in s.tokens
    requires DeviceRow(d) !in s.locks && (At(s, j, Consumed) || At(s, j, Inserted))
    ensures t == Run(s, [InsertRows(j), TouchSession(j), CommitIssue(j, newHash, access)])
    ensures newHash in t.rows && t.rows[newHash].device == Some(d)
  {
    var s1 := IssueStep(s, InsertRows(j));
    assert At(s1, j, Inserted);
    var s2 := IssueStep(s1, TouchSession(j));
    assert At(s2, j, Touched);
    t := IssueStep(s2, CommitIssue(j, newHash, access));
    hide IssueStep;
    assert Run(t, []) == t;
    assert Run(s2, [CommitIssue(j, newHash, access)]) == t;
    assert Run(s1, [TouchSession(j), CommitIssue(j, newHash, access)]) == t;
  }

  /** A committed revocation is final over every continuation without new code
      exchanges exactly when no code exchange was in flight for the session. */
  lemma RevocationIsFinalExactly(before: seq<Event>, i: TxId)
    requires var s := Run(EMPTY, before); In(s, i, Deleting) && s.txs[i].todo == {}
    ensures
      var s := Run(EMPTY, before);
      var d := s.txs[i].session;
      NoGrantInFlight(s, d) <==>
      forall after {:trigger EndsWithoutTokens(Step(s, CommitRevocation(i)), d, after)}
        | (forall e | e in after :: !Regrants(e, d)) :: EndsWithoutTokens(Step(s, CommitRevocation(i)), d, after)
  {
    hide Step, Inv;
    var s := Run(EMPTY, before);
    var d := s.txs[i].session;
    EmptyInv();
    RunKeepsInv(EMPTY, before);
    if NoGrantInFlight(s, d) {
      forall after | forall e | e in after :: !Regrants(e, d)
        ensures EndsWithoutTokens(Step(s, CommitRevocation(i)), d, after)
      {
        RotationCannotOutliveRevocation(before, i, after);
      }
    } else {
      var j :| j in s.txs && MayStore(s.txs[j], d) && s.txs[j].current.None?;
      var raw := FreshText(set h | h in s.used :: h.raw);
      var access := FreshText(s.tokens);
      var t := GrantOutlivesRevocation(s, i, j, Sha256(raw), access);
      var after := [InsertRows(j), TouchSession(j), CommitIssue(j, Sha256(raw), access)];
      CommitRevocationStep(s, i);
      assert !EndsWithoutTokens(Step(s, CommitRevocation(i)), d, after);
    }
  }

  lemma CommitRevocationStep(s: State, i: TxId)
    ensures Step(s, CommitRevocation(i)) == RevokeStep(s, CommitRevocation(i))
  {}

  // -------------------------------------------------- both cases are reached

  lemma RunAppend(s: State, a: seq<Event>, e: Event)
    ensures Run(s, a + [e]) == Step(Run(s, a), e)
  {
    hide Step;
    RunSplit(s, a, [e]);
    assert Run(Step(Run(s, a), e), []) == Step(Run(s, a), e);
  }

  lemma Next(s: State, before: seq<Event>, e: Event) returns (t: State, events: seq<Event>)
    requires s == Run(EMPTY, before)
    ensures t == Step(s, e) && events == before + [e] && t == Run(EMPTY, events)
  {
    hide Step, Run;
    RunAppend(EMPTY, before, e);
    t, events := Step(s, e), before + [e];
  }

  lemma RevocationBegins(s: State, d: Id)
    requires 0 !in s.txs
    ensures Step(s, BeginRevocation(0, d)) == s.(txs := s.txs[0 := Revoking(Started, d, {}, {})])
  {}

  lemma RevocationMarks(s: State, d: Id)
    requires 0 in s.txs && s.txs[0] == Revoking(Started, d, {}, {})
    requires d in s.sessions && !s.sessions[d] && DeviceRow(d) !in s.locks
    ensures Step(s, MarkRevoked(0)) == Locked(s, 0, Revoking(Marked, d, {}, {}), DeviceRow(d))
  {}

  lemma RevocationLooks(s: State, d: Id)
    requires 0 in s.txs && s.txs[0] == Revoking(Marked, d, {}, {})
    ensures Step(s, Snapshot(0)) == s.(txs := s.txs[0 := Revoking(Deleting, d, TokensOf(s, d), {})])
  {}

  lemma SameTokens(s: State, t: State, d: Id)
    requires t.rows == s.rows
    ensures TokensOf(t, d) == TokensOf(s, d)
  {}

  /** Transaction 0 revokes the session, up to its commit or its first wait. */
  lemma RevocationStarts(s: State, before: seq<Event>, d: Id) returns (t: State, events: seq<Event>)
    requires s == Run(EMPTY, before) && 0 !in s.txs && d in s.sessions && !s.sessions[d] && DeviceRow(d) !in s.locks
    ensures t == Run(EMPTY, events) && In(t, 0, Deleting) && t.txs[0].session == d && t.txs[0].todo == TokensOf(s, d)
    ensures t.txs == s.txs[0 := t.txs[0]]
  {
    hide Step, Run, TokensOf;
    RevocationBegins(s, d);
    t, events := Next(s, before, BeginRevocation(0, d));
    RevocationMarks(t, d);
    t, events := Next(t, events, MarkRevoked(0));
    SameTokens(s, t, d);
    RevocationLooks(t, d);
    t, events := Next(t, events, Snapshot(0));
  }

  /** A code exchange is in flight for a session whose revocation is ready to commit. */
  lemma GrantInFlight() returns (s: State, before: seq<Event>)
    ensures s == Run(EMPTY, before) && In(s, 0, Deleting) && s.txs[0].todo == {}
    ensures 1 in s.txs && MayStore(s.txs[1], s.txs[0].session) && s.txs[1].current.None?
  {
    s, before := EMPTY, [];
    s, before := Next(s, before, NewSession("device"));
    s, before := Next(s, before, BeginGrant(1, Some("device")));
    s, before := RevocationStarts(s, before, "device");
  }

  lemma TokenStored() returns (s: State, before: seq<Event>)
    ensures s == Run(EMPTY, before) && s.locks == map[] && s.txs == map[] && s.sessions == map["device" := false]
    ensures s.rows == map[Sha256("first") := Row(Some("device"), Some("access"))] && s.tokens == {"access"}
  {
    s, before := EMPTY, [];
    s, before := Next(s, before, NewSession("device"));
    s, before := Next(s, before, BeginGrant(1, Some("device")));
    s, before := Next(s, before, InsertRows(1));
    s, before := Next(s, before, TouchSession(1));
    s, before := Next(s, before, CommitIssue(1, Sha256("first"), "access"));
  }

  lemma TokenLookedUp() returns (s: State, before: seq<Event>)
    ensures s == Run(EMPTY, before) && s.locks == map[] && s.sessions == map["device" := false]
    ensures s.tokens == {"access"}
    ensures s.rows == map[Sha256("first") := Row(Some("device"), Some("access"))]
    ensures s.txs == map[1 := Issuing(Looked, Some(Sha256("first")), Some("device"), Some("access"))]
  {
    hide PurgeStep, Ended, RevokeStep;
    s, before := TokenStored();
    s, before := Next(s, before, BeginRotation(1, Sha256("first")));
    s, before := Next(s, before, Lookup(1));
  }

  lemma TokenConsumed() returns (s: State, before: seq<Event>)
    ensures s == Run(EMPTY, before) && At(s, 1, Consumed) && s.txs.Keys == {1} && s.sessions == map["device" := false]
    ensures s.txs[1].current == Some(Sha256("first")) && s.txs[1].device == Some("device")
    ensures DeviceRow("device") !in s.locks
  {
    hide PurgeStep, Ended, RevokeStep;
    s, before := TokenLookedUp();
    s, before := Next(s, before, DeleteAccess(1));
    s, before := Next(s, before, ConsumeRefresh(1));
  }

  /** A rotation consumed the session's token, and the session's revocation waits for it. */
  lemma RotationInFlight() returns (s: State, before: seq<Event>)
    ensures s == Run(EMPTY, before) && In(s, 0, Deleting)
    ensures At(s, 1, Inserted) && MayStore(s.txs[1], s.txs[0].session) && s.txs[1].current.Some?
  {
    hide PurgeStep, Ended, RevokeStep;
    s, before := TokenConsumed();
    s, before := Next(s, before, InsertRows(1));
    s, before := RevocationStarts(s, before, "device");
  }

  // ----------------------------------------------------------- linear rotation

  /** This event commits a rotation of the token. */
  predicate Rotates(s: State, e: Event, h: TokenHash) {
    e.CommitIssue? && At(s, e.tx, Touched) && e.newHash !in s.used && e.access !in s.tokens &&
    s.txs[e.tx].current == Some(h)
  }

  predicate Gone(s: State, h: TokenHash) {
    h in s.used && h !in s.rows
  }

  lemma IssueKeepsGone(s: State, e: Event, h: TokenHash)
    requires Gone(s, h) && IsIssueEvent(e)
    ensures Gone(IssueStep(s, e), h)
  {}

  lemma StepKeepsGone(s: State, e: Event, h: TokenHash)
    requires Gone(s, h)
    ensures Gone(Step(s, e), h)
  {
    hide IssueStep;
    if IsIssueEvent(e) {
      IssueKeepsGone(s, e, h);
    }
  }

  lemma {:induction false} RunKeepsGone(s: State, events: seq<Event>, h: TokenHash)
    requires Gone(s, h)
    ensures Gone(Run(s, events), h)
    decreases |events|
  {
    hide Step;
    if events == [] {
    } else {
      StepKeepsGone(s, events[0], h);
      RunKeepsGone(Step(s, events[0]), events[1..], h);
    }
  }

  /** A rotation commits with the row of its token in hand, and leaves it gone. */
  lemma RotationTakes(s: State, e: Event, h: TokenHash)
    requires Inv(s) && Rotates(s, e, h)
    ensures h in s.rows && Gone(Step(s, e), h)
  {
    assert TxOk(s, s.txs[e.tx]);
  }

  /** Section 10.4 of RFC 6749, statement by statement: however many transactions
      present one refresh token at once, at most one of them ever commits. */
  lemma AtMostOneRotation(events: seq<Event>, k: nat, m: nat, h: TokenHash)
    requires k < m < |events| && Rotates(Run(EMPTY, events[..k]), events[k], h)
    ensures !Rotates(Run(EMPTY, events[..m]), events[m], h)
  {
    hide Step, Inv, Rotates, Gone;
    EmptyInv();
    RunKeepsInv(EMPTY, events[..k]);
    RunKeepsInv(EMPTY, events[..m]);
    var s := Run(EMPTY, events[..k]);
    RotationTakes(s, events[k], h);
    RunAppend(EMPTY, events[..k], events[k]);
    assert events[..k] + [events[k]] == events[..k + 1];
    RunSplit(EMPTY, events[..k + 1], events[k + 1..m]);
    assert events[..k + 1] + events[k + 1..m] == events[..m];
    RunKeepsGone(Run(EMPTY, events[..k + 1]), events[k + 1..m], h);
    NotTwice(Run(EMPTY, events[..m]), events[m], h);
  }

  lemma NotTwice(s: State, e: Event, h: TokenHash)
    requires Inv(s) && Gone(s, h)
    ensures !Rotates(s, e, h)
  {
    assert e.CommitIssue? && At(s, e.tx, Touched) ==> TxOk(s, s.txs[e.tx]);
  }

  lemma {:induction false} RunSplit(s: State, a: seq<Event>, b: seq<Event>)
    ensures Run(s, a + b) == Run(Run(s, a), b)
    decreases |a|
  {
    hide Step;
    if a == [] {
      assert a + b == b;
    } else {
      assert (a + b)[0] == a[0] && (a + b)[1..] == a[1..] + b;
      RunSplit(Step(s, a[0]), a[1..], b);
    }
  }
}
