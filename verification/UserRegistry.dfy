/** identity-service's users and federated identities, with logins that race between
    their lookup and their writes. */
module UserRegistry {
  import opened Prelude

  type Id = string
  type Time = int

  /** UNIQUE (provider, provider_subject) */
  datatype Pair = Pair(provider: string, subject: string)

  datatype Claims = Claims(email: string, emailVerified: bool, name: string, givenName: string, familyName: string,
                           picture: string)

  datatype User = User(id: Id, claims: Claims, localName: Option<string>, localPicture: Option<string>, createdAt: Time,
                       updatedAt: Time)

  datatype Identity = Identity(id: Id, userId: Id, pair: Pair, claims: Claims, lastLoginAt: Time, createdAt: Time,
                               updatedAt: Time)

  datatype Registry = Registry(users: map<Id, User>, identities: map<Id, Identity>)

  predicate PairTaken(db: Registry, pair: Pair) {
    exists i :: i in db.identities && db.identities[i].pair == pair
  }

  /** Users joined with their identities; the query takes one row. */
  function FindByFederatedIdentity(db: Registry, pair: Pair): set<Id> {
    set i | i in db.identities && db.identities[i].pair == pair && db.identities[i].userId in db.users ::
      db.identities[i].userId
  }

  function InsertUser(db: Registry, user: User): Result<Registry> {
    if user.id in db.users then Err(DuplicateKey) else Ok(db.(users := db.users[user.id := user]))
  }

  function InsertIdentity(db: Registry, fi: Identity): Result<Registry> {
    if fi.id in db.identities || PairTaken(db, fi.pair) then Err(DuplicateKey)
    else if fi.userId !in db.users then Err(ForeignKey)
    else Ok(db.(identities := db.identities[fi.id := fi]))
  }

  /** One transaction: a violation rolls the user back too. */
  function CreateWithFederatedIdentity(db: Registry, user: User, fi: Identity): Result<Registry> {
    var a :- InsertUser(db, user);
    InsertIdentity(a, fi)
  }

  /** The local name and picture shadow what the provider says. */
  function UpdatedUser(u: User, claims: Claims, at: Time): User {
    u.(claims := claims.(name := if u.localName.None? then claims.name else u.claims.name,
                         picture := if u.localPicture.None? then claims.picture else u.claims.picture),
       updatedAt := at)
  }

  /** Column by column, what a login with these claims makes of its user's row: the claims,
      except a name and a picture that the user has chosen other ones for. */
  predicate TakesClaims(u: User, v: User, claims: Claims, at: Time) {
    v.id == u.id && v.createdAt == u.createdAt && v.updatedAt == at &&
    v.localName == u.localName && v.localPicture == u.localPicture &&
    v.claims.email == claims.email && v.claims.emailVerified == claims.emailVerified &&
    v.claims.givenName == claims.givenName && v.claims.familyName == claims.familyName &&
    v.claims.name == (if u.localName.Some? then u.claims.name else claims.name) &&
    v.claims.picture == (if u.localPicture.Some? then u.claims.picture else claims.picture)
  }

  function UpdateUserFromClaims(db: Registry, id: Id, claims: Claims, at: Time): Registry {
    if id in db.users then db.(users := db.users[id := UpdatedUser(db.users[id], claims, at)]) else db
  }

  function UpdateFederatedIdentityClaims(db: Registry, pair: Pair, claims: Claims, now: Time, at: Time): Registry {
    db.(identities := map i | i in db.identities ::
      if db.identities[i].pair == pair then db.identities[i].(claims := claims, lastLoginAt := at, updatedAt := now)
      else db.identities[i])
  }

  function NullableString(s: string): Option<string> {
    if s == "" then None else Some(s)
  }

  function UpdateLocalProfile(db: Registry, id: Id, name: Option<string>, picture: Option<string>, at: Time): Registry {
    if id !in db.users then db
    else
      var u := db.users[id];
      db.(users := db.users[id := u.(localName := if name.Some? then NullableString(name.value) else u.localName,
                                     localPicture := if picture.Some? then NullableString(picture.value)
                                                     else u.localPicture,
                                     updatedAt := at)])
  }

  function IdentitiesOf(db: Registry, user: Id): set<Id> {
    set i | i in db.identities && db.identities[i].userId == user
  }

  /** Refuses to take a user's last identity. */
  function DeleteFederatedIdentity(db: Registry, id: Id, user: Id): Result<Registry> {
    if |IdentitiesOf(db, user)| <= 1 then Err(FailedPrecondition)
    else if id !in db.identities || db.identities[id].userId != user then Err(NotFound)
    else Ok(db.(identities := db.identities - {id}))
  }

  // ------------------------------------------------------------ racing logins

  /** The statement a login runs next. */
  datatype Login =
    | LookingUp(pair: Pair, claims: Claims)
    | UpdatingUser(pair: Pair, claims: Claims, user: Id, at: Time)
    | UpdatingIdentity(pair: Pair, claims: Claims, user: Id, at: Time)
    | Creating(pair: Pair, claims: Claims, at: Time)

  datatype Answer = Answer(pair: Pair, user: Result<Id>)

  /** `issued` is history: generated ids are fresh. */
  datatype State = State(now: Time, db: Registry, logins: map<nat, Login>, answers: map<nat, Answer>, issued: set<Id>)

  const INIT := State(0, Registry(map[], map[]), map[], map[], {})

  datatype Event =
    | Tick(elapsed: nat)
    | Start(call: nat, pair: Pair, claims: Claims)
    | LookUp(call: nat, row: Id)       // row: the user the query returned, if any
    | UpdateUser(call: nat)
    | UpdateIdentity(call: nat)
    | CreateUser(call: nat, userId: Id, identityId: Id)
    | UpdateProfile(user: Id, name: Option<string>, picture: Option<string>)
    | Unlink(user: Id, identity: Id)

  function Reply(s: State, k: nat, pair: Pair, r: Result<Id>): State {
    s.(logins := s.logins - {k}, answers := s.answers[k := Answer(pair, r)])
  }

  function LookUpStep(s: State, k: nat, row: Id): State {
    if !(k in s.logins && s.logins[k].LookingUp?) then s
    else
      var login := s.logins[k];
      var found := FindByFederatedIdentity(s.db, login.pair);
      if found == {} then s.(logins := s.logins[k := Creating(login.pair, login.claims, s.now)])
      else if row in found then s.(logins := s.logins[k := UpdatingUser(login.pair, login.claims, row, s.now)])
      else s
  }

  function NewUser(id: Id, claims: Claims, at: Time): User {
    User(id, claims, None, None, at, at)
  }

  function NewIdentity(id: Id, userId: Id, pair: Pair, claims: Claims, at: Time): Identity {
    Identity(id, userId, pair, claims, at, at, at)
  }

  function CreateStep(s: State, k: nat, userId: Id, identityId: Id): State {
    if !(k in s.logins && s.logins[k].Creating?) then s
    else if userId in s.issued || identityId in s.issued || userId == identityId then s
    else
      var login := s.logins[k];
      var t := s.(issued := s.issued + {userId, identityId});
      match CreateWithFederatedIdentity(s.db, NewUser(userId, login.claims, login.at),
                                        NewIdentity(identityId, userId, login.pair, login.claims, login.at))
      case Err(e) => Reply(t, k, login.pair, Err(e))
      case Ok(db) => Reply(t.(db := db), k, login.pair, Ok(userId))
  }

  function Step(s: State, e: Event): State {
    match e
    case Tick(elapsed) => s.(now := s.now + elapsed)
    case Start(k, pair, claims) =>
      if k in s.logins || k in s.answers then s else s.(logins := s.logins[k := LookingUp(pair, claims)])
    case LookUp(k, row) => LookUpStep(s, k, row)
    case UpdateUser(k) =>
      if k in s.logins && s.logins[k].UpdatingUser?
      then var l := s.logins[k];
        s.(db := UpdateUserFromClaims(s.db, l.user, l.claims, l.at),
           logins := s.logins[k := UpdatingIdentity(l.pair, l.claims, l.user, l.at)])
      else s
    case UpdateIdentity(k) =>
      if k in s.logins && s.logins[k].UpdatingIdentity?
      then var l := s.logins[k];
        Reply(s.(db := UpdateFederatedIdentityClaims(s.db, l.pair, l.claims, s.now, l.at)), k, l.pair, Ok(l.user))
      else s
    case CreateUser(k, userId, identityId) => CreateStep(s, k, userId, identityId)
    case UpdateProfile(user, name, picture) => s.(db := UpdateLocalProfile(s.db, user, name, picture, s.now))
    case Unlink(user, identity) =>
      match DeleteFederatedIdentity(s.db, identity, user)
      case Ok(db) => s.(db := db)
      case Err(_) => s
  }

  function Run(s: State, events: seq<Event>): State
    decreases |events|
  {
    if events == [] then s else Run(Step(s, events[0]), events[1..])
  }

  ghost predicate Reachable(s: State) {
    exists events :: s == Run(INIT, events)
  }

  // -------------------------------------------------------------- invariant

  /** The pair is linked to the user. */
  ghost predicate Resolves(db: Registry, pair: Pair, user: Id) {
    user in db.users &&
    exists i :: i in db.identities && db.identities[i].pair == pair && db.identities[i].userId == user
  }

  ghost predicate OneToOne(db: Registry) {
    forall i, j | i in db.identities && j in db.identities && i != j ::
      db.identities[i].pair != db.identities[j].pair && db.identities[i].userId != db.identities[j].userId
  }

  ghost predicate HasIdentity(db: Registry, user: Id) {
    exists i :: i in db.identities && db.identities[i].userId == user
  }

  /** Users and pairs are in one-to-one correspondence; no user is without a pair. */
  ghost predicate Bijection(db: Registry) {
    OneToOne(db) && (forall i | i in db.identities :: db.identities[i].userId in db.users) &&
    (forall u | u in db.users :: HasIdentity(db, u))
  }

  predicate LoginOk(s: State, l: Login) {
    (l.UpdatingUser? || l.UpdatingIdentity?) ==> l.user in FindByFederatedIdentity(s.db, l.pair)
  }

  ghost predicate Inv(s: State) {
    Bijection(s.db) && s.db.users.Keys <= s.issued && s.db.identities.Keys <= s.issued &&
    (forall k | k in s.logins :: LoginOk(s, s.logins[k]) && k !in s.answers) &&
    (forall k | k in s.answers && s.answers[k].user.Ok? :: Resolves(s.db, s.answers[k].pair, s.answers[k].user.value))
  }

  /** Links are only ever added. */
  ghost predicate LinksKept(a: Registry, b: Registry) {
    a.users.Keys <= b.users.Keys &&
    forall i | i in a.identities ::
      i in b.identities && b.identities[i].pair == a.identities[i].pair &&
      b.identities[i].userId == a.identities[i].userId
  }

  lemma UnlinkRefused(db: Registry, id: Id, user: Id)
    requires Bijection(db)
    ensures DeleteFederatedIdentity(db, id, user) == Err(FailedPrecondition)
  {
    var mine := IdentitiesOf(db, user);
    if mine != {} {
      var i :| i in mine;
      assert mine == {i};
    }
  }

  lemma ResolvesKept(a: Registry, b: Registry, pair: Pair, user: Id)
    requires LinksKept(a, b) && Resolves(a, pair, user)
    ensures Resolves(b, pair, user)
  {}

  lemma FoundResolves(db: Registry, pair: Pair, user: Id)
    ensures user in FindByFederatedIdentity(db, pair) <==> Resolves(db, pair, user)
  {}

  lemma HasIdentityKept(a: Registry, b: Registry, user: Id)
    requires LinksKept(a, b) && HasIdentity(a, user)
    ensures HasIdentity(b, user)
  {}

  lemma BothInserted(db: Registry, user: User, fi: Identity)
    requires user.id !in db.users && fi.id !in db.identities && fi.userId == user.id
    ensures CreateWithFederatedIdentity(db, user, fi) ==
      if PairTaken(db, fi.pair) then Err(DuplicateKey)
      else Ok(Registry(db.users[user.id := user], db.identities[fi.id := fi]))
  {}

  /** The transaction links a new user to a new pair, or changes nothing. */
  lemma CreateKeepsBijection(db: Registry, user: User, fi: Identity)
    requires Bijection(db) && !PairTaken(db, fi.pair)
    requires user.id !in db.users && fi.id !in db.identities && fi.userId == user.id
    ensures
      var t := Registry(db.users[user.id := user], db.identities[fi.id := fi]);
      Bijection(t) && LinksKept(db, t) && Resolves(t, fi.pair, user.id)
  {
    hide HasIdentity;
    var t := Registry(db.users[user.id := user], db.identities[fi.id := fi]);
    assert t.identities[fi.id].pair == fi.pair && t.identities[fi.id].userId == user.id;
    assert HasIdentity(t, user.id) by { Witness(t, fi.id); }
    forall u | u in t.users ensures HasIdentity(t, u) {
      if u != user.id {
        HasIdentityKept(db, t, u);
      }
    }
  }

  lemma Witness(db: Registry, i: Id)
    requires i in db.identities
    ensures HasIdentity(db, db.identities[i].userId)
  {}

  /** Every statement but the create leaves the links as they are. */
  ghost predicate SameLinks(a: Registry, b: Registry) {
    b.users.Keys == a.users.Keys && b.identities.Keys == a.identities.Keys &&
    forall i | i in a.identities ::
      b.identities[i].pair == a.identities[i].pair && b.identities[i].userId == a.identities[i].userId
  }

  lemma SameLinksKeepBijection(a: Registry, b: Registry)
    requires Bijection(a) && SameLinks(a, b)
    ensures Bijection(b) && LinksKept(a, b)
  {
    hide HasIdentity;
    forall i ensures i in a.identities <==> i in b.identities {
      assert i in a.identities.Keys <==> i in b.identities.Keys;
    }
    forall u | u in b.users ensures HasIdentity(b, u) {
      assert u in a.users.Keys;
      HasIdentityKept(a, b, u);
    }
  }

  /** A step that keeps the links: what remains is the login's own entry. */
  lemma KeptKeepsInv(s: State, t: State)
    requires Inv(s) && LinksKept(s.db, t.db) && Bijection(t.db)
    requires t.db.users.Keys <= t.issued && t.db.identities.Keys <= t.issued
    requires forall k | k in t.logins ::
               k !in t.answers && (LoginOk(t, t.logins[k]) || (k in s.logins && t.logins[k] == s.logins[k]))
    requires forall k | k in t.answers && t.answers[k].user.Ok? ::
      Resolves(t.db, t.answers[k].pair, t.answers[k].user.value) || (k in s.answers && t.answers[k] == s.answers[k])
    ensures Inv(t)
  {}

  lemma TouchKeepsInv(s: State, t: State)
    requires Inv(s) && SameLinks(s.db, t.db) && t.issued == s.issued
    requires forall k | k in t.logins ::
               k !in t.answers && (LoginOk(t, t.logins[k]) || (k in s.logins && t.logins[k] == s.logins[k]))
    requires forall k | k in t.answers && t.answers[k].user.Ok? ::
      Resolves(t.db, t.answers[k].pair, t.answers[k].user.value) || (k in s.answers && t.answers[k] == s.answers[k])
    ensures Inv(t)
  {
    hide Bijection, LoginOk, Resolves, LinksKept;
    SameLinksKeepBijection(s.db, t.db);
    KeptKeepsInv(s, t);
  }

  lemma UpdateUserKeepsInv(s: State, k: nat)
    requires Inv(s)
    ensures Inv(Step(s, UpdateUser(k)))
  {
    hide Bijection, Resolves, FindByFederatedIdentity;
    if k in s.logins && s.logins[k].UpdatingUser? {
      var t := Step(s, UpdateUser(k));
      var l := s.logins[k];
      assert LoginOk(s, l);
      FoundResolves(s.db, l.pair, l.user);
      SameLinksResolve(s.db, t.db, l.pair, l.user);
      FoundResolves(t.db, l.pair, l.user);
      TouchKeepsInv(s, t);
    }
  }

  lemma SameLinksResolve(a: Registry, b: Registry, pair: Pair, user: Id)
    requires SameLinks(a, b) && Resolves(a, pair, user)
    ensures Resolves(b, pair, user)
  {}

  lemma UpdateIdentityKeepsInv(s: State, k: nat)
    requires Inv(s)
    ensures Inv(Step(s, UpdateIdentity(k)))
  {
    hide Bijection, Resolves, FindByFederatedIdentity;
    if k in s.logins && s.logins[k].UpdatingIdentity? {
      var t := Step(s, UpdateIdentity(k));
      var l := s.logins[k];
      assert LoginOk(s, l);
      FoundResolves(s.db, l.pair, l.user);
      SameLinksResolve(s.db, t.db, l.pair, l.user);
      TouchKeepsInv(s, t);
    }
  }

  lemma CreateKeepsInv(s: State, k: nat, userId: Id, identityId: Id)
    requires Inv(s)
    ensures Inv(CreateStep(s, k, userId, identityId))
  {
    hide Bijection, Resolves, LoginOk, PairTaken, CreateWithFederatedIdentity, LinksKept;
    if k in s.logins && s.logins[k].Creating? && userId !in s.issued && identityId !in s.issued &&
       userId != identityId {
      var l := s.logins[k];
      var user, fi := NewUser(userId, l.claims, l.at), NewIdentity(identityId, userId, l.pair, l.claims, l.at);
      assert userId !in s.db.users.Keys && identityId !in s.db.identities.Keys;
      BothInserted(s.db, user, fi);
      if PairTaken(s.db, l.pair) {
        SameLinksKeepBijection(s.db, s.db);
      } else {
        CreateKeepsBijection(s.db, user, fi);
      }
      KeptKeepsInv(s, CreateStep(s, k, userId, identityId));
    }
  }

  lemma StepKeepsInv(s: State, e: Event)
    requires Inv(s)
    ensures Inv(Step(s, e))
  {
    hide Bijection, Resolves, PairTaken, CreateStep, DeleteFederatedIdentity;
    match e
    case UpdateUser(k) => UpdateUserKeepsInv(s, k);
    case UpdateIdentity(k) => UpdateIdentityKeepsInv(s, k);
    case CreateUser(k, userId, identityId) => CreateKeepsInv(s, k, userId, identityId);
    case Unlink(user, identity) => UnlinkRefused(s.db, identity, user);
    case _ => TouchKeepsInv(s, Step(s, e));
  }

  lemma {:induction false} RunKeepsInv(s: State, events: seq<Event>)
    requires Inv(s)
    ensures Inv(Run(s, events))
    decreases |events|
  {
    hide Inv, Step;
    if events == [] {
    } else {
      StepKeepsInv(s, events[0]);
      RunKeepsInv(Step(s, events[0]), events[1..]);
    }
  }

  lemma ReachableInv(s: State)
    requires Reachable(s)
    ensures Inv(s)
  {
    var events :| s == Run(INIT, events);
    RunKeepsInv(INIT, events);
  }

  // ----------------------------------------------------------- main results

  /** Whatever logins race: every user has a pair, every pair one user, and no user two
      pairs; so a losing create left no orphan. */
  lemma RegistryIsABijection(s: State)
    requires Reachable(s)
    ensures Bijection(s.db)
    ensures forall u, p, q | Resolves(s.db, p, u) && Resolves(s.db, q, u) :: p == q
    ensures forall p, u, v | Resolves(s.db, p, u) && Resolves(s.db, p, v) :: u == v
    ensures forall p | PairTaken(s.db, p) :: |FindByFederatedIdentity(s.db, p)| == 1
  {
    ReachableInv(s);
    forall p | PairTaken(s.db, p) ensures |FindByFederatedIdentity(s.db, p)| == 1 {
      var i :| i in s.db.identities && s.db.identities[i].pair == p;
      assert FindByFederatedIdentity(s.db, p) == {s.db.identities[i].userId};
    }
  }

  /** Nothing links a second provider to a user, so unlinking is always refused. */
  lemma UnlinkAlwaysFails(s: State, user: Id, identity: Id)
    requires Reachable(s)
    ensures DeleteFederatedIdentity(s.db, identity, user) == Err(FailedPrecondition)
  {
    ReachableInv(s);
    UnlinkRefused(s.db, identity, user);
  }

  lemma StepKeepsLinks(s: State, e: Event)
    requires Inv(s)
    ensures LinksKept(s.db, Step(s, e).db)
  {
    hide Bijection, Resolves, PairTaken, DeleteFederatedIdentity, CreateWithFederatedIdentity;
    if e.Unlink? {
      UnlinkRefused(s.db, e.identity, e.user);
    }
    if e.CreateUser? && e.userId !in s.issued && e.identityId !in s.issued && e.call in s.logins &&
       s.logins[e.call].Creating? {
      var l := s.logins[e.call];
      assert e.userId !in s.db.users.Keys && e.identityId !in s.db.identities.Keys;
      BothInserted(s.db, NewUser(e.userId, l.claims, l.at),
                   NewIdentity(e.identityId, e.userId, l.pair, l.claims, l.at));
    }
  }

  lemma {:induction false} RunKeepsLinks(s: State, events: seq<Event>)
    requires Inv(s)
    ensures LinksKept(s.db, Run(s, events).db)
    decreases |events|
  {
    hide Inv, Step;
    if events == [] {
    } else {
      StepKeepsLinks(s, events[0]);
      StepKeepsInv(s, events[0]);
      RunKeepsLinks(Step(s, events[0]), events[1..]);
    }
  }

  /** A pair resolves to the same user for ever, and that is the user every successful
      login with it answers, before or after, first or racing. */
  lemma PairResolvesForEver(s: State, events: seq<Event>, pair: Pair, user: Id, j: nat)
    requires Reachable(s) && Resolves(s.db, pair, user)
    ensures
      var t := Run(s, events);
      Resolves(t.db, pair, user) &&
      (j in t.answers && t.answers[j].pair == pair && t.answers[j].user.Ok? ==> t.answers[j].user == Ok(user))
  {
    hide Run, Reachable;
    ReachableInv(s);
    RunKeepsLinks(s, events);
    RunKeepsInv(s, events);
    ResolvesKept(s.db, Run(s, events).db, pair, user);
  }

  /** A create that loses the race fails and leaves both tables as they were. */
  lemma LosingCreateLeavesNothing(s: State, k: nat, userId: Id, identityId: Id)
    requires Reachable(s) && k in s.logins && s.logins[k].Creating?
    requires userId !in s.issued && identityId !in s.issued && userId != identityId
    ensures
      var t := Step(s, CreateUser(k, userId, identityId));
      && t.answers[k].user == (if PairTaken(s.db, s.logins[k].pair) then Err(DuplicateKey) else Ok(userId))
      && (t.answers[k].user.Err? ==> t.db == s.db)
      && (t.answers[k].user.Ok? ==> Resolves(t.db, s.logins[k].pair, userId))
  {
    hide Reachable, CreateWithFederatedIdentity;
    ReachableInv(s);
    var l := s.logins[k];
    assert userId !in s.db.users.Keys && identityId !in s.db.identities.Keys;
    var user, fi := NewUser(userId, l.claims, l.at), NewIdentity(identityId, userId, l.pair, l.claims, l.at);
    BothInserted(s.db, user, fi);
    if !PairTaken(s.db, l.pair) {
      CreateKeepsBijection(s.db, user, fi);
    }
  }

  /** What each statement of a login writes, row by row, and that it leaves the others. */
  lemma LoginWrites(s: State, k: nat)
    requires Reachable(s) && k in s.logins
    ensures
      var l := s.logins[k];
      match l
      case UpdatingUser(pair, claims, user, at) =>
        var t := Step(s, UpdateUser(k)).db;
        && user in s.db.users && t.users.Keys == s.db.users.Keys && t.users - {user} == s.db.users - {user}
        && TakesClaims(s.db.users[user], t.users[user], claims, at) && t.identities == s.db.identities
      case UpdatingIdentity(pair, claims, user, at) =>
        var t := Step(s, UpdateIdentity(k)).db;
        && t.users == s.db.users && t.identities.Keys == s.db.identities.Keys
        && exists i :: i in s.db.identities && s.db.identities[i].pair == pair && s.db.identities[i].userId == user
             && t.identities == s.db.identities[
                  i := s.db.identities[i].(claims := claims, lastLoginAt := at, updatedAt := s.now)]
      case Creating(pair, claims, at) =>
        forall u, i | u !in s.issued && i !in s.issued && u != i :: Step(s, CreateUser(k, u, i)).db ==
          if PairTaken(s.db, pair) then s.db
          else Registry(s.db.users[u := User(u, claims, None, None, at, at)],
                        s.db.identities[i := Identity(i, u, pair, claims, at, at, at)])
      case LookingUp(_, _) => true
  {
    hide Reachable, Step, CreateWithFederatedIdentity;
    ReachableInv(s);
    assert LoginOk(s, s.logins[k]);
    match s.logins[k]
    case UpdatingUser(_, _, _, _) => UserWritten(s, k);
    case UpdatingIdentity(_, _, _, _) => IdentityWritten(s, k);
    case Creating(pair, claims, at) =>
      forall u, i | u !in s.issued && i !in s.issued && u != i
        ensures Step(s, CreateUser(k, u, i)).db ==
          if PairTaken(s.db, pair) then s.db
          else Registry(s.db.users[u := User(u, claims, None, None, at, at)],
                        s.db.identities[i := Identity(i, u, pair, claims, at, at, at)])
      {
        UserCreated(s, k, u, i);
      }
    case _ =>
  }

  lemma UserWritten(s: State, k: nat)
    requires k in s.logins && s.logins[k].UpdatingUser? && s.logins[k].user in s.db.users
    ensures
      var l, t := s.logins[k], Step(s, UpdateUser(k)).db;
      && t.users.Keys == s.db.users.Keys && t.users - {l.user} == s.db.users - {l.user}
      && TakesClaims(s.db.users[l.user], t.users[l.user], l.claims, l.at) && t.identities == s.db.identities
  {}

  lemma IdentityWritten(s: State, k: nat)
    requires OneToOne(s.db) && k in s.logins && s.logins[k].UpdatingIdentity? && LoginOk(s, s.logins[k])
    ensures
      var l, t := s.logins[k], Step(s, UpdateIdentity(k)).db;
      && t.users == s.db.users && t.identities.Keys == s.db.identities.Keys
      && exists i :: i in s.db.identities && s.db.identities[i].pair == l.pair && s.db.identities[i].userId == l.user
           && t.identities == s.db.identities[
                i := s.db.identities[i].(claims := l.claims, lastLoginAt := l.at, updatedAt := s.now)]
  {
    var l := s.logins[k];
    var i :| i in s.db.identities && s.db.identities[i].pair == l.pair && s.db.identities[i].userId == l.user;
    assert Step(s, UpdateIdentity(k)).db.identities ==
      s.db.identities[i := s.db.identities[i].(claims := l.claims, lastLoginAt := l.at, updatedAt := s.now)];
  }

  lemma UserCreated(s: State, k: nat, userId: Id, identityId: Id)
    requires Inv(s) && k in s.logins && s.logins[k].Creating?
    requires userId !in s.issued && identityId !in s.issued && userId != identityId
    ensures
      var l, t := s.logins[k], Step(s, CreateUser(k, userId, identityId)).db;
      t == if PairTaken(s.db, l.pair) then s.db
           else Registry(s.db.users[userId := User(userId, l.claims, None, None, l.at, l.at)],
                         s.db.identities[
                           identityId := Identity(identityId, userId, l.pair, l.claims, l.at, l.at, l.at)])
  {
    hide Bijection, CreateWithFederatedIdentity, PairTaken, Resolves;
    var l := s.logins[k];
    assert userId !in s.db.users.Keys && identityId !in s.db.identities.Keys;
    BothInserted(s.db, NewUser(userId, l.claims, l.at), NewIdentity(identityId, userId, l.pair, l.claims, l.at));
  }

  /** GetUser's view of a name: the local one, unless it is unset or empty. */
  function DisplayName(u: User): string {
    if u.localName.Some? && u.localName.value != "" then u.localName.value else u.claims.name
  }

  function DisplayPicture(u: User): string {
    if u.localPicture.Some? && u.localPicture.value != "" then u.localPicture.value else u.claims.picture
  }

  function Shown(u: User): User {
    u.(claims := u.claims.(name := DisplayName(u), picture := DisplayPicture(u)))
  }

  lemma StepKeepsLocalName(s: State, e: Event, user: Id, name: string)
    requires Inv(s) && user in s.db.users && s.db.users[user].localName == Some(name)
    requires e.UpdateProfile? && e.user == user ==> e.name.None?
    ensures user in Step(s, e).db.users && Step(s, e).db.users[user].localName == Some(name)
  {
    hide Bijection, PairTaken, DeleteFederatedIdentity, CreateWithFederatedIdentity, Resolves;
    if e.Unlink? {
      UnlinkRefused(s.db, e.identity, e.user);
    }
    if e.CreateUser? && e.userId !in s.issued && e.identityId !in s.issued && e.call in s.logins &&
       s.logins[e.call].Creating? {
      var l := s.logins[e.call];
      assert e.userId !in s.db.users.Keys && e.identityId !in s.db.identities.Keys;
      BothInserted(s.db, NewUser(e.userId, l.claims, l.at),
                   NewIdentity(e.identityId, e.userId, l.pair, l.claims, l.at));
    }
  }

  /** Whatever the provider says at later logins, the name the user chose is shown. */
  lemma {:induction false} LocalNameIsShown(s: State, events: seq<Event>, user: Id, name: string)
    requires Inv(s) && user in s.db.users && s.db.users[user].localName == Some(name) && name != ""
    requires forall e | e in events && e.UpdateProfile? && e.user == user :: e.name.None?
    ensures user in Run(s, events).db.users && DisplayName(Run(s, events).db.users[user]) == name
    decreases |events|
  {
    hide Inv, Step;
    if events == [] {
    } else {
      StepKeepsLocalName(s, events[0], user, name);
      StepKeepsInv(s, events[0]);
      LocalNameIsShown(Step(s, events[0]), events[1..], user, name);
    }
  }
}
