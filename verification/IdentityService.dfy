/** The user repository and identity service as they are written, one call at a time. */
module IdentityService {
  import opened Prelude
  import R = UserRegistry

  class UserRepository {
    var users: map<R.Id, R.User>
    var identities: map<R.Id, R.Identity>

    constructor ()
      ensures View() == R.Registry(map[], map[])
    {
      users, identities := map[], map[];
    }

    function View(): R.Registry
      reads this
    {
      R.Registry(users, identities)
    }

    method FindByFederatedIdentity(pair: R.Pair) returns (r: Option<R.User>)
      ensures
        var rows := R.FindByFederatedIdentity(View(), pair);
        if rows == {} then r == None
        else r.Some? && r.value.id in rows && r.value == users[r.value.id].(id := r.value.id)
      ensures r == None ==> forall i | i in identities && identities[i].pair == pair :: identities[i].userId !in users
      ensures r.Some? ==> r.value.id in users && exists i ::
          i in identities && identities[i].pair == pair && identities[i].userId == r.value.id
    {
      var rows := R.FindByFederatedIdentity(View(), pair);
      assert forall i | i in identities && identities[i].pair == pair && identities[i].userId in users ::
        identities[i].userId in rows;
      if rows == {} {
        return None;
      }
      var row :| row in rows;
      return Some(users[row].(id := row));
    }

    method GetByID(id: R.Id) returns (r: Result<R.User>)
      ensures r == if id in users then Ok(users[id]) else Err(NotFound)
    {
      if id !in users {
        return Err(NotFound);
      }
      return Ok(users[id]);
    }

    /** Both inserts, or neither: the first is rolled back when the second fails. */
    method CreateWithFederatedIdentity(user: R.User, fi: R.Identity) returns (r: Result<()>)
      modifies this
      ensures
        match R.CreateWithFederatedIdentity(old(View()), user, fi)
        case Ok(db) => r == Ok(()) && View() == db
        case Err(e) => r == Err(e) && View() == old(View())
      ensures r.Ok? <==>
        user.id !in old(users) && fi.id !in old(identities) && (fi.userId in old(users) || fi.userId == user.id) &&
        forall i | i in old(identities) :: old(identities)[i].pair != fi.pair
      ensures users == (if r.Ok? then old(users)[user.id := user] else old(users))
      ensures identities == (if r.Ok? then old(identities)[fi.id := fi] else old(identities))
    {
      var begin := users;
      if user.id in users {
        return Err(DuplicateKey);
      }
      users := users[user.id := user];
      if fi.id in identities || R.PairTaken(View(), fi.pair) {
        users := begin;
        return Err(DuplicateKey);
      }
      if fi.userId !in users {
        users := begin;
        return Err(ForeignKey);
      }
      identities := identities[fi.id := fi];
      return Ok(());
    }

    method UpdateUserFromClaims(id: R.Id, claims: R.Claims, at: R.Time)
      modifies this`users
      ensures View() == R.UpdateUserFromClaims(old(View()), id, claims, at)
      ensures users.Keys == old(users).Keys && users - {id} == old(users) - {id}
      ensures id in users ==> R.TakesClaims(old(users)[id], users[id], claims, at)
    {
      if id in users {
        users := users[id := R.UpdatedUser(users[id], claims, at)];
      }
    }

    method UpdateFederatedIdentityClaims(pair: R.Pair, claims: R.Claims, now: R.Time, at: R.Time)
      modifies this`identities
      ensures View() == R.UpdateFederatedIdentityClaims(old(View()), pair, claims, now, at)
      ensures identities.Keys == old(identities).Keys
      ensures forall i | i in identities ::
                identities[i] == if old(identities)[i].pair == pair
                                 then old(identities)[i].(claims := claims, lastLoginAt := at, updatedAt := now)
                                 else old(identities)[i]
    {
      var todo := identities.Keys;
      while todo != {}
        invariant identities.Keys == old(identities).Keys && todo <= identities.Keys
        invariant forall i | i in todo :: identities[i] == old(identities)[i]
        invariant forall i | i in identities && i !in todo ::
          identities[i] == R.UpdateFederatedIdentityClaims(old(View()), pair, claims, now, at).identities[i]
        decreases todo
      {
        var i :| i in todo;
        if identities[i].pair == pair {
          identities := identities[i := identities[i].(claims := claims, lastLoginAt := at, updatedAt := now)];
        }
        todo := todo - {i};
      }
    }

    method DeleteFederatedIdentity(id: R.Id, user: R.Id) returns (r: Result<()>)
      modifies this`identities
      ensures
        match R.DeleteFederatedIdentity(old(View()), id, user)
        case Ok(db) => r == Ok(()) && View() == db
        case Err(e) => r == Err(e) && View() == old(View())
      ensures r == Err(FailedPrecondition) <==> |set i | i in old(identities) && old(identities)[i].userId == user| <= 1
      ensures r == Ok(()) ==> id in old(identities) && old(identities)[id].userId == user
      ensures r == Ok(()) ==> exists i :: i in identities && identities[i].userId == user
      ensures identities == (if r.Ok? then old(identities) - {id} else old(identities))
    {
      var count := |R.IdentitiesOf(View(), user)|;
      if count <= 1 {
        return Err(FailedPrecondition);
      }
      if id !in identities || identities[id].userId != user {
        return Err(NotFound);
      }
      assert R.IdentitiesOf(View(), user) != {id};
      ghost var other :| other in R.IdentitiesOf(View(), user) && other != id;
      identities := identities - {id};
      assert other in identities;
      return Ok(());
    }

    /** A name or picture that is given is stored, and none if it is empty; one that is not
        given stays. */
    method UpdateLocalProfile(id: R.Id, name: Option<string>, picture: Option<string>, at: R.Time)
      modifies this`users
      ensures View() == R.UpdateLocalProfile(old(View()), id, name, picture, at)
      ensures users.Keys == old(users).Keys && users - {id} == old(users) - {id}
      ensures id in users ==>
        && users[id].(localName := None, localPicture := None) ==
           old(users)[id].(localName := None, localPicture := None, updatedAt := at)
        && (name.None? ==> users[id].localName == old(users)[id].localName)
        && (name.Some? ==> users[id].localName.GetOr("") == name.value && users[id].localName != Some(""))
        && (picture.None? ==> users[id].localPicture == old(users)[id].localPicture)
        && (picture.Some? ==> users[id].localPicture.GetOr("") == picture.value && users[id].localPicture != Some(""))
    {
      if id in users {
        if name.Some? {
          users := users[id := users[id].(localName := R.NullableString(name.value))];
        }
        if picture.Some? {
          users := users[id := users[id].(localPicture := R.NullableString(picture.value))];
        }
        users := users[id := users[id].(updatedAt := at)];
      }
    }
  }

  class Service {
    const repo: UserRepository

    constructor (repo: UserRepository)
      ensures this.repo == repo
    {
      this.repo := repo;
    }

    /** The row, but for the name and picture the user has chosen. */
    method GetUser(id: R.Id) returns (r: Result<R.User>)
      ensures r.Ok? <==> id in repo.users
      ensures if r.Err? then r == Err(NotFound) else r.value == R.Shown(repo.users[id])
      ensures r.Ok? ==> r.value.(claims := repo.users[id].claims) == repo.users[id]
      ensures r.Ok? ==>
        var row := repo.users[id];
        && r.value.claims == row.claims.(name := r.value.claims.name, picture := r.value.claims.picture)
        && r.value.claims.name == (if row.localName.GetOr("") != "" then row.localName.value else row.claims.name)
        && r.value.claims.picture ==
           (if row.localPicture.GetOr("") != "" then row.localPicture.value else row.claims.picture)
    {
      var user :- repo.GetByID(id);
      if user.localName.Some? && user.localName.value != "" {
        user := user.(claims := user.claims.(name := user.localName.value));
      }
      if user.localPicture.Some? && user.localPicture.value != "" {
        user := user.(claims := user.claims.(picture := user.localPicture.value));
      }
      return Ok(user);
    }

    /** What is chosen is what is shown; the empty choice shows the provider's again. */
    method UpdateProfile(id: R.Id, name: Option<string>, picture: Option<string>, now: R.Time)
      returns (r: Result<R.User>)
      modifies repo
      ensures repo.View() == R.UpdateLocalProfile(old(repo.View()), id, name, picture, now)
      ensures r == if id in repo.users then Ok(R.Shown(repo.users[id])) else Err(NotFound)
      ensures r.Ok? && name.Some? ==>
        r.value.claims.name == if name.value != "" then name.value else old(repo.users)[id].claims.name
      ensures r.Ok? && picture.Some? ==>
        r.value.claims.picture == if picture.value != "" then picture.value else old(repo.users)[id].claims.picture
    {
      repo.UpdateLocalProfile(id, name, picture, now);
      r := GetUser(id);
    }

    /** While users and pairs correspond, there is no identity that may be unlinked. */
    method UnlinkProvider(user: R.Id, identity: R.Id) returns (r: Result<()>)
      modifies repo
      ensures match R.DeleteFederatedIdentity(old(repo.View()), identity, user)
              case Ok(db) => r == Ok(()) && repo.View() == db
              case Err(e) => r == Err(e) && repo.View() == old(repo.View())
      ensures R.Bijection(old(repo.View())) ==> r == Err(FailedPrecondition) && repo.View() == old(repo.View())
    {
      if R.Bijection(repo.View()) {
        R.UnlinkRefused(repo.View(), identity, user);
      }
      r := repo.DeleteFederatedIdentity(identity, user);
    }

    /** A login gets the pair's user, creating it the first time: afterwards the pair
        resolves to the user answered, and the correspondence of users and pairs stands. */
    method FindOrCreateByFederatedLogin(pair: R.Pair, claims: R.Claims, now: R.Time, userId: R.Id,
                                        identityId: R.Id) returns (r: Result<R.User>)
      requires userId !in repo.users && identityId !in repo.identities
      modifies repo
      ensures R.Bijection(old(repo.View())) ==>
        r.Ok? && r.value.claims == claims && R.Resolves(repo.View(), pair, r.value.id) && R.Bijection(repo.View())
      ensures R.Bijection(old(repo.View())) ==>
        if R.PairTaken(old(repo.View()), pair)
        then R.Resolves(old(repo.View()), pair, r.value.id) && R.SameLinks(old(repo.View()), repo.View())
        else r.value.id == userId && R.LinksKept(old(repo.View()), repo.View())
      ensures R.Bijection(old(repo.View())) ==>
        if R.PairTaken(old(repo.View()), pair)
        then
          && repo.users.Keys == old(repo.users).Keys && repo.users - {r.value.id} == old(repo.users) - {r.value.id}
          && R.TakesClaims(old(repo.users)[r.value.id], repo.users[r.value.id], claims, now)
          && repo.identities.Keys == old(repo.identities).Keys
          && (forall i | i in repo.identities :: repo.identities[i] ==
                if old(repo.identities)[i].pair == pair
                then old(repo.identities)[i].(claims := claims, lastLoginAt := now, updatedAt := now)
                else old(repo.identities)[i])
        else
          && r.value == R.User(userId, claims, None, None, now, now)
          && repo.users == old(repo.users)[userId := r.value]
          && repo.identities ==
             old(repo.identities)[identityId := R.Identity(identityId, userId, pair, claims, now, now, now)]
    {
      hide R.Bijection, R.Resolves, R.PairTaken, R.SameLinks, R.LinksKept, R.CreateWithFederatedIdentity,
           R.UpdateUserFromClaims, R.UpdateFederatedIdentityClaims, R.FindByFederatedIdentity;
      ghost var before := repo.View();
      if R.Bijection(before) {
        TakenIsFound(before, pair);
      }
      var existing := repo.FindByFederatedIdentity(pair);
      if existing.Some? {
        var user := existing.value;
        repo.UpdateUserFromClaims(user.id, claims, now);
        repo.UpdateFederatedIdentityClaims(pair, claims, now, now);
        UpdatesKeepLinks(before, user.id, pair, claims, now);
        ExistingResolves(before, repo.View(), pair, user.id);
        user := user.(claims := claims, updatedAt := now);
        return Ok(user);
      }
      var user := R.NewUser(userId, claims, now);
      var fi := R.NewIdentity(identityId, userId, pair, claims, now);
      R.BothInserted(before, user, fi);
      if R.Bijection(before) {
        R.CreateKeepsBijection(before, user, fi);
      }
      var created := repo.CreateWithFederatedIdentity(user, fi);
      if created.Err? {
        return Err(created.error);
      }
      return Ok(user);
    }
  }

  lemma TakenIsFound(db: R.Registry, pair: R.Pair)
    requires R.Bijection(db)
    ensures R.PairTaken(db, pair) <==> R.FindByFederatedIdentity(db, pair) != {}
  {
    if R.PairTaken(db, pair) {
      var i :| i in db.identities && db.identities[i].pair == pair;
      assert db.identities[i].userId in R.FindByFederatedIdentity(db, pair);
    }
  }

  lemma UpdatesKeepLinks(db: R.Registry, id: R.Id, pair: R.Pair, claims: R.Claims, now: R.Time)
    ensures
      var updated := R.UpdateUserFromClaims(db, id, claims, now);
      R.SameLinks(db, R.UpdateFederatedIdentityClaims(updated, pair, claims, now, now))
  {}

  lemma ExistingResolves(a: R.Registry, b: R.Registry, pair: R.Pair, user: R.Id)
    requires user in R.FindByFederatedIdentity(a, pair) && R.SameLinks(a, b)
    ensures R.PairTaken(a, pair) && R.Resolves(a, pair, user)
    ensures R.Bijection(a) ==> R.Resolves(b, pair, user) && R.Bijection(b)
  {
    R.FoundResolves(a, pair, user);
    R.SameLinksResolve(a, b, pair, user);
    if R.Bijection(a) {
      R.SameLinksKeepBijection(a, b);
    }
  }
}
