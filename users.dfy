/** The User views: list, read, delete, create and update User objects. */
module UsersView {
  import opened Json
  import opened Http
  import opened Storage
  import opened Attributes

  /** Keys an update never copies onto a User: a User's email is fixed at creation. */
  const IGNORE_KEYS: set<string> := {"id", "email", "created_at", "updated_at"}

  /** GET /users: one entry per stored User. */
  method GetAllUsers(store: Store) returns (o: Outcome)
    requires store.Valid()
    ensures o.Done? && o.status == 200 && o.body.Arr?
    ensures |o.body.elems| == |store.users|
    ensures forall v :: v in o.body.elems ==> exists id :: id in store.users && v == Obj(store.users[id])
    ensures forall id :: id in store.users ==> multiset(o.body.elems)[Obj(store.users[id])] == 1
  {
    var list := ListObjects(store.users, store.users.Keys);
    o := Done(200, Arr(list));
  }

  /** GET /users/<user_id>. */
  function GetUser(store: Store, userId: string): (o: Outcome)
    reads store
    ensures o.Done? <==> userId in store.users
    ensures o.Done? ==> o.status == 200 && o.body == Obj(store.users[userId])
    ensures o.Raised? ==> o.error == NotFoundError(None)
  {
    if userId in store.users then Done(200, Obj(store.users[userId]))
    else Raised(NotFoundError(None))
  }

  /** DELETE /users/<user_id>. */
  method DeleteUser(store: Store, userId: string) returns (o: Outcome)
    requires store.Valid()
    modifies store
    ensures store.Valid()
    ensures userId in old(store.users) ==>
      && o == Done(200, Obj(map[]))
      && store.Contents() == old(store.Contents()).(users := old(store.users) - {userId})
    ensures userId !in old(store.users) ==> o == Raised(NotFoundError(None)) && unchanged(store)
  {
    if userId !in store.users {
      return Raised(NotFoundError(None));
    }
    store.Delete(User, userId);
    o := Done(200, Obj(map[]));
  }

  /** POST /users: `newId` is the id the new User receives, `now` the time of the request. */
  method CreateUser(store: Store, body: Option<Record>, newId: string, now: Value) returns (o: Outcome)
    requires store.Valid() && newId !in store.users
    modifies store
    ensures store.Valid()
    ensures NotJson(body) ==> o == Raised(BadRequestError(Some("Not a JSON")))
    ensures !NotJson(body) && "email" !in body.value ==> o == Raised(BadRequestError(Some("Missing email")))
    ensures !NotJson(body) && "email" in body.value && "password" !in body.value ==>
      o == Raised(BadRequestError(Some("Missing password")))
    ensures o.Raised? ==> unchanged(store)
    ensures !NotJson(body) && "email" in body.value && "password" in body.value ==>
      var user := Construct(body.value, newId, now);
      && o == Done(201, Obj(user))
      && store.Contents() == old(store.Contents()).(users := old(store.users)[newId := user])
  {
    if NotJson(body) {
      return Raised(BadRequestError(Some("Not a JSON")));
    }
    var data := body.value;
    if "email" !in data {
      return Raised(BadRequestError(Some("Missing email")));
    }
    if "password" !in data {
      return Raised(BadRequestError(Some("Missing password")));
    }
    var user := Construct(data, newId, now);
    store.Save(User, user, now);
    assert user["updated_at" := now] == user;
    o := Done(201, Obj(user));
  }

  /** PUT /users/<user_id>. */
  method UpdateUser(store: Store, userId: string, body: Option<Record>, now: Value) returns (o: Outcome)
    requires store.Valid()
    modifies store
    ensures store.Valid()
    ensures userId !in old(store.users) ==> o == Raised(NotFoundError(None))
    ensures userId in old(store.users) && NotJson(body) ==> o == Raised(BadRequestError(Some("Not a JSON")))
    ensures o.Raised? ==> unchanged(store)
    ensures userId in old(store.users) && !NotJson(body) ==>
      var user := Merged(old(store.users)[userId], body.value, IGNORE_KEYS)["updated_at" := now];
      && o == Done(200, Obj(user))
      && store.Contents() == old(store.Contents()).(users := old(store.users)[userId := user])
    ensures o.Done? ==>
      && Preserves(old(store.users)[userId], store.users[userId], {"id", "email", "created_at"})
      && store.users[userId]["updated_at"] == now
  {
    if userId !in store.users {
      return Raised(NotFoundError(None));
    }
    if NotJson(body) {
      return Raised(BadRequestError(Some("Not a JSON")));
    }
    var data := body.value;
    var user := SetAttributes(store.users[userId], data, IGNORE_KEYS);
    store.Save(User, user, now);
    o := Done(200, Obj(store.users[userId]));
  }

  /** Deleting a User twice: the first call succeeds, the second finds nothing. */
  method DeleteTwice(store: Store, userId: string) returns (first: Outcome, second: Outcome)
    requires store.Valid() && userId in store.users
    modifies store
    ensures first == Done(200, Obj(map[])) && second == Raised(NotFoundError(None))
    ensures store.Contents() == old(store.Contents()).(users := old(store.users) - {userId})
  {
    first := DeleteUser(store, userId);
    second := DeleteUser(store, userId);
  }

  /** An update that names only `id` and `email` changes nothing but `updated_at`. */
  method UpdateIdentityIgnored(store: Store, userId: string, newId: Value, newEmail: Value, now: Value)
    returns (o: Outcome)
    requires store.Valid() && userId in store.users
    modifies store
    ensures o.Done? && o.status == 200
    ensures store.Contents() == old(store.Contents()).(users := old(store.users)[userId := old(store.users)[userId]["updated_at" := now]])
  {
    var data := map["id" := newId, "email" := newEmail];
    assert !NotJson(Some(data)) by { assert "id" in data; }
    ghost var before := store.users[userId];
    o := UpdateUser(store, userId, Some(data), now);
    assert data - IGNORE_KEYS == map[];
    assert Merged(before, data, IGNORE_KEYS) == before;
  }
}
