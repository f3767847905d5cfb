/** The State views: list, read, delete, create and update State objects. */
module StatesView {
  import opened Json
  import opened Http
  import opened Storage
  import opened Attributes

  /** Keys an update never copies onto a State. */
  const IGNORE_KEYS: set<string> := {"id", "created_at", "updated_at"}

  /** GET /states: one entry per stored State. */
  method GetAllStates(store: Store) returns (o: Outcome)
    requires store.Valid()
    ensures o.Done? && o.status == 200 && o.body.Arr?
    ensures |o.body.elems| == |store.states|
    ensures forall v :: v in o.body.elems ==> exists id :: id in store.states && v == Obj(store.states[id])
    ensures forall id :: id in store.states ==> multiset(o.body.elems)[Obj(store.states[id])] == 1
  {
    var list := ListObjects(store.states, store.states.Keys);
    o := Done(200, Arr(list));
  }

  /** GET /states/<state_id>. */
  function GetState(store: Store, stateId: string): (o: Outcome)
    reads store
    ensures o.Done? <==> stateId in store.states
    ensures o.Done? ==> o.status == 200 && o.body == Obj(store.states[stateId])
    ensures o.Raised? ==> o.error == NotFoundError(None)
  {
    if stateId in store.states then Done(200, Obj(store.states[stateId]))
    else Raised(NotFoundError(None))
  }

  /** DELETE /states/<state_id>. */
  method DeleteState(store: Store, stateId: string) returns (o: Outcome)
    requires store.Valid()
    modifies store
    ensures store.Valid()
    ensures stateId in old(store.states) ==>
      && o == Done(200, Obj(map[]))
      && store.Contents() == old(store.Contents()).(states := old(store.states) - {stateId})
    ensures stateId !in old(store.states) ==> o == Raised(NotFoundError(None)) && unchanged(store)
  {
    if stateId !in store.states {
      return Raised(NotFoundError(None));
    }
    store.Delete(State, stateId);
    o := Done(200, Obj(map[]));
  }

  /** POST /states: `newId` is the id the new State receives, `now` the time of the request. */
  method CreateState(store: Store, body: Option<Record>, newId: string, now: Value) returns (o: Outcome)
    requires store.Valid() && newId !in store.states
    modifies store
    ensures store.Valid()
    ensures NotJson(body) ==> o == Raised(BadRequestError(Some("Not a JSON")))
    ensures !NotJson(body) && "name" !in body.value ==> o == Raised(BadRequestError(Some("Missing name")))
    ensures o.Raised? ==> unchanged(store)
    ensures !NotJson(body) && "name" in body.value ==>
      var state := Construct(body.value, newId, now);
      && o == Done(201, Obj(state))
      && store.Contents() == old(store.Contents()).(states := old(store.states)[newId := state])
  {
    if NotJson(body) {
      return Raised(BadRequestError(Some("Not a JSON")));
    }
    var kwargs := body.value;
    if "name" !in kwargs {
      return Raised(BadRequestError(Some("Missing name")));
    }
    var state := Construct(kwargs, newId, now);
    store.Save(State, state, now);
    assert state["updated_at" := now] == state;
    o := Done(201, Obj(state));
  }

  /** PUT /states/<state_id>. */
  method UpdateState(store: Store, stateId: string, body: Option<Record>, now: Value) returns (o: Outcome)
    requires store.Valid()
    modifies store
    ensures store.Valid()
    ensures stateId !in old(store.states) ==> o == Raised(NotFoundError(None))
    ensures stateId in old(store.states) && NotJson(body) ==> o == Raised(BadRequestError(Some("Not a JSON")))
    ensures o.Raised? ==> unchanged(store)
    ensures stateId in old(store.states) && !NotJson(body) ==>
      var state := Merged(old(store.states)[stateId], body.value, IGNORE_KEYS)["updated_at" := now];
      && o == Done(200, Obj(state))
      && store.Contents() == old(store.Contents()).(states := old(store.states)[stateId := state])
    ensures o.Done? ==>
      && Preserves(old(store.states)[stateId], store.states[stateId], {"id", "created_at"})
      && store.states[stateId]["updated_at"] == now
  {
    if stateId !in store.states {
      return Raised(NotFoundError(None));
    }
    if NotJson(body) {
      return Raised(BadRequestError(Some("Not a JSON")));
    }
    var data := body.value;
    var state := SetAttributes(store.states[stateId], data, IGNORE_KEYS);
    store.Save(State, state, now);
    o := Done(200, Obj(store.states[stateId]));
  }

  /** A State created by POST reads back unchanged through GET. */
  method CreateThenGet(store: Store, body: Option<Record>, newId: string, now: Value)
    returns (created: Outcome, fetched: Outcome)
    requires store.Valid() && newId !in store.states
    modifies store
    ensures created.Done? ==> created.status == 201 && fetched == Done(200, created.body)
    ensures created.Raised? ==> fetched == Raised(NotFoundError(None))
  {
    created := CreateState(store, body, newId, now);
    fetched := GetState(store, newId);
  }
}
