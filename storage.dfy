/** The storage facade the views talk to, as an in-memory store with one
    table per kind of object, each keyed by object id. */
module Storage {
  import opened Json

  datatype Kind = State | User | Place | Review

  /** The objects of one kind, by id. */
  type Table = map<string, Record>

  /** Every object is filed under its own `id` attribute. */
  ghost predicate Keyed(t: Table)
  {
    forall id :: id in t ==> "id" in t[id] && t[id]["id"] == Str(id)
  }

  /** The whole content of the store. */
  datatype Db = Db(states: Table, users: Table, places: Table, reviews: Table)
  {
    /** `storage.all(cls)`: the table of one kind. */
    function All(k: Kind): Table
    {
      match k
      case State => states
      case User => users
      case Place => places
      case Review => reviews
    }

    /** This content with the table of kind `k` replaced by `t`. */
    function With(k: Kind, t: Table): (d: Db)
      ensures d.All(k) == t
      ensures forall k' :: k' != k ==> d.All(k') == All(k')
    {
      match k
      case State => this.(states := t)
      case User => this.(users := t)
      case Place => this.(places := t)
      case Review => this.(reviews := t)
    }

    ghost predicate Valid()
    {
      Keyed(states) && Keyed(users) && Keyed(places) && Keyed(reviews)
    }
  }

  /** The attributes a model constructor assigns itself: a fresh id and two
      timestamps, both the time of the request. */
  function Construct(data: Record, id: string, now: Value): (r: Record)
    ensures r.Keys == data.Keys + {"id", "created_at", "updated_at"}
    ensures r["id"] == Str(id) && r["created_at"] == now && r["updated_at"] == now
    ensures forall k :: k in data && k !in {"id", "created_at", "updated_at"} ==> r[k] == data[k]
  {
    data + map["id" := Str(id), "created_at" := now, "updated_at" := now]
  }

  /** The dictionary forms of the objects named by `ids`, one entry per object,
      in whatever order the table yields them. */
  method ListObjects(t: Table, ids: set<string>) returns (list: seq<Value>)
    requires ids <= t.Keys && Keyed(t)
    ensures |list| == |ids|
    ensures forall v :: v in list ==> exists id :: id in ids && v == Obj(t[id])
    ensures forall id :: id in ids ==> multiset(list)[Obj(t[id])] == 1
  {
    list := [];
    var pending := ids;
    while pending != {}
      invariant pending <= ids
      invariant |list| + |pending| == |ids|
      invariant forall v :: v in list ==> exists id :: id in ids && id !in pending && v == Obj(t[id])
      invariant forall id :: id in ids && id !in pending ==> multiset(list)[Obj(t[id])] == 1
      invariant forall id :: id in pending ==> Obj(t[id]) !in list
      decreases pending
    {
      var id :| id in pending;
      list := list + [Obj(t[id])];
      pending := pending - {id};
    }
  }

  class Store {
    var states: Table
    var users: Table
    var places: Table
    var reviews: Table

    constructor (db: Db)
      requires db.Valid()
      ensures Valid() && Contents() == db
    {
      states, users, places, reviews := db.states, db.users, db.places, db.reviews;
    }

    function Contents(): Db
      reads this
    {
      Db(states, users, places, reviews)
    }

    ghost predicate Valid()
      reads this
    {
      Contents().Valid()
    }

    /** `storage.delete(obj)` followed by `storage.save()`. */
    method Delete(k: Kind, id: string)
      requires Valid()
      modifies this
      ensures Valid()
      ensures Contents() == old(Contents()).With(k, old(Contents().All(k)) - {id})
    {
      match k
      case State => states := states - {id};
      case User => users := users - {id};
      case Place => places := places - {id};
      case Review => reviews := reviews - {id};
    }

    /** `obj.save()`: refresh `updated_at`, file the object under its id and persist. */
    method Save(k: Kind, obj: Record, now: Value)
      requires Valid()
      requires "id" in obj && obj["id"].Str?
      modifies this
      ensures Valid()
      ensures Contents() == old(Contents()).With(k, old(Contents().All(k))[obj["id"].s := obj["updated_at" := now]])
    {
      var id := obj["id"].s;
      var saved := obj["updated_at" := now];
      match k
      case State => states := states[id := saved];
      case User => users := users[id := saved];
      case Place => places := places[id := saved];
      case Review => reviews := reviews[id := saved];
    }
  }
}
