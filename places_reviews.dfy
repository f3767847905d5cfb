/** The Review views: reviews of a Place, and read, delete, create and update
    of single Review objects. */
module PlacesReviewsView {
  import opened Json
  import opened Http
  import opened Storage
  import opened Attributes

  /** Keys an update never copies onto a Review: its author and its Place are fixed at creation. */
  const IGNORE_KEYS: set<string> := {"id", "user_id", "place_id", "created_at", "updated_at"}

  /** A Place's reviews are the Reviews whose `place_id` is that Place's id. */
  predicate BelongsTo(review: Record, placeId: string)
    ensures BelongsTo(review, placeId) <==>
      "place_id" in review && review["place_id"].Str? && review["place_id"].s == placeId
  {
    "place_id" in review && review["place_id"] == Str(placeId)
  }

  /** Looking a User up by the `user_id` of a payload finds one only for a
      string naming a stored User. */
  predicate NamesUser(users: Table, userId: Value)
    ensures NamesUser(users, userId) <==> exists id :: id in users && userId == Str(id)
  {
    userId.Str? && userId.s in users
  }

  /** GET /places/<place_id>/reviews. */
  method GetReviewsByPlace(store: Store, placeId: string) returns (o: Outcome)
    requires store.Valid()
    ensures placeId !in store.places ==> o == Raised(NotFoundError(None))
    ensures placeId in store.places ==> o.Done? && o.status == 200 && o.body.Arr?
    ensures o.Done? ==> |o.body.elems| == |set id | id in store.reviews && BelongsTo(store.reviews[id], placeId)|
    ensures o.Done? ==>
      && (forall v :: v in o.body.elems ==>
            exists id :: id in store.reviews && BelongsTo(store.reviews[id], placeId) && v == Obj(store.reviews[id]))
      && (forall id :: id in store.reviews && BelongsTo(store.reviews[id], placeId) ==>
            multiset(o.body.elems)[Obj(store.reviews[id])] == 1)
  {
    if placeId !in store.places {
      return Raised(NotFoundError(None));
    }
    var ids := set id | id in store.reviews && BelongsTo(store.reviews[id], placeId);
    var list := ListObjects(store.reviews, ids);
    o := Done(200, Arr(list));
  }

  /** GET /reviews/<review_id>. */
  function GetReview(store: Store, reviewId: string): (o: Outcome)
    reads store
    ensures o.Done? <==> reviewId in store.reviews
    ensures o.Done? ==> o.status == 200 && o.body == Obj(store.reviews[reviewId])
    ensures o.Raised? ==> o.error == NotFoundError(None)
  {
    if reviewId in store.reviews then Done(200, Obj(store.reviews[reviewId]))
    else Raised(NotFoundError(None))
  }

  /** DELETE /reviews/<review_id>. */
  method DeleteReview(store: Store, reviewId: string) returns (o: Outcome)
    requires store.Valid()
    modifies store
    ensures store.Valid()
    ensures reviewId in old(store.reviews) ==>
      && o == Done(200, Obj(map[]))
      && store.Contents() == old(store.Contents()).(reviews := old(store.reviews) - {reviewId})
    ensures reviewId !in old(store.reviews) ==> o == Raised(NotFoundError(None)) && unchanged(store)
  {
    if reviewId !in store.reviews {
      return Raised(NotFoundError(None));
    }
    store.Delete(Review, reviewId);
    o := Done(200, Obj(map[]));
  }

  /** POST /places/<place_id>/reviews: `newId` is the id the new Review
      receives, `now` the time of the request. */
  method CreateReview(store: Store, placeId: string, body: Option<Record>, newId: string, now: Value)
    returns (o: Outcome)
    requires store.Valid() && newId !in store.reviews
    modifies store
    ensures store.Valid()
    ensures placeId !in old(store.places) ==> o == Raised(NotFoundError(None))
    ensures placeId in old(store.places) && NotJson(body) ==> o == Raised(BadRequestError(Some("Not a JSON")))
    ensures placeId in old(store.places) && !NotJson(body) && "user_id" !in body.value ==>
      o == Raised(BadRequestError(Some("Missing user_id")))
    ensures placeId in old(store.places) && !NotJson(body) && "user_id" in body.value && "text" !in body.value ==>
      o == Raised(BadRequestError(Some("Missing text")))
    ensures placeId in old(store.places) && !NotJson(body) && "user_id" in body.value && "text" in body.value
            && !NamesUser(old(store.users), body.value["user_id"]) ==>
      o == Raised(NotFoundError(None))
    ensures o.Raised? ==> unchanged(store)
    ensures placeId in old(store.places) && !NotJson(body) && "user_id" in body.value && "text" in body.value
            && NamesUser(old(store.users), body.value["user_id"]) ==>
      var review := Construct(body.value["place_id" := Str(placeId)], newId, now);
      && o == Done(201, Obj(review))
      && store.Contents() == old(store.Contents()).(reviews := old(store.reviews)[newId := review])
    ensures o.Done? ==>
      && o.status == 201
      && BelongsTo(store.reviews[newId], placeId)
      && NamesUser(store.users, store.reviews[newId]["user_id"])
  {
    if placeId !in store.places {
      return Raised(NotFoundError(None));
    }
    if NotJson(body) {
      return Raised(BadRequestError(Some("Not a JSON")));
    }
    var data := body.value;
    if "user_id" !in data {
      return Raised(BadRequestError(Some("Missing user_id")));
    }
    if "text" !in data {
      return Raised(BadRequestError(Some("Missing text")));
    }
    if !NamesUser(store.users, data["user_id"]) {
      return Raised(NotFoundError(None));
    }
    data := data["place_id" := Str(placeId)];
    var review := Construct(data, newId, now);
    store.Save(Review, review, now);
    assert review["updated_at" := now] == review;
    o := Done(201, Obj(review));
  }

  /** PUT /reviews/<review_id>. */
  method UpdateReview(store: Store, reviewId: string, body: Option<Record>, now: Value) returns (o: Outcome)
    requires store.Valid()
    modifies store
    ensures store.Valid()
    ensures reviewId !in old(store.reviews) ==> o == Raised(NotFoundError(None))
    ensures reviewId in old(store.reviews) && NotJson(body) ==> o == Raised(BadRequestError(Some("Not a JSON")))
    ensures o.Raised? ==> unchanged(store)
    ensures reviewId in old(store.reviews) && !NotJson(body) ==>
      var review := Merged(old(store.reviews)[reviewId], body.value, IGNORE_KEYS)["updated_at" := now];
      && o == Done(200, Obj(review))
      && store.Contents() == old(store.Contents()).(reviews := old(store.reviews)[reviewId := review])
    ensures o.Done? ==>
      && Preserves(old(store.reviews)[reviewId], store.reviews[reviewId], {"id", "user_id", "place_id", "created_at"})
      && store.reviews[reviewId]["updated_at"] == now
  {
    if reviewId !in store.reviews {
      return Raised(NotFoundError(None));
    }
    if NotJson(body) {
      return Raised(BadRequestError(Some("Not a JSON")));
    }
    var data := body.value;
    var review := SetAttributes(store.reviews[reviewId], data, IGNORE_KEYS);
    store.Save(Review, review, now);
    o := Done(200, Obj(store.reviews[reviewId]));
  }

  /** An update naming another Place succeeds and the Review stays with its own Place. */
  method UpdatePlaceIgnored(store: Store, reviewId: string, otherPlace: string, now: Value)
    returns (o: Outcome)
    requires store.Valid() && reviewId in store.reviews
    modifies store
    ensures o.Done? && o.status == 200
    ensures store.Contents() == old(store.Contents()).(reviews := old(store.reviews)[reviewId := old(store.reviews)[reviewId]["updated_at" := now]])
  {
    var data := map["place_id" := Str(otherPlace)];
    assert !NotJson(Some(data)) by { assert "place_id" in data; }
    ghost var before := store.reviews[reviewId];
    o := UpdateReview(store, reviewId, Some(data), now);
    assert data - IGNORE_KEYS == map[];
    assert Merged(before, data, IGNORE_KEYS) == before;
  }
}
