# Request-handling rules of the State, User and Review views

This project models the three resource views of a small REST API over an
object store: States, Users and the Reviews of a Place. Each view handler
becomes a Dafny method or function. It takes the path parameters and the
request's JSON object, if there is one. It returns an outcome: either a
status with a JSON body, or an abort carrying a status code and a message.

The store is a class, `Storage.Store`, with one table per kind (`states`,
`users`, `places`, `reviews`). Each table maps an object id to the object's
attributes. Its two mutating operations model the storage facade:

- `Delete` stands for `storage.delete(obj)` followed by `storage.save()`.
- `Save` stands for `obj.save()`: it refreshes `updated_at` and files the object under its id.

Every handler keeps the store's invariant that each object is filed under its
own `id` attribute. Each handler's contract covers:

- the order of its checks: 404 for a missing object, and 400 for a missing or
  empty JSON object or a missing required key, with the first failing check
  deciding the outcome;
- the store left unchanged by every failed request;
- the one table entry that a successful request adds, removes or rewrites.

The update views share the merge loop in `Attributes.SetAttributes`. It copies
payload entries onto the stored object except for a per-view ignore list.
It is proved equal to `Attributes.Merged`, whose contract says what ends up
in the object. `Http.Respond` applies the two error handlers. A 404 always
becomes `{"error": "Not found"}` and a 400 always becomes
`{"error": "Bad Request"}`, whatever message the view gave to the abort.

Modules: `Json` (values and the "Not a JSON" test), `Http` (outcomes, error
handlers), `Storage` (the store), `Attributes` (the update merge),
`StatesView`, `UsersView`, `PlacesReviewsView` (one per view file).

Two points of the code's order and merge rules are worth naming:

- The Review POST checks that the Place exists before it reads the body (api/v1/views/places_reviews.py:77-85).
- Update merges unknown keys verbatim: only the ignore list is skipped (api/v1/views/places_reviews.py:130-132).

## Model

| member | source | states |
|---|---|---|
| `Http.NotFound` | api/v1/views/states.py:122-129 | the 404 handler answers status 404 with the body `{"error": "Not found"}` for any error it is given |
| `Http.BadRequest` | api/v1/views/users.py:130-137 | the 400 handler answers status 400 with the body `{"error": "Bad Request"}` for any error it is given |
| `Http.Respond` | api/v1/views/places_reviews.py:144-161 | a finished view's status and body reach the client unchanged; every 404 abort becomes `{"error": "Not found"}` and every 400 abort `{"error": "Bad Request"}`, independent of the abort's message |
| `Http.DescriptionIsDropped` | api/v1/views/states.py:132-139 | two aborts with the same code but different messages give identical responses |
| `Json.NotJson` | api/v1/views/states.py:71-73 | the truth test on the request body: an absent body or an empty object is rejected as "Not a JSON", and a body that passes is an object with at least one key |
| `PlacesReviewsView.BelongsTo` | api/v1/views/places_reviews.py:29 | a Place's reviews are exactly the Reviews whose `place_id` is a string equal to that Place's id |
| `PlacesReviewsView.NamesUser` | api/v1/views/places_reviews.py:96-100 | the User lookup for a Review POST succeeds exactly when `user_id` is the id of a stored User |
| `Storage.Construct` | api/v1/views/states.py:82-84 | a new object carries every payload attribute except `id`, `created_at` and `updated_at`; those get the fresh id and the request time |
| `Storage.ListObjects` | api/v1/views/states.py:21-23 | the list comprehension over stored objects yields exactly one entry per object named, and nothing else |
| `Storage.Store.Delete` | api/v1/views/states.py:55-56 | deleting removes exactly that id from the table of its kind; every other table is unchanged |
| `Storage.Store.Save` | api/v1/views/states.py:111-112 | saving files the object under its own id with `updated_at` set to the request time; every other table is unchanged |
| `Attributes.Merged` | api/v1/views/states.py:105-109 | after the merge, every payload key not ignored has its payload value; every other attribute keeps its stored value; no attribute is lost |
| `Attributes.SetAttributes` | api/v1/views/users.py:104-108 | the `setattr` loop over the payload's entries produces exactly the merged object, whatever order the entries come in |
| `Attributes.MergePreservesIgnored` | api/v1/views/places_reviews.py:128-132 | keys on the ignore list are present after the merge exactly when they were before, with the same values |
| `Attributes.MergeIdempotent` | api/v1/views/states.py:105-109 | merging the same payload twice gives the same object as merging it once |
| `StatesView.GetAllStates` | api/v1/views/states.py:15-24 | GET all answers 200 with a list holding each stored State exactly once and nothing else |
| `StatesView.GetState` | api/v1/views/states.py:29-41 | GET answers 200 with the stored State exactly when its id is present, otherwise a 404 abort |
| `StatesView.DeleteState` | api/v1/views/states.py:46-61 | DELETE of a present id removes exactly that State, leaves all other entries of all tables alone and answers `{}` with 200; an absent id is a 404 and nothing changes |
| `StatesView.CreateState` | api/v1/views/states.py:66-86 | POST aborts with "Not a JSON" for a missing or empty body, then with "Missing name"; a failed POST changes nothing; a successful one adds exactly one State under the fresh id, carrying the payload, and answers 201 with it |
| `StatesView.UpdateState` | api/v1/views/states.py:91-117 | PUT on an absent id is a 404 whatever the body; a present id with no or empty JSON is a 400 with nothing changed; otherwise the State becomes the merge of the payload minus `id`, `created_at` and `updated_at`, `updated_at` is the request time, and the answer is 200 with it |
| `StatesView.CreateThenGet` | api/v1/views/states.py:82-86 | a State created by POST is read back unchanged by GET on its id |
| `UsersView.GetAllUsers` | api/v1/views/users.py:15-22 | GET all answers 200 with a list holding each stored User exactly once and nothing else |
| `UsersView.GetUser` | api/v1/views/users.py:26-38 | GET answers 200 with the stored User exactly when its id is present, otherwise a 404 abort |
| `UsersView.DeleteUser` | api/v1/views/users.py:42-57 | DELETE of a present id removes exactly that User and answers `{}` with 200; an absent id is a 404 and nothing changes |
| `UsersView.CreateUser` | api/v1/views/users.py:61-85 | POST checks JSON, then `email`, then `password`, and the first failure decides the 400 message; a failed POST changes nothing; a successful one adds exactly one User carrying the payload and answers 201 |
| `UsersView.UpdateUser` | api/v1/views/users.py:89-116 | PUT on an absent id is a 404 before the body is looked at; no or empty JSON is a 400 with nothing changed; otherwise `id`, `email` and `created_at` are kept, `updated_at` is the request time, and every other payload key (such as `password`) takes its payload value |
| `UsersView.DeleteTwice` | api/v1/views/users.py:48-57 | deleting the same User twice answers 200 and then 404, and removes only that User |
| `UsersView.UpdateIdentityIgnored` | api/v1/views/users.py:104-108 | a PUT carrying only `id` and `email` answers 200 and changes nothing but `updated_at` |
| `PlacesReviewsView.GetReviewsByPlace` | api/v1/views/places_reviews.py:16-30 | listing the reviews of an absent Place is a 404; otherwise it answers 200 with each Review whose `place_id` is that Place exactly once and nothing else |
| `PlacesReviewsView.GetReview` | api/v1/views/places_reviews.py:34-47 | GET answers 200 with the stored Review exactly when its id is present, otherwise a 404 abort |
| `PlacesReviewsView.DeleteReview` | api/v1/views/places_reviews.py:51-66 | DELETE of a present id removes exactly that Review and answers `{}` with 200; an absent id is a 404 and nothing changes |
| `PlacesReviewsView.CreateReview` | api/v1/views/places_reviews.py:70-109 | POST checks in order: the Place exists (404), JSON present (400), `user_id` present (400), `text` present (400), the User exists (404); any failure changes nothing; on success exactly one Review is added whose `place_id` is the URL's, overriding the body, and whose `user_id` names a stored User, and the answer is 201 |
| `PlacesReviewsView.UpdateReview` | api/v1/views/places_reviews.py:113-140 | PUT on an absent id is a 404; no or empty JSON is a 400 with nothing changed; otherwise `id`, `user_id`, `place_id` and `created_at` are kept, `updated_at` is the request time, and every other payload key is merged verbatim |
| `PlacesReviewsView.UpdatePlaceIgnored` | api/v1/views/places_reviews.py:128-132 | a PUT naming another `place_id` answers 200 and the Review keeps its Place |

## Left out

- Routing, decorators, `strict_slashes` and trailing slashes, `jsonify` serialisation and content-type handling belong to the web framework and are not modelled.
- The request body is modelled as an optional JSON object, so bodies that are not objects are not modelled. Their behaviour in the source is as follows.
  - In POST, a non-empty array or a non-empty string reaches the key checks. These are membership tests on the array's elements or substring tests on the string. A missing key gives the 400 "Missing name", "Missing email", "Missing password", "Missing user_id" or "Missing text". Otherwise `data['user_id']` (Review) or `State(**…)` / `User(**…)` raises a TypeError, which is a 500.
  - In PUT there are no key checks. A non-empty array or string goes straight to `.items()`, which raises an AttributeError, a 500.
  - A non-zero number or `true` makes the key check raise a TypeError in POST, and makes `.items()` raise an AttributeError in PUT. Both are 500s.
  - An empty array, `null`, `false`, `0` and `""` are falsy and get "Not a JSON". The model represents them as no body.
  - An unparsable body makes the framework abort with its own 400 message instead of "Not a JSON". The model represents it as no body, so its abort description is "Not a JSON". The client sees the same `{"error": "Bad Request"}` either way.
- The model constructors and `BaseModel.save()` are not part of this model. Id generation is a parameter, `newId`, assumed fresh in its table. The clock is a parameter, `now`, used for both timestamps. The constructor is modelled as assigning `id`, `created_at` and `updated_at` itself, so payload values for these three keys are dropped. Dropping `__class__` and parsing timestamp strings are not modelled.
- The dictionary form of an object is the stored record itself. The datetime formatting and the `__class__` key are not modelled.
- The order in which `storage.all` yields objects is not modelled: the tables are maps, and the listings promise each object exactly once in some order.
- The `place.reviews` relationship is modelled as the Reviews whose `place_id` is the Place's id.
- `storage.get(User, user_id)` with a `user_id` that is not a string is modelled as finding no User, which gives a 404.
- `abort(404)` with no message is modelled as an abort whose description is absent. The framework's default message is not modelled, since the error handlers never show it.
- The file or database engine behind the store and its persistence are not modelled: each `Delete` and `Save` updates the in-memory tables directly.
- Update mutates the stored object in place through `setattr`. The model merges into a copy and writes it back at `Save`, with every payload key treated as a plain attribute. The source can fail part-way. For example, `setattr` of `__class__` to a non-class raises a type error in the middle of the loop. A payload key `save` or `to_dict` replaces the method, so the call to it afterwards raises. In those cases the stored object keeps the attributes already set, and the request ends in a 500. The model instead answers 200 with the merged record. Such partial updates and aliasing of the stored object are not modelled.
- Registering the same two error handlers from each of the three view files has no effect beyond one registration. It is modelled once, in `Http`.
- Concurrent requests are not modelled. The views do nothing about them.
- JSON numbers are modelled as integers. Floating point values are not distinguished, because the views only copy them.
