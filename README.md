# API catalogue backend: data-access layer and request handlers

This project models the core of a catalogue service for third-party APIs.
The service stores API listings (name, description, a free flag, a
documentation link and an optional image), the endpoints of each API, user
likes and comments. It serves them over HTTP.

- `wrappers.dfy`: `Option` and `Result`.
- `models.dfy`: the rows of the four database tables (`apis`, `endpoints`,
  `likes`, `comments`), and the defaults `models.API(...)` applies when it
  builds a row.
- `schemas.dfy`: the request and response shapes. It also has the
  required-field validation that turns a partly filled request body into a
  validated input, or into the list of locations of the missing fields.
- `query.dfy`: how a `SELECT` lists the keys of a table: ascending key order,
  then `OFFSET skip LIMIT limit` on top.
- `crud.dfy`: the persistence layer as the class `Crud.Store`.
  - Each table is a `map` from primary key to row.
  - One key counter (`nextId`) hands out fresh keys.
  - Each function of the layer is a method that updates those fields.
  - The read shapes are specification functions: an API with its
    endpoints, comments and live like count. Lemmas prove what those
    functions list and how each write changes them.
- `routes.dfy`: the request handlers. Each one validates the body, calls
  the store and maps the answer to a `Response`:
  - 200 with a body;
  - a refusal with a status and detail (404 "API not found", 404
    "Endpoint not found", 404 "Like not found", or 400 for a repeated
    like);
  - 422 with the missing fields;
  - 500 for an error nothing catches.

  `Routes.WeatherSession` models a whole client session from an empty
  database and proves what each answer is.

Four behaviours of the code a reader may not expect:

- Deleting an API deletes no other row (crud/crud.py:189-197). The
  `comments` and `endpoints` relationships of the API row
  (models/models.py:15-16) have no delete cascade, so the ORM sets the
  `api_id` of the API's endpoints and comments to NULL and keeps them: they
  then belong to no API. Likes have no relationship, so they keep pointing
  at a key that no longer exists.
- The image is never stored. `create_api` in crud/crud.py:79 excludes
  `image` from the row, and the image branch at lines 81-83 does nothing.
  The created API is therefore reported with no image, even when a file was
  uploaded.
- `create_api` does not return the submitted endpoints as they were given.
  It re-reads every endpoint that points at the new key (crud/crud.py:101-113).
  These are the rows that already pointed at that key, followed by the
  submitted list in order (`Crud.CreatedEndpointsListed`). So they are the
  submitted list alone when no older endpoint pointed at that key
  (`Crud.CreatedEndpointsOnly`).
- `POST /apis/` validates its form body inside the handler
  (api/api_routes.py:24-25). A body missing a field therefore raises an
  error nothing catches, which is a 500 and not a 422.

## Model

| member | source | states |
|---|---|---|
| Models.NewApi | models/models.py:7-14 | the new row copies name, description and documentation; `free` is the given value and defaults to true; no image is set |
| Schemas.ValidateEndpoint | schemas/schemas.py:4-10 | accepted iff url, method and description are all set, and then carries exactly those values; otherwise each missing field is reported under the given location and the error list is non-empty |
| Schemas.ValidateEndpoints | schemas/schemas.py:24-25 | a list of endpoint bodies is accepted iff every item is complete; the result has one validated endpoint per item, holding that item's values in the same order |
| Schemas.MissingBase | schemas/schemas.py:18-22 | no location is reported iff all four base fields are set; each of `name`, `description`, `free` and `documentation` is reported exactly when absent, and nothing else is reported |
| Schemas.ValidateAPICreate | schemas/schemas.py:18-25 | accepted iff the four base fields and an endpoint list are set and every endpoint is complete; the input then carries the body's values, its image and, in order, one endpoint holding each submitted endpoint's url, method and description; on refusal each base field and the endpoint list are reported exactly when absent |
| Schemas.ValidateAPIUpdate | schemas/schemas.py:27-28 | an update body is accepted iff all four base fields are set, and the patch is then the body unchanged |
| Schemas.ValidateComment | schemas/schemas.py:40-45 | accepted iff `api_id` and `content` are both set, and then carries them; each absent field is reported exactly when absent |
| Query.AscendMembers | crud/crud.py:41-48 | the listing of a table's keys holds exactly the keys of the table below the bound |
| Query.AscendSorted | crud/crud.py:41-48 | that listing is in strictly ascending key order |
| Query.Page | crud/crud.py:46-47 | `OFFSET skip LIMIT limit`: at most `limit` keys, exactly `min(limit, n - skip)` of them, and key `i` of the page is key `skip + i` of the listing |
| Query.PageOfAscending | crud/crud.py:46-47 | a page of an ascending listing is ascending and drawn from that listing |
| Query.PageOfKeys | crud/crud.py:41-50 | every key on a page of the API listing is the key of a stored API |
| Crud.Patched | crud/crud.py:126-127 | each base field of the API takes the patch's value when the patch sets it, and keeps its old value otherwise; the image never changes |
| Crud.PatchedEndpoint | crud/crud.py:173-174 | each of url, method and description takes the patch's value when set and is kept otherwise; the endpoint's API never changes |
| Crud.EndpointsOf | crud/crud.py:25-27 | definition: the endpoints whose `api_id` is the API's key, in ascending key order; what it lists is proved by `Crud.EndpointsOfListed` and `Crud.EndpointsOfExact` |
| Crud.CommentsOf | crud/crud.py:21-23 | definition: the comments whose `api_id` is the API's key, in ascending key order; what it lists is proved by `Crud.CommentsOfListed` and `Crud.CommentsOfExact` |
| Crud.LikeCount | crud/crud.py:10-13 | definition: the number of likes whose `api_id` is the key, the `count` of the outer join; `Crud.LikeCountZero` and `Crud.LikeCountAfterInsert` prove when it is 0 and how a like changes it |
| Crud.ApiView | crud/crud.py:29-39 | definition: an API row with its key, its endpoints, its comments and its like count, as `get_api`, `get_apis` and `update_api` assemble it; `Crud.CreatedViewAgrees` relates it to the answer of `create_api` |
| Crud.HasLiked | crud/crud.py:200-206 | definition: some like is exactly (this API, this user); `Crud.Store.CreateLike` is refused iff it holds |
| Crud.Batch | crud/crud.py:89-96 | definition: one endpoint row per submitted endpoint, under consecutive keys, pointing at the API; `Crud.BatchKeys` and `Crud.BatchGrows` prove its keys and how the loop builds it |
| Crud.DetachEndpoints | crud/crud.py:194-196 | definition: the endpoint table after the API is deleted, each row that pointed at it kept with no API; `Crud.DetachedUnlisted` and `Crud.DetachKeepsOtherEndpoints` prove what the listings become |
| Crud.DetachComments | crud/crud.py:194-196 | definition: the comment table after the API is deleted, each row that pointed at it kept with no API; `Crud.DetachedUnlisted` and `Crud.DetachKeepsOtherComments` prove what the listings become |
| Crud.Store.GetApi | crud/crud.py:8-39 | nothing iff no API has that key; otherwise the API with its live aggregates: the like count of its likes, and exactly the stored comments and endpoints that point at it |
| Crud.Store.GetApis | crud/crud.py:41-76 | at most `limit` entries, one per key of the page of the ascending API listing, each an existing API with the same aggregates as `get_api` |
| Crud.Store.CreateApi | crud/crud.py:78-116 | the API is stored under a fresh key with the submitted fields and no image; its endpoints are stored under the following keys, in submission order; likes and comments are untouched; the answer has 0 likes, no comments, no image, and the endpoints that point at the new key |
| Crud.Store.InsertApi | crud/crud.py:79-87 | the row goes in under the fresh key and only the API table changes |
| Crud.Store.AddEndpoints | crud/crud.py:89-98 | the endpoint table becomes the old table plus one row per submitted endpoint, under consecutive fresh keys in submission order, each pointing at the API; no other table changes |
| Crud.Store.UpdateApi | crud/crud.py:118-150 | nothing iff no API has that key, and then nothing changes; otherwise only that API changes, to the patched row, and it is returned with fresh aggregates |
| Crud.Store.CreateEndpoint | crud/crud.py:152-162 | exactly one endpoint is added, under a fresh key, with the given fields and API; the API is not checked to exist |
| Crud.Store.GetEndpoint | crud/crud.py:164-165 | the endpoint stored under that key, or nothing iff there is none |
| Crud.Store.UpdateEndpoint | crud/crud.py:167-178 | nothing iff no endpoint has that key, and then nothing changes; otherwise only that endpoint changes, to the patched row, which is returned |
| Crud.Store.DeleteEndpoint | crud/crud.py:180-187 | removes exactly that endpoint and returns it, or returns nothing iff it was absent; no other table changes |
| Crud.Store.DeleteApi | crud/crud.py:189-197 | removes exactly that API and returns it, or returns nothing iff it was absent, and then nothing changes; otherwise its endpoints and comments stay with no API, and the likes and the key counter are untouched |
| Crud.Store.CreateLike | crud/crud.py:199-213 | refused with 400 "User has already liked this API" iff that user already liked that API, and then the likes are untouched; otherwise exactly one like of that API by that user is added under a fresh key; (API, user) pairs stay unique |
| Crud.Store.CreateComment | crud/crud.py:215-220 | exactly one comment is added, under a fresh key, with the given API and content, and it is returned |
| Crud.Store.GetComments | crud/crud.py:222-225 | exactly the stored comments that point at the API, in strictly ascending key order |
| Crud.CommentsOfListed | crud/crud.py:21-23 | the comments listed below a bound are exactly the stored comments below it that point at the API, in strictly ascending key order |
| Crud.EndpointsOfListed | crud/crud.py:25-27 | the endpoints listed below a bound are exactly the stored endpoints below it that point at the API, in strictly ascending key order |
| Crud.CommentsOfExact | crud/crud.py:21-23 | over a valid table, the comments of an API are exactly the stored comments that point at it, ascending |
| Crud.EndpointsOfExact | crud/crud.py:25-27 | over a valid table, the endpoints of an API are exactly the stored endpoints that point at it, ascending |
| Crud.EndpointsOfSameBelow | crud/crud.py:25-27 | two endpoint tables that agree below a bound list the same endpoints of every API below it |
| Crud.CommentsOfSameBelow | crud/crud.py:21-23 | two comment tables that agree below a bound list the same comments of every API below it |
| Crud.EndpointAppended | crud/crud.py:152-162 | an endpoint stored under a fresh key comes last in the listing of its API, and the listing of every other API is unchanged |
| Crud.CommentAppended | crud/crud.py:215-225 | a comment stored under a fresh key comes last in the listing of its API, and the listing of every other API is unchanged |
| Crud.DeletedEndpointUnlisted | crud/crud.py:180-187 | a deleted endpoint is listed under no API |
| Crud.EndpointsOfNone | crud/crud.py:25-27 | an API that no endpoint points at lists no endpoints |
| Crud.CommentsOfNone | crud/crud.py:21-23 | an API that no comment points at lists no comments |
| Crud.LikeCountZero | crud/crud.py:9-13 | the outer-join like count of an API is 0 iff no like points at it |
| Crud.LikeCountAfterInsert | crud/crud.py:199-213 | a like stored under a fresh key raises the count of its own API by one and leaves every other count unchanged |
| Crud.CreatedViewAgrees | crud/crud.py:101-114 | if no endpoint, like or comment pointed at the new key, the answer of `create_api` is exactly what `get_api` reports for that key afterwards: the submitted endpoints in order, no comments, 0 likes |
| Crud.CreatedEndpointsOnly | crud/crud.py:101-113 | if no endpoint pointed at the new key, the endpoints listed for it after the batch insert are exactly the submitted ones, in order |
| Crud.CreatedEndpointsListed | crud/crud.py:89-102 | after a batch insert, the endpoints of the API are the rows that already pointed at it, then the batch in submission order |
| Crud.BatchPrefixListed | crud/crud.py:89-102 | the same, for the first `n` keys of the batch |
| Crud.BatchGrows | crud/crud.py:89-96 | one more loop step adds exactly the next submitted endpoint under the next key |
| Crud.BatchKeys | crud/crud.py:89-96 | the keys of a batch are exactly the consecutive keys from the first one, one per submitted endpoint |
| Crud.DetachedKeys | crud/crud.py:194-196 | deleting an API keeps every key of the endpoint and comment tables |
| Crud.DetachedUnlisted | crud/crud.py:194-196 | after its API is deleted, no endpoint and no comment is listed under its key |
| Crud.DetachKeepsOtherEndpoints | crud/crud.py:194-196 | deleting one API leaves the endpoint listing of every other API unchanged |
| Crud.DetachKeepsOtherComments | crud/crud.py:194-196 | deleting one API leaves the comment listing of every other API unchanged |
| Crud.BatchAfterNone | crud/crud.py:89-113 | when nothing was listed under the new key, the endpoints listed for it after the batch insert are the batch alone, in order |
| Crud.ApiPageAscending | crud/crud.py:41-48 | a page of the API listing is in strictly ascending key order |
| Routes.CreateApi | api/api_routes.py:17-35 | 500, with nothing stored, iff the form body fails `APICreate` validation; otherwise 200 with the answer of `create_api`, which reports no image even after an upload; the API goes in under the next key, its endpoints under the keys that follow, in order, and the key counter moves past them |
| Routes.StoreApi | api/api_routes.py:27-34 | `create_api` stores the input: the API and its endpoints under consecutive fresh keys, likes and comments untouched, and the answer has no image. The uploaded file's path is set as the input's image, but the store drops it, so no ensures can observe it |
| Routes.ReadApis | api/api_routes.py:37-39 | always 200 with the page `get_apis` returns for the given `skip` and `limit`, which default to 0 and 10 |
| Routes.ReadApi | api/api_routes.py:41-46 | 404 "API not found" iff no API has that key; otherwise 200 with the API and its live aggregates |
| Routes.UpdateApi | api/api_routes.py:48-53 | 422 iff a base field is missing, and the answer then lists exactly the missing fields; otherwise 404 iff the API is absent; on every refusal nothing changes; on 200 only that API changes, to the patched row |
| Routes.DeleteApi | api/api_routes.py:56-62 | 404 iff absent, with nothing changed; otherwise "API deleted": that API row is removed, its endpoints and comments stay with no API so none is listed under its key, and its likes stay |
| Routes.CreateLike | api/api_routes.py:64-71 | 400 iff the user already liked the API, with the likes unchanged; otherwise the like is stored under the next key and the API's like count grows by exactly one |
| Routes.GetLikesCount | api/api_routes.py:73-76 | 200 with the number of likes that point at the key, which is 0 iff none does |
| Routes.ReadLike | api/api_routes.py:78-84 | 404 "Like not found" iff no like has that key; otherwise that like |
| Routes.CreateComment | api/api_routes.py:86-88 | 422 iff `api_id` or `content` is missing, with nothing changed and the missing fields listed as validation reports them; otherwise the comment is stored under the next key and becomes the last one listed for its API |
| Routes.ReadComments | api/api_routes.py:90-92 | exactly the comments of the API, in ascending key order |
| Routes.CreateEndpoint | api/api_routes.py:94-100 | 422 iff url, method or description is missing, with nothing changed and the missing fields listed as validation reports them; otherwise the endpoint is stored under the next key, pointing at the API in the path, and becomes the last one listed for it |
| Routes.ReadEndpoint | api/api_routes.py:102-111 | 404 "Endpoint not found" iff no endpoint has that key, whatever the API in the path; otherwise that endpoint |
| Routes.UpdateEndpoint | api/api_routes.py:113-123 | 404 iff absent, with the endpoints unchanged; otherwise only that endpoint changes, to the patched row |
| Routes.DeleteEndpoint | api/api_routes.py:125-134 | 404 iff absent; otherwise "Endpoint deleted" and only that endpoint is removed |
| Routes.WeatherSession | api/api_routes.py:17-76 | on an empty database: creating an API with one endpoint answers 0 likes and that endpoint; the count is 0; the first like succeeds; the second like by the same user is refused with 400; the count is then 1 |

## Left out

- Storage I/O is not modelled: writing the uploaded file to disk, the database session, commits, refreshes and `async`. Each store method is one atomic step on the in-memory tables.
- The store does not model failures of the database (connection or transaction errors).
- The row `id` column is not modelled as a column. It is the key of the table map. All four tables draw keys from one counter, so a key is fresh in every table. Real auto-increment keys are per table, but both schemes give fresh keys.
- The model fixes an order for lists: ascending primary key. The source issues no `ORDER BY`, so this order is a modelling choice and not a promise of the code.
- Crud.Store.GetApis: the defaults `skip=0`, `limit=10` of `get_apis` (crud/crud.py:41) are not modelled on the store method. Its only caller that relies on them is `read_random_apis`, which is left out; `Routes.ReadApis` applies the same defaults from the route (api/api_routes.py:38).
- Negative `skip` or `limit` are not modelled (both are `nat`). What the database does with them is outside this model.
- Crud.Store.CreateLike: the check-then-insert race between two concurrent requests is not modelled. The model runs one request at a time, so (API, user) pairs stay unique.
- Authentication is not modelled. The user id that `current_active_user` supplies is a parameter of `Routes.CreateLike`.
- Three fields that crud/crud.py uses are declared in neither models/models.py nor schemas/schemas.py. They are `Like.user_id` (crud/crud.py:203, 209), the `image` column of `apis` (crud/crud.py:35, 110) and `APICreate.image` (crud/crud.py:81). The model assumes all three exist: `Models.Like` has a `userId`, `Models.Api` an optional `image`, and `Schemas.APICreate` an optional `image`. As written, the missing `APICreate.image` makes crud/crud.py:81 and api/api_routes.py:32 raise.
- JSON decoding and wrong-typed field values are not modelled. A request body is modelled with each field either set to a value of the right type or absent, and only absence is validated.
- The 422 error list gives field locations without FastAPI's leading `body` element and without its messages.
- `read_random_apis` (api/api_routes.py:136-140) is left out: it draws a random sample and refers to an undefined `random`.
- The defaults `[]` for `endpoints` and `comments` on the `API` schema are not modelled: every handler fills both.
- The `exclude = {'likes'}` setting of the `API` schema is not modelled: `likes` is always reported.
- Routes.UpdateEndpoint: schemas/schemas.py declares no `EndpointUpdate`, yet crud/crud.py:167 and api/api_routes.py:117 name it. As written, the annotation at api/api_routes.py:117 fails when the module loads. The model assumes the shape exists with url, method and description all optional and unvalidated, so this handler never answers 422.
- Foreign keys are not checked. As in the code, an endpoint, comment or like may point at a key with no API.
- Routes.CreateApi: the image path from an upload is set on the input and then dropped by the store, as in the code. No file is written.
- main.py and dependencies.py (application start-up, CORS, the session dependency) are not part of this model.
