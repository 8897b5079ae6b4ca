/**
 * The request handlers (api/api_routes.py): each one runs request
 * validation, calls the persistence layer and turns what it answers into an
 * HTTP response. An absent result becomes 404 with the entity named, a
 * second like of the same API by the same user becomes 400, a body missing a
 * required field becomes 422, and anything else is returned as it is.
 */
module Routes {
  import opened Wrappers
  import Models
  import Schemas
  import Query
  import Crud

  /** The answer to one request. */
  datatype Response<T> =
    | Ok(body: T)                             // 200 with the body
    | Refused(status: int, detail: string)    // an `HTTPException` the handler raises: 400 or 404 here
    | Invalid(missing: seq<Schemas.Path>)     // 422: request validation found missing fields
    | ServerError                             // 500: an exception nothing catches

  /** The body of a successful delete. */
  datatype Detail = Detail(detail: string)

  /** The page `GET /apis/` returns when the query names no `skip` or `limit`. */
  const DefaultSkip: nat := 0
  const DefaultLimit: nat := 10

  const ApiNotFound: Response<Schemas.API> := Refused(404, "API not found")
  const EndpointNotFound: Response<Schemas.Endpoint> := Refused(404, "Endpoint not found")

  /**
   * `POST /apis/`. The form body is validated inside the handler, so a body
   * missing a required field raises an error nothing catches (500) and
   * nothing is stored. An uploaded file's path becomes the input's image,
   * which the persistence layer then drops: the reported image is always
   * absent.
   */
  method CreateApi(store: Crud.Store, body: Schemas.APIBody, upload: Option<string>) returns (r: Response<Schemas.API>)
    requires store.Valid()
    modifies store
    ensures store.Valid()
    ensures r.Ok? || r.ServerError?
    ensures r.ServerError? <==> Schemas.ValidateAPICreate(body).Failure?
    ensures r.ServerError? ==> unchanged(store)
    ensures r.Ok? ==>
      var input := Schemas.ValidateAPICreate(body).value;
      && r.body.id == old(store.nextId) && r.body.id !in old(store.apis)
      && store.nextId == old(store.nextId) + 1 + |input.endpoints|
      && store.apis == old(store.apis)[r.body.id := Models.NewApi(input.name, input.description, Some(input.free), input.documentation)]
      && store.endpoints == old(store.endpoints) + Crud.Batch(input.endpoints, old(store.nextId), old(store.nextId) + 1)
      && r.body.name == input.name && r.body.description == input.description
      && r.body.free == input.free && r.body.documentation == input.documentation
      && r.body.image.None? && r.body.likes == 0 && r.body.comments == []
      && r.body.endpoints == Crud.EndpointsOf(old(store.endpoints), r.body.id, r.body.id + 1) + Crud.Created(input.endpoints, r.body.id + 1)
    ensures store.likes == old(store.likes) && store.comments == old(store.comments)
  {
    var v := Schemas.ValidateAPICreate(body);
    if v.Failure? {
      return ServerError;
    }
    var api := StoreApi(store, v.value, upload);
    r := Ok(api);
  }

  /**
   * The rest of `POST /apis/` once the body is valid: an uploaded file's
   * path becomes the input's image, and `create_api` stores the input.
   */
  method StoreApi(store: Crud.Store, input: Schemas.APICreate, upload: Option<string>) returns (api: Schemas.API)
    requires store.Valid()
    modifies store
    ensures store.Valid()
    ensures api.id == old(store.nextId) && api.id !in old(store.apis)
    ensures store.nextId == old(store.nextId) + 1 + |input.endpoints|
    ensures store.apis == old(store.apis)[api.id := Models.NewApi(input.name, input.description, Some(input.free), input.documentation)]
    ensures store.endpoints == old(store.endpoints) + Crud.Batch(input.endpoints, old(store.nextId), old(store.nextId) + 1)
    ensures api.name == input.name && api.description == input.description
    ensures api.free == input.free && api.documentation == input.documentation
    ensures api.image.None? && api.likes == 0 && api.comments == []
    ensures api.endpoints == Crud.EndpointsOf(old(store.endpoints), api.id, api.id + 1) + Crud.Created(input.endpoints, api.id + 1)
    ensures store.likes == old(store.likes) && store.comments == old(store.comments)
  {
    var stored := input;
    if upload.Some? {
      stored := input.(image := Some("static/images/" + upload.value));
    }
    assert stored.endpoints == input.endpoints;
    api := store.CreateApi(stored);
  }

  /**
   * `GET /apis/?skip=..&limit=..`: the page of APIs `get_apis` returns; a
   * query parameter left out takes its default, 0 and 10.
   */
  method ReadApis(store: Crud.Store, skip: Option<nat>, limit: Option<nat>) returns (r: Response<seq<Schemas.API>>)
    requires store.Valid()
    ensures r.Ok?
    ensures limit.None? ==> |r.body| <= DefaultLimit
    ensures limit.Some? ==> |r.body| <= limit.value
    ensures var page := Query.Page(Crud.ApiIds(store.apis, store.nextId),
                                   if skip.None? then DefaultSkip else skip.value,
                                   if limit.None? then DefaultLimit else limit.value);
      && |r.body| == |page|
      && forall i :: 0 <= i < |page| ==>
           page[i] in store.apis
           && r.body[i] == Crud.ApiView(page[i], store.apis[page[i]], store.endpoints, store.likes, store.comments, store.nextId)
  {
    var s := if skip.None? then DefaultSkip else skip.value;
    var n := if limit.None? then DefaultLimit else limit.value;
    var apis := store.GetApis(s, n);
    r := Ok(apis);
  }

  /** `GET /apis/{api_id}`: 404 "API not found" exactly when `get_api` finds nothing, else its answer. */
  method ReadApi(store: Crud.Store, apiId: int) returns (r: Response<Schemas.API>)
    requires store.Valid()
    ensures r.Ok? || r == ApiNotFound
    ensures r == ApiNotFound <==> apiId !in store.apis
    ensures r.Ok? ==> r.body == Crud.ApiView(apiId, store.apis[apiId], store.endpoints, store.likes, store.comments, store.nextId)
  {
    var api := store.GetApi(apiId);
    if api.None? {
      return ApiNotFound;
    }
    r := Ok(api.value);
  }

  /**
   * `PUT /apis/{api_id}`: the body must set all four base fields (422
   * otherwise); then 404 when no API has that key; then every field of the
   * body is written over that API. Nothing changes unless the answer is 200.
   */
  method UpdateApi(store: Crud.Store, apiId: int, body: Schemas.APIFields) returns (r: Response<Schemas.API>)
    requires store.Valid()
    modifies store
    ensures store.Valid()
    ensures r.Ok? || r.Invalid? || r == ApiNotFound
    ensures r.Invalid? <==> !Schemas.APIComplete(body)
    ensures r.Invalid? ==> r.missing == Schemas.MissingBase(body)
    ensures r == ApiNotFound <==> Schemas.APIComplete(body) && apiId !in old(store.apis)
    ensures !r.Ok? ==> unchanged(store)
    ensures r.Ok? ==>
      && apiId in old(store.apis)
      && store.apis == old(store.apis)[apiId := Crud.Patched(old(store.apis)[apiId], body)]
      && r.body == Crud.ApiView(apiId, store.apis[apiId], store.endpoints, store.likes, store.comments, store.nextId)
    ensures store.endpoints == old(store.endpoints) && store.likes == old(store.likes)
    ensures store.comments == old(store.comments) && store.nextId == old(store.nextId)
  {
    var v := Schemas.ValidateAPIUpdate(body);
    if v.Failure? {
      return Invalid(v.error);
    }
    var found := store.GetApi(apiId);
    if found.None? {
      return ApiNotFound;
    }
    var updated := store.UpdateApi(apiId, v.value);
    r := Ok(updated.value);
  }

  /**
   * `DELETE /apis/{api_id}`: 404 when absent, and then nothing changes;
   * else the API row is removed, its endpoints and comments stay without an
   * API, so none is listed under its key any more, and its likes stay.
   */
  method DeleteApi(store: Crud.Store, apiId: int) returns (r: Response<Detail>)
    requires store.Valid()
    modifies store
    ensures store.Valid()
    ensures r == Ok(Detail("API deleted")) || r == Refused(404, "API not found")
    ensures r.Refused? <==> apiId !in old(store.apis)
    ensures r.Refused? ==> unchanged(store)
    ensures r.Ok? ==>
      && store.apis == old(store.apis) - {apiId}
      && store.endpoints == Crud.DetachEndpoints(old(store.endpoints), apiId)
      && store.comments == Crud.DetachComments(old(store.comments), apiId)
      && Crud.EndpointsOf(store.endpoints, apiId, store.nextId) == []
      && Crud.CommentsOf(store.comments, apiId, store.nextId) == []
    ensures store.likes == old(store.likes) && store.nextId == old(store.nextId)
  {
    var found := store.GetApi(apiId);
    if found.None? {
      return Refused(404, "API not found");
    }
    var _ := store.DeleteApi(apiId);
    Crud.DetachedUnlisted(old(store.endpoints), old(store.comments), apiId, store.nextId);
    r := Ok(Detail("API deleted"));
  }

  /**
   * `POST /apis/{api_id}/likes/`: a like of the API in the path by the
   * authenticated user. 400 when that user already liked it; otherwise the
   * like is stored and the API's like count grows by one.
   */
  method CreateLike(store: Crud.Store, apiId: int, userId: int) returns (r: Response<Schemas.Like>)
    requires store.Valid()
    modifies store
    ensures store.Valid()
    ensures r.Ok? || r == Refused(400, "User has already liked this API")
    ensures r.Refused? <==> Crud.HasLiked(old(store.likes), apiId, userId)
    ensures r.Refused? ==> store.likes == old(store.likes) && store.nextId == old(store.nextId)
    ensures r.Ok? ==>
      && r.body == Schemas.Like(old(store.nextId), apiId)
      && store.nextId == old(store.nextId) + 1
      && store.likes == old(store.likes)[r.body.id := Models.Like(apiId, userId)]
      && Crud.LikeCount(store.likes, apiId) == Crud.LikeCount(old(store.likes), apiId) + 1
    ensures store.apis == old(store.apis) && store.endpoints == old(store.endpoints) && store.comments == old(store.comments)
  {
    var created := store.CreateLike(Schemas.LikeCreate(apiId), userId);
    if created.Failure? {
      return Refused(created.error.status, created.error.detail);
    }
    Crud.LikeCountAfterInsert(old(store.likes), created.value.id, created.value.value, apiId);
    r := Ok(Schemas.Like(created.value.id, created.value.value.apiId));
  }

  /** `GET /apis/{api_id}/likes/count/`: the number of likes pointing at that key, known API or not. */
  method GetLikesCount(store: Crud.Store, apiId: int) returns (r: Response<nat>)
    ensures r == Ok(Crud.LikeCount(store.likes, apiId))
    ensures r.body == 0 <==> forall k :: k in store.likes ==> store.likes[k].apiId != apiId
  {
    Crud.LikeCountZero(store.likes, apiId);
    r := Ok(Crud.LikeCount(store.likes, apiId));
  }

  /** `GET /likes/{like_id}`: 404 "Like not found" when no like has that key. */
  method ReadLike(store: Crud.Store, likeId: int) returns (r: Response<Schemas.Like>)
    ensures r.Ok? || r == Refused(404, "Like not found")
    ensures r.Refused? <==> likeId !in store.likes
    ensures r.Ok? ==> r.body == Schemas.Like(likeId, store.likes[likeId].apiId)
  {
    if likeId !in store.likes {
      return Refused(404, "Like not found");
    }
    r := Ok(Schemas.Like(likeId, store.likes[likeId].apiId));
  }

  /**
   * `POST /comments/`: 422 unless both fields are set; otherwise the
   * comment is stored and becomes the last one listed for its API.
   */
  method CreateComment(store: Crud.Store, body: Schemas.CommentBody) returns (r: Response<Schemas.Comment>)
    requires store.Valid()
    modifies store
    ensures store.Valid()
    ensures r.Ok? || r.Invalid?
    ensures r.Invalid? <==> body.apiId.None? || body.content.None?
    ensures r.Invalid? ==> r.missing == Schemas.ValidateComment(body).error
    ensures r.Invalid? ==> unchanged(store)
    ensures r.Ok? ==>
      && r.body == Schemas.Comment(old(store.nextId), body.apiId.value, body.content.value)
      && store.nextId == old(store.nextId) + 1
      && store.comments == old(store.comments)[r.body.id := Models.Comment(Some(r.body.apiId), r.body.content)]
      && Crud.CommentsOf(store.comments, r.body.apiId, store.nextId)
         == Crud.CommentsOf(old(store.comments), r.body.apiId, old(store.nextId)) + [r.body]
    ensures store.apis == old(store.apis) && store.endpoints == old(store.endpoints) && store.likes == old(store.likes)
  {
    var v := Schemas.ValidateComment(body);
    if v.Failure? {
      return Invalid(v.error);
    }
    var comment := store.CreateComment(v.value);
    Crud.CommentAppended(old(store.comments), comment.id, Models.Comment(Some(comment.apiId), comment.content), comment.apiId);
    r := Ok(comment);
  }

  /** `GET /comments/{api_id}`: exactly the comments of that API, in ascending key order. */
  method ReadComments(store: Crud.Store, apiId: int) returns (r: Response<seq<Schemas.Comment>>)
    requires store.Valid()
    ensures r.Ok?
    ensures forall c :: c in r.body <==>
      c.id in store.comments && c.apiId == apiId && store.comments[c.id] == Models.Comment(Some(apiId), c.content)
    ensures forall i, j :: 0 <= i < j < |r.body| ==> r.body[i].id < r.body[j].id
  {
    var comments := store.GetComments(apiId);
    r := Ok(comments);
  }

  /**
   * `POST /apis/{api_id}/endpoints/`: 422 unless url, method and description
   * are all set; otherwise the endpoint is stored under the API in the path,
   * whether or not that API exists, and becomes the last one listed for it.
   */
  method CreateEndpoint(store: Crud.Store, apiId: int, body: Schemas.EndpointFields) returns (r: Response<Schemas.Endpoint>)
    requires store.Valid()
    modifies store
    ensures store.Valid()
    ensures r.Ok? || r.Invalid?
    ensures r.Invalid? <==> !Schemas.EndpointComplete(body)
    ensures r.Invalid? ==> r.missing == Schemas.ValidateEndpoint(body, []).error
    ensures r.Invalid? ==> unchanged(store)
    ensures r.Ok? ==>
      && r.body == Schemas.Endpoint(old(store.nextId), body.url.value, body.httpMethod.value, body.description.value)
      && store.nextId == old(store.nextId) + 1
      && store.endpoints == old(store.endpoints)[r.body.id := Models.Endpoint(r.body.url, r.body.httpMethod, r.body.description, Some(apiId))]
      && Crud.EndpointsOf(store.endpoints, apiId, store.nextId)
         == Crud.EndpointsOf(old(store.endpoints), apiId, old(store.nextId)) + [r.body]
    ensures store.apis == old(store.apis) && store.likes == old(store.likes) && store.comments == old(store.comments)
  {
    var v := Schemas.ValidateEndpoint(body, []);
    if v.Failure? {
      return Invalid(v.error);
    }
    var row := store.CreateEndpoint(apiId, v.value);
    Crud.EndpointAppended(old(store.endpoints), row.id, row.value, apiId);
    r := Ok(Crud.EndpointView(row.id, row.value));
  }

  /** `GET /apis/{api_id}/endpoints/{endpoint_id}`: looked up by its own key only; the path's API is not consulted. */
  method ReadEndpoint(store: Crud.Store, apiId: int, endpointId: int) returns (r: Response<Schemas.Endpoint>)
    ensures r.Ok? || r == EndpointNotFound
    ensures r == EndpointNotFound <==> endpointId !in store.endpoints
    ensures r.Ok? ==> r.body == Crud.EndpointView(endpointId, store.endpoints[endpointId])
  {
    var found := store.GetEndpoint(endpointId);
    if found.None? {
      return EndpointNotFound;
    }
    r := Ok(Crud.EndpointView(found.value.id, found.value.value));
  }

  /** `PUT /apis/{api_id}/endpoints/{endpoint_id}`: 404 when absent, else the set fields of the body are written over it. */
  method UpdateEndpoint(store: Crud.Store, apiId: int, endpointId: int, patch: Schemas.EndpointFields)
    returns (r: Response<Schemas.Endpoint>)
    requires store.Valid()
    modifies store
    ensures store.Valid()
    ensures r.Ok? || r == EndpointNotFound
    ensures r == EndpointNotFound <==> endpointId !in old(store.endpoints)
    ensures r == EndpointNotFound ==> store.endpoints == old(store.endpoints)
    ensures r.Ok? ==>
      && store.endpoints == old(store.endpoints)[endpointId := Crud.PatchedEndpoint(old(store.endpoints)[endpointId], patch)]
      && r.body == Crud.EndpointView(endpointId, store.endpoints[endpointId])
    ensures store.apis == old(store.apis) && store.likes == old(store.likes)
    ensures store.comments == old(store.comments) && store.nextId == old(store.nextId)
  {
    var updated := store.UpdateEndpoint(endpointId, patch);
    if updated.None? {
      return EndpointNotFound;
    }
    r := Ok(Crud.EndpointView(updated.value.id, updated.value.value));
  }

  /** `DELETE /apis/{api_id}/endpoints/{endpoint_id}`: 404 when absent, else that endpoint alone is removed. */
  method DeleteEndpoint(store: Crud.Store, apiId: int, endpointId: int) returns (r: Response<Detail>)
    requires store.Valid()
    modifies store
    ensures store.Valid()
    ensures r == Ok(Detail("Endpoint deleted")) || r == Refused(404, "Endpoint not found")
    ensures r.Refused? <==> endpointId !in old(store.endpoints)
    ensures store.endpoints == old(store.endpoints) - {endpointId}
    ensures store.apis == old(store.apis) && store.likes == old(store.likes)
    ensures store.comments == old(store.comments) && store.nextId == old(store.nextId)
  {
    var deleted := store.DeleteEndpoint(endpointId);
    if deleted.None? {
      return Refused(404, "Endpoint not found");
    }
    r := Ok(Detail("Endpoint deleted"));
  }

  /**
   * A client session on an empty database: create the Weather API with one
   * endpoint, read its like count, like it twice as user 7, read the count
   * again. The second like is refused and the count stays at one.
   */
  method WeatherSession() returns (
    created: Response<Schemas.API>, before: Response<nat>,
    liked: Response<Schemas.Like>, again: Response<Schemas.Like>, after: Response<nat>)
    ensures created.Ok? && created.body.likes == 0 && created.body.comments == []
    ensures created.Ok? ==> created.body.endpoints == [Schemas.Endpoint(created.body.id + 1, "/w", "GET", "get weather")]
    ensures before == Ok(0)
    ensures liked.Ok? && liked.body.apiId == created.body.id
    ensures again == Refused(400, "User has already liked this API")
    ensures after == Ok(1)
  {
    var store := new Crud.Store();
    var body := Schemas.APIBody(
      Schemas.APIFields(Some("Weather"), Some("d"), Some(true), Some("http://x")),
      None,
      Some([Schemas.EndpointFields(Some("/w"), Some("GET"), Some("get weather"))]));
    var weather := [Schemas.EndpointCreate("/w", "GET", "get weather")];
    assert Schemas.ValidateAPICreate(body).value.endpoints == weather;
    created := CreateApi(store, body, None);
    Crud.EndpointsOfNone(map[], created.body.id, created.body.id + 1);
    var id := created.body.id;
    var listed := Crud.Created(weather, id + 1);
    assert |listed| == 1 && listed[0] == Schemas.Endpoint(id + 1, "/w", "GET", "get weather");
    assert listed == [Schemas.Endpoint(id + 1, "/w", "GET", "get weather")];
    before := GetLikesCount(store, id);
    liked := CreateLike(store, id, 7);
    assert Crud.LikeCount(store.likes, id) == 1;
    assert store.likes[liked.body.id] == Models.Like(id, 7);
    again := CreateLike(store, id, 7);
    after := GetLikesCount(store, id);
  }
}
