/**
 * The persistence layer (crud/crud.py) as an in-memory database: a store of
 * four tables, each a map from a primary key to a row, and a counter that
 * hands out fresh keys. Every operation of the layer is a method of the
 * store; the read shapes it returns are specified by the functions below.
 */
module Crud {
  import opened Wrappers
  import Models
  import Schemas
  import Query

  /** The error `create_like` raises for a second like of the same API by the same user. */
  datatype HttpException = HttpException(status: int, detail: string)

  const AlreadyLiked := HttpException(400, "User has already liked this API")

  // --------------------------------------------------------------- read shapes

  /** The keys of the likes that point at `apiId`. */
  function LikeKeys(likes: map<int, Models.Like>, apiId: int): set<int> {
    set k | k in likes && likes[k].apiId == apiId
  }

  function EndpointView(id: int, e: Models.Endpoint): Schemas.Endpoint {
    Schemas.Endpoint(id, e.url, e.httpMethod, e.description)
  }

  /** The read shape of a comment that points at `apiId`. */
  function CommentView(id: int, apiId: int, c: Models.Comment): Schemas.Comment {
    Schemas.Comment(id, apiId, c.content)
  }

  /**
   * `SELECT * FROM endpoints WHERE api_id = apiId`, over the keys below
   * `bound`, in ascending key order.
   */
  function EndpointsOf(endpoints: map<int, Models.Endpoint>, apiId: int, bound: nat): seq<Schemas.Endpoint>
    decreases bound
  {
    if bound == 0 then []
    else
      var k := bound - 1;
      EndpointsOf(endpoints, apiId, k)
        + (if k in endpoints && endpoints[k].apiId == Some(apiId) then [EndpointView(k, endpoints[k])] else [])
  }

  /** `SELECT * FROM comments WHERE api_id = apiId`, over the keys below `bound`, in ascending key order. */
  function CommentsOf(comments: map<int, Models.Comment>, apiId: int, bound: nat): seq<Schemas.Comment>
    decreases bound
  {
    if bound == 0 then []
    else
      var k := bound - 1;
      CommentsOf(comments, apiId, k)
        + (if k in comments && comments[k].apiId == Some(apiId) then [CommentView(k, apiId, comments[k])] else [])
  }

  /** Comments listed in strictly ascending key order. */
  ghost predicate CommentIdsAscending(r: seq<Schemas.Comment>) {
    forall i, j :: 0 <= i < j < |r| ==> r[i].id < r[j].id
  }

  /** Endpoints listed in strictly ascending key order. */
  ghost predicate EndpointIdsAscending(r: seq<Schemas.Endpoint>) {
    forall i, j :: 0 <= i < j < |r| ==> r[i].id < r[j].id
  }

  /** The live number of likes of an API: `count(likes.id)` over the outer join. */
  function LikeCount(likes: map<int, Models.Like>, apiId: int): nat {
    |LikeKeys(likes, apiId)|
  }

  /** The keys of all APIs, ascending. */
  function ApiIds(apis: map<int, Models.Api>, bound: nat): seq<int> {
    Query.Ascend(apis.Keys, bound)
  }

  /** An API row with its aggregates, as `get_api` and `get_apis` assemble it. */
  function ApiView(
    apiId: int, row: Models.Api,
    endpoints: map<int, Models.Endpoint>, likes: map<int, Models.Like>, comments: map<int, Models.Comment>,
    bound: nat): Schemas.API
  {
    Schemas.API(apiId, row.name, row.description, row.free, row.documentation, row.image,
      EndpointsOf(endpoints, apiId, bound), CommentsOf(comments, apiId, bound), LikeCount(likes, apiId))
  }

  /** The endpoint row `create_api` stores for a submitted endpoint. */
  function EndpointRow(e: Schemas.EndpointCreate, apiId: int): Models.Endpoint {
    Models.Endpoint(e.url, e.httpMethod, e.description, Some(apiId))
  }

  /** `k` is one of the `n` consecutive keys from `first`. */
  predicate InRange(k: int, first: int, n: int) {
    first <= k < first + n
  }

  /**
   * The endpoints `create_api` adds, as a table: one row per submitted
   * endpoint, under consecutive keys from `first`, in submission order.
   */
  function Batch(eps: seq<Schemas.EndpointCreate>, apiId: int, first: int): map<int, Models.Endpoint> {
    // `InRange` repeats the bounds so that facts about batch keys have a term to trigger on
    map k | first <= k < first + |eps| && InRange(k, first, |eps|) :: EndpointRow(eps[k - first], apiId)
  }

  /** The read shapes of the endpoints of a batch, in submission order. */
  function Created(eps: seq<Schemas.EndpointCreate>, first: int): seq<Schemas.Endpoint> {
    seq(|eps|, i requires 0 <= i < |eps| => Schemas.Endpoint(first + i, eps[i].url, eps[i].httpMethod, eps[i].description))
  }

  // ----------------------------------------------------------- merge patches

  /** An API row with the set fields of `patch` written over it. */
  function Patched(row: Models.Api, patch: Schemas.APIFields): (r: Models.Api)
    ensures r.image == row.image
    ensures r.name == (if patch.name.Some? then patch.name.value else row.name)
    ensures r.description == (if patch.description.Some? then patch.description.value else row.description)
    ensures r.free == (if patch.free.Some? then patch.free.value else row.free)
    ensures r.documentation == (if patch.documentation.Some? then patch.documentation.value else row.documentation)
  {
    var row := if patch.name.Some? then row.(name := patch.name.value) else row;
    var row := if patch.description.Some? then row.(description := patch.description.value) else row;
    var row := if patch.free.Some? then row.(free := patch.free.value) else row;
    if patch.documentation.Some? then row.(documentation := patch.documentation.value) else row
  }

  /** An endpoint row with the set fields of `patch` written over it; its API never changes. */
  function PatchedEndpoint(row: Models.Endpoint, patch: Schemas.EndpointFields): (r: Models.Endpoint)
    ensures r.apiId == row.apiId
    ensures r.url == (if patch.url.Some? then patch.url.value else row.url)
    ensures r.httpMethod == (if patch.httpMethod.Some? then patch.httpMethod.value else row.httpMethod)
    ensures r.description == (if patch.description.Some? then patch.description.value else row.description)
  {
    var row := if patch.url.Some? then row.(url := patch.url.value) else row;
    var row := if patch.httpMethod.Some? then row.(httpMethod := patch.httpMethod.value) else row;
    if patch.description.Some? then row.(description := patch.description.value) else row
  }

  // ------------------------------------------------------------------ deletes

  /**
   * The endpoint table after the API `apiId` is deleted: the ORM sets the
   * `api_id` of every endpoint that pointed at it to NULL and keeps the row.
   */
  function DetachEndpoints(endpoints: map<int, Models.Endpoint>, apiId: int): map<int, Models.Endpoint> {
    map k | k in endpoints :: if endpoints[k].apiId == Some(apiId) then endpoints[k].(apiId := None) else endpoints[k]
  }

  /** The comment table after the API `apiId` is deleted, likewise. */
  function DetachComments(comments: map<int, Models.Comment>, apiId: int): map<int, Models.Comment> {
    map k | k in comments :: if comments[k].apiId == Some(apiId) then comments[k].(apiId := None) else comments[k]
  }

  // -------------------------------------------------------------------- likes

  /** Some like of `apiId` by `userId` is already stored. */
  predicate HasLiked(likes: map<int, Models.Like>, apiId: int, userId: int) {
    exists k | k in likes :: likes[k] == Models.Like(apiId, userId)
  }

  /** No (API, user) pair is liked twice. */
  ghost predicate LikesUnique(likes: map<int, Models.Like>) {
    forall a, b :: a in likes && b in likes && likes[a] == likes[b] ==> a == b
  }

  // -------------------------------------------------------------------- store

  class Store {
    var apis: map<int, Models.Api>
    var endpoints: map<int, Models.Endpoint>
    var likes: map<int, Models.Like>
    var comments: map<int, Models.Comment>
    /** The next primary key to hand out; keys are shared by all four tables. */
    var nextId: int

    ghost predicate Valid()
      reads this
    {
      && 0 < nextId
      && Query.KeysBelow(apis, nextId)
      && Query.KeysBelow(endpoints, nextId)
      && Query.KeysBelow(likes, nextId)
      && Query.KeysBelow(comments, nextId)
      && LikesUnique(likes)
    }

    /** An empty database. */
    constructor ()
      ensures Valid()
      ensures apis == map[] && endpoints == map[] && likes == map[] && comments == map[]
    {
      apis, endpoints, likes, comments := map[], map[], map[], map[];
      nextId := 1;
    }

    /** `get_api`: the API with its live aggregates, or nothing when no API has that key. */
    method GetApi(apiId: int) returns (r: Option<Schemas.API>)
      requires Valid()
      ensures r.None? <==> apiId !in apis
      ensures r.Some? ==> r.value == ApiView(apiId, apis[apiId], endpoints, likes, comments, nextId)
      ensures r.Some? ==> r.value.likes == LikeCount(likes, apiId)
      ensures r.Some? ==> forall c :: c in r.value.comments <==>
        c.id in comments && c.apiId == apiId && comments[c.id] == Models.Comment(Some(apiId), c.content)
      ensures r.Some? ==> forall e :: e in r.value.endpoints <==>
        e.id in endpoints && endpoints[e.id] == Models.Endpoint(e.url, e.httpMethod, e.description, Some(apiId))
    {
      if apiId !in apis {
        return None;
      }
      r := Some(ApiView(apiId, apis[apiId], endpoints, likes, comments, nextId));
      CommentsOfExact(comments, apiId, nextId);
      EndpointsOfExact(endpoints, apiId, nextId);
    }

    /**
     * `get_apis`: the APIs that follow the first `skip` ones in ascending key
     * order, at most `limit` of them, each with the aggregates of `get_api`.
     */
    method GetApis(skip: nat, limit: nat) returns (r: seq<Schemas.API>)
      requires Valid()
      ensures |r| <= limit
      ensures var page := Query.Page(ApiIds(apis, nextId), skip, limit);
        && |r| == |page|
        && forall i :: 0 <= i < |r| ==>
             page[i] in apis && r[i] == ApiView(page[i], apis[page[i]], endpoints, likes, comments, nextId)
    {
      var ids := ApiIds(apis, nextId);
      var page := Query.Page(ids, skip, limit);
      Query.PageOfKeys(apis, nextId, skip, limit);
      r := [];
      var i := 0;
      while i < |page|
        invariant 0 <= i <= |page|
        invariant |r| == i
        invariant forall j :: 0 <= j < i ==> r[j] == ApiView(page[j], apis[page[j]], endpoints, likes, comments, nextId)
      {
        var id := page[i];
        assert id in page;
        r := r + [ApiView(id, apis[id], endpoints, likes, comments, nextId)];
        i := i + 1;
      }
    }

    /**
     * `create_api`: one new API under a fresh key and one endpoint per
     * submitted endpoint, pointing at it. The image is not stored. The
     * result reports no likes and no comments, and the endpoints stored
     * under the new key: any rows that already pointed at that key, then the
     * submitted endpoints in order.
     */
    method CreateApi(input: Schemas.APICreate) returns (r: Schemas.API)
      requires Valid()
      modifies this
      ensures Valid()
      ensures r.id == old(nextId) && r.id !in old(apis) && nextId == r.id + 1 + |input.endpoints|
      ensures apis == old(apis)[r.id := Models.NewApi(input.name, input.description, Some(input.free), input.documentation)]
      ensures endpoints == old(endpoints) + Batch(input.endpoints, old(nextId), old(nextId) + 1)
      ensures likes == old(likes) && comments == old(comments)
      ensures r.name == input.name && r.description == input.description && r.free == input.free
      ensures r.documentation == input.documentation && r.image.None?
      ensures r.likes == 0 && r.comments == []
      ensures r.endpoints == EndpointsOf(old(endpoints), r.id, r.id + 1) + Created(input.endpoints, r.id + 1)
    {
      var id := InsertApi(Models.NewApi(input.name, input.description, Some(input.free), input.documentation));
      AddEndpoints(input.endpoints, id);
      CreatedEndpointsListed(old(endpoints), input.endpoints, id, id + 1);
      var listed := EndpointsOf(endpoints, id, nextId);
      r := Schemas.API(id, input.name, input.description, input.free, input.documentation, None, listed, [], 0);
    }

    /** The first step of `create_api`: the API row goes in under a fresh key. */
    method InsertApi(row: Models.Api) returns (id: int)
      requires Valid()
      modifies this
      ensures Valid()
      ensures id == old(nextId) && id !in old(apis) && nextId == id + 1
      ensures apis == old(apis)[id := row]
      ensures endpoints == old(endpoints) && likes == old(likes) && comments == old(comments)
    {
      id := nextId;
      apis := apis[id := row];
      nextId := nextId + 1;
    }

    /** The loop of `create_api` that stores the submitted endpoints of the API `apiId`, one by one. */
    method AddEndpoints(eps: seq<Schemas.EndpointCreate>, apiId: int)
      requires Valid()
      modifies this
      ensures Valid()
      ensures endpoints == old(endpoints) + Batch(eps, apiId, old(nextId))
      ensures nextId == old(nextId) + |eps|
      ensures apis == old(apis) && likes == old(likes) && comments == old(comments)
    {
      var i := 0;
      while i < |eps|
        invariant 0 <= i <= |eps|
        invariant nextId == old(nextId) + i
        invariant endpoints == old(endpoints) + Batch(eps[..i], apiId, old(nextId))
        invariant apis == old(apis) && likes == old(likes) && comments == old(comments)
        invariant Valid()
      {
        BatchGrows(eps, i, apiId, old(nextId));
        MergeThenStore(old(endpoints), Batch(eps[..i], apiId, old(nextId)), nextId, EndpointRow(eps[i], apiId));
        endpoints := endpoints[nextId := EndpointRow(eps[i], apiId)];
        nextId := nextId + 1;
        i := i + 1;
      }
      assert eps[..i] == eps;
    }

    /**
     * `update_api`: nothing when no API has that key, and nothing changes;
     * otherwise the set fields of the patch are written over that one API
     * and the API is returned with fresh aggregates.
     */
    method UpdateApi(apiId: int, patch: Schemas.APIFields) returns (r: Option<Schemas.API>)
      requires Valid()
      modifies this
      ensures Valid()
      ensures r.None? <==> apiId !in old(apis)
      ensures apiId !in old(apis) ==> apis == old(apis)
      ensures apiId in old(apis) ==> apis == old(apis)[apiId := Patched(old(apis)[apiId], patch)]
      ensures r.Some? ==> r.value == ApiView(apiId, apis[apiId], endpoints, likes, comments, nextId)
      ensures endpoints == old(endpoints) && likes == old(likes) && comments == old(comments) && nextId == old(nextId)
    {
      if apiId !in apis {
        return None;
      }
      var row := apis[apiId];
      if patch.name.Some? { row := row.(name := patch.name.value); }
      if patch.description.Some? { row := row.(description := patch.description.value); }
      if patch.free.Some? { row := row.(free := patch.free.value); }
      if patch.documentation.Some? { row := row.(documentation := patch.documentation.value); }
      apis := apis[apiId := row];
      r := Some(ApiView(apiId, row, endpoints, likes, comments, nextId));
    }

    /** `create_endpoint`: one new endpoint under a fresh key; the API is not checked to exist. */
    method CreateEndpoint(apiId: int, input: Schemas.EndpointCreate) returns (r: Models.Row<Models.Endpoint>)
      requires Valid()
      modifies this
      ensures Valid()
      ensures r.id == old(nextId) && r.id !in old(endpoints) && nextId == old(nextId) + 1
      ensures r.value == Models.Endpoint(input.url, input.httpMethod, input.description, Some(apiId))
      ensures endpoints == old(endpoints)[r.id := r.value]
      ensures apis == old(apis) && likes == old(likes) && comments == old(comments)
    {
      r := Models.Row(nextId, Models.Endpoint(input.url, input.httpMethod, input.description, Some(apiId)));
      endpoints := endpoints[nextId := r.value];
      nextId := nextId + 1;
    }

    /** `get_endpoint`: the endpoint stored under that key, if any. */
    method GetEndpoint(endpointId: int) returns (r: Option<Models.Row<Models.Endpoint>>)
      ensures r.Some? <==> endpointId in endpoints
      ensures r.Some? ==> r.value.id == endpointId && r.value.value == endpoints[endpointId]
    {
      r := if endpointId in endpoints then Some(Models.Row(endpointId, endpoints[endpointId])) else None;
    }

    /**
     * `update_endpoint`: nothing when no endpoint has that key, and nothing
     * changes; otherwise only the set fields of that one endpoint change.
     */
    method UpdateEndpoint(endpointId: int, patch: Schemas.EndpointFields) returns (r: Option<Models.Row<Models.Endpoint>>)
      requires Valid()
      modifies this
      ensures Valid()
      ensures r.None? <==> endpointId !in old(endpoints)
      ensures endpointId !in old(endpoints) ==> endpoints == old(endpoints)
      ensures endpointId in old(endpoints) ==>
        endpoints == old(endpoints)[endpointId := PatchedEndpoint(old(endpoints)[endpointId], patch)]
      ensures r.Some? ==> r.value == Models.Row(endpointId, endpoints[endpointId])
      ensures apis == old(apis) && likes == old(likes) && comments == old(comments) && nextId == old(nextId)
    {
      if endpointId !in endpoints {
        return None;
      }
      var row := endpoints[endpointId];
      if patch.url.Some? { row := row.(url := patch.url.value); }
      if patch.httpMethod.Some? { row := row.(httpMethod := patch.httpMethod.value); }
      if patch.description.Some? { row := row.(description := patch.description.value); }
      endpoints := endpoints[endpointId := row];
      r := Some(Models.Row(endpointId, row));
    }

    /** `delete_endpoint`: removes exactly that endpoint and returns it; nothing when absent. */
    method DeleteEndpoint(endpointId: int) returns (r: Option<Models.Row<Models.Endpoint>>)
      requires Valid()
      modifies this
      ensures Valid()
      ensures r.None? <==> endpointId !in old(endpoints)
      ensures r.Some? ==> r.value == Models.Row(endpointId, old(endpoints)[endpointId])
      ensures endpoints == old(endpoints) - {endpointId}
      ensures apis == old(apis) && likes == old(likes) && comments == old(comments) && nextId == old(nextId)
    {
      if endpointId !in endpoints {
        return None;
      }
      r := Some(Models.Row(endpointId, endpoints[endpointId]));
      endpoints := endpoints - {endpointId};
    }

    /**
     * `delete_api`: removes exactly that API and returns it; nothing when
     * absent, and then nothing changes. No cascade: its endpoints and
     * comments stay but no longer point at any API, and its likes stay as
     * they are.
     */
    method DeleteApi(apiId: int) returns (r: Option<Models.Row<Models.Api>>)
      requires Valid()
      modifies this
      ensures Valid()
      ensures r.None? <==> apiId !in old(apis)
      ensures r.Some? ==> r.value == Models.Row(apiId, old(apis)[apiId])
      ensures apis == old(apis) - {apiId}
      ensures r.None? ==> endpoints == old(endpoints) && comments == old(comments)
      ensures r.Some? ==> endpoints == DetachEndpoints(old(endpoints), apiId)
      ensures r.Some? ==> comments == DetachComments(old(comments), apiId)
      ensures likes == old(likes) && nextId == old(nextId)
    {
      if apiId !in apis {
        return None;
      }
      r := Some(Models.Row(apiId, apis[apiId]));
      DetachedKeys(endpoints, comments, apiId);
      apis := apis - {apiId};
      endpoints := DetachEndpoints(endpoints, apiId);
      comments := DetachComments(comments, apiId);
    }

    /**
     * `create_like`: refuses with status 400 when the user already liked the
     * API, leaving the likes untouched; otherwise stores exactly one like of
     * that API by that user under a fresh key.
     */
    method CreateLike(like: Schemas.LikeCreate, userId: int) returns (r: Result<Models.Row<Models.Like>, HttpException>)
      requires Valid()
      modifies this
      ensures Valid()
      ensures r.Failure? <==> HasLiked(old(likes), like.apiId, userId)
      ensures r.Failure? ==> r.error == AlreadyLiked && likes == old(likes) && nextId == old(nextId)
      ensures r.Success? ==>
        && r.value.id == old(nextId) && r.value.id !in old(likes)
        && r.value.value == Models.Like(like.apiId, userId)
        && likes == old(likes)[r.value.id := r.value.value]
        && nextId == old(nextId) + 1
      ensures apis == old(apis) && endpoints == old(endpoints) && comments == old(comments)
    {
      if HasLiked(likes, like.apiId, userId) {
        return Failure(AlreadyLiked);
      }
      var row := Models.Like(like.apiId, userId);
      r := Success(Models.Row(nextId, row));
      likes := likes[nextId := row];
      nextId := nextId + 1;
    }

    /** `create_comment`: one new comment under a fresh key; the API is not checked to exist. */
    method CreateComment(input: Schemas.CommentCreate) returns (r: Schemas.Comment)
      requires Valid()
      modifies this
      ensures Valid()
      ensures r.id == old(nextId) && r.id !in old(comments) && nextId == old(nextId) + 1
      ensures r.apiId == input.apiId && r.content == input.content
      ensures comments == old(comments)[r.id := Models.Comment(Some(input.apiId), input.content)]
      ensures apis == old(apis) && endpoints == old(endpoints) && likes == old(likes)
    {
      r := Schemas.Comment(nextId, input.apiId, input.content);
      comments := comments[nextId := Models.Comment(Some(input.apiId), input.content)];
      nextId := nextId + 1;
    }

    /** `get_comments`: exactly the comments of that API, in ascending key order. */
    method GetComments(apiId: int) returns (r: seq<Schemas.Comment>)
      requires Valid()
      ensures forall c :: c in r <==> c.id in comments && c.apiId == apiId && comments[c.id] == Models.Comment(Some(apiId), c.content)
      ensures forall i, j :: 0 <= i < j < |r| ==> r[i].id < r[j].id
    {
      r := CommentsOf(comments, apiId, nextId);
      CommentsOfExact(comments, apiId, nextId);
    }
  }

  // -------------------------------------------------------------------- lemmas

  /**
   * The comments listed below `bound` are exactly the stored comments with
   * keys below `bound` that point at `apiId`, in strictly ascending key order.
   */
  lemma {:induction false} CommentsOfListed(comments: map<int, Models.Comment>, apiId: int, bound: nat)
    ensures forall c :: c in CommentsOf(comments, apiId, bound) <==>
      0 <= c.id < bound && c.id in comments && c.apiId == apiId && comments[c.id] == Models.Comment(Some(apiId), c.content)
    ensures CommentIdsAscending(CommentsOf(comments, apiId, bound))
    decreases bound
  {
    if bound > 0 {
      var k := bound - 1;
      CommentsOfListed(comments, apiId, k);
      var front := CommentsOf(comments, apiId, k);
      var r := CommentsOf(comments, apiId, bound);
      var tail := if k in comments && comments[k].apiId == Some(apiId) then [CommentView(k, apiId, comments[k])] else [];
      assert r == front + tail;
      forall c ensures c in r <==> 0 <= c.id < bound && c.id in comments && c.apiId == apiId && comments[c.id] == Models.Comment(Some(apiId), c.content) {
        assert c in r <==> c in front || c in tail;
      }
      forall i, j | 0 <= i < j < |r| ensures r[i].id < r[j].id {
        if j < |front| {
          assert r[i] == front[i] && r[j] == front[j];
        } else {
          assert r[i] == front[i] && front[i] in front;
          assert front[i].id < k;
          assert |tail| == 1;
          assert r[j] == tail[0];
          assert r[j].id == k;
        }
      }
    }
  }

  /**
   * The endpoints listed below `bound` are exactly the stored endpoints with
   * keys below `bound` that point at `apiId`, in strictly ascending key order.
   */
  lemma {:induction false} EndpointsOfListed(endpoints: map<int, Models.Endpoint>, apiId: int, bound: nat)
    ensures forall e :: e in EndpointsOf(endpoints, apiId, bound) <==>
      0 <= e.id < bound && e.id in endpoints && endpoints[e.id] == Models.Endpoint(e.url, e.httpMethod, e.description, Some(apiId))
    ensures EndpointIdsAscending(EndpointsOf(endpoints, apiId, bound))
    decreases bound
  {
    if bound > 0 {
      var k := bound - 1;
      EndpointsOfListed(endpoints, apiId, k);
      var front := EndpointsOf(endpoints, apiId, k);
      var r := EndpointsOf(endpoints, apiId, bound);
      var tail := if k in endpoints && endpoints[k].apiId == Some(apiId) then [EndpointView(k, endpoints[k])] else [];
      assert r == front + tail;
      forall e ensures e in r <==> 0 <= e.id < bound && e.id in endpoints && endpoints[e.id] == Models.Endpoint(e.url, e.httpMethod, e.description, Some(apiId)) {
        assert e in r <==> e in front || e in tail;
      }
      forall i, j | 0 <= i < j < |r| ensures r[i].id < r[j].id {
        if j < |front| {
          assert r[i] == front[i] && r[j] == front[j];
        } else {
          assert r[i] == front[i] && front[i] in front;
          assert front[i].id < k;
          assert |tail| == 1;
          assert r[j] == tail[0];
          assert r[j].id == k;
        }
      }
    }
  }

  /** The comments of an API are exactly the stored comments that point at it, in ascending key order. */
  lemma CommentsOfExact(comments: map<int, Models.Comment>, apiId: int, bound: nat)
    requires Query.KeysBelow(comments, bound)
    ensures forall c :: c in CommentsOf(comments, apiId, bound) <==>
      c.id in comments && c.apiId == apiId && comments[c.id] == Models.Comment(Some(apiId), c.content)
    ensures CommentIdsAscending(CommentsOf(comments, apiId, bound))
  {
    CommentsOfListed(comments, apiId, bound);
  }

  /** The endpoints of an API are exactly the stored endpoints that point at it, in ascending key order. */
  lemma EndpointsOfExact(endpoints: map<int, Models.Endpoint>, apiId: int, bound: nat)
    requires Query.KeysBelow(endpoints, bound)
    ensures forall e :: e in EndpointsOf(endpoints, apiId, bound) <==>
      e.id in endpoints && endpoints[e.id] == Models.Endpoint(e.url, e.httpMethod, e.description, Some(apiId))
    ensures EndpointIdsAscending(EndpointsOf(endpoints, apiId, bound))
  {
    EndpointsOfListed(endpoints, apiId, bound);
  }

  /** Two endpoint tables that agree below `bound` list the same endpoints below `bound`. */
  lemma {:induction false} EndpointsOfSameBelow(m1: map<int, Models.Endpoint>, m2: map<int, Models.Endpoint>, apiId: int, bound: nat)
    requires forall k :: 0 <= k < bound ==> (k in m1 <==> k in m2)
    requires forall k :: 0 <= k < bound && k in m1 ==> m1[k] == m2[k]
    ensures EndpointsOf(m1, apiId, bound) == EndpointsOf(m2, apiId, bound)
    decreases bound
  {
    if bound > 0 {
      EndpointsOfSameBelow(m1, m2, apiId, bound - 1);
    }
  }

  /** Two comment tables that agree below `bound` list the same comments below `bound`. */
  lemma {:induction false} CommentsOfSameBelow(m1: map<int, Models.Comment>, m2: map<int, Models.Comment>, apiId: int, bound: nat)
    requires forall k :: 0 <= k < bound ==> (k in m1 <==> k in m2)
    requires forall k :: 0 <= k < bound && k in m1 ==> m1[k] == m2[k]
    ensures CommentsOf(m1, apiId, bound) == CommentsOf(m2, apiId, bound)
    decreases bound
  {
    if bound > 0 {
      CommentsOfSameBelow(m1, m2, apiId, bound - 1);
    }
  }

  /**
   * Storing an endpoint under a fresh key above all others appends it to the
   * listing of its API and leaves the listing of every other API unchanged.
   */
  lemma EndpointAppended(endpoints: map<int, Models.Endpoint>, k: nat, row: Models.Endpoint, apiId: int)
    requires Query.KeysBelow(endpoints, k)
    ensures EndpointsOf(endpoints[k := row], apiId, k + 1)
         == EndpointsOf(endpoints, apiId, k) + (if row.apiId == Some(apiId) then [EndpointView(k, row)] else [])
  {
    EndpointsOfSameBelow(endpoints[k := row], endpoints, apiId, k);
  }

  /**
   * Storing a comment under a fresh key above all others appends it to the
   * listing of its API and leaves the listing of every other API unchanged.
   */
  lemma CommentAppended(comments: map<int, Models.Comment>, k: nat, row: Models.Comment, apiId: int)
    requires Query.KeysBelow(comments, k)
    ensures CommentsOf(comments[k := row], apiId, k + 1)
         == CommentsOf(comments, apiId, k) + (if row.apiId == Some(apiId) then [CommentView(k, apiId, row)] else [])
  {
    CommentsOfSameBelow(comments[k := row], comments, apiId, k);
  }

  /** A deleted endpoint is listed under no API. */
  lemma DeletedEndpointUnlisted(endpoints: map<int, Models.Endpoint>, endpointId: int, apiId: int, bound: nat)
    ensures forall e :: e in EndpointsOf(endpoints - {endpointId}, apiId, bound) ==> e.id != endpointId
  {
    EndpointsOfListed(endpoints - {endpointId}, apiId, bound);
  }

  /** Detaching rows from a deleted API keeps every key of both tables. */
  lemma DetachedKeys(endpoints: map<int, Models.Endpoint>, comments: map<int, Models.Comment>, apiId: int)
    ensures DetachEndpoints(endpoints, apiId).Keys == endpoints.Keys
    ensures DetachComments(comments, apiId).Keys == comments.Keys
  {
  }

  /** After its API is deleted, no endpoint and no comment is listed under its key. */
  lemma DetachedUnlisted(endpoints: map<int, Models.Endpoint>, comments: map<int, Models.Comment>, apiId: int, bound: nat)
    ensures EndpointsOf(DetachEndpoints(endpoints, apiId), apiId, bound) == []
    ensures CommentsOf(DetachComments(comments, apiId), apiId, bound) == []
  {
    EndpointsOfNone(DetachEndpoints(endpoints, apiId), apiId, bound);
    CommentsOfNone(DetachComments(comments, apiId), apiId, bound);
  }

  /** Deleting one API leaves the endpoint listing of every other API as it was. */
  lemma {:induction false} DetachKeepsOtherEndpoints(endpoints: map<int, Models.Endpoint>, apiId: int, other: int, bound: nat)
    requires other != apiId
    ensures EndpointsOf(DetachEndpoints(endpoints, apiId), other, bound) == EndpointsOf(endpoints, other, bound)
    decreases bound
  {
    if bound > 0 {
      DetachKeepsOtherEndpoints(endpoints, apiId, other, bound - 1);
    }
  }

  /** Deleting one API leaves the comment listing of every other API as it was. */
  lemma {:induction false} DetachKeepsOtherComments(comments: map<int, Models.Comment>, apiId: int, other: int, bound: nat)
    requires other != apiId
    ensures CommentsOf(DetachComments(comments, apiId), other, bound) == CommentsOf(comments, other, bound)
    decreases bound
  {
    if bound > 0 {
      DetachKeepsOtherComments(comments, apiId, other, bound - 1);
    }
  }

  /** An API that no endpoint points at lists no endpoints. */
  lemma {:induction false} EndpointsOfNone(endpoints: map<int, Models.Endpoint>, apiId: int, bound: nat)
    requires forall k :: k in endpoints ==> endpoints[k].apiId != Some(apiId)
    ensures EndpointsOf(endpoints, apiId, bound) == []
    decreases bound
  {
    if bound > 0 {
      EndpointsOfNone(endpoints, apiId, bound - 1);
    }
  }

  /** An API that no comment points at lists no comments. */
  lemma {:induction false} CommentsOfNone(comments: map<int, Models.Comment>, apiId: int, bound: nat)
    requires forall k :: k in comments ==> comments[k].apiId != Some(apiId)
    ensures CommentsOf(comments, apiId, bound) == []
    decreases bound
  {
    if bound > 0 {
      CommentsOfNone(comments, apiId, bound - 1);
    }
  }

  /** The like count of an API is zero exactly when no like points at it. */
  lemma LikeCountZero(likes: map<int, Models.Like>, apiId: int)
    ensures LikeCount(likes, apiId) == 0 <==> forall k :: k in likes ==> likes[k].apiId != apiId
  {
    var keys := LikeKeys(likes, apiId);
    if forall k :: k in likes ==> likes[k].apiId != apiId {
      assert keys == {};
    }
    forall k | k in likes && likes[k].apiId == apiId ensures |keys| != 0 {
      assert k in keys;
    }
  }

  /** Storing a like under a fresh key raises the count of its API by one and no other count. */
  lemma LikeCountAfterInsert(likes: map<int, Models.Like>, k: int, like: Models.Like, apiId: int)
    requires k !in likes
    ensures LikeCount(likes[k := like], apiId) == LikeCount(likes, apiId) + (if like.apiId == apiId then 1 else 0)
  {
    var before := LikeKeys(likes, apiId);
    var after := LikeKeys(likes[k := like], apiId);
    if like.apiId == apiId {
      assert after == before + {k};
    } else {
      assert after == before;
    }
  }

  /**
   * What `create_api` returns is what `get_api` would return right after,
   * provided no endpoint, like or comment already pointed at the new key.
   */
  lemma CreatedViewAgrees(
    endpoints: map<int, Models.Endpoint>, likes: map<int, Models.Like>, comments: map<int, Models.Comment>,
    input: Schemas.APICreate, id: nat)
    requires Query.KeysBelow(endpoints, id + 1)
    requires forall k :: k in endpoints ==> endpoints[k].apiId != Some(id)
    requires forall k :: k in likes ==> likes[k].apiId != id
    requires forall k :: k in comments ==> comments[k].apiId != Some(id)
    ensures ApiView(id, Models.NewApi(input.name, input.description, Some(input.free), input.documentation),
                    endpoints + Batch(input.endpoints, id, id + 1), likes, comments, id + 1 + |input.endpoints|)
         == Schemas.API(id, input.name, input.description, input.free, input.documentation, None,
                        Created(input.endpoints, id + 1), [], 0)
  {
    CreatedEndpointsOnly(endpoints, input.endpoints, id);
    CommentsOfNone(comments, id, id + 1 + |input.endpoints|);
    LikeCountZero(likes, id);
  }

  /** When no endpoint pointed at a new API, its listing is exactly the batch, in submission order. */
  lemma CreatedEndpointsOnly(endpoints: map<int, Models.Endpoint>, eps: seq<Schemas.EndpointCreate>, id: nat)
    requires Query.KeysBelow(endpoints, id + 1)
    requires forall k :: k in endpoints ==> endpoints[k].apiId != Some(id)
    ensures EndpointsOf(endpoints + Batch(eps, id, id + 1), id, id + 1 + |eps|) == Created(eps, id + 1)
  {
    EndpointsOfNone(endpoints, id, id + 1);
    BatchAfterNone(endpoints, eps, id);
  }

  /** With nothing listed under a new API, its listing after the batch is the batch alone. */
  lemma BatchAfterNone(endpoints: map<int, Models.Endpoint>, eps: seq<Schemas.EndpointCreate>, id: nat)
    requires Query.KeysBelow(endpoints, id + 1)
    requires EndpointsOf(endpoints, id, id + 1) == []
    ensures EndpointsOf(endpoints + Batch(eps, id, id + 1), id, id + 1 + |eps|) == Created(eps, id + 1)
  {
    CreatedEndpointsListed(endpoints, eps, id, id + 1);
    assert [] + Created(eps, id + 1) == Created(eps, id + 1);
  }


  /** A page of the API listing is in strictly ascending key order. */
  lemma ApiPageAscending(apis: map<int, Models.Api>, bound: nat, skip: nat, limit: nat)
    ensures Query.Ascending(Query.Page(ApiIds(apis, bound), skip, limit))
  {
    Query.AscendSorted(apis.Keys, bound);
    Query.PageOfAscending(ApiIds(apis, bound), skip, limit);
  }

  /**
   * The endpoints stored under an API after a batch insert are the rows that
   * already pointed at it followed by the batch, in submission order.
   */
  lemma CreatedEndpointsListed(prior: map<int, Models.Endpoint>, eps: seq<Schemas.EndpointCreate>, apiId: int, first: nat)
    requires Query.KeysBelow(prior, first)
    ensures EndpointsOf(prior + Batch(eps, apiId, first), apiId, first + |eps|)
         == EndpointsOf(prior, apiId, first) + Created(eps, first)
  {
    BatchPrefixListed(prior, eps, apiId, first, |eps|);
    assert Created(eps, first)[..|eps|] == Created(eps, first);
  }

  /** The first `n` keys of a batch insert list the old endpoints, then the first `n` of the batch. */
  lemma {:induction false} BatchPrefixListed(prior: map<int, Models.Endpoint>, eps: seq<Schemas.EndpointCreate>, apiId: int, first: nat, n: nat)
    requires Query.KeysBelow(prior, first)
    requires n <= |eps|
    ensures EndpointsOf(prior + Batch(eps, apiId, first), apiId, first + n)
         == EndpointsOf(prior, apiId, first) + Created(eps, first)[..n]
    decreases n
  {
    var m := prior + Batch(eps, apiId, first);
    BatchKeys(eps, apiId, first);
    if n == 0 {
      EndpointsOfSameBelow(m, prior, apiId, first);
    } else {
      BatchPrefixListed(prior, eps, apiId, first, n - 1);
      var k := first + n - 1;
      assert InRange(k, first, |eps|);
      assert m[k] == EndpointRow(eps[n - 1], apiId);
      assert Created(eps, first)[..n] == Created(eps, first)[..n - 1] + [Created(eps, first)[n - 1]];
    }
  }

  /** Adding the next submitted endpoint under the next key extends the batch by one row. */
  lemma BatchGrows(eps: seq<Schemas.EndpointCreate>, i: nat, apiId: int, first: int)
    requires i < |eps|
    ensures Batch(eps[..i + 1], apiId, first) == Batch(eps[..i], apiId, first)[first + i := EndpointRow(eps[i], apiId)]
  {
    var b := Batch(eps[..i], apiId, first);
    assert forall k :: k in b <==> first <= k < first + i;
  }

  /** Storing a row after a merge is merging with the row stored on the right. */
  lemma MergeThenStore<R>(a: map<int, R>, b: map<int, R>, k: int, v: R)
    ensures (a + b)[k := v] == a + b[k := v]
  {
  }

  /** The keys of a batch are the `|eps|` consecutive keys from `first`. */
  lemma BatchKeys(eps: seq<Schemas.EndpointCreate>, apiId: int, first: int)
    ensures forall k :: k in Batch(eps, apiId, first) <==> first <= k < first + |eps|
  {
    forall k ensures k in Batch(eps, apiId, first) <==> first <= k < first + |eps| {
      assert InRange(k, first, |eps|) <==> first <= k < first + |eps|;
    }
  }
}
