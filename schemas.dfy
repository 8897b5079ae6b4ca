/**
 * Request and response shapes (schemas/schemas.py) and the required-field
 * rules that turn a partially filled request body into a validated input.
 * Where crud/crud.py reads fields the schema file does not declare (`image`
 * and `likes` on the API shape, the whole `EndpointUpdate` shape), the shapes
 * follow crud/crud.py.
 */
module Schemas {
  import opened Wrappers

  // ---------------------------------------------------------------- read shapes

  /** An endpoint as returned to clients (no `apiId`). */
  datatype Endpoint = Endpoint(id: int, url: string, httpMethod: string, description: string)

  /** A comment as returned to clients. */
  datatype Comment = Comment(id: int, apiId: int, content: string)

  /** A like as returned to clients: its id and the API it belongs to, not the user. */
  datatype Like = Like(id: int, apiId: int)

  /** An API with its aggregates: endpoints, comments and the live like count. */
  datatype API = API(
    id: int,
    name: string,
    description: string,
    free: bool,
    documentation: string,
    image: Option<string>,
    endpoints: seq<Endpoint>,
    comments: seq<Comment>,
    likes: nat)

  // ------------------------------------------------------------ validated inputs

  datatype EndpointCreate = EndpointCreate(url: string, httpMethod: string, description: string)

  datatype APICreate = APICreate(
    name: string,
    description: string,
    free: bool,
    documentation: string,
    image: Option<string>,
    endpoints: seq<EndpointCreate>)

  datatype CommentCreate = CommentCreate(apiId: int, content: string)

  datatype LikeCreate = LikeCreate(apiId: int)

  // ------------------------------------------------------- partially filled bodies

  /**
   * The endpoint fields a request body sets. It is the body an endpoint is
   * created from, and, as is, the patch of an endpoint update: only its set
   * fields are applied.
   */
  datatype EndpointFields = EndpointFields(url: Option<string>, httpMethod: Option<string>, description: Option<string>)

  /**
   * The four base API fields a request body sets. A validated update is one of
   * these with every field set; the store applies exactly its set fields.
   */
  datatype APIFields = APIFields(
    name: Option<string>,
    description: Option<string>,
    free: Option<bool>,
    documentation: Option<string>)

  /** The body an API is created from. */
  datatype APIBody = APIBody(base: APIFields, image: Option<string>, endpoints: Option<seq<EndpointFields>>)

  /** The body a comment is created from. */
  datatype CommentBody = CommentBody(apiId: Option<int>, content: Option<string>)

  /** One step of the location of a missing field: a field name or a list index. */
  datatype Loc = Field(name: string) | Item(index: nat)

  type Path = seq<Loc>

  // ------------------------------------------------------------------ validation

  predicate EndpointComplete(b: EndpointFields) {
    b.url.Some? && b.httpMethod.Some? && b.description.Some?
  }

  predicate APIComplete(b: APIFields) {
    b.name.Some? && b.description.Some? && b.free.Some? && b.documentation.Some?
  }

  /** The location `at + [name]` when `absent`, reported in declaration order. */
  function MissingIf(absent: bool, at: Path, name: string): (r: seq<Path>)
    ensures r == [] || r == [at + [Field(name)]]
    ensures at + [Field(name)] in r <==> absent
    ensures at == [] ==> ([Field(name)] in r <==> absent)
  {
    assert at == [] ==> at + [Field(name)] == [Field(name)];
    if absent then [at + [Field(name)]] else []
  }

  /** Two different field names give two different locations under the same prefix. */
  lemma DistinctFields(at: Path, a: string, b: string)
    requires a != b
    ensures at + [Field(a)] != at + [Field(b)]
    ensures [Field(a)] != [Field(b)]
  {
    assert (at + [Field(a)])[|at|] == Field(a);
    assert at == [] ==> at + [Field(a)] == [Field(a)] && at + [Field(b)] == [Field(b)];
  }

  /**
   * Endpoint body validation, with missing fields reported under `at`. Any
   * string is an acceptable `method`: no set of verbs is enforced.
   */
  function ValidateEndpoint(b: EndpointFields, at: Path): (r: Result<EndpointCreate, seq<Path>>)
    ensures r.Success? <==> EndpointComplete(b)
    ensures r.Success? ==>
      r.value.url == b.url.value && r.value.httpMethod == b.httpMethod.value && r.value.description == b.description.value
    ensures r.Failure? ==> r.error != []
    ensures r.Failure? ==> forall p :: p in r.error ==> |p| == |at| + 1
    ensures r.Failure? ==>
      && (at + [Field("url")] in r.error <==> b.url.None?)
      && (at + [Field("method")] in r.error <==> b.httpMethod.None?)
      && (at + [Field("description")] in r.error <==> b.description.None?)
  {
    if EndpointComplete(b) then
      Success(EndpointCreate(b.url.value, b.httpMethod.value, b.description.value))
    else
      DistinctFields(at, "url", "method");
      DistinctFields(at, "url", "description");
      DistinctFields(at, "method", "description");
      Failure(MissingIf(b.url.None?, at, "url")
        + MissingIf(b.httpMethod.None?, at, "method")
        + MissingIf(b.description.None?, at, "description"))
  }

  /** The errors of a result, or none. */
  function Errors<T>(r: Result<T, seq<Path>>): seq<Path> {
    if r.Failure? then r.error else []
  }

  /**
   * Validation of a list of endpoint bodies; item `i` reports its missing
   * fields under `at + [Item(i)]`, and the errors of every item are collected.
   */
  function ValidateEndpoints(bs: seq<EndpointFields>, at: Path): (r: Result<seq<EndpointCreate>, seq<Path>>)
    ensures r.Success? <==> forall i :: 0 <= i < |bs| ==> EndpointComplete(bs[i])
    ensures r.Success? ==> |r.value| == |bs|
    ensures r.Success? ==> forall i :: 0 <= i < |bs| ==>
      r.value[i] == EndpointCreate(bs[i].url.value, bs[i].httpMethod.value, bs[i].description.value)
    ensures r.Failure? ==> r.error != []
    ensures r.Failure? ==> forall p :: p in r.error ==> |p| == |at| + 2
    decreases |bs|
  {
    if bs == [] then Success([])
    else
      var n := |bs| - 1;
      var init := ValidateEndpoints(bs[..n], at);
      var last := ValidateEndpoint(bs[n], at + [Item(n)]);
      if init.Success? && last.Success? then Success(init.value + [last.value])
      else Failure(Errors(init) + Errors(last))
  }

  /**
   * The missing locations among the four base API fields: one top-level
   * location per field left out, and nothing else.
   */
  function MissingBase(b: APIFields): (r: seq<Path>)
    ensures r == [] <==> APIComplete(b)
    ensures [Field("name")] in r <==> b.name.None?
    ensures [Field("description")] in r <==> b.description.None?
    ensures [Field("free")] in r <==> b.free.None?
    ensures [Field("documentation")] in r <==> b.documentation.None?
    ensures forall p :: p in r ==> |p| == 1 && p != [Field("endpoints")]
    ensures forall p :: p in r ==> p in [[Field("name")], [Field("description")], [Field("free")], [Field("documentation")]]
  {
    DistinctFields([], "name", "description");
    DistinctFields([], "name", "free");
    DistinctFields([], "name", "documentation");
    DistinctFields([], "free", "description");
    DistinctFields([], "free", "documentation");
    DistinctFields([], "description", "documentation");
    DistinctFields([], "endpoints", "name");
    DistinctFields([], "endpoints", "description");
    DistinctFields([], "endpoints", "free");
    DistinctFields([], "endpoints", "documentation");
    MissingIf(b.name.None?, [], "name")
      + MissingIf(b.description.None?, [], "description")
      + MissingIf(b.free.None?, [], "free")
      + MissingIf(b.documentation.None?, [], "documentation")
  }

  /**
   * APICreate validation: name, description, free, documentation and a list
   * of endpoints are required, and every endpoint must itself be complete;
   * the image is optional.
   */
  function ValidateAPICreate(b: APIBody): (r: Result<APICreate, seq<Path>>)
    ensures r.Success? <==>
      APIComplete(b.base) && b.endpoints.Some?
      && forall i :: 0 <= i < |b.endpoints.value| ==> EndpointComplete(b.endpoints.value[i])
    ensures r.Success? ==>
      && r.value.name == b.base.name.value
      && r.value.description == b.base.description.value
      && r.value.free == b.base.free.value
      && r.value.documentation == b.base.documentation.value
      && r.value.image == b.image
      && |r.value.endpoints| == |b.endpoints.value|
      && forall i :: 0 <= i < |b.endpoints.value| ==>
           var e := b.endpoints.value[i];
           r.value.endpoints[i] == EndpointCreate(e.url.value, e.httpMethod.value, e.description.value)
    ensures r.Failure? ==> r.error != []
    ensures r.Failure? ==>
      && ([Field("name")] in r.error <==> b.base.name.None?)
      && ([Field("description")] in r.error <==> b.base.description.None?)
      && ([Field("free")] in r.error <==> b.base.free.None?)
      && ([Field("documentation")] in r.error <==> b.base.documentation.None?)
      && ([Field("endpoints")] in r.error <==> b.endpoints.None?)
  {
    var missing := MissingBase(b.base);
    if b.endpoints.None? then
      CreateErrors(b.base, [[Field("endpoints")]]);
      Failure(missing + [[Field("endpoints")]])
    else
      var eps := ValidateEndpoints(b.endpoints.value, [Field("endpoints")]);
      if missing == [] && eps.Success? then
        Success(APICreate(b.base.name.value, b.base.description.value, b.base.free.value,
                          b.base.documentation.value, b.image, eps.value))
      else
        CreateErrors(b.base, Errors(eps));
        Failure(missing + Errors(eps))
  }

  /**
   * The errors of a create body are the missing base fields followed by
   * `more`: the endpoint list itself, or locations inside it. A base field
   * is then reported exactly when absent, and the endpoint list exactly
   * when `more` reports it.
   */
  lemma CreateErrors(b: APIFields, more: seq<Path>)
    requires forall p :: p in more ==> |p| > 1 || p == [Field("endpoints")]
    ensures var e := MissingBase(b) + more;
      && ([Field("name")] in e <==> b.name.None?)
      && ([Field("description")] in e <==> b.description.None?)
      && ([Field("free")] in e <==> b.free.None?)
      && ([Field("documentation")] in e <==> b.documentation.None?)
      && ([Field("endpoints")] in e <==> [Field("endpoints")] in more)
  {
  }

  /**
   * APIUpdate validation. APIUpdate declares the same four required fields
   * as the base shape, so a body is accepted only when it sets all four, and
   * the accepted patch is the body itself.
   */
  function ValidateAPIUpdate(b: APIFields): (r: Result<APIFields, seq<Path>>)
    ensures r.Success? <==> APIComplete(b)
    ensures r.Success? ==> r.value == b
    ensures r.Failure? ==> r.error != []
  {
    var missing := MissingBase(b);
    if missing == [] then Success(b) else Failure(missing)
  }

  /** CommentCreate validation: both `apiId` and `content` are required. */
  function ValidateComment(b: CommentBody): (r: Result<CommentCreate, seq<Path>>)
    ensures r.Success? <==> b.apiId.Some? && b.content.Some?
    ensures r.Success? ==> r.value.apiId == b.apiId.value && r.value.content == b.content.value
    ensures r.Failure? ==> ([Field("api_id")] in r.error <==> b.apiId.None?)
    ensures r.Failure? ==> ([Field("content")] in r.error <==> b.content.None?)
  {
    if b.apiId.Some? && b.content.Some? then Success(CommentCreate(b.apiId.value, b.content.value))
    else
      DistinctFields([], "api_id", "content");
      Failure(MissingIf(b.apiId.None?, [], "api_id") + MissingIf(b.content.None?, [], "content"))
  }
}
