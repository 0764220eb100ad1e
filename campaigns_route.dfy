/** `/api/campaigns` (app/api/campaigns/route.ts): list campaigns (`GET`) and create one
    (`POST`) through the link service, whose replies are parameters. */
module CampaignsRoute {
  import opened Js
  import ShortenerRoute

  /** The link service's reply: a response whose body parses as JSON or not, or a
      rejected `fetch`. */
  datatype Reply = Response(status: int, body: Option<Value>) | Rejected

  // ---------------------------------------------------------------------------
  // GET

  /** The query forwarded upstream. */
  datatype Query = Query(limit: string, page: string)

  datatype ListResponse =
    | Listed(campaigns: Value, result: Value, currentpage: Value, maxpage: Value)
    | ListError(status: int, error: Value)
    | ListInternalError                    // 500 "Internal server error"

  /** `searchParams.get(name) || dflt`: an absent or empty parameter takes the default. */
  function Param(value: Option<string>, dflt: string): (r: string)
    ensures value.Some? && value.value != [] ==> r == value.value
    ensures value.None? || value.value == [] ==> r == dflt
  {
    if value.Some? && value.value != [] then value.value else dflt
  }

  /** The upstream query for the `limit` and `page` search parameters. */
  function ListQuery(limit: Option<string>, page: Option<string>): (q: Query)
    ensures q.limit != [] && q.page != []
  {
    Query(Param(limit, "100"), Param(page, "1"))
  }

  /** The `GET` handler's response to the upstream `reply`. */
  function List(reply: Reply): (r: ListResponse)
    ensures reply.Rejected? ==> r == ListInternalError
    ensures reply.Response? && !OkStatus(reply.status) ==>
      r == ListError(reply.status, Str("Failed to fetch campaigns"))
  {
    match reply
    case Rejected => ListInternalError
    case Response(status, body) =>
      if !OkStatus(status) then ListError(status, Str("Failed to fetch campaigns"))
      else if body.None? || body.value == Null || body.value == Undefined then ListInternalError
      else
        var data := body.value;
        if ErrorIsZero(OptGet(data, "error")) then
          var inner := OptGet(data, "data");
          Listed(Or(OptGet(inner, "campaigns"), Arr([])), Or(OptGet(inner, "result"), Num(0)),
                 Or(OptGet(inner, "currentpage"), Num(1)), Or(OptGet(inner, "maxpage"), Num(1)))
        else ListError(400, Or(OptGet(data, "message"), Str("Failed to fetch campaigns")))
  }

  /** A listing is given exactly for an ok reply whose `error` is 0 or "0"; each of its
      four fields is the upstream value when truthy and otherwise `[]`, 0, 1 and 1. Any
      other parsed ok reply is a 400 carrying the upstream message or the default one; an
      ok reply whose body does not parse, or is `null`, makes the handler answer 500. */
  lemma ListShape(reply: Reply)
    ensures var r := List(reply);
      && (r.Listed? <==> reply.Response? && OkStatus(reply.status) && reply.body.Some?
                         && reply.body.value != Null && reply.body.value != Undefined
                         && ErrorIsZero(OptGet(reply.body.value, "error")))
      && (r.Listed? ==>
            var inner := OptGet(reply.body.value, "data");
            && (Truthy(OptGet(inner, "campaigns")) ==> r.campaigns == OptGet(inner, "campaigns"))
            && (!Truthy(OptGet(inner, "campaigns")) ==> r.campaigns == Arr([]))
            && (Truthy(OptGet(inner, "result")) ==> r.result == OptGet(inner, "result"))
            && (!Truthy(OptGet(inner, "result")) ==> r.result == Num(0))
            && (Truthy(OptGet(inner, "currentpage")) ==> r.currentpage == OptGet(inner, "currentpage"))
            && (!Truthy(OptGet(inner, "currentpage")) ==> r.currentpage == Num(1))
            && (Truthy(OptGet(inner, "maxpage")) ==> r.maxpage == OptGet(inner, "maxpage"))
            && (!Truthy(OptGet(inner, "maxpage")) ==> r.maxpage == Num(1))
            && Truthy(r.currentpage) && Truthy(r.maxpage))
      && (reply.Response? && OkStatus(reply.status) && reply.body.Some?
          && reply.body.value != Null && reply.body.value != Undefined
          && !ErrorIsZero(OptGet(reply.body.value, "error")) ==>
            r == ListError(400, Or(OptGet(reply.body.value, "message"), Str("Failed to fetch campaigns"))))
      && (reply.Response? && OkStatus(reply.status)
          && (reply.body.None? || reply.body.value == Null || reply.body.value == Undefined) ==>
            r == ListInternalError)
  {
  }

  // ---------------------------------------------------------------------------
  // POST

  datatype CreateResponse =
    | NameRequired                           // 400 "Campaign name is required"
    | CampaignCreated(id: Value, name: Value, isPublic: Value, rotator: Value, list: Value)
    | CreateFailed(status: int, error: Value)
    | CreateInternalError                    // 500 "Internal server error"

  /** `payload` is `{ name }`, plus `slug` when it is truthy and `public` when it is a
      boolean, each copied unchanged, and nothing else. */
  predicate CampaignPayloadFor(payload: map<string, Value>, body: Value) {
    var slug, isPublic := OptGet(body, "slug"), OptGet(body, "public");
    && payload.Keys <= {"name", "slug", "public"}
    && "name" in payload && payload["name"] == OptGet(body, "name")
    && ("slug" in payload <==> Truthy(slug)) && ("slug" in payload ==> payload["slug"] == slug)
    && ("public" in payload <==> isPublic.Bool?) && ("public" in payload ==> payload["public"] == isPublic)
  }

  /** The payload, built by conditional assignments. */
  method BuildCampaignPayload(body: Value) returns (payload: map<string, Value>)
    ensures CampaignPayloadFor(payload, body)
  {
    payload := map["name" := OptGet(body, "name")];
    var slug := OptGet(body, "slug");
    if Truthy(slug) {
      payload := payload["slug" := slug];
    }
    var isPublic := OptGet(body, "public");
    if isPublic.Bool? {
      payload := payload["public" := isPublic];
    }
  }

  /** Creation succeeds only on `response.ok` with `error` exactly 0 or "0": unlike the
      single-link endpoint, a reply without `error` is a failure. */
  predicate CreateSucceeded(status: int, data: Value) {
    OkStatus(status) && ErrorIsZero(OptGet(data, "error"))
  }

  /** The `POST` handler. `body` is `None` when the request body is not JSON; `sent` is the
      payload posted upstream, if any. */
  method Create(body: Option<Value>, reply: Reply) returns (resp: CreateResponse, sent: Option<map<string, Value>>)
    ensures body.None? || body.value == Null || body.value == Undefined ==> resp == CreateInternalError && sent.None?
    ensures body.Some? && body.value != Null && body.value != Undefined ==>
      && (!Truthy(OptGet(body.value, "name")) <==> resp == NameRequired)
      && (resp == NameRequired ==> sent.None?)
      && (Truthy(OptGet(body.value, "name")) ==> sent.Some? && CampaignPayloadFor(sent.value, body.value))
      && (Truthy(OptGet(body.value, "name")) ==>
            && (reply.Rejected? || reply.body.None? || reply.body.value == Null || reply.body.value == Undefined
                ==> resp == CreateInternalError)
            && ((reply.Response? && reply.body.Some? && reply.body.value != Null && reply.body.value != Undefined
                 && !CreateSucceeded(reply.status, reply.body.value)) ==> resp.CreateFailed?))
    ensures resp.CampaignCreated? <==>
      && body.Some? && body.value != Null && body.value != Undefined && Truthy(OptGet(body.value, "name"))
      && reply.Response? && reply.body.Some? && reply.body.value != Null && reply.body.value != Undefined
      && CreateSucceeded(reply.status, reply.body.value)
    ensures resp.CampaignCreated? ==>
      var data := reply.body.value;
      && resp.name == Or(OptGet(data, "domain"), OptGet(data, "name"))
      && resp.id == OptGet(data, "id") && resp.isPublic == OptGet(data, "public")
      && resp.rotator == OptGet(data, "rotator") && resp.list == OptGet(data, "list")
    ensures resp.CreateFailed? ==>
      && reply.Response? && reply.body.Some?
      && resp.status == (if reply.status != 0 then reply.status else 400)
      && resp.error == Or(OptGet(reply.body.value, "message"), Str("Failed to create campaign"))
  {
    if body.None? || body.value == Null || body.value == Undefined {
      return CreateInternalError, None;
    }
    var b := body.value;
    if !Truthy(OptGet(b, "name")) {
      return NameRequired, None;
    }
    var payload := BuildCampaignPayload(b);
    sent := Some(payload);
    if reply.Rejected? || reply.body.None? {
      return CreateInternalError, sent;
    }
    var data := reply.body.value;
    if data == Null || data == Undefined {
      // reading `data.error` throws
      return CreateInternalError, sent;
    }
    if CreateSucceeded(reply.status, data) {
      resp := CampaignCreated(OptGet(data, "id"), Or(OptGet(data, "domain"), OptGet(data, "name")),
                              OptGet(data, "public"), OptGet(data, "rotator"), OptGet(data, "list"));
    } else {
      resp := CreateFailed(if reply.status != 0 then reply.status else 400,
                           Or(OptGet(data, "message"), Str("Failed to create campaign")));
    }
  }

  /** An ok reply whose body has no `error` field is a failed campaign creation, though
      the single-link endpoint takes the same reply as success. */
  lemma MissingErrorFails(status: int, data: map<string, Value>)
    requires OkStatus(status) && "error" !in data
    ensures !CreateSucceeded(status, Obj(data))
    ensures ShortenerRoute.Succeeded(status, Obj(data))
  {
  }
}
