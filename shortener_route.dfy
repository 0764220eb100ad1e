/** `POST /api/shortener` (app/api/shortener/route.ts): create one short link with the
    optional settings the form supplies. The URL's parse check (`new URL(url)`) is an
    oracle; the link service's reply is a parameter. */
module ShortenerRoute {
  import opened Js
  import LinkApi

  /** The optional request fields copied into the payload when truthy, in source order. */
  const OptionalFields: seq<string> :=
    ["custom", "domain", "campaign", "description", "metatitle", "metadescription",
     "type", "password", "expiry", "status"]

  /** The link service's reply: a response whose body parses as JSON or not, or a
      rejected `fetch`. */
  datatype Reply = Response(status: int, body: Option<Value>) | Rejected

  datatype ShortenResponse =
    | BadRequest(error: string)                        // 400 { error }
    | Created(shortUrl: Value, id: Value, data: Value)  // 200 { ok: true, shortUrl, id, data }
    | Failed(status: int, message: Value, upstreamError: Value) // { ok: false, message, error }
    | InternalError                                     // 500 "Internal server error"

  /** `payload` is `{ url }` plus every field of `fields` that is truthy in `body`, copied
      unchanged, and nothing else. */
  predicate Covers(payload: map<string, Value>, url: Value, body: Value, fields: seq<string>) {
    && "url" in payload && payload["url"] == url
    && (forall k :: k in payload ==> k == "url" || k in fields)
    && (forall k :: k in fields ==> (k in payload <==> Truthy(OptGet(body, k))))
    && (forall k :: k in payload && k != "url" ==> payload[k] == OptGet(body, k))
  }

  /** The request's payload: `{ url }` plus every truthy optional field. */
  predicate PayloadFor(payload: map<string, Value>, url: Value, body: Value) {
    Covers(payload, url, body, OptionalFields)
  }

  /** `payload` after the conditional assignments of the first `n` optional fields. */
  predicate PayloadUpTo(payload: map<string, Value>, url: Value, body: Value, n: nat)
    requires n <= |OptionalFields|
  {
    Covers(payload, url, body, OptionalFields[..n])
  }

  /** One conditional assignment extends the covered fields by one. */
  lemma CoversStep(payload: map<string, Value>, p: map<string, Value>, url: Value, body: Value,
                   fields: seq<string>, field: string)
    requires field != "url"
    requires Covers(payload, url, body, fields)
    requires p == if Truthy(OptGet(body, field)) then payload[field := OptGet(body, field)] else payload
    ensures Covers(p, url, body, fields + [field])
  {
    forall k | k in fields + [field] ensures k in p <==> Truthy(OptGet(body, k)) {
      if k != field {
        assert k in fields;
      }
    }
  }

  /** No optional field is called `url`. */
  lemma FieldNotUrl(n: nat)
    requires n < |OptionalFields|
    ensures OptionalFields[n] != "url"
  {
    assert forall i :: 0 <= i < |OptionalFields| ==> OptionalFields[i][0] != 'u';
  }

  /** `if (field) payload.field = field;` for the `n`-th optional field. */
  method CopyIfTruthy(payload: map<string, Value>, url: Value, body: Value, n: nat) returns (p: map<string, Value>)
    requires n < |OptionalFields|
    requires PayloadUpTo(payload, url, body, n)
    ensures PayloadUpTo(p, url, body, n + 1)
  {
    var field := OptionalFields[n];
    var v := OptGet(body, field);
    p := payload;
    if Truthy(v) {
      p := payload[field := v];
    }
    FieldNotUrl(n);
    CoversStep(payload, p, url, body, OptionalFields[..n], field);
    assert OptionalFields[..n + 1] == OptionalFields[..n] + [field];
  }

  /** The payload, built by one conditional assignment per optional field, in source order. */
  method BuildPayload(url: Value, body: Value) returns (payload: map<string, Value>)
    ensures PayloadFor(payload, url, body)
  {
    payload := map["url" := url];
    PayloadStart(url, body);
    payload := CopyIfTruthy(payload, url, body, 0); // custom
    payload := CopyIfTruthy(payload, url, body, 1); // domain
    payload := CopyIfTruthy(payload, url, body, 2); // campaign
    payload := CopyIfTruthy(payload, url, body, 3); // description
    payload := CopyIfTruthy(payload, url, body, 4); // metatitle
    payload := CopyIfTruthy(payload, url, body, 5); // metadescription
    payload := CopyIfTruthy(payload, url, body, 6); // type
    payload := CopyIfTruthy(payload, url, body, 7); // password
    payload := CopyIfTruthy(payload, url, body, 8); // expiry
    payload := CopyIfTruthy(payload, url, body, 9); // status
    PayloadComplete(payload, url, body);
  }

  /** Before any assignment the payload is `{ url }`. */
  lemma PayloadStart(url: Value, body: Value)
    ensures PayloadUpTo(map["url" := url], url, body, 0)
  {
    assert OptionalFields[..0] == [];
  }

  /** After all ten conditional assignments the payload is the request's payload. */
  lemma PayloadComplete(payload: map<string, Value>, url: Value, body: Value)
    requires PayloadUpTo(payload, url, body, |OptionalFields|)
    ensures PayloadFor(payload, url, body)
  {
    assert OptionalFields[..|OptionalFields|] == OptionalFields;
  }

  /** The payload is determined by the request: two payloads for the same request agree. */
  lemma PayloadDetermined(p: map<string, Value>, q: map<string, Value>, url: Value, body: Value)
    requires PayloadFor(p, url, body) && PayloadFor(q, url, body)
    ensures p == q
  {
    forall k ensures k in p <==> k in q {
      if k != "url" && (k in p || k in q) {
        assert k in OptionalFields;
      }
    }
  }

  /** The upstream answer counts as success: `response.ok` and `error` is 0, "0" or absent. */
  predicate Succeeded(status: int, data: Value) {
    OkStatus(status) && ErrorAbsentOrZero(OptGet(data, "error"))
  }

  /** `data.shorturl || data.short || data.url || `${domain || 'adtracking.link'}/${custom || data.id}``. */
  function ShortUrl(data: Value, domain: Value, custom: Value): (r: Value)
    ensures Truthy(r)
  {
    var built := Str(ToText(Or(domain, Str(LinkApi.FallbackDomain))) + "/" + ToText(Or(custom, OptGet(data, "id"))));
    Or(OptGet(data, "shorturl"), Or(OptGet(data, "short"), Or(OptGet(data, "url"), built)))
  }

  /** The service's own short URL wins over the built one: `shorturl`, then `short`,
      then `url`, whichever is truthy first. */
  lemma ShortUrlPrefersService(data: Value, domain: Value, custom: Value)
    ensures Truthy(OptGet(data, "shorturl")) ==> ShortUrl(data, domain, custom) == OptGet(data, "shorturl")
    ensures !Truthy(OptGet(data, "shorturl")) && Truthy(OptGet(data, "short")) ==>
      ShortUrl(data, domain, custom) == OptGet(data, "short")
    ensures !Truthy(OptGet(data, "shorturl")) && !Truthy(OptGet(data, "short")) && Truthy(OptGet(data, "url")) ==>
      ShortUrl(data, domain, custom) == OptGet(data, "url")
  {
  }

  /** The built short URL is used only when the service names none, and then uses the
      requested domain (or the fallback domain) and the requested slug (or the new
      link's id). */
  lemma ShortUrlBuilt(data: Value, domain: Value, custom: Value)
    requires !Truthy(OptGet(data, "shorturl")) && !Truthy(OptGet(data, "short")) && !Truthy(OptGet(data, "url"))
    ensures var host := if Truthy(domain) then ToText(domain) else LinkApi.FallbackDomain;
      var slug := if Truthy(custom) then ToText(custom) else ToText(OptGet(data, "id"));
      ShortUrl(data, domain, custom) == Str(host + "/" + slug)
  {
    var host := Or(domain, Str(LinkApi.FallbackDomain));
    if !Truthy(domain) {
      assert ToText(host) == LinkApi.FallbackDomain;
    }
  }

  /** `response.status || 400`: a failure never carries status 0. */
  function FailureStatus(status: int): (r: int)
    ensures r != 0
    ensures status != 0 ==> r == status
  {
    if status != 0 then status else 400
  }

  /** The handler. `body` is `None` when the request body is not JSON; `isUrl` says
      whether `new URL(...)` accepts a value. `sent` is the payload posted upstream, if
      any. */
  method Post(body: Option<Value>, isUrl: Value -> bool, reply: Reply)
    returns (resp: ShortenResponse, sent: Option<map<string, Value>>)
    ensures body.None? || body.value == Null || body.value == Undefined ==> resp == InternalError && sent.None?
    ensures body.Some? && body.value != Null && body.value != Undefined ==>
      var url := OptGet(body.value, "url");
      && (!Truthy(url) ==> resp == BadRequest("URL is required") && sent.None?)
      && (Truthy(url) && !isUrl(url) ==> resp == BadRequest("Invalid URL format") && sent.None?)
      && (Truthy(url) && isUrl(url) ==> sent.Some? && PayloadFor(sent.value, url, body.value))
      && (Truthy(url) && isUrl(url) ==>
            && (reply.Rejected? || reply.body.None? || reply.body.value == Null || reply.body.value == Undefined
                ==> resp == InternalError)
            && ((reply.Response? && reply.body.Some? && reply.body.value != Null && reply.body.value != Undefined
                 && !Succeeded(reply.status, reply.body.value)) ==> resp.Failed?))
    ensures resp.Created? <==>
      && body.Some? && body.value != Null && body.value != Undefined
      && Truthy(OptGet(body.value, "url")) && isUrl(OptGet(body.value, "url"))
      && reply.Response? && reply.body.Some? && reply.body.value != Null && reply.body.value != Undefined
      && Succeeded(reply.status, reply.body.value)
    ensures resp.Created? ==>
      resp.shortUrl == ShortUrl(reply.body.value, OptGet(body.value, "domain"), OptGet(body.value, "custom"))
      && resp.data == reply.body.value && resp.id == OptGet(reply.body.value, "id")
    ensures resp.Failed? ==>
      && reply.Response? && reply.body.Some? && resp.status == FailureStatus(reply.status)
      && resp.message == Or(OptGet(reply.body.value, "message"), Str("Failed to create short link"))
      && resp.upstreamError == OptGet(reply.body.value, "error")
  {
    if body.None? || body.value == Null || body.value == Undefined {
      return InternalError, None;
    }
    var b := body.value;
    var url := OptGet(b, "url");
    if !Truthy(url) {
      return BadRequest("URL is required"), None;
    }
    if !isUrl(url) {
      return BadRequest("Invalid URL format"), None;
    }
    var payload := BuildPayload(url, b);
    sent := Some(payload);
    if reply.Rejected? || reply.body.None? {
      return InternalError, sent;
    }
    var data := reply.body.value;
    if data == Null || data == Undefined {
      // reading `data.error` throws
      return InternalError, sent;
    }
    if Succeeded(reply.status, data) {
      resp := Created(ShortUrl(data, OptGet(b, "domain"), OptGet(b, "custom")), OptGet(data, "id"), data);
    } else {
      resp := Failed(FailureStatus(reply.status), Or(OptGet(data, "message"), Str("Failed to create short link")),
                     OptGet(data, "error"));
    }
  }
}
