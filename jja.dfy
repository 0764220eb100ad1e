/** The link-service client (lib/jja.ts): `createShortLink`, a bounded retry loop that
    backs off on HTTP 429, and the domain extraction of `fetchBrandedDomains`.

    `fetch` is an oracle: `script(link, k)` is the reply to attempt `k` of the `link`-th
    call of `createShortLink` in a request. Sleeps are recorded, not taken. */
module LinkApi {
  import opened Js

  const FallbackDomain: string := "adtracking.link"
  const DefaultMaxRetries: int := 3

  /** `DEFAULT_DOMAIN`: `process.env.DEFAULT_DOMAIN || "adtracking.link"`. */
  function DefaultDomain(env: Option<string>): (d: string)
    ensures d != []
    ensures env.Some? && env.value != [] ==> d == env.value
  {
    if env.Some? && env.value != [] then env.value else FallbackDomain
  }

  /** The `Retry-After` header as `Number(...)` sees it. */
  datatype RetryAfter =
    | NoHeader              // `headers.get` returns null, and Number(null) is 0
    | Finite(seconds: int)  // a header that converts to a finite number
    | NotFinite             // a header that converts to NaN or an infinity

  /** What one `fetch` yields: a response (status, Retry-After, body parsed as JSON or
      `None` when `resp.json()` rejects), or a rejection of the `fetch` promise itself. */
  datatype Reply =
    | Response(status: int, retryAfter: RetryAfter, body: Option<Value>)
    | Rejected

  /** The JSON payload `{ url, custom, domain }` posted to `/url/add`. */
  datatype Request = Request(url: string, custom: string, domain: string)

  /** `{ ok, data }`, or the exception that escapes `createShortLink`. */
  datatype Outcome = Done(ok: bool, data: Value) | Thrown

  /** `{}`, what an unparseable body becomes. */
  const EmptyObject: Value := Obj(map[])

  /** The synthetic result once every attempt was rate limited. */
  const ExhaustedData: Value :=
    Obj(map["error" := Num(1), "message" := Str("Rate limit: retries exhausted")])

  function Pow2(k: nat): (r: nat)
    ensures r >= 1
  {
    if k == 0 then 1 else 2 * Pow2(k - 1)
  }

  /** The argument of `sleep` after a 429 on attempt `attempt`: `Retry-After` seconds when
      `Number(header)` is finite, else `2^attempt` seconds. */
  function WaitMs(h: RetryAfter, attempt: nat): (ms: int)
    ensures h == NoHeader ==> ms == 0
    ensures h.NotFinite? ==> ms == Pow2(attempt) * 1000 && ms >= 1000
    ensures h.Finite? ==> ms == h.seconds * 1000
  {
    match h
    case NoHeader => 0
    case Finite(n) => n * 1000
    case NotFinite => Pow2(attempt) * 1000
  }

  /** How the loop treats one attempt's reply. */
  datatype Step = Succeeded(data: Value) | RateLimited(waitMs: int) | Failed(data: Value) | Throws

  /** The body as `resp.json().catch(() => ({}))` gives it. */
  function DataOf(body: Option<Value>): Value {
    if body.Some? then body.value else EmptyObject
  }

  /** The classification of one reply at attempt `attempt`. */
  function Classify(reply: Reply, attempt: nat): (r: Step)
    ensures reply.Rejected? <==> r.Throws?
    ensures r.RateLimited? ==> reply.status == 429 && r.waitMs == WaitMs(reply.retryAfter, attempt)
    ensures r.Succeeded? ==> OkStatus(reply.status)
    ensures reply.Response? && reply.body.None? && OkStatus(reply.status) ==> r == Succeeded(EmptyObject)
    ensures reply.Response? && !OkStatus(reply.status) && reply.status != 429 ==> r == Failed(DataOf(reply.body))
    ensures reply.Response? && OkStatus(reply.status) && ErrorAbsentOrZero(OptGet(DataOf(reply.body), "error")) ==>
      r == Succeeded(DataOf(reply.body))
    ensures reply.Response? && OkStatus(reply.status) && !ErrorAbsentOrZero(OptGet(DataOf(reply.body), "error")) ==>
      r == Failed(DataOf(reply.body))
    ensures reply.Response? && reply.status == 429 ==> r == RateLimited(WaitMs(reply.retryAfter, attempt))
  {
    match reply
    case Rejected => Throws
    case Response(status, retryAfter, body) =>
      var data := DataOf(body);
      if OkStatus(status) && ErrorAbsentOrZero(OptGet(data, "error")) then Succeeded(data)
      else if status == 429 then RateLimited(WaitMs(retryAfter, attempt))
      else Failed(data)
  }

  /** The outcome, number of `fetch` calls and recorded sleeps of a run. */
  datatype Run = Run(outcome: Outcome, calls: nat, waits: seq<int>)

  /** The attempts of the `link`-th call from attempt `attempt` on. */
  function RunFrom(maxRetries: int, script: (nat, nat) -> Reply, link: nat, attempt: nat): (r: Run)
    ensures attempt < maxRetries ==> 1 <= r.calls <= maxRetries - attempt
    ensures attempt >= maxRetries ==> r.calls == 0
    ensures r.calls - 1 <= |r.waits| <= r.calls
    decreases if attempt < maxRetries then maxRetries - attempt else 0
  {
    if attempt >= maxRetries then Run(Done(false, ExhaustedData), 0, [])
    else match Classify(script(link, attempt), attempt)
      case Succeeded(data) => Run(Done(true, data), 1, [])
      case Failed(data) => Run(Done(false, data), 1, [])
      case Throws => Run(Thrown, 1, [])
      case RateLimited(ms) =>
        var rest := RunFrom(maxRetries, script, link, attempt + 1);
        Run(rest.outcome, rest.calls + 1, [ms] + rest.waits)
  }

  /** What `createShortLink(longUrl, customSlug, domain, maxRetries)` does as the `link`-th
      call against `script`. */
  function ShortLinkRun(maxRetries: int, script: (nat, nat) -> Reply, link: nat): Run {
    RunFrom(maxRetries, script, link, 0)
  }

  /** The outcome a terminal (not rate-limited) step ends the loop with. */
  function Terminal(s: Step): Outcome {
    match s
    case Succeeded(data) => Done(true, data)
    case Failed(data) => Done(false, data)
    case Throws => Thrown
    case RateLimited(_) => Done(false, ExhaustedData)
  }

  /** `createShortLink`: at most `maxRetries` POSTs of one and the same payload; success on
      the first 2xx whose `error` is 0, "0" or absent; a 429 sleeps and retries; anything
      else ends the loop. */
  method CreateShortLink(longUrl: string, customSlug: string, domain: string, maxRetries: int,
                         script: (nat, nat) -> Reply, link: nat)
    returns (outcome: Outcome, sent: seq<Request>, waits: seq<int>)
    ensures Run(outcome, |sent|, waits) == ShortLinkRun(maxRetries, script, link)
    ensures forall i :: 0 <= i < |sent| ==> sent[i] == Request(longUrl, customSlug, domain)
  {
    var payload := Request(longUrl, customSlug, domain);
    sent, waits := [], [];
    var attempt: nat := 0;
    while attempt < maxRetries
      invariant |sent| == attempt
      invariant forall i :: 0 <= i < |sent| ==> sent[i] == payload
      invariant ShortLinkRun(maxRetries, script, link) == Resume(attempt, waits, RunFrom(maxRetries, script, link, attempt))
      decreases maxRetries - attempt
    {
      var resp := script(link, attempt);
      sent := sent + [payload];
      if resp.Rejected? {
        outcome := Thrown;
        return;
      }
      var data := DataOf(resp.body);
      if OkStatus(resp.status) && ErrorAbsentOrZero(OptGet(data, "error")) {
        outcome := Done(true, data);
        return;
      }
      if resp.status == 429 {
        var ms := WaitMs(resp.retryAfter, attempt);
        ResumeStep(maxRetries, script, link, attempt, waits, ms);
        waits := waits + [ms];
        attempt := attempt + 1;
        continue;
      }
      outcome := Done(false, data);
      return;
    }
    outcome := Done(false, ExhaustedData);
  }

  /** A run resumed after `attempt` rate-limited attempts that slept `waits`. */
  function Resume(attempt: nat, waits: seq<int>, rest: Run): Run {
    Run(rest.outcome, attempt + rest.calls, waits + rest.waits)
  }

  lemma ResumeStep(maxRetries: int, script: (nat, nat) -> Reply, link: nat, attempt: nat, waits: seq<int>, ms: int)
    requires attempt < maxRetries
    requires Classify(script(link, attempt), attempt) == RateLimited(ms)
    ensures Resume(attempt, waits, RunFrom(maxRetries, script, link, attempt))
         == Resume(attempt + 1, waits + [ms], RunFrom(maxRetries, script, link, attempt + 1))
  {
    var rest := RunFrom(maxRetries, script, link, attempt + 1);
    assert waits + ([ms] + rest.waits) == (waits + [ms]) + rest.waits;
  }

  /** Every recorded sleep belongs to a rate-limited attempt, in order; a run ends either
      on its last call's terminal reply or, all calls rate limited, with the synthetic
      "retries exhausted" failure after exactly the remaining `maxRetries` attempts. */
  lemma {:induction false} RunShape(maxRetries: int, script: (nat, nat) -> Reply, link: nat, attempt: nat)
    ensures var r := RunFrom(maxRetries, script, link, attempt);
      && (forall k :: 0 <= k < |r.waits| ==>
            Classify(script(link, attempt + k), attempt + k) == RateLimited(r.waits[k]))
      && (|r.waits| < r.calls ==>
            var last := Classify(script(link, attempt + r.calls - 1), attempt + r.calls - 1);
            !last.RateLimited? && r.outcome == Terminal(last))
      && (|r.waits| == r.calls ==>
            r.outcome == Done(false, ExhaustedData) && attempt + r.calls == (if attempt < maxRetries then maxRetries else attempt))
    decreases if attempt < maxRetries then maxRetries - attempt else 0
  {
    if attempt < maxRetries && Classify(script(link, attempt), attempt).RateLimited? {
      RunShape(maxRetries, script, link, attempt + 1);
      var r := RunFrom(maxRetries, script, link, attempt);
      var rest := RunFrom(maxRetries, script, link, attempt + 1);
      forall k | 0 <= k < |r.waits|
        ensures Classify(script(link, attempt + k), attempt + k) == RateLimited(r.waits[k])
      {
        if k > 0 {
          assert r.waits[k] == rest.waits[k - 1];
          assert attempt + 1 + (k - 1) == attempt + k;
        }
      }
    }
  }

  /** After `n` rate-limited attempts, a terminal reply at attempt `n < maxRetries` ends the
      call with exactly `n + 1` POSTs, the `n` recorded sleeps, and that reply's outcome
      (one 429 then a success: success after exactly two attempts). */
  lemma {:induction false} StopsAtFirstTerminal(maxRetries: int, script: (nat, nat) -> Reply, link: nat, n: nat)
    requires n < maxRetries
    requires forall k :: 0 <= k < n ==> Classify(script(link, k), k).RateLimited?
    requires !Classify(script(link, n), n).RateLimited?
    ensures var r := ShortLinkRun(maxRetries, script, link);
      && r.calls == n + 1
      && r.outcome == Terminal(Classify(script(link, n), n))
      && |r.waits| == n
      && forall k :: 0 <= k < n ==> r.waits[k] == Classify(script(link, k), k).waitMs
  {
    StopsFrom(maxRetries, script, link, n, 0);
    var r := RunFrom(maxRetries, script, link, 0);
    forall k | 0 <= k < n ensures r.waits[k] == Classify(script(link, k), k).waitMs {
      assert r.waits[k - 0] == Classify(script(link, k), k).waitMs;
    }
  }

  lemma {:induction false} StopsFrom(maxRetries: int, script: (nat, nat) -> Reply, link: nat, n: nat, a: nat)
    requires a <= n < maxRetries
    requires forall k :: a <= k < n ==> Classify(script(link, k), k).RateLimited?
    requires !Classify(script(link, n), n).RateLimited?
    ensures var r := RunFrom(maxRetries, script, link, a);
      && r.calls == n + 1 - a
      && r.outcome == Terminal(Classify(script(link, n), n))
      && |r.waits| == n - a
      && forall k :: a <= k < n ==> r.waits[k - a] == Classify(script(link, k), k).waitMs
    decreases n - a
  {
    if a < n {
      StopsFrom(maxRetries, script, link, n, a + 1);
      var r := RunFrom(maxRetries, script, link, a);
      var rest := RunFrom(maxRetries, script, link, a + 1);
      assert r.waits == [Classify(script(link, a), a).waitMs] + rest.waits;
      forall k | a < k < n ensures r.waits[k - a] == Classify(script(link, k), k).waitMs {
        assert r.waits[k - a] == rest.waits[k - (a + 1)];
      }
    }
  }

  /** Every attempt rate limited: `maxRetries` POSTs, one sleep per attempt, then the
      synthetic "retries exhausted" failure. With `maxRetries <= 0` nothing is sent. */
  lemma {:induction false} AllRateLimitedExhausts(maxRetries: int, script: (nat, nat) -> Reply, link: nat)
    requires forall k :: 0 <= k < maxRetries ==> Classify(script(link, k), k).RateLimited?
    ensures var r := ShortLinkRun(maxRetries, script, link);
      && r.outcome == Done(false, ExhaustedData)
      && r.calls == (if maxRetries > 0 then maxRetries else 0)
      && |r.waits| == r.calls
      && forall k :: 0 <= k < |r.waits| ==> r.waits[k] == Classify(script(link, k), k).waitMs
  {
    RunShape(maxRetries, script, link, 0);
    var r := ShortLinkRun(maxRetries, script, link);
    forall k | 0 <= k < |r.waits| ensures r.waits[k] == Classify(script(link, k), k).waitMs {
      assert Classify(script(link, 0 + k), 0 + k) == RateLimited(r.waits[k]);
    }
  }

  // ---------------------------------------------------------------------------
  // fetchBrandedDomains

  /** What the domains endpoint yields: a response whose body is JSON or not, or a
      rejected `fetch`. */
  datatype DomainsReply = DomainsResponse(status: int, body: Option<Value>) | DomainsRejected

  datatype DomainList = DomainList(ok: bool, domains: seq<Value>)

  /** `item.domain || item.name || item`; `None` when reading `item.domain` throws. */
  function PickDomain(item: Value): Option<Value> {
    match Get(item, "domain")
    case None => None
    case Some(d) => Some(Or(d, Or(OptGet(item, "name"), item)))
  }

  /** `items.map(pick).filter(Boolean)`; `None` when some item is `null`/`undefined`. */
  function PickDomains(items: seq<Value>): (r: Option<seq<Value>>)
    ensures r.None? <==> exists i :: 0 <= i < |items| && (items[i] == Null || items[i] == Undefined)
    ensures r.Some? ==> |r.value| <= |items| && forall i :: 0 <= i < |r.value| ==> Truthy(r.value[i])
  {
    if items == [] then Some([])
    else match (PickDomain(items[0]), PickDomains(items[1..]))
      case (None, _) => None
      case (_, None) => None
      case (Some(d), Some(rest)) => Some(if Truthy(d) then [d] + rest else rest)
  }

  /** Records `{ domain: "x", ... }` with a non-empty string domain each yield that string,
      in order, none dropped. */
  lemma {:induction false} PickDomainsOfRecords(items: seq<Value>)
    requires forall i :: 0 <= i < |items| ==>
      items[i].Obj? && "domain" in items[i].fields && items[i].fields["domain"].Str? && items[i].fields["domain"].s != []
    ensures var r := PickDomains(items);
      r.Some? && |r.value| == |items| && forall i :: 0 <= i < |items| ==> r.value[i] == items[i].fields["domain"]
  {
    if items != [] {
      PickDomainsOfRecords(items[1..]);
    }
  }

  /** `fetchBrandedDomains()`: not ok, unparseable or throwing gives `{ok:false, domains:[]}`;
      an array under `data` gives its picked domains; anything else gives `{ok:true, domains:[]}`. */
  function FetchBrandedDomains(reply: DomainsReply): (r: DomainList)
    ensures !r.ok ==> r.domains == []
    ensures reply.DomainsRejected? ==> r == DomainList(false, [])
    ensures reply.DomainsResponse? && !OkStatus(reply.status) ==> r == DomainList(false, [])
    ensures (reply.DomainsResponse? && OkStatus(reply.status)
             && (reply.body.None? || reply.body.value == Null || reply.body.value == Undefined)) ==> r == DomainList(false, [])
    ensures (reply.DomainsResponse? && OkStatus(reply.status) && reply.body.Some?
             && reply.body.value != Null && reply.body.value != Undefined
             && !OptGet(reply.body.value, "data").Arr?) ==> r == DomainList(true, [])
    ensures reply.DomainsResponse? && OkStatus(reply.status) && reply.body.Some? && OptGet(reply.body.value, "data").Arr? ==>
      var picked := PickDomains(OptGet(reply.body.value, "data").items);
      && (picked.Some? ==> r == DomainList(true, picked.value))
      && (picked.None? ==> r == DomainList(false, []))
    ensures forall i :: 0 <= i < |r.domains| ==> Truthy(r.domains[i])
  {
    match reply
    case DomainsRejected => DomainList(false, [])
    case DomainsResponse(status, body) =>
      if !OkStatus(status) then DomainList(false, [])
      else if body.None? then DomainList(false, [])
      else match Get(body.value, "data")
        case None => DomainList(false, [])
        case Some(list) =>
          if !list.Arr? then DomainList(true, [])
          else match PickDomains(list.items)
            case None => DomainList(false, [])
            case Some(ds) => DomainList(true, ds)
  }
}
