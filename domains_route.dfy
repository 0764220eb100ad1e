/** `GET /api/domains` (app/api/domains/route.ts): the branded domains from the link
    service with the default domain guaranteed to be offered, or the default domain alone
    when the service fails or has none. */
module DomainsRoute {
  import opened Js
  import LinkApi

  datatype DomainsBody = DomainsBody(ok: bool, domains: seq<Value>, defaultDomain: string, error: Option<string>)

  /** The response for the list `fetchBrandedDomains` produced, with `DEFAULT_DOMAIN`
      being `dflt`. */
  function Compose(result: LinkApi.DomainList, dflt: string): (r: DomainsBody)
    ensures Str(dflt) in r.domains
    ensures r.defaultDomain == dflt
    ensures r.ok <==> result.ok && result.domains != []
  {
    if result.ok && |result.domains| > 0 then
      var domains := if Str(dflt) in result.domains then result.domains else [Str(dflt)] + result.domains;
      DomainsBody(true, domains, dflt, None)
    else
      DomainsBody(false, [Str(dflt)], dflt, Some("Failed to fetch branded domains"))
  }

  /** The handler: `fetchBrandedDomains()` on the service's reply, then `Compose`. */
  function Get(reply: LinkApi.DomainsReply, env: Option<string>): (r: DomainsBody)
    ensures Str(LinkApi.DefaultDomain(env)) in r.domains && r.defaultDomain == LinkApi.DefaultDomain(env)
  {
    Compose(LinkApi.FetchBrandedDomains(reply), LinkApi.DefaultDomain(env))
  }

  /** A usable list is kept as it is when it already offers the default, and otherwise
      gets the default in front with the others after it in their order; a failed or
      empty list becomes the default alone. In every case the default appears exactly as
      often as before, or once when it was missing: nothing is duplicated. */
  lemma ComposeShape(result: LinkApi.DomainList, dflt: string)
    ensures var r := Compose(result, dflt);
      && (result.ok && result.domains != [] && Str(dflt) in result.domains ==> r.domains == result.domains)
      && (result.ok && result.domains != [] && Str(dflt) !in result.domains ==>
            r.domains[0] == Str(dflt) && r.domains[1..] == result.domains)
      && (!(result.ok && result.domains != []) ==> r.domains == [Str(dflt)])
      && (r.ok ==> multiset(r.domains)[Str(dflt)] == Max1(multiset(result.domains)[Str(dflt)]))
      && (r.ok ==> multiset(r.domains) - multiset{Str(dflt)} <= multiset(result.domains))
  {
    var r := Compose(result, dflt);
    if r.ok && Str(dflt) !in result.domains {
      assert r.domains == [Str(dflt)] + result.domains;
      assert multiset(r.domains) == multiset{Str(dflt)} + multiset(result.domains);
    }
  }

  function Max1(n: nat): nat { if n == 0 then 1 else n }
}
