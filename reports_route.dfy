/** `GET /api/reports` (app/api/reports/route.ts): map campaign ids to names, fetch every
    page of links, enrich each link with its campaign name and unique clicks, filter,
    summarise, and return one page of the result. Each upstream `fetch` is a reply
    given as a parameter. */
module ReportsRoute {
  import opened Js
  import opened Text
  import opened Numbers
  import opened Reporting
  import opened Paging

  // ---------------------------------------------------------------------------
  // Campaign names

  datatype CampaignRecord = CampaignRecord(id: int, name: string)

  /** The reply to `GET /campaigns`; `campaigns` is `data?.campaigns || []`.
      `CampaignsThrew` is a rejected `fetch`, and also an ok reply whose body is not JSON
      or is `null`, since reading its `error` throws. */
  datatype CampaignsReply =
    | CampaignsAnswer(status: int, error: Value, campaigns: seq<CampaignRecord>)
    | CampaignsThrew

  /** `campaigns.reduce((acc, c) => { acc[c.id] = c.name; return acc; }, {})`. */
  function NameFold(cs: seq<CampaignRecord>): map<int, string> {
    if cs == [] then map[]
    else NameFold(cs[..|cs| - 1])[cs[|cs| - 1].id := cs[|cs| - 1].name]
  }

  /** `cs[i]` is the last record with id `id`. */
  predicate LastRecord(cs: seq<CampaignRecord>, id: int, i: int) {
    0 <= i < |cs| && cs[i].id == id && forall j :: i < j < |cs| ==> cs[j].id != id
  }

  /** The map has one entry per id; each entry is the name of the last record with it. */
  lemma NameFoldLastWins(cs: seq<CampaignRecord>)
    ensures NameFold(cs).Keys == set c | c in cs :: c.id
    ensures forall id :: id in NameFold(cs) ==> exists i :: LastRecord(cs, id, i) && NameFold(cs)[id] == cs[i].name
  {
    NameFoldKeys(cs);
    NameFoldLast(cs);
  }

  lemma {:induction false} NameFoldKeys(cs: seq<CampaignRecord>)
    ensures NameFold(cs).Keys == set c | c in cs :: c.id
  {
    if cs != [] {
      var init, last := cs[..|cs| - 1], cs[|cs| - 1];
      NameFoldKeys(init);
      assert cs == init + [last];
      assert (set c | c in cs :: c.id) == (set c | c in init :: c.id) + {last.id};
    }
  }

  lemma {:induction false} NameFoldLast(cs: seq<CampaignRecord>)
    ensures forall id :: id in NameFold(cs) ==> exists i :: LastRecord(cs, id, i) && NameFold(cs)[id] == cs[i].name
  {
    if cs != [] {
      var init, last := cs[..|cs| - 1], cs[|cs| - 1];
      NameFoldLast(init);
      var m := NameFold(cs);
      forall id | id in m ensures exists i :: LastRecord(cs, id, i) && m[id] == cs[i].name {
        if id == last.id {
          assert LastRecord(cs, id, |cs| - 1);
        } else {
          assert id in NameFold(init) && m[id] == NameFold(init)[id];
          var i :| LastRecord(init, id, i) && NameFold(init)[id] == init[i].name;
          assert LastRecord(cs, id, i);
        }
      }
    }
  }

  /** `campaignsMap`: filled only from a successful reply whose `error` is 0 or "0". */
  function CampaignsMap(reply: CampaignsReply): (m: map<int, string>)
    ensures reply.CampaignsAnswer? && OkStatus(reply.status) && ErrorIsZero(reply.error) ==>
      m.Keys == (set c | c in reply.campaigns :: c.id)
      && forall id :: id in m ==> exists i :: LastRecord(reply.campaigns, id, i) && m[id] == reply.campaigns[i].name
    ensures !(reply.CampaignsAnswer? && OkStatus(reply.status) && ErrorIsZero(reply.error)) ==> m == map[]
  {
    if reply.CampaignsAnswer? && OkStatus(reply.status) && ErrorIsZero(reply.error) then
      NameFoldLastWins(reply.campaigns);
      NameFold(reply.campaigns)
    else map[]
  }

  // ---------------------------------------------------------------------------
  // Fetching every page of links

  /** A link as `GET /urls` lists it. `campaign` is a number, a string or absent. */
  datatype RawLink = RawLink(
    id: int, shorturl: string, longurl: string, title: string, description: string,
    clicks: int, date: int, campaign: Value)

  /** The reply to `GET /urls?limit=100&page=n`. `currentpage` and `maxpage` are 0 when
      the field is absent or falsy, which `|| 1` turns into 1. `PageThrew` is a rejected
      `fetch`, and also an ok reply whose body is not JSON or is `null`, since reading its
      `error` throws. */
  datatype PageReply =
    | PageAnswer(status: int, error: Value, urls: seq<RawLink>, currentpage: int, maxpage: int)
    | PageThrew

  /** How the page loop ends. `Unfinished` is for a script of replies that ran out while
      the loop still wanted more pages. */
  datatype LoadOutcome = Loaded(links: seq<RawLink>) | LoadFailed(status: int) | LoadThrew | Unfinished

  function OneIfZero(n: int): int { if n == 0 then 1 else n }

  /** The reply lets the loop go on to the next page. */
  predicate Continues(r: PageReply) {
    && r.PageAnswer? && OkStatus(r.status) && ErrorIsZero(r.error)
    && OneIfZero(r.currentpage) < OneIfZero(r.maxpage)
  }

  /** Where the loop stands after the pages it has read: `acc` so far, reading reply `k`
      next. */
  function Accumulate(pages: seq<PageReply>, k: nat, acc: seq<RawLink>): LoadOutcome
    decreases |pages| - k
  {
    if k >= |pages| then Unfinished
    else match pages[k]
      case PageThrew => LoadThrew
      case PageAnswer(status, error, urls, cur, max) =>
        if !OkStatus(status) then LoadFailed(status)
        else if !ErrorIsZero(error) then Loaded(acc)
        else if OneIfZero(cur) < OneIfZero(max) then Accumulate(pages, k + 1, acc + urls)
        else Loaded(acc + urls)
  }

  /** The links of the replies, in page order. */
  function UrlsOf(pages: seq<PageReply>): seq<RawLink> {
    if pages == [] then []
    else UrlsOf(pages[..|pages| - 1]) + (if pages[|pages| - 1].PageAnswer? then pages[|pages| - 1].urls else [])
  }

  /** How the loop ends when reply `n` is the first that does not continue. */
  function StopAt(r: PageReply, acc: seq<RawLink>): LoadOutcome {
    match r
    case PageThrew => LoadThrew
    case PageAnswer(status, error, urls, _, _) =>
      if !OkStatus(status) then LoadFailed(status)
      else if !ErrorIsZero(error) then Loaded(acc)
      else Loaded(acc + urls)
  }

  /** Reading from reply `k` with `acc` so far, when replies `k` to `n - 1` continue and
      reply `n` does not, ends as reply `n` decides, with the links of replies `k..n`. */
  lemma {:induction false} AccumulateFrom(pages: seq<PageReply>, k: nat, acc: seq<RawLink>, n: nat)
    requires k <= n < |pages|
    requires forall i :: k <= i < n ==> Continues(pages[i])
    requires !Continues(pages[n])
    ensures Accumulate(pages, k, acc) == StopAt(pages[n], acc + UrlsOf(pages[k..n]))
    decreases n - k
  {
    if k == n {
      assert pages[k..n] == [];
    } else {
      var urls, rest := pages[k].urls, UrlsOf(pages[k + 1..n]);
      assert pages[k..n][1..] == pages[k + 1..n];
      calc {
        Accumulate(pages, k, acc);
        { assert Continues(pages[k]); }
        Accumulate(pages, k + 1, acc + urls);
        { AccumulateFrom(pages, k + 1, acc + urls, n); }
        StopAt(pages[n], (acc + urls) + rest);
        { assert (acc + urls) + rest == acc + (urls + rest); }
        StopAt(pages[n], acc + (urls + rest));
        { UrlsOfCons(pages[k..n]); }
        StopAt(pages[n], acc + UrlsOf(pages[k..n]));
      }
    }
  }

  lemma {:induction false} UrlsOfCons(pages: seq<PageReply>)
    requires pages != [] && pages[0].PageAnswer?
    ensures UrlsOf(pages) == pages[0].urls + UrlsOf(pages[1..])
    decreases |pages|
  {
    if |pages| > 1 {
      var init := pages[..|pages| - 1];
      UrlsOfCons(init);
      assert init[1..] == pages[1..][..|pages[1..]| - 1];
    } else {
      assert pages[..0] == [];
    }
  }

  /** The loop reads pages until the first reply that does not continue: a failed status
      is returned as is, a thrown fetch becomes a 500, and otherwise the links are every
      page's links in order, the stopping page's own only when its `error` is 0. */
  lemma FirstStopDecides(pages: seq<PageReply>, n: nat)
    requires n < |pages|
    requires forall i :: 0 <= i < n ==> Continues(pages[i])
    requires !Continues(pages[n])
    ensures Accumulate(pages, 0, []) == StopAt(pages[n], UrlsOf(pages[..n]))
  {
    AccumulateFrom(pages, 0, [], n);
    assert [] + UrlsOf(pages[0..n]) == UrlsOf(pages[..n]);
  }

  /** A script in which every reply asks for another page never finishes. */
  lemma {:induction false} EndlessScript(pages: seq<PageReply>, k: nat, acc: seq<RawLink>)
    requires forall i :: k <= i < |pages| ==> Continues(pages[i])
    ensures Accumulate(pages, k, acc) == Unfinished
    decreases |pages| - k
  {
    if k < |pages| {
      EndlessScript(pages, k + 1, acc + pages[k].urls);
    }
  }

  /** The `while (hasMorePages)` loop: requests pages 1, 2, ... in turn. */
  method FetchAllLinks(pages: seq<PageReply>) returns (outcome: LoadOutcome, requested: seq<int>)
    ensures outcome == Accumulate(pages, 0, [])
    ensures requested == seq(|requested|, i => i + 1)
    ensures |requested| <= |pages|
  {
    var allLinks: seq<RawLink> := [];
    var currentPage := 1;
    var hasMorePages := true;
    requested := [];
    while hasMorePages
      invariant 1 <= currentPage <= |pages| + 1
      invariant requested == seq(|requested|, i => i + 1)
      invariant |requested| <= |pages|
      invariant hasMorePages ==> |requested| == currentPage - 1
      invariant hasMorePages ==> Accumulate(pages, 0, []) == Accumulate(pages, currentPage - 1, allLinks)
      invariant !hasMorePages ==> Accumulate(pages, 0, []) == Loaded(allLinks)
      decreases |pages| + 1 - currentPage, hasMorePages
    {
      if currentPage > |pages| {
        return Unfinished, requested;
      }
      assert requested + [currentPage] == seq(currentPage, i => i + 1);
      requested := requested + [currentPage];
      var response := pages[currentPage - 1];
      if response.PageThrew? {
        return LoadThrew, requested;
      }
      if !OkStatus(response.status) {
        return LoadFailed(response.status), requested;
      }
      if ErrorIsZero(response.error) {
        allLinks := allLinks + response.urls;
        hasMorePages := OneIfZero(response.currentpage) < OneIfZero(response.maxpage);
        currentPage := currentPage + 1;
      } else {
        hasMorePages := false;
      }
    }
    outcome := Loaded(allLinks);
  }

  // ---------------------------------------------------------------------------
  // Enrichment

  /** The reply to `GET /url/{id}`; `uniqueClicks` is 0 when the field is absent.
      `DetailThrew` stands for every way the per-link `try` block throws: a rejected
      fetch, and an ok reply whose body is not JSON or is `null`. */
  datatype DetailReply = DetailAnswer(status: int, error: Value, uniqueClicks: int) | DetailThrew

  const NoCampaign := "No Campaign"

  /** `(link.campaign && campaignsMap[Number(link.campaign)]) || 'No Campaign'`. */
  function CampaignName(campaign: Value, m: map<int, string>): (r: string)
    ensures r == NoCampaign || r in m.Values
    ensures (Truthy(campaign) && CampaignNumber(campaign).Some? && CampaignNumber(campaign).value in m
             && m[CampaignNumber(campaign).value] != []) ==> r == m[CampaignNumber(campaign).value]
    ensures !Truthy(campaign) || CampaignNumber(campaign).None? ==> r == NoCampaign
    ensures (CampaignNumber(campaign).Some? && CampaignNumber(campaign).value in m
             && m[CampaignNumber(campaign).value] == []) ==> r == NoCampaign
    ensures CampaignNumber(campaign).Some? && CampaignNumber(campaign).value !in m ==> r == NoCampaign
  {
    if !Truthy(campaign) then NoCampaign
    else
      var n := CampaignNumber(campaign);
      if n.Some? && n.value in m && m[n.value] != [] then m[n.value] else NoCampaign
  }

  /** `Number(v)` for the values a campaign field holds. */
  function CampaignNumber(v: Value): Option<int> {
    match v
    case Num(n) => Some(n)
    case Str(s) => NumberOf(s)
    case Bool(b) => Some(if b then 1 else 0)
    case _ => None
  }

  /** A link whose campaign converts to the id of a listed campaign is shown under the name
      of the last campaign record with that id, when that name is not empty. */
  lemma CampaignNameFromRecords(reply: CampaignsReply, campaign: Value, i: int)
    requires reply.CampaignsAnswer? && OkStatus(reply.status) && ErrorIsZero(reply.error)
    requires Truthy(campaign) && CampaignNumber(campaign).Some?
    requires LastRecord(reply.campaigns, CampaignNumber(campaign).value, i)
    requires reply.campaigns[i].name != []
    ensures CampaignName(campaign, CampaignsMap(reply)) == reply.campaigns[i].name
  {
    var cs, id, m := reply.campaigns, CampaignNumber(campaign).value, CampaignsMap(reply);
    assert cs[i] in cs;
    assert id in m;
    var j :| LastRecord(cs, id, j) && m[id] == cs[j].name;
    LastRecordUnique(cs, id, i, j);
  }

  /** At most one record is the last with a given id. */
  lemma LastRecordUnique(cs: seq<CampaignRecord>, id: int, i: int, j: int)
    requires LastRecord(cs, id, i) && LastRecord(cs, id, j)
    ensures i == j
  {
  }

  /** The enhanced link. The detail's unique clicks count only when the reply is OK and its
      `error` is exactly the number 0; a thrown fetch gives no campaign and no unique clicks. */
  function Enhance(link: RawLink, m: map<int, string>, detail: DetailReply): (r: Link)
    ensures r.id == link.id && r.shorturl == link.shorturl && r.longurl == link.longurl
    ensures r.title == link.title && r.description == link.description
    ensures r.clicks == link.clicks && r.createdAt == link.date
    ensures detail.DetailThrew? ==> r.campaign == NoCampaign && r.uniqueClicks == 0
    ensures detail.DetailAnswer? ==> r.campaign == CampaignName(link.campaign, m)
    ensures detail.DetailAnswer? && OkStatus(detail.status) && detail.error == Num(0) ==>
      r.uniqueClicks == detail.uniqueClicks
    ensures !(detail.DetailAnswer? && OkStatus(detail.status) && detail.error == Num(0)) ==> r.uniqueClicks == 0
  {
    match detail
    case DetailThrew =>
      Link(link.id, link.shorturl, link.longurl, link.title, link.description, link.clicks, 0, NoCampaign, link.date)
    case DetailAnswer(status, error, unique) =>
      var stats := if OkStatus(status) && error == Num(0) then unique else 0;
      Link(link.id, link.shorturl, link.longurl, link.title, link.description, link.clicks, stats,
        CampaignName(link.campaign, m), link.date)
  }

  /** `Promise.all(allLinks.map(...))`: one enhanced link per link, in the same order.
      `details(i)` is the reply to the detail fetch made for the `i`-th link. */
  function EnhanceAll(links: seq<RawLink>, m: map<int, string>, details: nat -> DetailReply): (r: seq<Link>)
    ensures |r| == |links|
    ensures forall i :: 0 <= i < |links| ==> r[i] == Enhance(links[i], m, details(i))
  {
    seq(|links|, i requires 0 <= i < |links| => Enhance(links[i], m, details(i)))
  }

  // ---------------------------------------------------------------------------
  // The response

  /** The query string: each parameter as `searchParams.get` returns it. */
  datatype Query = Query(campaign: Option<string>, search: Option<string>, page: Option<string>, limit: Option<string>)

  /** `searchParams.get(name) || dflt`. */
  function ParamOr(p: Option<string>, dflt: string): string {
    if p.Some? && p.value != [] then p.value else dflt
  }

  /** Both filters: the campaign filter when given and not "all", the search when given. */
  predicate PassesFilters(link: Link, q: Query) {
    && (q.campaign.None? || q.campaign.value == [] || q.campaign.value == "all" || CampaignMatches(link, q.campaign.value))
    && (q.search.None? || q.search.value == [] || SearchMatches(link, q.search.value))
  }

  /** The links that pass both filters, in their order. */
  function Filtered(links: seq<Link>, q: Query): seq<Link> {
    Filter(links, l => PassesFilters(l, q))
  }

  /** `Filtered` keeps each passing link as often as it occurs and drops the rest. */
  lemma FilteredCounts(links: seq<Link>, q: Query)
    ensures forall l :: multiset(Filtered(links, q))[l] == if PassesFilters(l, q) then multiset(links)[l] else 0
  {
    FilterCounts(links, l => PassesFilters(l, q));
  }

  /** The pagination block. `None` is a NaN or infinite number, which JSON writes as null. */
  datatype Pagination = Pagination(page: Option<int>, limit: Option<int>, totalPages: Option<int>, hasNextPage: bool, hasPrevPage: bool)

  datatype ReportsResponse =
    | Report(links: seq<Link>, summary: Summary, pagination: Pagination, campaigns: seq<CampaignRecord>)
    | LinksFailed(status: int)
    | InternalError
    | NoReply

  /** `Math.ceil(total / limit)`. */
  function TotalPagesOf(total: nat, limit: Option<int>): (r: Option<int>)
    ensures limit.Some? && limit.value >= 1 ==> r == Some(CeilDiv(total, limit.value))
    ensures r.None? <==> limit.None? || limit.value == 0
  {
    match limit
    case None => None
    case Some(l) =>
      if l >= 1 then Some(CeilDiv(total, l))
      else if l == 0 then None
      else Some(-(total / -l))
  }

  /** `filteredLinks.slice(startIndex, endIndex)`; a NaN index reads as 0. */
  function PageSlice(links: seq<Link>, page: Option<int>, limit: Option<int>): seq<Link> {
    if page.None? || limit.None? then []
    else JsSlice(links, (page.value - 1) * limit.value, (page.value - 1) * limit.value + limit.value)
  }

  /** The body of a successful response, from the loaded links. */
  function Respond(q: Query, reply: CampaignsReply, raw: seq<RawLink>, details: nat -> DetailReply): ReportsResponse {
    ReportOf(q, reply, Filtered(EnhanceAll(raw, CampaignsMap(reply), details), q))
  }

  /** The response built from the filtered links. */
  function ReportOf(q: Query, reply: CampaignsReply, filtered: seq<Link>): ReportsResponse {
    var page := ParseInt(ParamOr(q.page, "1"));
    var limit := ParseInt(ParamOr(q.limit, "1000"));
    var hasNext := page.Some? && limit.Some? && (page.value - 1) * limit.value + limit.value < |filtered|;
    var hasPrev := page.Some? && page.value > 1;
    Report(
      PageSlice(filtered, page, limit),
      Summarize(filtered),
      Pagination(page, limit, TotalPagesOf(|filtered|, limit), hasNext, hasPrev),
      CampaignList(reply))
  }

  /** The route: the campaigns first, then every page of links, then the response. */
  method Get(q: Query, campaignsReply: CampaignsReply, pages: seq<PageReply>, details: nat -> DetailReply)
    returns (resp: ReportsResponse)
    ensures campaignsReply.CampaignsThrew? ==> resp == InternalError
    ensures !campaignsReply.CampaignsThrew? ==>
      match Accumulate(pages, 0, [])
      case Loaded(raw) => resp == Respond(q, campaignsReply, raw, details)
      case LoadFailed(status) => resp == LinksFailed(status)
      case LoadThrew => resp == InternalError
      case Unfinished => resp == NoReply
  {
    if campaignsReply.CampaignsThrew? {
      return InternalError;
    }
    var outcome, _ := FetchAllLinks(pages);
    match outcome
    case Loaded(raw) => resp := Respond(q, campaignsReply, raw, details);
    case LoadFailed(status) => resp := LinksFailed(status);
    case LoadThrew => resp := InternalError;
    case Unfinished => resp := NoReply;
  }

  /** The returned links are a run of the filtered links. */
  lemma PageSliceWithin(links: seq<Link>, page: Option<int>, limit: Option<int>)
    ensures forall l :: l in PageSlice(links, page, limit) ==> l in links
  {
    if page.Some? && limit.Some? {
      var r := PageSlice(links, page, limit);
      var a, b := SliceIndex((page.value - 1) * limit.value, |links|), SliceIndex((page.value - 1) * limit.value + limit.value, |links|);
      forall l | l in r ensures l in links {
        var k :| 0 <= k < |r| && r[k] == l;
        assert links[a..b][k] == l;
      }
    }
  }

  /** The summary covers every link that passes the filters, not only the returned page;
      the returned links are such links; and the campaigns list is the map. */
  lemma ReportCoversFiltered(q: Query, reply: CampaignsReply, raw: seq<RawLink>, details: nat -> DetailReply)
    ensures var m := CampaignsMap(reply);
      var r := Respond(q, reply, raw, details);
      var all := EnhanceAll(raw, m, details);
      var filtered := Filtered(all, q);
      && r.summary == Summarize(filtered)
      && (forall l :: l in filtered <==> l in all && PassesFilters(l, q))
      && (forall l :: l in r.links ==> l in all && PassesFilters(l, q))
      && (forall c :: c in r.campaigns <==> c.id in m && c.name == m[c.id])
  {
    var m := CampaignsMap(reply);
    var all := EnhanceAll(raw, m, details);
    var filtered := Filtered(all, q);
    FilteredCounts(all, q);
    forall l ensures l in filtered <==> l in all && PassesFilters(l, q) {
      assert l in filtered <==> multiset(filtered)[l] > 0;
      assert l in all <==> multiset(all)[l] > 0;
    }
    PageSliceWithin(filtered, ParseInt(ParamOr(q.page, "1")), ParseInt(ParamOr(q.limit, "1000")));
    CampaignListSpec(reply);
  }

  /** The pagination block agrees with the links: with a page and a limit of at least 1
      the links are that page, the page count covers every link, and there is a next page
      exactly when later links exist; a page or limit that is not a number yields no links
      and no next page. */
  lemma PaginationOf(links: seq<Link>, page: Option<int>, limit: Option<int>)
    ensures var hasNext := page.Some? && limit.Some? && (page.value - 1) * limit.value + limit.value < |links|;
      && (page.Some? && page.value >= 1 && limit.Some? && limit.value >= 1 ==>
            && PageSlice(links, page, limit) == Page(links, page.value, limit.value)
            && TotalPagesOf(|links|, limit) == Some(CeilDiv(|links|, limit.value))
            && (hasNext <==> page.value * limit.value < |links|)
            && (hasNext ==> page.value < CeilDiv(|links|, limit.value)))
      && (page.None? || limit.None? ==> PageSlice(links, page, limit) == [] && !hasNext)
  {
    if page.Some? && page.value >= 1 && limit.Some? && limit.value >= 1 {
      var p, l := page.value, limit.value;
      assert (p - 1) * l + l == p * l;
      if p * l < |links| {
        var c := CeilDiv(|links|, l);
        if p >= c {
          MulMono(c, p, l);
        }
      }
    }
  }

  /** The response's pagination block describes its links (`Respond` passes the
      filtered links to `ReportOf`). */
  lemma PaginationAgrees(q: Query, reply: CampaignsReply, filtered: seq<Link>)
    ensures var r := ReportOf(q, reply, filtered);
      var p, l := r.pagination.page, r.pagination.limit;
      && p == ParseInt(ParamOr(q.page, "1")) && l == ParseInt(ParamOr(q.limit, "1000"))
      && (p.Some? && p.value >= 1 && l.Some? && l.value >= 1 ==>
            && r.links == Page(filtered, p.value, l.value)
            && r.pagination.totalPages == Some(CeilDiv(|filtered|, l.value))
            && (r.pagination.hasNextPage <==> p.value * l.value < |filtered|)
            && (r.pagination.hasNextPage ==> p.value < CeilDiv(|filtered|, l.value)))
      && (p.None? || l.None? ==> r.links == [] && !r.pagination.hasNextPage)
      && (r.pagination.hasPrevPage <==> p.Some? && p.value > 1)
  {
    PaginationOf(filtered, ParseInt(ParamOr(q.page, "1")), ParseInt(ParamOr(q.limit, "1000")));
  }

  lemma MulMono(a: int, b: int, k: int)
    requires a <= b && k >= 1
    ensures a * k <= b * k
  {
  }

  // ---------------------------------------------------------------------------
  // The campaigns list

  /** Strictly ascending. */
  predicate Ascending(r: seq<int>) {
    forall i, j :: 0 <= i < j < |r| ==> r[i] < r[j]
  }

  /** `x` put into an ascending list that does not have it yet. */
  function InsertId(x: int, s: seq<int>): (r: seq<int>)
    requires Ascending(s)
    ensures Ascending(r)
    ensures forall y :: y in r <==> y == x || y in s
  {
    if s == [] || x < s[0] then [x] + s
    else if x == s[0] then s
    else
      var t := InsertId(x, s[1..]);
      assert forall y :: y in s <==> y == s[0] || y in s[1..];
      AscendingHead(s);
      AscendingCons(s[0], t);
      [s[0]] + t
  }

  /** Everything after the head of an ascending list is larger than the head. */
  lemma AscendingHead(s: seq<int>)
    requires Ascending(s) && s != []
    ensures forall y :: y in s[1..] ==> s[0] < y
  {
    forall y | y in s[1..] ensures s[0] < y {
      var k :| 0 <= k < |s[1..]| && s[1..][k] == y;
      assert s[k + 1] == y;
    }
  }

  /** An ascending list stays ascending under a smaller head. */
  lemma AscendingCons(h: int, t: seq<int>)
    requires Ascending(t)
    requires forall y :: y in t ==> h < y
    ensures Ascending([h] + t)
  {
    var r := [h] + t;
    forall i, j | 0 <= i < j < |r| ensures r[i] < r[j] {
      assert r[j] == t[j - 1] && r[j] in t;
      if i > 0 {
        assert r[i] == t[i - 1];
      }
    }
  }

  /** The distinct ids in ascending order, which is the order `Object.keys` lists integer
      keys in. */
  function SortedIds(ids: seq<int>): (r: seq<int>)
    ensures Ascending(r)
    ensures forall y :: y in r <==> y in ids
  {
    if ids == [] then []
    else
      assert forall y :: y in ids <==> y == ids[0] || y in ids[1..];
      InsertId(ids[0], SortedIds(ids[1..]))
  }

  /** The ids of the records that filled `campaignsMap`. */
  function CampaignIds(reply: CampaignsReply): seq<int> {
    if reply.CampaignsAnswer? && OkStatus(reply.status) && ErrorIsZero(reply.error) then
      seq(|reply.campaigns|, i requires 0 <= i < |reply.campaigns| => reply.campaigns[i].id)
    else []
  }

  lemma CampaignIdsAreKeys(reply: CampaignsReply)
    ensures forall id :: id in CampaignIds(reply) <==> id in CampaignsMap(reply)
  {
    if reply.CampaignsAnswer? && OkStatus(reply.status) && ErrorIsZero(reply.error) {
      NameFoldLastWins(reply.campaigns);
      var ids := CampaignIds(reply);
      forall id | id in CampaignsMap(reply) ensures id in ids {
        var c :| c in reply.campaigns && c.id == id;
        var i :| 0 <= i < |reply.campaigns| && reply.campaigns[i] == c;
        assert ids[i] == id;
      }
    }
  }

  /** `Object.keys(campaignsMap).map(id => ({ id, name: campaignsMap[id] }))`. */
  function CampaignList(reply: CampaignsReply): seq<CampaignRecord> {
    var m := CampaignsMap(reply);
    var keys := SortedIds(CampaignIds(reply));
    CampaignIdsAreKeys(reply);
    forall i | 0 <= i < |keys| ensures keys[i] in m {
      assert keys[i] in keys;
      assert keys[i] in CampaignIds(reply);
    }
    seq(|keys|, i requires 0 <= i < |keys| => CampaignRecord(keys[i], m[keys[i]]))
  }

  /** The list has one entry per campaign in the map, with its name, by ascending id. */
  lemma CampaignListSpec(reply: CampaignsReply)
    ensures var r := CampaignList(reply);
      var m := CampaignsMap(reply);
      && (forall c :: c in r <==> c.id in m && c.name == m[c.id])
      && (forall i, j :: 0 <= i < j < |r| ==> r[i].id < r[j].id)
  {
    var m := CampaignsMap(reply);
    var keys := SortedIds(CampaignIds(reply));
    var r := CampaignList(reply);
    CampaignIdsAreKeys(reply);
    forall c: CampaignRecord | c.id in m && c.name == m[c.id] ensures c in r {
      var i :| 0 <= i < |keys| && keys[i] == c.id;
      assert r[i] == c;
    }
  }
}
