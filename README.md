# Bulk short-link tools: a verified model

This project models the request logic of a small Next.js application that an
advertising agency uses to make tracked short links through a third-party link
service. The modelled parts are:

- **Bulk creation** (`POST /api/create`). The handler validates the request and
  picks the publication list and the domain. For each publication it builds the
  slug campaign-publication-date from `slugify`d parts and calls
  `createShortLink`. That function posts to the link service up to `maxRetries`
  times and backs off after each HTTP 429.
- **The single-link endpoint** (`POST /api/shortener`), **the campaigns
  endpoint** (`GET`/`POST /api/campaigns`) and **the domains endpoint**
  (`GET /api/domains`). The model covers how they build payloads, how they
  decide success, their fallbacks and their status codes.
- **The single-link form**: its URL and slug validators, the custom-slug switch
  and the submit gate.
- **Reports**. On the server: the campaign-name map, the loop over upstream
  pages, link enrichment, filters, the summary, the pagination block and the
  campaign list. On the page: filter, sort, summary, the page slice, sorting by
  column, filter reset and the window of page-number buttons.
- **The mock pagination endpoint** (`GET /api/test-pagination`).
- **The access gate** (`middleware`).

One module per source file: `Slug`, `LinkApi` (lib/jja.ts), `CreateRoute`,
`DomainsRoute`, `ShortenerRoute`, `CampaignsRoute`, `ShortenerPage`,
`ReportsPage`, `ReportsRoute`, `TestPagination` and `Middleware`. The shared
modules are:

- `Js`: JSON values, truthiness, `||`, property access that throws on
  `null`/`undefined`, and the link service's `error === 0 || error === "0"`
  marker.
- `Text`: JavaScript whitespace, `trim`, ASCII `toLowerCase`, `includes` and
  `join`.
- `Numbers`: `parseInt` and `Number` on decimal and hexadecimal text.
- `Paging`: the index rules of `Array.prototype.slice` and `Math.ceil(a / b)`.
- `Reporting`: the link record, filters and summary that the reports endpoint
  and the reports page share.

## How the outside world appears

- **`fetch`**: an oracle parameter. `createShortLink` reads its replies from
  `script(link, attempt)`: the reply to attempt `attempt` of the `link`-th call
  in one request. A reply is a status, a `Retry-After` header (absent, finite,
  or not finite after `Number`), and a body that is JSON or is not. A rejected
  `fetch` is a reply of its own.
- **Sleeps**: recorded as a list of millisecond durations, not taken.
- **The reports page loop**: reads a finite list of page replies.
- **Other upstreams**: each endpoint's single upstream reply is a parameter.
- **Parsers and verification**: `new URL(...)` is an oracle predicate (the
  single-link endpoint) or an oracle giving the parsed protocol (the form).
  `jwtVerify` is an oracle `string -> bool`. Dates are integer timestamps.

## Behaviour the model keeps where a plain reading would expect otherwise

- `slugify` does not lower-case: "Spring Sale" becomes "Spring-Sale", and the
  letters and digits of the input survive in order and case
  (`Slug.SlugifyKeepsAlnums`).
- When `pubs` is missing or empty, the publication is the literal "default".
  It appears as a segment of the slug (`CreateRoute.DefaultPublication`).
- A 429 with no `Retry-After` header waits 0 ms. `Number(null)` is 0, which is
  finite, so the exponential fallback `2^attempt` seconds is used only for a
  header that converts to NaN or an infinity (`LinkApi.WaitMs`).
- A rejected `fetch` inside `createShortLink` is not caught. Neither is the
  create handler's loop, so a network failure on any publication aborts the
  whole batch: the response is `Aborted`, not a failed entry
  (`CreateRoute.Post`, `CreateRoute.LoopAbortsIff`).
- The two endpoints test success differently. The single-link endpoint accepts
  a reply without an `error` field. Campaign creation rejects it
  (`CampaignsRoute.MissingErrorFails`).

## Model

| member | source | states |
|---|---|---|
| `Slug.Slugify` | bulk-links-vercel/lib/slug.ts:1-8 | the result has only ASCII letters, digits and single hyphens, does not start or end with a hyphen, and is no longer than the input |
| `Slug.KeepSlugChars` | bulk-links-vercel/lib/slug.ts:5 | removing the characters outside [A-Za-z0-9-] leaves only slug characters, and never lengthens the text |
| `Slug.CollapseDashes` | bulk-links-vercel/lib/slug.ts:6 | collapsing hyphen runs leaves no two adjacent hyphens, keeps the first character, and empties only the empty text |
| `Slug.StripDashes` | bulk-links-vercel/lib/slug.ts:7 | stripping hyphens from both ends leaves text that neither starts nor ends with a hyphen |
| `Slug.SlugIsFixedPoint` | bulk-links-vercel/lib/slug.ts:2-7 | every string already in slug form is its own slug |
| `Slug.SlugifyIdempotent` | bulk-links-vercel/lib/slug.ts:2-7 | slugifying twice gives the same as slugifying once |
| `Slug.SlugifyKeepsAlnums` | bulk-links-vercel/lib/slug.ts:3-7 | removing the hyphens from the slug gives exactly the ASCII letters and digits of the input, in order, case kept |
| `Slug.SlugifyEmptyIff` | bulk-links-vercel/lib/slug.ts:5-7 | the slug is empty if and only if the input has no ASCII letter or digit |
| `Slug.SpaceRunBecomesOneDash` | bulk-links-vercel/lib/slug.ts:4-6 | a whitespace run between two non-empty slugs becomes exactly one hyphen |
| `Slug.AlnumWord` | bulk-links-vercel/lib/slug.ts:2-7 | a word of letters and digits slugifies to itself |
| `LinkApi.DefaultDomain` | bulk-links-vercel/lib/jja.ts:2 | `DEFAULT_DOMAIN` is the environment value when it is non-empty, else "adtracking.link"; it is never empty |
| `LinkApi.WaitMs` | bulk-links-vercel/lib/jja.ts:37-38 | after a 429 the wait is Retry-After*1000 ms for a finite header, 0 ms for an absent header, and 2^attempt*1000 ms for a non-finite one |
| `LinkApi.Classify` | bulk-links-vercel/lib/jja.ts:30-41 | a rejected fetch throws; a 2xx reply whose `error` is 0, "0" or absent succeeds with its body (`{}` when the body does not parse), and a 2xx reply with another `error` fails with it; a 429 is rate limited and carries the wait for that attempt; any other status fails, carrying the body |
| `LinkApi.RunFrom` | bulk-links-vercel/lib/jja.ts:19-44 | from attempt k, between 1 and maxRetries-k POSTs are made, none when k ≥ maxRetries; the number of sleeps is the number of POSTs or one fewer |
| `LinkApi.CreateShortLink` | bulk-links-vercel/lib/jja.ts:16-45 | the loop's outcome, POST count and sleeps equal the reference run, and every POST carries the same payload `{url, custom, domain}` |
| `LinkApi.RunShape` | bulk-links-vercel/lib/jja.ts:19-44 | each recorded sleep belongs to a rate-limited attempt, in order; a run ends on its last reply's terminal outcome, or, when every attempt was rate limited, with the "retries exhausted" failure after exactly maxRetries attempts |
| `LinkApi.StopsAtFirstTerminal` | bulk-links-vercel/lib/jja.ts:32-41 | n rate limits followed by a terminal reply give exactly n+1 POSTs, the n sleeps, and that reply's outcome: one 429 then a success is success after exactly two attempts |
| `LinkApi.AllRateLimitedExhausts` | bulk-links-vercel/lib/jja.ts:36-44 | if every attempt is a 429, the result is `{ok:false, data:{error:1, message:"Rate limit: retries exhausted"}}` after max(maxRetries, 0) POSTs, each followed by its sleep |
| `LinkApi.PickDomains` | bulk-links-vercel/lib/jja.ts:65-67 | the mapping throws exactly when some item is null or undefined; otherwise it keeps at most as many domains as items, all truthy |
| `LinkApi.PickDomainsOfRecords` | bulk-links-vercel/lib/jja.ts:65-67 | records with a non-empty string `domain` each yield that domain, in order, with none dropped |
| `LinkApi.FetchBrandedDomains` | bulk-links-vercel/lib/jja.ts:47-74 | a rejected fetch, a non-ok status, or an ok body that does not parse or is `null` gives `{ok:false, domains:[]}`; an array under `data` gives `{ok:true}` with its picked domains (`{ok:false, domains:[]}` when picking throws); any other `data` gives `{ok:true, domains:[]}`; all domains returned are truthy |
| `CreateRoute.PubList` | bulk-links-vercel/app/api/create/route.ts:13 | a non-empty `pubs` array is used as given; anything else becomes exactly `["default"]` |
| `CreateRoute.ChosenDomain` | bulk-links-vercel/app/api/create/route.ts:14 | the domain is the trimmed request domain when non-empty, else `DEFAULT_DOMAIN`, else "adtracking.link"; it is never empty |
| `CreateRoute.JoinNonEmptySlugs` | bulk-links-vercel/app/api/create/route.ts:19 | joining the non-empty slugs with "-" gives a slug (no leading, trailing or doubled hyphen) that holds the parts' letters and digits in order |
| `CreateRoute.SlugForShape` | bulk-links-vercel/app/api/create/route.ts:11-19 | the slug sent for a publication is in slug form, and its letters and digits are those of campaign, publication and date, in that order |
| `CreateRoute.DefaultPublication` | bulk-links-vercel/app/api/create/route.ts:13-19 | without usable pubs, the single publication is "default" and "default" is the middle segment of the slug |
| `CreateRoute.AlnumPublication` | bulk-links-vercel/app/api/create/route.ts:18-19 | a publication made of letters and digits appears unchanged between the campaign and date slugs |
| `CreateRoute.PubSlugsAreSlugs` | bulk-links-vercel/app/api/create/route.ts:18-19 | every per-publication slug is in slug form |
| `CreateRoute.CreateOne` | bulk-links-vercel/app/api/create/route.ts:18-20 | one loop pass asks for that publication's slug, and its outcome and requests are those of its own `createShortLink` call |
| `CreateRoute.CreateAll` | bulk-links-vercel/app/api/create/route.ts:16-22 | the loop's abort flag, results and sent requests equal the reference definition over the publication list |
| `CreateRoute.LoopAbortsIff` | bulk-links-vercel/app/api/create/route.ts:17-22 | the loop aborts if and only if some publication's call throws |
| `CreateRoute.LoopEntries` | bulk-links-vercel/app/api/create/route.ts:16-22 | when nothing throws there is one entry per publication, in list order; entry i records pub i and `${dom}/${slug}`, and its `ok`/`data` come from the i-th call, whatever the earlier calls returned |
| `CreateRoute.LoopSentRequests` | bulk-links-vercel/app/api/create/route.ts:17-21 | every request the loop sends is for the long URL on the chosen domain and asks for one of the publication slugs |
| `CreateRoute.LoopAbortFact` | bulk-links-vercel/app/api/create/route.ts:17-22 | the handler's own loop aborts exactly when one of its calls throws |
| `CreateRoute.LoopEntryFacts` | bulk-links-vercel/app/api/create/route.ts:16-22 | the handler's entries pair publication i with `SlugFor(campaign, pub i, date)` and with the i-th call's outcome |
| `CreateRoute.LoopSentFact` | bulk-links-vercel/app/api/create/route.ts:17-21 | every request the handler sends has the long URL, the chosen domain and a slug-form `custom` |
| `CreateRoute.Post` | bulk-links-vercel/app/api/create/route.ts:5-25 | a missing longUrl, campaign or date gives 400 "Missing fields" and no request; otherwise the handler aborts exactly when some call throws, and else returns one entry per publication in order, each from its own call, with the slug sent bare and recorded as `${dom}/${slug}`; the requests sent are those of the reference loop |
| `CreateRoute.LoopSentCalls` | bulk-links-vercel/app/api/create/route.ts:16-22 | the loop sends, in publication order, each publication's own requests (its slug, repeated once per attempt): for every publication when no call throws, and otherwise up to and including the first call that throws |
| `DomainsRoute.Compose` | bulk-links-vercel/app/api/domains/route.ts:8-27 | the domains always contain `DEFAULT_DOMAIN`, `defaultDomain` is always it, and `ok` holds exactly for an ok, non-empty upstream list |
| `DomainsRoute.ComposeShape` | bulk-links-vercel/app/api/domains/route.ts:8-26 | a list that has the default is returned unchanged; a list without it gets it prepended, the rest in order; a failed or empty list becomes `[DEFAULT_DOMAIN]`; the default is never duplicated and no other domain is added |
| `DomainsRoute.Get` | bulk-links-vercel/app/api/domains/route.ts:4-37 | for every upstream reply, the response offers `DEFAULT_DOMAIN` and names it as the default |
| `ShortenerRoute.CopyIfTruthy` | bulk-links-vercel/app/api/shortener/route.ts:43-52 | each conditional assignment adds the next optional field exactly when it is truthy, copied unchanged |
| `ShortenerRoute.BuildPayload` | bulk-links-vercel/app/api/shortener/route.ts:41-52 | the payload has `url`, and each of the ten optional fields is present if and only if it is truthy in the body, copied unchanged; nothing else is present |
| `ShortenerRoute.PayloadDetermined` | bulk-links-vercel/app/api/shortener/route.ts:41-52 | two payloads that meet that description for the same body are equal |
| `ShortenerRoute.ShortUrl` | bulk-links-vercel/app/api/shortener/route.ts:67 | the reported short URL is never empty |
| `ShortenerRoute.ShortUrlPrefersService` | bulk-links-vercel/app/api/shortener/route.ts:67 | the service's `shorturl`, then `short`, then `url` is used, whichever is truthy first |
| `ShortenerRoute.ShortUrlBuilt` | bulk-links-vercel/app/api/shortener/route.ts:67 | with none of those, the URL is `${domain or "adtracking.link"}/${custom or data.id}` |
| `ShortenerRoute.FailureStatus` | bulk-links-vercel/app/api/shortener/route.ts:80 | a failure's status is the upstream status, or 400 when that is 0 |
| `ShortenerRoute.Post` | bulk-links-vercel/app/api/shortener/route.ts:6-89 | a missing url gives 400 "URL is required" and an unparseable one gives 400 "Invalid URL format", neither sending anything; success holds exactly for an ok reply whose error is 0, "0" or absent, and returns the short URL fallback; a failure carries the upstream message or the default, and `status || 400`; a rejected fetch, or an upstream body that does not parse or is `null`, gives 500; every other non-success reply is a failure |
| `CampaignsRoute.Param` | bulk-links-vercel/app/api/campaigns/route.ts:10-11 | a present, non-empty search parameter is used as given; otherwise the default is used |
| `CampaignsRoute.ListQuery` | bulk-links-vercel/app/api/campaigns/route.ts:10-13 | the forwarded `limit` and `page` are never empty ("100" and "1" by default) |
| `CampaignsRoute.List` | bulk-links-vercel/app/api/campaigns/route.ts:20-48 | a non-ok upstream status is returned as is with "Failed to fetch campaigns"; a rejected fetch gives 500 |
| `CampaignsRoute.ListShape` | bulk-links-vercel/app/api/campaigns/route.ts:27-48 | a listing is returned exactly for an ok reply with error 0 or "0", each field being the upstream value when truthy and otherwise `[]`/0/1/1; any other parsed ok reply is 400 with the upstream message or the default; an ok body that does not parse or is `null` gives 500 |
| `CampaignsRoute.BuildCampaignPayload` | bulk-links-vercel/app/api/campaigns/route.ts:64-66 | the payload is `name`, plus `slug` if and only if it is truthy, plus `public` if and only if it is a boolean, each copied unchanged |
| `CampaignsRoute.Create` | bulk-links-vercel/app/api/campaigns/route.ts:52-100 | without a name the answer is 400 and nothing is sent; creation succeeds exactly on an ok reply with error 0 or "0", naming the campaign `data.domain \|\| data.name`; a rejected fetch, or an upstream body that does not parse or is `null`, gives 500; every other non-success reply is a failure carrying `status \|\| 400` and the upstream or default message |
| `CampaignsRoute.MissingErrorFails` | bulk-links-vercel/app/api/campaigns/route.ts:79 | an ok reply without `error` fails campaign creation but passes the single-link endpoint's success test |
| `ShortenerPage.ValidateUrl` | bulk-links-vercel/app/shortener/page.tsx:82-96 | the message is empty if and only if the URL is not blank and parses with protocol http: or https:; a blank URL gets "URL is required", one that does not parse gets the example message, and one with another protocol gets the HTTP/HTTPS message |
| `ShortenerPage.SlugAcceptedIff` | bulk-links-vercel/app/shortener/page.tsx:98-112 | a slug is accepted if and only if it has at least three characters, all from [a-zA-Z0-9-_] |
| `ShortenerPage.SlugErrorPrecedence` | bulk-links-vercel/app/shortener/page.tsx:99-109 | a blank slug gets "required"; then a bad character gets the character message before any length message; a short slug of good characters gets the length message |
| `ShortenerPage.ShortenerForm.constructor` | bulk-links-vercel/app/shortener/page.tsx:23-36 | the form starts empty, with the custom slug off and no errors |
| `ShortenerPage.ShortenerForm.HandleUrlChange` | bulk-links-vercel/app/shortener/page.tsx:114-118 | the URL is stored with its validation message, and the banner is cleared |
| `ShortenerPage.ShortenerForm.HandleSlugChange` | bulk-links-vercel/app/shortener/page.tsx:120-123 | the slug is stored; it is validated only while the custom slug is on |
| `ShortenerPage.ShortenerForm.HandleCustomSlugToggle` | bulk-links-vercel/app/shortener/page.tsx:125-133 | switching off clears the slug and its error; switching on revalidates the slug already typed |
| `ShortenerPage.ShortenerForm.Request` | bulk-links-vercel/app/shortener/page.tsx:191-198 | the posted body carries the URL and domain; `custom` is the typed slug exactly when the custom slug is on; `description` and `metatitle` are both the name when it is non-empty; `campaign` is the selected campaign when it is truthy |
| `ShortenerPage.ShortenerForm.HandleSubmit` | bulk-links-vercel/app/shortener/page.tsx:171-229 | a request is sent if and only if both validation messages are empty, the slug being checked only when the custom slug is on; a success clears URL, name and slug and turns the custom slug off; a failure leaves them and shows the network error or the service's message as `ShowReply` does |
| `ShortenerPage.ShortenerForm.ShowReply` | bulk-links-vercel/app/shortener/page.tsx:201-228 | the banner is a success exactly when the response is ok with a truthy `ok`; a rejected fetch, a body that is not JSON or a `null` body shows "Network error occurred"; any other refusal shows `data.message` or "Failed to create short link" |
| `Reporting.Filter` | bulk-links-vercel/app/reports/page.tsx:115-151 | filtering keeps only links that pass, and never adds any |
| `Reporting.FilterCounts` | bulk-links-vercel/app/reports/page.tsx:115-151 | a passing link is kept as often as it occurs, and every other link is dropped |
| `Reporting.FilterKeepsOrder` | bulk-links-vercel/app/api/reports/route.ts:139-154 | two kept links stay in their original relative order |
| `Reporting.TotalsOfPermutation` | bulk-links-vercel/app/reports/page.tsx:183-184 | click and unique-click totals do not depend on the order of the links |
| `Reporting.ClicksByUrlKeys` | bulk-links-vercel/app/api/reports/route.ts:161-168 | `clicksByUrl` has one row per distinct short URL among the links |
| `Reporting.ClicksByUrlLastWins` | bulk-links-vercel/app/api/reports/route.ts:161-168 | each row comes from the last link with that short URL |
| `Reporting.Summarize` | bulk-links-vercel/app/api/reports/route.ts:157-182 | `totalLinks` is the number of links and `clicksByUrl` is keyed by exactly their short URLs |
| `ReportsPage.NoFiltersKeepAll` | bulk-links-vercel/app/reports/page.tsx:219-227 | with the filters reset, every loaded link passes |
| `ReportsPage.LeTotal` | bulk-links-vercel/app/reports/page.tsx:154-176 | the comparator orders any two links one way or the other |
| `ReportsPage.LeTrans` | bulk-links-vercel/app/reports/page.tsx:154-176 | the comparator's order is transitive, for numbers, dates and lower-cased text alike |
| `ReportsPage.SortLinks` | bulk-links-vercel/app/reports/page.tsx:154-176 | the sorted view is a permutation of its input, ordered by the column in the direction |
| `ReportsPage.FilteredAndSortedSpec` | bulk-links-vercel/app/reports/page.tsx:112-200 | the view holds exactly the links that pass every filter, each as often as loaded, sorted, and its totals are those of the filtered links |
| `ReportsPage.PageNumbers` | bulk-links-vercel/app/reports/page.tsx:683-695 | there are min(5, totalPages) buttons |
| `ReportsPage.PageNumbersWindow` | bulk-links-vercel/app/reports/page.tsx:683-695 | the buttons are consecutive page numbers within 1..totalPages, including the current page whenever it is a real page |
| `ReportsPage.ReportsView.constructor` | bulk-links-vercel/app/reports/page.tsx:51-70 | the page starts with no filters, sorted by date descending, on page 1 of 50 rows, the table hidden |
| `ReportsPage.ReportsView.CurrentSummary` | bulk-links-vercel/app/reports/page.tsx:182-201 | the summary counts exactly the rows of the current view |
| `ReportsPage.ReportsView.PageRows` | bulk-links-vercel/app/reports/page.tsx:203-207 | the page holds at most `itemsPerPage` rows and is empty exactly when it starts past the last row |
| `ReportsPage.ReportsView.SetFilters` | bulk-links-vercel/app/reports/page.tsx:209-212 | a filter change returns to page 1 and changes nothing else |
| `ReportsPage.ReportsView.SetItemsPerPage` | bulk-links-vercel/app/reports/page.tsx:209-212 | a page-size change returns to page 1 and changes nothing else |
| `ReportsPage.ReportsView.RunReport` | bulk-links-vercel/app/reports/page.tsx:214-217 | running the report shows the table from page 1 |
| `ReportsPage.ReportsView.ResetFilters` | bulk-links-vercel/app/reports/page.tsx:219-227 | resetting restores every filter default, hides the table, returns to page 1, and the view then holds every loaded link |
| `ReportsPage.ReportsView.HandleSort` | bulk-links-vercel/app/reports/page.tsx:229-236 | sorting by the same column flips the direction; another column is sorted ascending |
| `Paging.CeilDiv` | bulk-links-vercel/app/reports/page.tsx:204 | the page count is the least number of pages of that size that holds every item |
| `Paging.JsSlice` | bulk-links-vercel/app/reports/page.tsx:207 | `slice` returns the items between the clamped bounds, or nothing when they cross |
| `Paging.PageWindow` | bulk-links-vercel/app/reports/page.tsx:205-207 | page p holds at most `size` items, starting at (p-1)*size, and is empty exactly when that is past the end |
| `Paging.ItemOnItsPage` | bulk-links-vercel/app/reports/page.tsx:204-207 | every item appears on a page numbered between 1 and the page count |
| `ReportsRoute.NameFoldLastWins` | bulk-links-vercel/app/api/reports/route.ts:48-51 | the campaign map has one entry per campaign id; each entry is the name of the last campaign with that id |
| `ReportsRoute.CampaignsMap` | bulk-links-vercel/app/api/reports/route.ts:43-53 | for an ok reply with error 0 or "0" the map has one key per campaign id, holding the name of the last record with that id; for any other reply it is empty |
| `ReportsRoute.AccumulateFrom` | bulk-links-vercel/app/api/reports/route.ts:60-89 | reading from page k, when pages k..n-1 continue and page n does not, ends as page n decides, with the links of pages k..n in order |
| `ReportsRoute.FirstStopDecides` | bulk-links-vercel/app/api/reports/route.ts:60-89 | the loop reads pages until the first one that does not continue: a non-ok status is returned as is, a thrown fetch becomes a 500, and otherwise the links are those of every page read, in page order, the stopping page's own only when its error is 0 or "0" |
| `ReportsRoute.EndlessScript` | bulk-links-vercel/app/api/reports/route.ts:60-89 | a page list in which every page asks for another never finishes |
| `ReportsRoute.FetchAllLinks` | bulk-links-vercel/app/api/reports/route.ts:56-89 | the loop's outcome equals the reference accumulation, and it requests pages 1, 2, … in turn |
| `ReportsRoute.CampaignName` | bulk-links-vercel/app/api/reports/route.ts:113 | a truthy campaign whose `Number` is a key with a non-empty name gets that name; a falsy campaign, one that is NaN, one that is not a key, or one whose name is empty gets "No Campaign" |
| `ReportsRoute.CampaignNameFromRecords` | bulk-links-vercel/app/api/reports/route.ts:43-114 | after an ok campaigns reply, a link whose campaign converts to a listed id is shown under the name of the last record with that id, when that name is not empty |
| `ReportsRoute.Enhance` | bulk-links-vercel/app/api/reports/route.ts:103-131 | an enhanced link keeps the link's own fields; a thrown detail fetch gives "No Campaign" and 0 unique clicks; an ok detail with error 0 gives its own unique clicks, any other reply 0 |
| `ReportsRoute.EnhanceAll` | bulk-links-vercel/app/api/reports/route.ts:92-133 | one enhanced link per loaded link, in the same order, each from the reply to its own detail fetch |
| `ReportsRoute.FilteredCounts` | bulk-links-vercel/app/api/reports/route.ts:136-154 | the filters keep each link that passes both, as often as it occurs, and drop the rest |
| `ReportsRoute.TotalPagesOf` | bulk-links-vercel/app/api/reports/route.ts:186 | for a limit of at least 1 the page count is ceil(len/limit); it is null exactly when the limit is NaN or 0 |
| `ReportsRoute.Get` | bulk-links-vercel/app/api/reports/route.ts:27-203 | a failed campaigns fetch gives 500; a failed page gives that page's status; otherwise the response is built from every loaded link |
| `ReportsRoute.ReportCoversFiltered` | bulk-links-vercel/app/api/reports/route.ts:156-193 | the summary covers every filtered link, not only the returned page; the returned links pass the filters; the campaign list is the map |
| `ReportsRoute.PaginationOf` | bulk-links-vercel/app/api/reports/route.ts:171-189 | for page and limit of at least 1, the links are that page, totalPages is ceil(len/limit), and hasNextPage holds if and only if page*limit < len |
| `ReportsRoute.PaginationAgrees` | bulk-links-vercel/app/api/reports/route.ts:170-189 | the response's pagination block describes its own links; hasPrevPage holds if and only if page > 1 |
| `ReportsRoute.SortedIds` | bulk-links-vercel/app/api/reports/route.ts:190 | the ids are listed once each, in ascending order, as `Object.keys` lists integer keys |
| `ReportsRoute.CampaignListSpec` | bulk-links-vercel/app/api/reports/route.ts:190-193 | the list has exactly one `{id, name}` per map entry, by ascending id |
| `Numbers.ParseInt` | bulk-links-vercel/app/api/reports/route.ts:32-33 | `parseInt` without a radix is NaN exactly when no digits follow the optional whitespace and sign (hexadecimal digits after "0x"/"0X", decimal otherwise); otherwise it is the value of those digits, negated after "-" |
| `Numbers.ParseHex` | bulk-links-vercel/app/api/reports/route.ts:32-33 | "0x" followed by hexadecimal digits parses to their value, and "0x" alone is NaN |
| `Numbers.ParseNumeral` | bulk-links-vercel/app/api/reports/route.ts:32-33 | a decimal numeral parses to its value |
| `Numbers.NumberOf` | bulk-links-vercel/app/api/reports/route.ts:113 | `Number` of blank text is 0; trimmed text that is an unsigned "0x" numeral or an optionally signed run of decimal digits converts to its value; other text is NaN in the model (see Left out) |
| `Numbers.NumberOfNumeral` | bulk-links-vercel/app/api/reports/route.ts:113 | a decimal numeral converts to its value |
| `TestPagination.LinksOnPage` | bulk-links-vercel/app/api/test-pagination/route.ts:20-22 | a page never holds more than `limit` links |
| `TestPagination.MockIds` | bulk-links-vercel/app/api/test-pagination/route.ts:30-34 | there are as many mock ids as links on the page |
| `TestPagination.Get` | bulk-links-vercel/app/api/test-pagination/route.ts:6-75 | the url count equals `linksOnThisPage` and is at most `limit`; totalPages*limit covers all 150 links |
| `TestPagination.PageSizes` | bulk-links-vercel/app/api/test-pagination/route.ts:15-22 | pages before the last are full, the last holds the remainder (at least one link), and later pages hold none |
| `TestPagination.FlagsAgree` | bulk-links-vercel/app/api/test-pagination/route.ts:60-73 | shouldContinue equals hasNextPage, shouldStopLoading equals isLastPage, and the two never hold together |
| `TestPagination.IdsUpToPrefix` | bulk-links-vercel/app/api/test-pagination/route.ts:20-34 | pages 1..k hold ids 1..min(k*limit, 150) in order, each once |
| `TestPagination.PagesCoverAllLinks` | bulk-links-vercel/app/api/test-pagination/route.ts:15-34 | walking pages 1..totalPages yields each of the 150 links once, in order, and the page sizes add up to 150 |
| `Middleware.Decide` | bulk-links-vercel/middleware.ts:7-44 | a JSON refusal is given only on a non-public API path, and a redirect only on a non-public page path |
| `Middleware.PassesIff` | bulk-links-vercel/middleware.ts:9-43 | a request passes if and only if its path is public or its token verifies |
| `Middleware.PublicPasses` | bulk-links-vercel/middleware.ts:9-14 | /login and /api/auth paths pass whatever the cookie |
| `Middleware.RefusalKinds` | bulk-links-vercel/middleware.ts:17-43 | without a token an API path gets 401 NO_TOKEN and a page redirects to /login; with a token that fails, 403 INVALID_TOKEN or a redirect |

## Left out

- HTTP itself: `fetch`, headers, authentication, `NextResponse` construction and JSON serialisation. Upstream replies are parameters, and responses are datatypes that carry the fields that matter.
- `setTimeout`: the sleeps between attempts are recorded as durations, not taken.
- Concurrency: the `Promise.all` over detail fetches in the reports endpoint is a per-link map; `details(i)` is the reply to the fetch made for the i-th link. The order in which those fetches complete does not affect the result.
- `ReportsRoute.FetchAllLinks`: upstream pages are a finite list. A loop that would ask for a page beyond it ends as `Unfinished`, so an upstream that never reports its last page is shown only as never finishing (`ReportsRoute.EndlessScript`).
- The sort engine: the page's `Array.prototype.sort` is specified as a permutation ordered by the comparator. It is implemented as an insertion sort; the engine's own algorithm, and the order it gives links that compare equal, are not modelled.
- JWT signing and verification, the cookie store, `validateCredentials`, and the login, logout and echo routes. `jwtVerify` is a boolean oracle.
- The middleware's `matcher` pattern, which is framework configuration.
- `new URL(...)`, `new Date(...)` and `toLocaleDateString`. URL parsing is an oracle. Dates are integer timestamps; the page's date inputs are empty, valid or invalid.
- Numbers: floating point, NaN and the infinities in JSON values and in the `Retry-After` header (a fractional header such as "1.5" cannot be given as `RetryAfter.Finite`, which holds whole seconds). Numbers are integers; clicks and counts are whole numbers.
- `toLowerCase` maps ASCII letters only. Unicode case mapping is not modelled.
- `ReportsPage.LexLess` compares code points, while JavaScript's `<` compares UTF-16 code units; the two orders differ only for text with characters beyond U+FFFF.
- `Numbers.NumberOf`: reads hexadecimal and optionally signed decimal integers only. Text that `Number` reads as a whole number through a fraction or an exponent ("5.0", "1e3"), or through a "0b" or "0o" prefix, is NaN in the model, so such a campaign field gets "No Campaign" where the source finds the campaign. "Infinity" and non-integral text are NaN in the model and find no campaign in the source either.
- `ReportsRoute.SortedIds`: lists the ids in ascending numeric order. `Object.keys` does so only for array-index keys (0 to 2^32-2); it lists negative or larger ids after them, in insertion order.
- `CreateRoute.Post`: the request fields are typed as the handler expects (`longUrl`, `campaign`, `date`, `domain` strings, `pubs` an array of strings). A body that is not JSON, a truthy non-string `campaign`, `date` or `domain`, or a publication that is not a string makes the source throw and answer 500; the last does so after the earlier publications' links were created. These throwing inputs are not modelled.
- `TestPagination.Get`: requires a limit of at least 1. A limit of 0 (an infinite `totalPages`) and a page or limit that parses to NaN (which makes `new Array` throw, giving 500) are not modelled.
- `LinkApi.PickDomains`: its contract states that every kept domain is truthy and that no more domains come out than items went in. The item-by-item mapping is stated only for records with a non-empty string `domain` (`LinkApi.PickDomainsOfRecords`).
- The domains endpoint's own `catch` branch ("Internal server error"). It is unreachable, because `fetchBrandedDomains` catches every failure itself and the rest of the handler cannot throw.
- The shortener page's campaign creation (`createNewCampaign`), its campaign and domain loading on mount, and the reports page's initial load. These are UI glue around the endpoints modelled here.
- Persistence: the key/value store, the blob stub and the publications route.
- All rendering: JSX, the CSV export through DOM elements, column resizing and `window.open`.
