/** `POST /api/create` (app/api/create/route.ts): validate the request, default the
    publication list and the domain, then create one short link per publication, in
    order, with the slug campaign-pub-date. */
module CreateRoute {
  import opened Js
  import opened Text
  import opened Slug
  import LinkApi

  /** The JSON request body. Absent fields are `None`; `pubs` is `None` when it is not an
      array. */
  datatype CreateBody = CreateBody(
    longUrl: Option<string>,
    campaign: Option<string>,
    date: Option<string>,
    pubs: Option<seq<string>>,
    domain: Option<string>)

  /** One element of `results`: `{ pub, slug, ok, data }`. */
  datatype Entry = Entry(pub: string, slug: string, ok: bool, data: Value)

  datatype CreateResponse =
    | MissingFields               // 400 { message: "Missing fields" }
    | Results(results: seq<Entry>) // 200 { results }
    | Aborted                     // a rejected fetch escapes the handler

  /** A string field that is truthy. */
  predicate Present(v: Option<string>) {
    v.Some? && v.value != []
  }

  predicate HasRequiredFields(b: CreateBody) {
    Present(b.longUrl) && Present(b.campaign) && Present(b.date)
  }

  /** `Array.isArray(pubs) && pubs.length ? pubs : ["default"]`. */
  function PubList(pubs: Option<seq<string>>): (r: seq<string>)
    ensures r != []
    ensures pubs.Some? && pubs.value != [] ==> r == pubs.value
    ensures pubs.None? || pubs.value == [] ==> r == ["default"]
  {
    if pubs.Some? && pubs.value != [] then pubs.value else ["default"]
  }

  /** `(domain || "").trim() || process.env.DEFAULT_DOMAIN || "adtracking.link"`. */
  function ChosenDomain(domain: Option<string>, env: Option<string>): (d: string)
    ensures d != []
    ensures var t := Trim(if domain.Some? then domain.value else []);
      (t != [] ==> d == t) && (t == [] ==> d == LinkApi.DefaultDomain(env))
  {
    var t := Trim(if domain.Some? then domain.value else []);
    if t != [] then t else LinkApi.DefaultDomain(env)
  }

  /** `[campaignSlug, pubSlug, dateSlug].filter(Boolean).join("-")`. */
  function JoinSlugs(campaignSlug: string, pubSlug: string, dateSlug: string): string {
    Join(NonEmpty([campaignSlug, pubSlug, dateSlug]), '-')
  }

  /** The slug the link for `pub` asks for. */
  function SlugFor(campaign: string, pub: string, date: string): string {
    JoinSlugs(Slugify(campaign), Slugify(pub), Slugify(date))
  }

  /** The joined slug is itself a slug, and its letters and digits are exactly those of
      the campaign, the publication and the date, in that order. */
  lemma SlugForShape(campaign: string, pub: string, date: string)
    ensures IsSlug(SlugFor(campaign, pub, date))
    ensures RemoveDashes(SlugFor(campaign, pub, date)) == Alnums(campaign) + Alnums(pub) + Alnums(date)
  {
    var c, p, d := Slugify(campaign), Slugify(pub), Slugify(date);
    JoinThreeSlugs(c, p, d);
    SlugifyKeepsAlnums(campaign);
    SlugifyKeepsAlnums(pub);
    SlugifyKeepsAlnums(date);
  }

  lemma JoinThreeSlugs(c: string, p: string, d: string)
    requires IsSlug(c) && IsSlug(p) && IsSlug(d)
    ensures IsSlug(JoinSlugs(c, p, d))
    ensures RemoveDashes(JoinSlugs(c, p, d)) == RemoveDashes(c) + RemoveDashes(p) + RemoveDashes(d)
  {
    JoinNonEmptySlugs([c, p, d]);
    DashlessConcatOfThree([c, p, d]);
  }

  /** `filter(Boolean).join("-")` over slugs gives a slug with the parts' letters and
      digits, in order. */
  lemma JoinNonEmptySlugs(parts: seq<string>)
    requires forall i :: 0 <= i < |parts| ==> IsSlug(parts[i])
    ensures IsSlug(Join(NonEmpty(parts), '-'))
    ensures RemoveDashes(Join(NonEmpty(parts), '-')) == DashlessConcat(parts)
  {
    NonEmptyOfSlugs(parts);
    JoinOfSlugs(NonEmpty(parts));
    JoinDashless(NonEmpty(parts));
  }

  lemma DashlessConcatOfThree(parts: seq<string>)
    requires |parts| == 3
    ensures DashlessConcat(parts) == RemoveDashes(parts[0]) + RemoveDashes(parts[1]) + RemoveDashes(parts[2])
  {
    var one, two := parts[1..], parts[2..];
    assert one[1..] == two && two[1..] == [];
    assert DashlessConcat(two) == RemoveDashes(parts[2]) + [];
    assert DashlessConcat(one) == RemoveDashes(parts[1]) + DashlessConcat(two);
  }

  /** The dashless text of a list of strings, concatenated. */
  function DashlessConcat(parts: seq<string>): string {
    if parts == [] then [] else RemoveDashes(parts[0]) + DashlessConcat(parts[1..])
  }

  lemma {:induction false} RemoveDashesConcat(a: string, b: string)
    ensures RemoveDashes(a + b) == RemoveDashes(a) + RemoveDashes(b)
  {
    if a != [] {
      var ab := a + b;
      assert ab[0] == a[0] && ab[1..] == a[1..] + b;
      RemoveDashesConcat(a[1..], b);
      if a[0] == '-' {
        assert RemoveDashes(ab) == RemoveDashes(a[1..] + b);
      } else {
        assert RemoveDashes(ab) == [a[0]] + RemoveDashes(a[1..] + b);
      }
    } else {
      assert a + b == b;
    }
  }

  /** Joining non-empty slugs with hyphens gives a non-empty slug. */
  lemma {:induction false} JoinOfSlugs(parts: seq<string>)
    requires forall i :: 0 <= i < |parts| ==> IsSlug(parts[i]) && parts[i] != []
    ensures IsSlug(Join(parts, '-'))
    ensures parts != [] ==> Join(parts, '-') != []
  {
    if |parts| > 1 {
      JoinOfSlugs(parts[1..]);
      JoinedSlug(parts[0], Join(parts[1..], '-'));
    }
  }

  /** Joining with hyphens adds nothing but hyphens. */
  lemma {:induction false} JoinDashless(parts: seq<string>)
    ensures RemoveDashes(Join(parts, '-')) == DashlessConcat(parts)
  {
    if |parts| == 1 {
      assert DashlessConcat(parts) == RemoveDashes(parts[0]) + DashlessConcat([]);
    } else if |parts| > 1 {
      JoinDashless(parts[1..]);
      var tail := Join(parts[1..], '-');
      assert Join(parts, '-') == parts[0] + "-" + tail;
      RemoveDashesConcat(parts[0] + "-", tail);
      RemoveDashesConcat(parts[0], "-");
      assert RemoveDashes("-") == [];
    }
  }

  /** Dropping empty slugs keeps the other slugs and the dashless text. */
  lemma {:induction false} NonEmptyOfSlugs(parts: seq<string>)
    requires forall i :: 0 <= i < |parts| ==> IsSlug(parts[i])
    ensures forall i :: 0 <= i < |NonEmpty(parts)| ==> IsSlug(NonEmpty(parts)[i]) && NonEmpty(parts)[i] != []
    ensures DashlessConcat(NonEmpty(parts)) == DashlessConcat(parts)
  {
    if parts != [] {
      NonEmptyOfSlugs(parts[1..]);
      var rest := NonEmpty(parts[1..]);
      if parts[0] != [] {
        assert NonEmpty(parts) == [parts[0]] + rest;
        assert ([parts[0]] + rest)[1..] == rest;
      }
    }
  }

  /** The entry a publication gets: the recorded slug is `${dom}/${slug}`, and `ok`/`data`
      are those of its own `createShortLink` call, `run`. */
  predicate EntryFor(e: Entry, pub: string, slug: string, dom: string, run: LinkApi.Run) {
    && e.pub == pub
    && e.slug == dom + "/" + slug
    && run.outcome.Done? && e.ok == run.outcome.ok && e.data == run.outcome.data
  }


  /** `n` copies of the request `req`: what one `createShortLink` call sends. */
  function Repeat(req: LinkApi.Request, n: nat): (r: seq<LinkApi.Request>)
    ensures |r| == n
    ensures forall j :: 0 <= j < n ==> r[j] == req
  {
    if n == 0 then [] else [req] + Repeat(req, n - 1)
  }

  /** The slug the handler asks for on behalf of `pub`, given the campaign's and the
      date's slugs. */
  function PubSlug(campaignSlug: string, pub: string, dateSlug: string): string {
    JoinSlugs(campaignSlug, Slugify(pub), dateSlug)
  }

  /** What the handler's loop leaves behind: whether a call threw, the entries pushed
      before that, and every request sent. */
  datatype LoopResult = LoopResult(aborted: bool, entries: seq<Entry>, sent: seq<LinkApi.Request>)

  /** One pass of the handler's loop: the slug for `pub` and its `createShortLink` call,
      the `i`-th against `script`. */
  method CreateOne(longUrl: string, campaignSlug: string, pub: string, dateSlug: string, dom: string,
                   budget: int, script: (nat, nat) -> LinkApi.Reply, i: nat)
    returns (slug: string, outcome: LinkApi.Outcome, calls: seq<LinkApi.Request>)
    ensures slug == PubSlug(campaignSlug, pub, dateSlug)
    ensures outcome == LinkApi.ShortLinkRun(budget, script, i).outcome
    ensures calls == Repeat(LinkApi.Request(longUrl, slug, dom), LinkApi.ShortLinkRun(budget, script, i).calls)
  {
    var pubSlug := Slugify(pub);
    slug := JoinSlugs(campaignSlug, pubSlug, dateSlug);
    var waits;
    outcome, calls, waits := LinkApi.CreateShortLink(longUrl, slug, dom, budget, script, i);
    assert |calls| == LinkApi.ShortLinkRun(budget, script, i).calls;
  }

  /** The slugs the handler asks for, one per publication, in list order. */
  function PubSlugs(campaignSlug: string, pubs: seq<string>, dateSlug: string): (r: seq<string>)
    ensures |r| == |pubs|
  {
    if pubs == [] then [] else [PubSlug(campaignSlug, pubs[0], dateSlug)] + PubSlugs(campaignSlug, pubs[1..], dateSlug)
  }

  lemma {:induction false} PubSlugsAt(campaignSlug: string, pubs: seq<string>, dateSlug: string)
    ensures forall i :: 0 <= i < |pubs| ==> PubSlugs(campaignSlug, pubs, dateSlug)[i] == PubSlug(campaignSlug, pubs[i], dateSlug)
  {
    if pubs != [] {
      PubSlugsAt(campaignSlug, pubs[1..], dateSlug);
      var r := PubSlugs(campaignSlug, pubs, dateSlug);
      forall i | 0 < i < |pubs| ensures r[i] == PubSlug(campaignSlug, pubs[i], dateSlug) {
        assert r[i] == PubSlugs(campaignSlug, pubs[1..], dateSlug)[i - 1] && pubs[i] == pubs[1..][i - 1];
      }
    }
  }

  /** Every slug the handler asks for is a slug. */
  lemma {:induction false} PubSlugsAreSlugs(campaignSlug: string, pubs: seq<string>, dateSlug: string)
    requires IsSlug(campaignSlug) && IsSlug(dateSlug)
    ensures forall i :: 0 <= i < |pubs| ==> IsSlug(PubSlugs(campaignSlug, pubs, dateSlug)[i])
  {
    if pubs != [] {
      PubSlugsAreSlugs(campaignSlug, pubs[1..], dateSlug);
      JoinThreeSlugs(campaignSlug, Slugify(pubs[0]), dateSlug);
      var r := PubSlugs(campaignSlug, pubs, dateSlug);
      assert r[1..] == PubSlugs(campaignSlug, pubs[1..], dateSlug);
    }
  }

  /** Reference definition of the handler's loop over the publications `pubs`, asking for
      the slugs `slugs`, the first of them making the `k`-th call against `script`: each
      publication in list order sends its requests and pushes its entry, until a call
      throws. */
  function Loop(longUrl: string, pubs: seq<string>, slugs: seq<string>, dom: string,
                budget: int, script: (nat, nat) -> LinkApi.Reply, k: nat): LoopResult
    requires |slugs| == |pubs|
    decreases |pubs|
  {
    if pubs == [] then LoopResult(false, [], [])
    else
      var run := LinkApi.ShortLinkRun(budget, script, k);
      var calls := Repeat(LinkApi.Request(longUrl, slugs[0], dom), run.calls);
      if run.outcome.Thrown? then LoopResult(true, [], calls)
      else
        var rest := Loop(longUrl, pubs[1..], slugs[1..], dom, budget, script, k + 1);
        LoopResult(rest.aborted, [Entry(pubs[0], dom + "/" + slugs[0], run.outcome.ok, run.outcome.data)] + rest.entries,
                   calls + rest.sent)
  }

  /** The `k`-th `createShortLink` call against `script` throws. */
  predicate Throws(budget: int, script: (nat, nat) -> LinkApi.Reply, k: nat) {
    LinkApi.ShortLinkRun(budget, script, k).outcome.Thrown?
  }

  /** `entries` and `sent` followed by what the rest of the loop yields. */
  function After(entries: seq<Entry>, sent: seq<LinkApi.Request>, rest: LoopResult): LoopResult {
    LoopResult(rest.aborted, entries + rest.entries, sent + rest.sent)
  }

  /** The handler's loop over the publications, with `createShortLink`'s retry budget
      `budget`: the `i`-th publication's call is the `i`-th call against `script`. Stops at
      the first call that throws. */
  method CreateAll(longUrl: string, campaignSlug: string, pubs: seq<string>, dateSlug: string, dom: string,
                   budget: int, script: (nat, nat) -> LinkApi.Reply)
    returns (aborted: bool, results: seq<Entry>, sent: seq<LinkApi.Request>)
    ensures LoopResult(aborted, results, sent)
         == Loop(longUrl, pubs, PubSlugs(campaignSlug, pubs, dateSlug), dom, budget, script, 0)
  {
    ghost var slugs := PubSlugs(campaignSlug, pubs, dateSlug);
    aborted, results, sent := false, [], [];
    var i := 0;
    assert pubs[i..] == pubs && slugs[i..] == slugs;
    AfterNothing(Loop(longUrl, pubs, slugs, dom, budget, script, 0));
    while i < |pubs|
      invariant 0 <= i <= |pubs|
      invariant slugs[i..] == PubSlugs(campaignSlug, pubs[i..], dateSlug)
      invariant Loop(longUrl, pubs, slugs, dom, budget, script, 0)
             == After(results, sent, Loop(longUrl, pubs[i..], slugs[i..], dom, budget, script, i))
    {
      var pub := pubs[i];
      var slug, outcome, calls := CreateOne(longUrl, campaignSlug, pub, dateSlug, dom, budget, script, i);
      assert pubs[i..][0] == pub && pubs[i..][1..] == pubs[i + 1..];
      assert slugs[i..][0] == slug && slugs[i..][1..] == slugs[i + 1..];
      var rest := Loop(longUrl, pubs[i + 1..], slugs[i + 1..], dom, budget, script, i + 1);
      if outcome.Thrown? {
        assert results + [] == results;
        return true, results, sent + calls;
      }
      var entry := Entry(pub, dom + "/" + slug, outcome.ok, outcome.data);
      AfterAppend(results, sent, entry, calls, rest);
      results, sent := results + [entry], sent + calls;
      i := i + 1;
    }
    assert pubs[i..] == [];
    assert results + [] == results && sent + [] == sent;
  }

  lemma AfterNothing(rest: LoopResult)
    ensures After([], [], rest) == rest
  {
    assert [] + rest.entries == rest.entries && [] + rest.sent == rest.sent;
  }

  lemma AfterAppend(entries: seq<Entry>, sent: seq<LinkApi.Request>, e: Entry, calls: seq<LinkApi.Request>,
                    rest: LoopResult)
    ensures After(entries, sent, After([e], calls, rest)) == After(entries + [e], sent + calls, rest)
  {
    assert entries + ([e] + rest.entries) == (entries + [e]) + rest.entries;
    assert sent + (calls + rest.sent) == (sent + calls) + rest.sent;
  }

  /** A call that throws is exactly what aborts the loop. */
  lemma {:induction false} LoopAbortsIff(longUrl: string, pubs: seq<string>, slugs: seq<string>, dom: string,
                                         budget: int, script: (nat, nat) -> LinkApi.Reply, k: nat)
    requires |slugs| == |pubs|
    ensures Loop(longUrl, pubs, slugs, dom, budget, script, k).aborted
        <==> exists j :: k <= j < k + |pubs| && Throws(budget, script, j)
    decreases |pubs|
  {
    if pubs != [] {
      LoopAbortsIff(longUrl, pubs[1..], slugs[1..], dom, budget, script, k + 1);
      if Throws(budget, script, k) {
        assert k <= k < k + |pubs|;
      }
    }
  }

  /** One publication whose call does not throw: its entry, then the rest of the loop. */
  lemma LoopStep(longUrl: string, pubs: seq<string>, slugs: seq<string>, dom: string,
                 budget: int, script: (nat, nat) -> LinkApi.Reply, k: nat)
    requires |slugs| == |pubs| && pubs != []
    requires !Loop(longUrl, pubs, slugs, dom, budget, script, k).aborted
    ensures var run := LinkApi.ShortLinkRun(budget, script, k);
      var rest := Loop(longUrl, pubs[1..], slugs[1..], dom, budget, script, k + 1);
      && !run.outcome.Thrown?
      && !rest.aborted
      && Loop(longUrl, pubs, slugs, dom, budget, script, k).entries
         == [Entry(pubs[0], dom + "/" + slugs[0], run.outcome.ok, run.outcome.data)] + rest.entries
  {
  }

  /** When no call throws, there is one entry per publication, in list order, each with its
      own slug and from its own call. */
  lemma {:induction false} LoopEntries(longUrl: string, pubs: seq<string>, slugs: seq<string>, dom: string,
                                       budget: int, script: (nat, nat) -> LinkApi.Reply, k: nat)
    requires |slugs| == |pubs|
    requires !Loop(longUrl, pubs, slugs, dom, budget, script, k).aborted
    ensures var r := Loop(longUrl, pubs, slugs, dom, budget, script, k).entries;
      |r| == |pubs| &&
      forall i :: 0 <= i < |pubs| ==> EntryFor(r[i], pubs[i], slugs[i], dom, LinkApi.ShortLinkRun(budget, script, k + i))
    decreases |pubs|
  {
    if pubs != [] {
      var run := LinkApi.ShortLinkRun(budget, script, k);
      var rest := Loop(longUrl, pubs[1..], slugs[1..], dom, budget, script, k + 1);
      LoopStep(longUrl, pubs, slugs, dom, budget, script, k);
      LoopEntries(longUrl, pubs[1..], slugs[1..], dom, budget, script, k + 1);
      var e := Entry(pubs[0], dom + "/" + slugs[0], run.outcome.ok, run.outcome.data);
      EntriesCons(e, rest.entries, pubs, slugs, dom, budget, script, k);
    }
  }

  /** An entry for the first publication followed by entries for the rest, from the next
      call on, is an entry for every publication. */
  lemma EntriesCons(e: Entry, rest: seq<Entry>, pubs: seq<string>, slugs: seq<string>, dom: string,
                    budget: int, script: (nat, nat) -> LinkApi.Reply, k: nat)
    requires |slugs| == |pubs| && pubs != []
    requires EntryFor(e, pubs[0], slugs[0], dom, LinkApi.ShortLinkRun(budget, script, k))
    requires |rest| == |pubs| - 1
    requires forall i :: 0 <= i < |rest| ==>
      EntryFor(rest[i], pubs[1..][i], slugs[1..][i], dom, LinkApi.ShortLinkRun(budget, script, k + 1 + i))
    ensures var r := [e] + rest;
      forall i :: 0 <= i < |pubs| ==> EntryFor(r[i], pubs[i], slugs[i], dom, LinkApi.ShortLinkRun(budget, script, k + i))
  {
    var r := [e] + rest;
    forall i | 0 < i < |pubs|
      ensures EntryFor(r[i], pubs[i], slugs[i], dom, LinkApi.ShortLinkRun(budget, script, k + i))
    {
      assert r[i] == rest[i - 1] && pubs[i] == pubs[1..][i - 1] && slugs[i] == slugs[1..][i - 1];
      assert k + i == k + 1 + (i - 1);
    }
  }

  /** Every request in `sent` is for `longUrl` on `dom`, asking for one of `slugs`. */
  predicate SentFor(sent: seq<LinkApi.Request>, longUrl: string, dom: string, slugs: seq<string>) {
    forall j :: 0 <= j < |sent| ==> sent[j].url == longUrl && sent[j].domain == dom && sent[j].custom in slugs
  }

  /** Every request the loop sends is for `longUrl` on `dom`, asking for one of `slugs`. */
  lemma {:induction false} LoopSentRequests(longUrl: string, pubs: seq<string>, slugs: seq<string>, dom: string,
                                            budget: int, script: (nat, nat) -> LinkApi.Reply, k: nat)
    requires |slugs| == |pubs|
    ensures SentFor(Loop(longUrl, pubs, slugs, dom, budget, script, k).sent, longUrl, dom, slugs)
    decreases |pubs|
  {
    if pubs != [] {
      var run := LinkApi.ShortLinkRun(budget, script, k);
      var calls := Repeat(LinkApi.Request(longUrl, slugs[0], dom), run.calls);
      var s := Loop(longUrl, pubs, slugs, dom, budget, script, k).sent;
      if !run.outcome.Thrown? {
        var rest := Loop(longUrl, pubs[1..], slugs[1..], dom, budget, script, k + 1).sent;
        LoopSentRequests(longUrl, pubs[1..], slugs[1..], dom, budget, script, k + 1);
        assert s == calls + rest;
        forall j | |calls| <= j < |s| ensures s[j].custom in slugs {
          var t := j - |calls|;
          assert 0 <= t < |rest| && s[j] == rest[t];
          assert rest[t].custom in slugs[1..];
        }
      }
    }
  }

  /** The requests of the calls made for `slugs`, in order, the first being the `k`-th call
      against `script`: each call repeats its own request once per attempt. */
  function Calls(longUrl: string, slugs: seq<string>, dom: string,
                 budget: int, script: (nat, nat) -> LinkApi.Reply, k: nat): seq<LinkApi.Request>
    decreases |slugs|
  {
    if slugs == [] then []
    else Repeat(LinkApi.Request(longUrl, slugs[0], dom), LinkApi.ShortLinkRun(budget, script, k).calls)
         + Calls(longUrl, slugs[1..], dom, budget, script, k + 1)
  }

  /** The loop sends, in publication order, exactly the requests of each publication's own
      call: of every call when none throws, and otherwise of the calls up to and including
      the first that throws, the `f`-th. */
  lemma {:induction false} LoopSentCalls(longUrl: string, pubs: seq<string>, slugs: seq<string>, dom: string,
                                         budget: int, script: (nat, nat) -> LinkApi.Reply, k: nat)
    requires |slugs| == |pubs|
    ensures var r, n := Loop(longUrl, pubs, slugs, dom, budget, script, k), k + |pubs|;
      && (!r.aborted ==> r.sent == Calls(longUrl, slugs, dom, budget, script, k))
      && (r.aborted ==> exists f :: FirstThrow(budget, script, k, f, n)
                                    && r.sent == Calls(longUrl, slugs[..f - k + 1], dom, budget, script, k))
    decreases |pubs|
  {
    if pubs != [] {
      var run := LinkApi.ShortLinkRun(budget, script, k);
      var calls := Repeat(LinkApi.Request(longUrl, slugs[0], dom), run.calls);
      var rest := Loop(longUrl, pubs[1..], slugs[1..], dom, budget, script, k + 1);
      LoopSentCalls(longUrl, pubs[1..], slugs[1..], dom, budget, script, k + 1);
      if run.outcome.Thrown? {
        assert slugs[..1][1..] == [];
        assert Calls(longUrl, slugs[..1], dom, budget, script, k) == calls + [];
        assert FirstThrow(budget, script, k, k, k + |pubs|);
      } else if rest.aborted {
        var f :| FirstThrow(budget, script, k + 1, f, k + |pubs|)
                 && rest.sent == Calls(longUrl, slugs[1..][..f - k], dom, budget, script, k + 1);
        assert slugs[..f - k + 1][1..] == slugs[1..][..f - k];
        assert FirstThrow(budget, script, k, f, k + |pubs|);
      }
    }
  }

  /** The `f`-th call is the first from the `k`-th on, and before the `n`-th, that throws. */
  predicate FirstThrow(budget: int, script: (nat, nat) -> LinkApi.Reply, k: nat, f: int, n: int) {
    k <= f < n && Throws(budget, script, f) && forall j: nat :: k <= j < f ==> !Throws(budget, script, j)
  }

  /** Without a usable `pubs` array exactly one link is made, for the literal publication
      "default", whose slug carries the segment "default" between campaign and date. */
  lemma DefaultPublication(campaign: string, date: string, pubs: Option<seq<string>>)
    requires pubs.None? || pubs.value == []
    ensures PubList(pubs) == ["default"]
    ensures SlugFor(campaign, PubList(pubs)[0], date) == JoinSlugs(Slugify(campaign), "default", Slugify(date))
    ensures RemoveDashes(SlugFor(campaign, PubList(pubs)[0], date)) == Alnums(campaign) + "default" + Alnums(date)
  {
    var pub := PubList(pubs)[0];
    assert forall i :: 0 <= i < |pub| ==> IsAlnum(pub[i]);
    AlnumPublication(campaign, pub, date);
  }

  /** A publication name made only of letters and digits appears in the slug unchanged. */
  lemma AlnumPublication(campaign: string, pub: string, date: string)
    requires forall i :: 0 <= i < |pub| ==> IsAlnum(pub[i])
    ensures SlugFor(campaign, pub, date) == JoinSlugs(Slugify(campaign), pub, Slugify(date))
    ensures RemoveDashes(SlugFor(campaign, pub, date)) == Alnums(campaign) + pub + Alnums(date)
  {
    AlnumWord(pub);
    SlugForShape(campaign, pub, date);
  }

  /** The `POST` handler. Without `longUrl`, `campaign` or `date` it answers 400 and calls
      nothing. Otherwise `results` has one entry per publication, in list order, each
      from its own call with the default retry budget, failed ones included; a rejected
      `fetch` aborts the handler. */
  method Post(body: CreateBody, env: Option<string>, script: (nat, nat) -> LinkApi.Reply)
    returns (resp: CreateResponse, sent: seq<LinkApi.Request>)
    ensures !HasRequiredFields(body) ==> resp == MissingFields && sent == []
    ensures HasRequiredFields(body) ==>
      var pubs := PubList(body.pubs);
      var dom := ChosenDomain(body.domain, env);
      var budget := LinkApi.DefaultMaxRetries;
      && !resp.MissingFields?
      && (resp.Aborted? <==> exists i :: 0 <= i < |pubs| && Throws(budget, script, i))
      && (resp.Results? ==>
            |resp.results| == |pubs| &&
            forall i :: 0 <= i < |pubs| ==>
              EntryFor(resp.results[i], pubs[i], SlugFor(body.campaign.value, pubs[i], body.date.value), dom,
                       LinkApi.ShortLinkRun(budget, script, i)))
      && sent == Loop(body.longUrl.value, pubs, PubSlugs(Slugify(body.campaign.value), pubs, Slugify(body.date.value)),
                      dom, budget, script, 0).sent
      && forall j :: 0 <= j < |sent| ==>
            sent[j].url == body.longUrl.value && sent[j].domain == dom && IsSlug(sent[j].custom)
  {
    if !(Present(body.longUrl) && Present(body.campaign) && Present(body.date)) {
      return MissingFields, [];
    }
    var campaignSlug := Slugify(body.campaign.value);
    var dateSlug := Slugify(body.date.value);
    var pubList := PubList(body.pubs);
    var dom := ChosenDomain(body.domain, env);
    var aborted, results;
    aborted, results, sent := CreateAll(body.longUrl.value, campaignSlug, pubList, dateSlug, dom,
                                        LinkApi.DefaultMaxRetries, script);
    resp := if aborted then Aborted else Results(results);
    var longUrl, campaign, date := body.longUrl.value, body.campaign.value, body.date.value;
    LoopAbortFact(longUrl, campaign, date, pubList, dom, LinkApi.DefaultMaxRetries, script);
    LoopSentFact(longUrl, campaign, date, pubList, dom, LinkApi.DefaultMaxRetries, script);
    if !aborted {
      LoopEntryFacts(longUrl, campaign, date, pubList, dom, LinkApi.DefaultMaxRetries, script);
    }
  }

  /** The handler's loop aborts exactly when some call throws. */
  lemma LoopAbortFact(longUrl: string, campaign: string, date: string, pubs: seq<string>, dom: string,
                      budget: int, script: (nat, nat) -> LinkApi.Reply)
    ensures Loop(longUrl, pubs, PubSlugs(Slugify(campaign), pubs, Slugify(date)), dom, budget, script, 0).aborted
        <==> exists i :: 0 <= i < |pubs| && Throws(budget, script, i)
  {
    LoopAbortsIff(longUrl, pubs, PubSlugs(Slugify(campaign), pubs, Slugify(date)), dom, budget, script, 0);
  }

  /** When the handler's loop does not abort it has one entry per publication, each with
      that publication's slug and from its own call. */
  lemma LoopEntryFacts(longUrl: string, campaign: string, date: string, pubs: seq<string>, dom: string,
                       budget: int, script: (nat, nat) -> LinkApi.Reply)
    requires !Loop(longUrl, pubs, PubSlugs(Slugify(campaign), pubs, Slugify(date)), dom, budget, script, 0).aborted
    ensures var r := Loop(longUrl, pubs, PubSlugs(Slugify(campaign), pubs, Slugify(date)), dom, budget, script, 0);
      |r.entries| == |pubs| &&
      forall i :: 0 <= i < |pubs| ==>
        EntryFor(r.entries[i], pubs[i], SlugFor(campaign, pubs[i], date), dom, LinkApi.ShortLinkRun(budget, script, i))
  {
    var campaignSlug, dateSlug := Slugify(campaign), Slugify(date);
    var slugs := PubSlugs(campaignSlug, pubs, dateSlug);
    LoopEntries(longUrl, pubs, slugs, dom, budget, script, 0);
    PubSlugsAt(campaignSlug, pubs, dateSlug);
    var r := Loop(longUrl, pubs, slugs, dom, budget, script, 0);
    forall i | 0 <= i < |pubs|
      ensures EntryFor(r.entries[i], pubs[i], SlugFor(campaign, pubs[i], date), dom, LinkApi.ShortLinkRun(budget, script, i))
    {
      assert EntryFor(r.entries[i], pubs[i], slugs[i], dom, LinkApi.ShortLinkRun(budget, script, 0 + i));
      assert slugs[i] == PubSlug(campaignSlug, pubs[i], dateSlug) == SlugFor(campaign, pubs[i], date);
    }
  }

  /** Every request of the handler's loop is for `longUrl` on `dom` and asks for a slug. */
  lemma LoopSentFact(longUrl: string, campaign: string, date: string, pubs: seq<string>, dom: string,
                     budget: int, script: (nat, nat) -> LinkApi.Reply)
    ensures var r := Loop(longUrl, pubs, PubSlugs(Slugify(campaign), pubs, Slugify(date)), dom, budget, script, 0);
      forall j :: 0 <= j < |r.sent| ==> r.sent[j].url == longUrl && r.sent[j].domain == dom && IsSlug(r.sent[j].custom)
  {
    var campaignSlug, dateSlug := Slugify(campaign), Slugify(date);
    var slugs := PubSlugs(campaignSlug, pubs, dateSlug);
    LoopSentRequests(longUrl, pubs, slugs, dom, budget, script, 0);
    PubSlugsAreSlugs(campaignSlug, pubs, dateSlug);
  }
}
