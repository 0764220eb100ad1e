/** What the reports endpoint and the reports page share: the enhanced link record, the
    campaign and search filters, and the summary (totals and the per-URL table, where a
    later link with the same short URL replaces an earlier one). */
module Reporting {
  import opened Text

  /** A link as the reports endpoint returns it. Dates are timestamps; `uniqueClicks` is
      already defaulted to 0. */
  datatype Link = Link(
    id: int, shorturl: string, longurl: string, title: string, description: string,
    clicks: int, uniqueClicks: int, campaign: string, createdAt: int)

  /** `hay.toLowerCase().includes(query.toLowerCase())`. */
  predicate MatchesLower(hay: string, query: string) {
    Contains(Lower(hay), Lower(query))
  }

  /** The campaign filter: the campaign name contains the filter, ignoring case. */
  predicate CampaignMatches(link: Link, filter: string) {
    MatchesLower(link.campaign, filter)
  }

  /** The search filter: one of description, long URL, short URL or title contains the
      query, ignoring case. */
  predicate SearchMatches(link: Link, query: string) {
    || MatchesLower(link.description, query)
    || MatchesLower(link.longurl, query)
    || MatchesLower(link.shorturl, query)
    || MatchesLower(link.title, query)
  }

  /** `links.filter(keep)`. */
  function Filter(links: seq<Link>, keep: Link -> bool): (r: seq<Link>)
    ensures |r| <= |links|
    ensures forall i :: 0 <= i < |r| ==> keep(r[i])
  {
    if links == [] then []
    else if keep(links[0]) then [links[0]] + Filter(links[1..], keep)
    else Filter(links[1..], keep)
  }

  /** `filter` keeps exactly the elements that pass, each as often as it occurs. */
  lemma {:induction false} FilterCounts(links: seq<Link>, keep: Link -> bool)
    ensures forall l :: multiset(Filter(links, keep))[l] == if keep(l) then multiset(links)[l] else 0
  {
    if links != [] {
      FilterCounts(links[1..], keep);
      assert links == [links[0]] + links[1..];
    }
  }

  /** Filtering a concatenation filters each part. */
  lemma {:induction false} FilterAppend(a: seq<Link>, b: seq<Link>, keep: Link -> bool)
    ensures Filter(a + b, keep) == Filter(a, keep) + Filter(b, keep)
  {
    if a == [] {
      assert a + b == b;
    } else {
      var x, t := a[0], a[1..];
      var head := if keep(x) then [x] else [];
      assert a == [x] + t;
      assert a + b == [x] + (t + b);
      calc {
        Filter(a + b, keep);
        { FilterCons(x, t + b, keep); }
        head + Filter(t + b, keep);
        { FilterAppend(t, b, keep); }
        head + (Filter(t, keep) + Filter(b, keep));
        (head + Filter(t, keep)) + Filter(b, keep);
        { FilterCons(x, t, keep); }
        Filter(a, keep) + Filter(b, keep);
      }
    }
  }

  /** Filtering a sequence with a known first element. */
  lemma FilterCons(x: Link, t: seq<Link>, keep: Link -> bool)
    ensures Filter([x] + t, keep) == (if keep(x) then [x] else []) + Filter(t, keep)
  {
    assert ([x] + t)[1..] == t;
  }

  /** `filter` keeps the elements' order: what it drops, it drops in place. */
  lemma FilterKeepsOrder(links: seq<Link>, keep: Link -> bool, i: nat, j: nat)
    requires i < j < |links| && keep(links[i]) && keep(links[j])
    ensures exists a, b :: (0 <= a < b < |Filter(links, keep)| &&
      Filter(links, keep)[a] == links[i] && Filter(links, keep)[b] == links[j])
  {
    var x, y := links[i], links[j];
    var pre, mid, post := links[..i], links[i + 1..j], links[j + 1..];
    var tail := [y] + post;
    var rest := mid + tail;
    assert links == pre + ([x] + rest);
    FilterAppend(pre, [x] + rest, keep);
    FilterAppend([x], rest, keep);
    FilterAppend(mid, tail, keep);
    FilterAppend([y], post, keep);
    assert [x][1..] == [] && [y][1..] == [];
    var fp, fm, fq := Filter(pre, keep), Filter(mid, keep), Filter(post, keep);
    var r := Filter(links, keep);
    assert r == fp + ([x] + (fm + ([y] + fq)));
    var a, b := |fp|, |fp| + 1 + |fm|;
    assert r[a] == x && r[b] == y;
  }

  /** The sum of `clicks`. */
  function TotalClicks(links: seq<Link>): int {
    if links == [] then 0 else links[0].clicks + TotalClicks(links[1..])
  }

  /** The sum of `uniqueClicks || 0`. */
  function TotalUniqueClicks(links: seq<Link>): int {
    if links == [] then 0 else links[0].uniqueClicks + TotalUniqueClicks(links[1..])
  }

  lemma {:induction false} TotalsAppend(a: seq<Link>, b: seq<Link>)
    ensures TotalClicks(a + b) == TotalClicks(a) + TotalClicks(b)
    ensures TotalUniqueClicks(a + b) == TotalUniqueClicks(a) + TotalUniqueClicks(b)
  {
    if a != [] {
      TotalsAppend(a[1..], b);
      assert (a + b)[1..] == a[1..] + b;
    } else {
      assert a + b == b;
    }
  }

  /** Totals depend only on which links there are, not on their order. */
  lemma {:induction false} TotalsOfPermutation(a: seq<Link>, b: seq<Link>)
    requires multiset(a) == multiset(b)
    ensures TotalClicks(a) == TotalClicks(b) && TotalUniqueClicks(a) == TotalUniqueClicks(b)
    decreases |a|
  {
    if a != [] {
      var x := a[0];
      assert a == [x] + a[1..];
      var k := IndexOf(b, x);
      var rest := RemoveAt(b, k);
      assert multiset(a[1..]) == multiset(rest);
      TotalsOfPermutation(a[1..], rest);
    }
  }

  /** A position of an element the sequence holds. */
  lemma IndexOf(b: seq<Link>, x: Link) returns (k: nat)
    requires x in multiset(b)
    ensures k < |b| && b[k] == x
  {
    assert x in b;
    k :| 0 <= k < |b| && b[k] == x;
  }

  /** `b` without its `k`-th element. */
  function RemoveAt(b: seq<Link>, k: nat): (r: seq<Link>)
    requires k < |b|
    ensures multiset(r) == multiset(b) - multiset{b[k]}
    ensures TotalClicks(b) == b[k].clicks + TotalClicks(r)
    ensures TotalUniqueClicks(b) == b[k].uniqueClicks + TotalUniqueClicks(r)
  {
    var front, back := b[..k], b[k + 1..];
    assert b == front + ([b[k]] + back);
    assert multiset(b) == multiset(front) + multiset{b[k]} + multiset(back);
    TotalsAppend(front, [b[k]] + back);
    assert ([b[k]] + back)[1..] == back;
    TotalsAppend(front, back);
    front + back
  }

  /** One row of `clicksByUrl`. */
  datatype UrlStats = UrlStats(title: string, clicks: int, uniqueClicks: int)

  /** `link.title || link.description || link.shorturl`. */
  function DisplayTitle(link: Link): string {
    if link.title != [] then link.title else if link.description != [] then link.description else link.shorturl
  }

  function StatsOf(link: Link): UrlStats {
    UrlStats(DisplayTitle(link), link.clicks, link.uniqueClicks)
  }

  /** `links.reduce((acc, link) => { acc[link.shorturl] = stats(link); return acc; }, {})`. */
  function ClicksByUrl(links: seq<Link>): map<string, UrlStats> {
    if links == [] then map[]
    else ClicksByUrl(links[..|links| - 1])[links[|links| - 1].shorturl := StatsOf(links[|links| - 1])]
  }

  /** `links[i]` is the last link whose short URL is `u`. */
  predicate LastWith(links: seq<Link>, u: string, i: int) {
    0 <= i < |links| && links[i].shorturl == u && forall j :: i < j < |links| ==> links[j].shorturl != u
  }

  /** `clicksByUrl` has one row per distinct short URL. */
  lemma {:induction false} ClicksByUrlKeys(links: seq<Link>)
    ensures ClicksByUrl(links).Keys == set l | l in links :: l.shorturl
  {
    if links != [] {
      var init, last := links[..|links| - 1], links[|links| - 1];
      ClicksByUrlKeys(init);
      assert links == init + [last];
      assert (set l | l in links :: l.shorturl) == (set l | l in init :: l.shorturl) + {last.shorturl};
    }
  }

  /** Each row of `clicksByUrl` comes from the last link with that short URL. */
  lemma {:induction false} ClicksByUrlLastWins(links: seq<Link>)
    ensures forall u :: u in ClicksByUrl(links) ==>
      exists i :: LastWith(links, u, i) && ClicksByUrl(links)[u] == StatsOf(links[i])
  {
    if links != [] {
      var init, last := links[..|links| - 1], links[|links| - 1];
      ClicksByUrlLastWins(init);
      var m := ClicksByUrl(links);
      forall u | u in m ensures exists i :: LastWith(links, u, i) && m[u] == StatsOf(links[i]) {
        if u == last.shorturl {
          assert LastWith(links, u, |links| - 1);
        } else {
          assert m == ClicksByUrl(init)[last.shorturl := StatsOf(last)];
          assert u in ClicksByUrl(init) && m[u] == ClicksByUrl(init)[u];
          var i :| LastWith(init, u, i) && ClicksByUrl(init)[u] == StatsOf(init[i]);
          assert links[i] == init[i];
          forall j | i < j < |links| ensures links[j].shorturl != u {
            if j < |init| {
              assert links[j] == init[j];
            }
          }
          assert LastWith(links, u, i);
        }
      }
    }
  }

  /** The summary block. */
  datatype Summary = Summary(totalLinks: nat, totalClicks: int, totalUniqueClicks: int, clicksByUrl: map<string, UrlStats>)

  /** The summary of a list of links: its length, its click totals and its per-URL table. */
  function Summarize(links: seq<Link>): (s: Summary)
    ensures s.totalLinks == |links|
    ensures s.clicksByUrl.Keys == set l | l in links :: l.shorturl
  {
    ClicksByUrlKeys(links);
    Summary(|links|, TotalClicks(links), TotalUniqueClicks(links), ClicksByUrl(links))
  }
}
