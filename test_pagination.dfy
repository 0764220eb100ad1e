/** `GET /api/test-pagination` (app/api/test-pagination/route.ts): a mock of the link
    service's paging over 150 links, reporting page arithmetic and the flags a client's
    page loop would use. */
module TestPagination {
  import opened Paging

  const TotalLinks: nat := 150

  function Min(a: int, b: int): int { if a <= b then a else b }
  function Max(a: int, b: int): int { if a >= b then a else b }

  /** `Math.ceil(totalLinks / limit)`. */
  function TotalPages(limit: int): nat
    requires limit >= 1
  {
    CeilDiv(TotalLinks, limit)
  }

  function StartIndex(page: int, limit: int): int {
    (page - 1) * limit
  }

  function EndIndex(page: int, limit: int): int {
    Min(StartIndex(page, limit) + limit, TotalLinks)
  }

  /** `Math.max(0, endIndex - startIndex)`: never more than a page. */
  function LinksOnPage(page: int, limit: int): (n: nat)
    requires limit >= 1
    ensures n <= limit
  {
    Max(0, EndIndex(page, limit) - StartIndex(page, limit))
  }

  /** The ids of the mock urls: `new Array(n).fill(null).map((_, i) => startIndex + i + 1)`. */
  function MockIds(page: int, limit: int): (ids: seq<int>)
    requires limit >= 1
    ensures |ids| == LinksOnPage(page, limit)
  {
    seq(LinksOnPage(page, limit), i => StartIndex(page, limit) + i + 1)
  }

  /** The fields of the response body that carry logic. */
  datatype Report = Report(
    currentPage: int,
    urlsCount: nat,
    totalPages: nat,
    hasNextPage: bool,
    hasPrevPage: bool,
    isLastPage: bool,
    shouldStopLoading: bool,
    linksOnThisPage: nat,
    isFullPage: bool,
    shouldContinue: bool)

  /** The handler, for the parsed `page` and `limit`. */
  function Get(page: int, limit: int): (r: Report)
    requires limit >= 1
    ensures r.urlsCount == r.linksOnThisPage <= limit
    ensures r.totalPages * limit >= TotalLinks
  {
    var total := TotalPages(limit);
    var n := LinksOnPage(page, limit);
    Report(
      currentPage := page,
      urlsCount := |MockIds(page, limit)|,
      totalPages := total,
      hasNextPage := page < total,
      hasPrevPage := page > 1,
      isLastPage := page >= total,
      shouldStopLoading := page >= total || n < limit,
      linksOnThisPage := n,
      isFullPage := n == limit,
      shouldContinue := page < total && n == limit)
  }

  /** Pages before the last are full, the last one holds the remainder (at least one
      link), and pages after it hold nothing. */
  lemma PageSizes(page: int, limit: int)
    requires limit >= 1 && page >= 1
    ensures var total, n := TotalPages(limit), LinksOnPage(page, limit);
      && (page < total ==> n == limit)
      && (page == total ==> n == TotalLinks - (total - 1) * limit && n >= 1)
      && (page > total ==> n == 0)
  {
    var total := TotalPages(limit);
    if page < total {
      MulLess(page, total, limit);
    } else if page > total {
      MulLess(total - 1, page - 1, limit);
    }
  }

  /** `a < b` and `c >= 1` give `a * c <= (b - 1) * c`. */
  lemma MulLess(a: int, b: int, c: int)
    requires a < b && c >= 1
    ensures a * c <= (b - 1) * c
  {
  }

  /** The flags are consistent: `shouldContinue` is `hasNextPage`, `shouldStopLoading` is
      `isLastPage`, and the two never hold together. */
  lemma FlagsAgree(page: int, limit: int)
    requires limit >= 1 && page >= 1
    ensures var r := Get(page, limit);
      && r.shouldContinue == r.hasNextPage
      && r.shouldStopLoading == r.isLastPage
      && r.hasNextPage == !r.isLastPage
      && !(r.shouldContinue && r.shouldStopLoading)
  {
    PageSizes(page, limit);
  }

  /** The mock ids of pages `1..k`, in page order. */
  function IdsUpTo(k: nat, limit: int): seq<int>
    requires limit >= 1
  {
    if k == 0 then [] else IdsUpTo(k - 1, limit) + MockIds(k, limit)
  }

  /** The ids of `linksOnThisPage` summed over pages `1..k`. */
  function LinksUpTo(k: nat, limit: int): nat
    requires limit >= 1
  {
    if k == 0 then 0 else LinksUpTo(k - 1, limit) + LinksOnPage(k, limit)
  }

  /** Pages `1..k` hold the links `1..min(k * limit, 150)`, each once, in order. */
  lemma {:induction false} IdsUpToPrefix(k: nat, limit: int)
    requires limit >= 1
    ensures IdsUpTo(k, limit) == seq(Min(k * limit, TotalLinks), i => i + 1)
    ensures LinksUpTo(k, limit) == Min(k * limit, TotalLinks)
  {
    if k > 0 {
      IdsUpToPrefix(k - 1, limit);
      var start := (k - 1) * limit;
      assert k * limit == start + limit;
      assert StartIndex(k, limit) == start;
      var before := IdsUpTo(k - 1, limit);
      var here := MockIds(k, limit);
      var all := IdsUpTo(k, limit);
      if start >= TotalLinks {
        assert here == [];
        assert all == before;
      } else {
        var m := Min(k * limit, TotalLinks);
        assert |all| == m;
        forall i | 0 <= i < m ensures all[i] == i + 1 {
          if i < start {
            assert all[i] == before[i];
          } else {
            assert all[i] == here[i - start];
          }
        }
      }
    }
  }

  /** Walking pages `1..totalPages` yields every one of the 150 links exactly once, in
      order: the page sizes add up to 150. */
  lemma PagesCoverAllLinks(limit: int)
    requires limit >= 1
    ensures IdsUpTo(TotalPages(limit), limit) == seq(TotalLinks, i => i + 1)
    ensures LinksUpTo(TotalPages(limit), limit) == TotalLinks
  {
    IdsUpToPrefix(TotalPages(limit), limit);
  }
}
