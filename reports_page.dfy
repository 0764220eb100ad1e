/** The reports page (app/reports/page.tsx): filter the loaded links, sort them by the
    chosen column, summarise the current view, cut out the current page and number the
    page buttons. Date inputs arrive parsed; `Array.prototype.sort` is modelled by an
    insertion sort. */
module ReportsPage {
  import opened Js
  import opened Text
  import opened Reporting
  import opened Paging
  import opened Numbers

  // ---------------------------------------------------------------------------
  // Filters

  /** A date input after `new Date(...)`: empty, a valid instant, or an invalid date. */
  datatype DateInput = NoDate | At(t: int) | InvalidDate

  /** The page's filter fields. `dateTo` is the instant of `dateTo + 'T23:59:59'`. */
  datatype Filters = Filters(campaign: string, search: string, minClicks: string, dateFrom: DateInput, dateTo: DateInput)

  const NoFilters := Filters("all", "", "", NoDate, NoDate)

  /** The filter callback. A `minClicks` that is not a number, and an invalid date,
      compare false and so drop nothing. */
  predicate Keeps(link: Link, f: Filters) {
    && (f.campaign == "all" || CampaignMatches(link, f.campaign))
    && (f.search == [] || SearchMatches(link, f.search))
    && (f.minClicks == [] || ParseInt(f.minClicks).None? || link.clicks >= ParseInt(f.minClicks).value)
    && (!f.dateFrom.At? || link.createdAt >= f.dateFrom.t)
    && (!f.dateTo.At? || link.createdAt <= f.dateTo.t)
  }

  /** With the filters reset every link is kept. */
  lemma NoFiltersKeepAll(links: seq<Link>)
    ensures Filter(links, l => Keeps(l, NoFilters)) == links
  {
    if links != [] {
      NoFiltersKeepAll(links[1..]);
    }
  }

  // ---------------------------------------------------------------------------
  // Sorting

  datatype SortField = Description | ShortUrl | LongUrl | Campaign | Clicks | CreatedAt
  datatype Direction = Asc | Desc

  /** JavaScript's `<` on strings, character by character, a proper prefix first. Dafny
      characters are code points, so this matches `<` on UTF-16 code units for text
      without characters beyond U+FFFF. */
  predicate LexLess(a: string, b: string) {
    if b == [] then false
    else if a == [] then true
    else if a[0] != b[0] then a[0] < b[0]
    else LexLess(a[1..], b[1..])
  }

  lemma {:induction false} LexLessTrans(a: string, b: string, c: string)
    requires LexLess(a, b) && LexLess(b, c)
    ensures LexLess(a, c)
  {
    if a != [] && a[0] == b[0] && b[0] == c[0] {
      LexLessTrans(a[1..], b[1..], c[1..]);
    }
  }

  lemma {:induction false} LexLessTotal(a: string, b: string)
    ensures a == b || LexLess(a, b) || LexLess(b, a)
    ensures !(LexLess(a, b) && LexLess(b, a))
  {
    if a != [] && b != [] && a[0] == b[0] {
      LexLessTotal(a[1..], b[1..]);
      if a[1..] == b[1..] {
        assert a == [a[0]] + a[1..] && b == [b[0]] + b[1..];
      }
    }
  }

  /** The comparator's view of a link: `Number(clicks)`, `new Date(createdAt)`, or the
      lower-cased text of the column. */
  datatype Key = NumKey(n: int) | TextKey(s: string)

  function KeyOf(link: Link, field: SortField): Key {
    match field
    case Clicks => NumKey(link.clicks)
    case CreatedAt => NumKey(link.createdAt)
    case Description => TextKey(Lower(link.description))
    case ShortUrl => TextKey(Lower(link.shorturl))
    case LongUrl => TextKey(Lower(link.longurl))
    case Campaign => TextKey(Lower(link.campaign))
  }

  predicate KeyLess(a: Key, b: Key) {
    match (a, b)
    case (NumKey(x), NumKey(y)) => x < y
    case (TextKey(x), TextKey(y)) => LexLess(x, y)
    case _ => false
  }

  /** The sort callback: negative when `a` goes first, positive when `b` does. */
  function Compare(a: Link, b: Link, field: SortField, dir: Direction): int {
    var ka, kb := KeyOf(a, field), KeyOf(b, field);
    if KeyLess(ka, kb) then (if dir == Asc then -1 else 1)
    else if KeyLess(kb, ka) then (if dir == Asc then 1 else -1)
    else 0
  }

  /** `a` may stand before `b`. */
  predicate Le(a: Link, b: Link, field: SortField, dir: Direction) {
    Compare(a, b, field, dir) <= 0
  }

  lemma LeTotal(a: Link, b: Link, field: SortField, dir: Direction)
    ensures Le(a, b, field, dir) || Le(b, a, field, dir)
  {
    var ka, kb := KeyOf(a, field), KeyOf(b, field);
    if ka.TextKey? && kb.TextKey? {
      LexLessTotal(ka.s, kb.s);
    }
  }

  lemma LeTrans(a: Link, b: Link, c: Link, field: SortField, dir: Direction)
    requires Le(a, b, field, dir) && Le(b, c, field, dir)
    ensures Le(a, c, field, dir)
  {
    var ka, kb, kc := KeyOf(a, field), KeyOf(b, field), KeyOf(c, field);
    if ka.TextKey? {
      LexLessTotal(ka.s, kb.s);
      LexLessTotal(kb.s, kc.s);
      LexLessTotal(ka.s, kc.s);
      if LexLess(kb.s, ka.s) && LexLess(kc.s, kb.s) {
        LexLessTrans(kc.s, kb.s, ka.s);
      }
      if LexLess(ka.s, kb.s) && LexLess(kb.s, kc.s) {
        LexLessTrans(ka.s, kb.s, kc.s);
      }
    }
  }

  /** Ordered by the column in the direction: no later link should come first. */
  predicate Sorted(s: seq<Link>, field: SortField, dir: Direction) {
    forall i, j :: 0 <= i < j < |s| ==> Le(s[i], s[j], field, dir)
  }

  /** Put `x` before the first link it may precede. */
  function Insert(x: Link, s: seq<Link>, field: SortField, dir: Direction): (r: seq<Link>)
    ensures multiset(r) == multiset(s) + multiset{x}
  {
    if s == [] || Le(x, s[0], field, dir) then [x] + s
    else
      assert s == [s[0]] + s[1..];
      [s[0]] + Insert(x, s[1..], field, dir)
  }

  lemma {:induction false} InsertSorted(x: Link, s: seq<Link>, field: SortField, dir: Direction)
    requires Sorted(s, field, dir)
    ensures Sorted(Insert(x, s, field, dir), field, dir)
  {
    var r := Insert(x, s, field, dir);
    if s == [] {
    } else if Le(x, s[0], field, dir) {
      forall j | 1 <= j < |r| ensures Le(r[0], r[j], field, dir) {
        if j > 1 {
          LeTrans(x, s[0], s[j - 1], field, dir);
        }
      }
    } else {
      LeTotal(x, s[0], field, dir);
      InsertSorted(x, s[1..], field, dir);
      var t := Insert(x, s[1..], field, dir);
      assert r == [s[0]] + t;
      HeadPrecedesTail(s, field, dir);
      InsertMembers(x, s[1..], field, dir);
      forall j | 0 <= j < |t| ensures Le(s[0], t[j], field, dir) {
        assert t[j] in t;
      }
    }
  }

  /** The first link of a sorted list may precede every later one. */
  lemma HeadPrecedesTail(s: seq<Link>, field: SortField, dir: Direction)
    requires Sorted(s, field, dir) && s != []
    ensures forall y :: y in s[1..] ==> Le(s[0], y, field, dir)
  {
    forall y | y in s[1..] ensures Le(s[0], y, field, dir) {
      var k :| 0 <= k < |s[1..]| && s[1..][k] == y;
      assert s[k + 1] == y;
    }
  }

  /** The links of `Insert(x, s)` are `x` and those of `s`. */
  lemma InsertMembers(x: Link, s: seq<Link>, field: SortField, dir: Direction)
    ensures forall y :: y in Insert(x, s, field, dir) ==> y == x || y in s
  {
    var r := Insert(x, s, field, dir);
    forall y | y in r ensures y == x || y in s {
      assert y in multiset(r);
    }
  }

  /** `links.sort(compare)`: the same links, ordered by the comparator. */
  function SortLinks(links: seq<Link>, field: SortField, dir: Direction): (r: seq<Link>)
    ensures multiset(r) == multiset(links)
    ensures Sorted(r, field, dir)
  {
    if links == [] then []
    else
      var rest := SortLinks(links[1..], field, dir);
      InsertSorted(links[0], rest, field, dir);
      assert links == [links[0]] + links[1..];
      Insert(links[0], rest, field, dir)
  }

  /** `filteredAndSortedLinks`. */
  function FilteredAndSorted(all: seq<Link>, f: Filters, field: SortField, dir: Direction): seq<Link> {
    if all == [] then [] else SortLinks(Filter(all, l => Keeps(l, f)), field, dir)
  }

  /** The view holds exactly the links that pass every filter, each as often as it was
      loaded, ordered by the chosen column; its totals are those of the filtered links. */
  lemma FilteredAndSortedSpec(all: seq<Link>, f: Filters, field: SortField, dir: Direction)
    ensures var r := FilteredAndSorted(all, f, field, dir);
      && (forall l :: multiset(r)[l] == if Keeps(l, f) then multiset(all)[l] else 0)
      && Sorted(r, field, dir)
      && Summarize(r).totalClicks == TotalClicks(Filter(all, l => Keeps(l, f)))
      && Summarize(r).totalUniqueClicks == TotalUniqueClicks(Filter(all, l => Keeps(l, f)))
  {
    var keep := l => Keeps(l, f);
    FilterCounts(all, keep);
    TotalsOfPermutation(FilteredAndSorted(all, f, field, dir), Filter(all, keep));
  }

  // ---------------------------------------------------------------------------
  // Page buttons

  /** The page numbers on the buttons: `Array.from({ length: Math.min(5, totalPages) }, ...)`. */
  function PageNumbers(totalPages: nat, currentPage: int): (r: seq<int>)
    ensures |r| == if totalPages < 5 then totalPages else 5
  {
    var n := if totalPages < 5 then totalPages else 5;
    seq(n, i =>
      if totalPages <= 5 then i + 1
      else if currentPage <= 3 then i + 1
      else if currentPage >= totalPages - 2 then totalPages - 4 + i
      else currentPage - 2 + i)
  }

  /** The buttons are consecutive page numbers, all of them real pages, and the current
      page has a button whenever it is a real page. */
  lemma PageNumbersWindow(totalPages: nat, currentPage: int)
    ensures var r := PageNumbers(totalPages, currentPage);
      && (forall i :: 0 <= i < |r| - 1 ==> r[i + 1] == r[i] + 1)
      && (forall i :: 0 <= i < |r| ==> 1 <= r[i] <= totalPages)
      && (1 <= currentPage <= totalPages ==> currentPage in r)
  {
    var r := PageNumbers(totalPages, currentPage);
    if 1 <= currentPage <= totalPages {
      if totalPages <= 5 || currentPage <= 3 {
        assert r[currentPage - 1] == currentPage;
      } else if currentPage >= totalPages - 2 {
        assert r[currentPage - totalPages + 4] == currentPage;
      } else {
        assert r[2] == currentPage;
      }
    }
  }

  // ---------------------------------------------------------------------------
  // The page's state

  class ReportsView {
    var allLinks: seq<Link>
    var filters: Filters
    var sortField: SortField
    var sortDirection: Direction
    var showTable: bool
    var currentPage: int
    var itemsPerPage: int

    predicate Valid()
      reads this
    {
      itemsPerPage >= 1
    }

    constructor (links: seq<Link>)
      ensures Valid()
      ensures allLinks == links && filters == NoFilters && sortField == CreatedAt && sortDirection == Desc
      ensures !showTable && currentPage == 1 && itemsPerPage == 50
    {
      allLinks, filters, sortField, sortDirection := links, NoFilters, CreatedAt, Desc;
      showTable, currentPage, itemsPerPage := false, 1, 50;
    }

    /** The rows of the view. */
    function Rows(): seq<Link>
      reads this
    {
      FilteredAndSorted(allLinks, filters, sortField, sortDirection)
    }

    /** `currentViewSummary`. */
    function CurrentSummary(): (s: Summary)
      reads this
      ensures s.totalLinks == |Rows()|
    {
      Summarize(Rows())
    }

    function TotalPages(): nat
      reads this
      requires Valid()
    {
      CeilDiv(|Rows()|, itemsPerPage)
    }

    /** `paginatedLinks`: at most one page of the view, starting after the earlier pages. */
    function PageRows(): (r: seq<Link>)
      reads this
      requires Valid()
      ensures currentPage >= 1 ==> |r| <= itemsPerPage
      ensures currentPage >= 1 ==> (r == [] <==> (currentPage - 1) * itemsPerPage >= |Rows()|)
    {
      var r := Page(Rows(), currentPage, itemsPerPage);
      if currentPage >= 1 then PageWindow(Rows(), currentPage, itemsPerPage); r else r
    }

    /** A change to any filter; the page's effect on the filter fields then goes back to
        page 1. */
    method SetFilters(f: Filters)
      requires Valid()
      modifies this
      ensures Valid()
      ensures filters == f && currentPage == 1
      ensures allLinks == old(allLinks) && sortField == old(sortField) && sortDirection == old(sortDirection)
      ensures showTable == old(showTable) && itemsPerPage == old(itemsPerPage)
    {
      filters := f;
      currentPage := 1;
    }

    /** The page-size selector (10 to 500 rows); the effect goes back to page 1. */
    method SetItemsPerPage(n: int)
      requires Valid() && n >= 1
      modifies this
      ensures Valid()
      ensures itemsPerPage == n && currentPage == 1
      ensures allLinks == old(allLinks) && filters == old(filters) && sortField == old(sortField)
      ensures sortDirection == old(sortDirection) && showTable == old(showTable)
    {
      itemsPerPage := n;
      currentPage := 1;
    }

    /** `runReport`: show the table from its first page. */
    method RunReport()
      requires Valid()
      modifies this
      ensures Valid()
      ensures showTable && currentPage == 1
      ensures allLinks == old(allLinks) && filters == old(filters) && sortField == old(sortField)
      ensures sortDirection == old(sortDirection) && itemsPerPage == old(itemsPerPage)
    {
      showTable := true;
      currentPage := 1;
    }

    /** `handleSort`: the same column flips the direction, another column is sorted
        ascending. */
    method HandleSort(field: SortField)
      requires Valid()
      modifies this
      ensures Valid()
      ensures sortField == field
      ensures sortDirection == if field == old(sortField) then (if old(sortDirection) == Asc then Desc else Asc) else Asc
      ensures allLinks == old(allLinks) && filters == old(filters) && showTable == old(showTable)
      ensures currentPage == old(currentPage) && itemsPerPage == old(itemsPerPage)
    {
      if sortField == field {
        sortDirection := if sortDirection == Asc then Desc else Asc;
      } else {
        sortField := field;
        sortDirection := Asc;
      }
    }

    /** `resetFilters`: every filter back to its default, the table hidden, page 1; the
        view then holds every loaded link. */
    method ResetFilters()
      requires Valid()
      modifies this
      ensures Valid()
      ensures filters == NoFilters && !showTable && currentPage == 1
      ensures allLinks == old(allLinks) && sortField == old(sortField) && sortDirection == old(sortDirection)
      ensures itemsPerPage == old(itemsPerPage)
      ensures multiset(Rows()) == multiset(allLinks)
    {
      filters := NoFilters;
      showTable := false;
      currentPage := 1;
      NoFiltersKeepAll(allLinks);
    }
  }
}
