/** Integer paging arithmetic shared by the report endpoints and pages: JavaScript's
    `Array.prototype.slice` index rules and `Math.ceil(a / b)` on whole numbers. */
module Paging {

  /** `Math.ceil(a / b)` for a whole `a` and a positive whole `b`. */
  function CeilDiv(a: nat, b: int): (r: nat)
    requires b >= 1
    ensures (r - 1) * b < a <= r * b
  {
    (a + b - 1) / b
  }

  /** How `slice` reads one of its bounds: a negative index counts from the end, and the
      result is clamped to `0..len`. */
  function SliceIndex(i: int, len: nat): (r: nat)
    ensures r <= len
    ensures 0 <= i <= len ==> r == i
    ensures i > len ==> r == len
    ensures i < 0 ==> r == if len + i < 0 then 0 else len + i
  {
    if i < 0 then (if len + i < 0 then 0 else len + i)
    else if i > len then len
    else i
  }

  /** `s.slice(start, end)`. */
  function JsSlice<T>(s: seq<T>, start: int, end: int): (r: seq<T>)
    ensures var a, b := SliceIndex(start, |s|), SliceIndex(end, |s|);
      (a < b ==> r == s[a..b]) && (b <= a ==> r == [])
  {
    var a, b := SliceIndex(start, |s|), SliceIndex(end, |s|);
    if a < b then s[a..b] else []
  }

  /** The page `page` (counted from 1) of `size` items: `s.slice((page - 1) * size, page * size)`. */
  function Page<T>(s: seq<T>, page: int, size: int): seq<T> {
    JsSlice(s, (page - 1) * size, page * size)
  }

  /** A page numbered from 1 is the run of at most `size` items that starts after the
      earlier pages, and is empty exactly when it starts at or past the end. */
  lemma PageWindow<T>(s: seq<T>, page: int, size: int)
    requires page >= 1 && size >= 1
    ensures var start := (page - 1) * size;
      var r := Page(s, page, size);
      && |r| <= size
      && (start >= |s| <==> r == [])
      && (start < |s| ==> r == s[start..if page * size < |s| then page * size else |s|])
  {
    assert (page - 1) * size >= 0;
    assert page * size == (page - 1) * size + size;
  }

  /** Every item lands on exactly one page: item `i` is item `i % size` of page
      `i / size + 1`, and the page count covers them all. */
  lemma ItemOnItsPage<T>(s: seq<T>, size: int, i: nat)
    requires size >= 1 && i < |s|
    ensures var p := i / size + 1;
      1 <= p <= CeilDiv(|s|, size) && i % size < |Page(s, p, size)| && Page(s, p, size)[i % size] == s[i]
  {
    ItemPageInRange(|s|, size, i);
    var q, m := i / size, i % size;
    assert i == q * size + m && 0 <= m < size;
    PageElement(s, q + 1, size, m);
  }

  /** Item `m` of page `p` is item `(p - 1) * size + m` of the whole. */
  lemma PageElement<T>(s: seq<T>, p: int, size: int, m: int)
    requires p >= 1 && size >= 1 && 0 <= m < size && (p - 1) * size + m < |s|
    ensures m < |Page(s, p, size)| && Page(s, p, size)[m] == s[(p - 1) * size + m]
  {
    assert p * size == (p - 1) * size + size;
    SliceElement(s, (p - 1) * size, p * size, m);
  }

  /** Item `m` of `s.slice(a, b)`, for bounds inside `s`, is item `a + m` of `s`. */
  lemma SliceElement<T>(s: seq<T>, a: int, b: int, m: int)
    requires 0 <= a && 0 <= m && a + m < b && a + m < |s|
    ensures m < |JsSlice(s, a, b)| && JsSlice(s, a, b)[m] == s[a + m]
  {
  }

  lemma ItemPageInRange(n: nat, size: int, i: nat)
    requires size >= 1 && i < n
    ensures 1 <= i / size + 1 <= CeilDiv(n, size)
  {
    var q, c := i / size, CeilDiv(n, size);
    assert q * size <= i;
    LessByFactor(q, c, size);
  }

  /** `q * b <= i < c * b` with `b` positive means `q < c`. */
  lemma LessByFactor(q: int, c: int, b: int)
    requires b >= 1 && q * b < c * b
    ensures q < c
  {
  }
}
