/**
 * Page and page-size normalisation of the listing handlers, and the offset
 * of a page.
 *
 * Chat search and posts-by-type read both values from the query string
 * (`n, _ := strconv.Atoi(c.DefaultQuery(key, default))`) and cap the page
 * size at 100; find-matches reads them from the JSON body and caps it at 50.
 * Any page below 1 becomes 1 and any page size out of range becomes 10.
 */
module Pagination {
  import opened Strconv

  const DefaultPageSize := 10
  /** Page-size cap of chat search and posts-by-type. */
  const ListingPageSizeCap := 100
  /** Page-size cap of find-matches. */
  const MatchPageSizeCap := 50

  /** A query string: each parameter's first value. */
  type Query = map<string, string>

  /** gin's c.DefaultQuery: the parameter when present (even if empty),
      otherwise the default. */
  function DefaultQuery(q: Query, key: string, default: string): string {
    if key in q then q[key] else default
  }

  /** gin's c.Query: the parameter, or "" when absent. */
  function QueryParam(q: Query, key: string): string {
    DefaultQuery(q, key, "")
  }

  function ClampPage(page: int): (p: int)
    ensures p >= 1
    ensures page >= 1 ==> p == page
    ensures page < 1 ==> p == 1
  {
    if page < 1 then 1 else page
  }

  predicate InPageSizeRange(size: int, cap: int) {
    1 <= size <= cap
  }

  function ClampPageSize(size: int, cap: int): (s: int)
    requires cap >= DefaultPageSize
    ensures InPageSizeRange(s, cap)
    ensures InPageSizeRange(size, cap) ==> s == size
    ensures !InPageSizeRange(size, cap) ==> s == DefaultPageSize
  {
    if size < 1 || size > cap then DefaultPageSize else size
  }

  /** A normalised page request. */
  datatype Window = Window(page: int, pageSize: int)

  predicate ValidWindow(w: Window, cap: int) {
    w.page >= 1 && InPageSizeRange(w.pageSize, cap)
  }

  /** The window a handler settles on for raw page and page-size values. */
  function Normalize(page: int, pageSize: int, cap: int): (w: Window)
    requires cap >= DefaultPageSize
    ensures ValidWindow(w, cap)
    ensures ValidWindow(Window(page, pageSize), cap) <==> w == Window(page, pageSize)
  {
    Window(ClampPage(page), ClampPageSize(pageSize, cap))
  }

  /** Normalising a normalised window changes nothing. */
  lemma NormalizeIdempotent(page: int, pageSize: int, cap: int)
    requires cap >= DefaultPageSize
    ensures var w := Normalize(page, pageSize, cap);
      Normalize(w.page, w.pageSize, cap) == w
  {
  }

  /** The window of a listing handler that reads `page` and `pageSize`
      from the query string. */
  function QueryWindow(q: Query, cap: int): (w: Window)
    requires cap >= DefaultPageSize
    ensures ValidWindow(w, cap)
    ensures IsInt64(w.page)
  {
    Normalize(AtoiIgnoringError(DefaultQuery(q, "page", "1")),
              AtoiIgnoringError(DefaultQuery(q, "pageSize", "10")), cap)
  }

  /** With neither parameter given, a listing shows the first ten items. */
  lemma QueryWindowDefaults(q: Query, cap: int)
    requires cap >= DefaultPageSize
    requires "page" !in q && "pageSize" !in q
    ensures QueryWindow(q, cap) == Window(1, DefaultPageSize)
  {
    AtoiItoa(1);
    AtoiItoa(10);
    assert Itoa(1) == "1";
    assert Itoa(10) == "10";
  }

  /** Parameters that are numerals are read as their values and then
      normalised; in particular an in-range page and page size are kept. */
  lemma QueryWindowParsed(q: Query, p: int, s: int, cap: int)
    requires cap >= DefaultPageSize && IsInt64(p) && IsInt64(s)
    requires "page" in q && q["page"] == Itoa(p)
    requires "pageSize" in q && q["pageSize"] == Itoa(s)
    ensures QueryWindow(q, cap) == Normalize(p, s, cap)
    ensures p >= 1 && 1 <= s <= cap ==> QueryWindow(q, cap) == Window(p, s)
  {
    AtoiItoa(p);
    AtoiItoa(s);
  }

  /** A parameter that does not parse reads as 0 and is then clamped: a
      malformed page is page 1, a malformed page size is 10. */
  lemma QueryWindowMalformed(q: Query, cap: int)
    requires cap >= DefaultPageSize
    requires "page" in q && Atoi(q["page"]).SyntaxError?
    requires "pageSize" in q && Atoi(q["pageSize"]).SyntaxError?
    ensures QueryWindow(q, cap) == Window(1, DefaultPageSize)
  {
  }

  /** The index of a page's first item, in unbounded arithmetic:
      `(page - 1) * pageSize`, the start of the page-th block of pageSize
      items. */
  function Offset(w: Window): (r: nat)
    requires w.page >= 1 && w.pageSize >= 1
    ensures r % w.pageSize == 0 && r / w.pageSize == w.page - 1
  {
    MultipleDivides(w.page - 1, w.pageSize);
    (w.page - 1) * w.pageSize
  }

  lemma {:induction false} MulAtLeast(x: int, b: nat)
    requires x >= 1
    ensures x * b >= b
    decreases x
  {
    if x > 1 {
      MulAtLeast(x - 1, b);
      assert x * b == (x - 1) * b + b;
    }
  }

  /** Euclidean division is determined by quotient and remainder. */
  lemma DivModUnique(a: int, b: int, q: int, r: int)
    requires b > 0 && 0 <= r < b && a == q * b + r
    ensures a / b == q && a % b == r
  {
    var q', r' := a / b, a % b;
    assert a == q' * b + r';
    assert (q - q') * b == r' - r;
    if q > q' {
      MulAtLeast(q - q', b);
    } else if q < q' {
      MulAtLeast(q' - q, b);
    }
  }

  lemma MultipleDivides(k: nat, size: int)
    requires size >= 1
    ensures k * size >= 0
    ensures (k * size) % size == 0 && (k * size) / size == k
  {
    DivModUnique(k * size, size, k, 0);
  }

  /** Consecutive pages tile the result list: each page starts where the
      previous one ends, and the first page starts at 0. */
  lemma PagesTile(w: Window)
    requires w.page >= 1 && w.pageSize >= 1
    ensures Offset(Window(1, w.pageSize)) == 0
    ensures Offset(Window(w.page + 1, w.pageSize)) == Offset(w) + w.pageSize
  {
  }

  /** The offset as the handlers compute it, in Go's 64-bit `int`, where the
      product wraps around for very large pages. */
  function WrappedOffset(w: Window): (r: int)
    ensures IsInt64(r)
  {
    Wrap64((w.page - 1) * w.pageSize)
  }

  /** Whenever the product fits in 64 bits the handlers' offset is the
      intended one. */
  lemma WrappedOffsetAgrees(w: Window)
    requires w.page >= 1 && w.pageSize >= 1
    requires (w.page - 1) * w.pageSize <= MaxInt64
    ensures WrappedOffset(w) == Offset(w)
  {
  }

  /** `?page=4611686018427387905&pageSize=4` (page 2^62 + 1) is accepted as
      is, and the handlers' offset wraps to 0: the request is served the
      first page instead of an empty one. */
  lemma HugePageWrapsToFirstPage()
    ensures var q: Query := map["page" := Itoa(0x4000_0000_0000_0001), "pageSize" := Itoa(4)];
      var w := QueryWindow(q, ListingPageSizeCap);
      w == Window(0x4000_0000_0000_0001, 4) && WrappedOffset(w) == 0 && Offset(w) > 0
  {
    AtoiItoa(0x4000_0000_0000_0001);
    AtoiItoa(4);
    var w := Window(0x4000_0000_0000_0001, 4);
    assert (w.page - 1) * w.pageSize == Modulus64;
    assert Wrap64(Modulus64) == 0;
  }

  /** With `pageSize=2` the same page gives the offset -2^63. */
  lemma HugePageWrapsNegative()
    ensures var w := Window(0x4000_0000_0000_0001, 2);
      ValidWindow(w, ListingPageSizeCap) && WrappedOffset(w) == MinInt64
  {
    var w := Window(0x4000_0000_0000_0001, 2);
    assert (w.page - 1) * w.pageSize == MaxInt64 + 1;
  }
}
