/** The pagination helper (src/utils/pagination.js): page slicing, parameter
    normalisation and the page numbers of the navigation links. Page and
    limit are the integers `parseInt` produced; an unparsable or missing
    parameter is `None`. */
module Pagination {
  import opened Common

  const DefaultPage := 1
  const DefaultLimit := 10
  const MaxLimit := 100

  /** A `slice` argument made an index: a negative one counts from the end,
      and both are clamped to the list. */
  function SliceIndex(i: int, len: nat): (k: nat)
    ensures k <= len
    ensures 0 <= i <= len ==> k == i
  {
    if i < 0 then (if len + i < 0 then 0 else len + i) else if i > len then len else i
  }

  /** `data.slice(start, end)`. */
  function JsSlice<T>(data: seq<T>, start: int, end: int): (r: seq<T>)
    ensures 0 <= start <= end <= |data| ==> r == data[start..end]
    ensures 0 <= end <= start ==> r == []
  {
    var s := SliceIndex(start, |data|);
    var e := SliceIndex(end, |data|);
    if s < e then data[s..e] else []
  }

  /** `Math.ceil(n / limit)` for a non-zero limit (a zero limit gives a
      non-finite count, `None` here). */
  function CeilDiv(n: nat, limit: int): (r: Option<int>)
    ensures r.None? <==> limit == 0
    ensures limit > 0 ==> r.Some? && (r.value - 1) * limit < n <= r.value * limit
    ensures limit > 0 ==> r.Some? && r.value >= 0
  {
    if limit == 0 then None
    else if limit > 0 then Some((n + limit - 1) / limit)
    else Some(-(n / -limit))
  }

  datatype PageInfo = PageInfo(currentPage: int, totalPages: Option<int>, totalItems: nat, limit: int,
                               hasNext: bool, hasPrev: bool)

  datatype Page<T> = Page(data: seq<T>, pagination: PageInfo)

  /** `paginate(data, page, limit)`: the limit is capped at 100 but not
      otherwise checked. What a page holds and when it has neighbours is
      stated, on normalised parameters, by `PageContents` and `PageFlags`. */
  function Paginate<T>(data: seq<T>, page: int, limit: int): (r: Page<T>)
    ensures r.pagination.limit <= MaxLimit && (limit <= MaxLimit ==> r.pagination.limit == limit)
    ensures r.pagination.totalItems == |data| && r.pagination.currentPage == page
    ensures |r.data| <= |data| && forall x :: x in r.data ==> x in data
  {
    var limitNum := if limit < MaxLimit then limit else MaxLimit;
    var start := (page - 1) * limitNum;
    var end := page * limitNum;
    Page(JsSlice(data, start, end),
         PageInfo(page, CeilDiv(|data|, limitNum), |data|, limitNum, end < |data|, start > 0))
  }

  /** `validatePaginationParams(page, limit)`: a missing, unparsable or zero
      value takes the default; the page is at least 1 and the limit between 1
      and 100. */
  function ValidatePaginationParams(page: Option<int>, limit: Option<int>): (r: (int, int))
    ensures r.0 >= 1 && 1 <= r.1 <= MaxLimit
    ensures page.Some? && page.value >= 1 ==> r.0 == page.value
    ensures page.None? || page.value <= 1 ==> r.0 == 1
    ensures limit.Some? && 1 <= limit.value <= MaxLimit ==> r.1 == limit.value
    ensures limit.None? || limit.value == 0 ==> r.1 == DefaultLimit
    ensures limit.Some? && limit.value < 0 ==> r.1 == 1
    ensures limit.Some? && limit.value > MaxLimit ==> r.1 == MaxLimit
  {
    var p := if page.Some? && page.value != 0 then page.value else DefaultPage;
    var l := if limit.Some? && limit.value != 0 then limit.value else DefaultLimit;
    var l1 := if l < 1 then 1 else l;
    (if p < 1 then 1 else p, if l1 < MaxLimit then l1 else MaxLimit)
  }

  lemma MulMono(a: int, b: int, c: int)
    requires a <= b && c >= 0
    ensures a * c <= b * c
  {
  }

  function Min(a: int, b: int): int {
    if a < b then a else b
  }

  /** A window of `len` items from `start`, clamped to the list. */
  lemma SliceWindow<T>(data: seq<T>, start: int, len: int)
    requires start >= 0 && len >= 1
    ensures start <= |data| ==> JsSlice(data, start, start + len) == data[start .. Min(start + len, |data|)]
    ensures start >= |data| ==> JsSlice(data, start, start + len) == []
  {
  }

  /** On normalised parameters a page holds at most `limit` items, starting at
      item `(page - 1) * limit`, and none once it starts past the end. */
  lemma PageContents<T>(data: seq<T>, page: int, limit: int)
    requires page >= 1 && 1 <= limit <= MaxLimit
    ensures var r := Paginate(data, page, limit);
            var start := (page - 1) * limit;
            r.pagination.limit == limit && |r.data| <= limit && start >= 0 &&
            (start <= |data| ==> r.data == data[start .. Min(start + limit, |data|)]) &&
            (start >= |data| ==> r.data == [])
  {
    var start := (page - 1) * limit;
    Distrib(page, limit);
    MulMono(0, page - 1, limit);
    SliceWindow(data, start, limit);
  }

  lemma Distrib(page: int, limit: int)
    ensures page * limit == (page - 1) * limit + limit
  {
  }

  /** On normalised parameters there is a previous page exactly when the page
      is not the first, and a next one exactly when the page is before the
      last: `paginate`'s flags and `createPaginationQuery`'s links agree. */
  lemma PageFlags<T>(data: seq<T>, page: int, limit: int)
    requires page >= 1 && 1 <= limit <= MaxLimit
    ensures var r := Paginate(data, page, limit);
            var total := r.pagination.totalPages;
            total.Some? &&
            (r.pagination.hasPrev <==> page > 1) &&
            (r.pagination.hasNext <==> page < total.value) &&
            (r.pagination.hasNext <==> PaginationLinks(page, total.value).next.Some?) &&
            (r.pagination.hasPrev <==> PaginationLinks(page, total.value).prev.Some?)
  {
    var total := CeilDiv(|data|, limit).value;
    if page < total {
      MulMono(page, total - 1, limit);
    } else {
      MulMono(total, page, limit);
    }
    if page > 1 {
      MulMono(1, page - 1, limit);
    }
  }

  /** The first `k` pages, one after the other. */
  function FirstPages<T>(data: seq<T>, limit: int, k: nat): seq<T>
    requires 1 <= limit <= MaxLimit
  {
    if k == 0 then [] else FirstPages(data, limit, k - 1) + Paginate(data, k, limit).data
  }

  /** Reading the pages in order yields the list: the first `k` pages are its
      first `k * limit` items, and the pages up to `totalPages` are all of it. */
  lemma {:induction false} PagesCoverData<T>(data: seq<T>, limit: int, k: nat)
    requires 1 <= limit <= MaxLimit
    ensures FirstPages(data, limit, k) == data[..Min(k * limit, |data|)]
  {
    if k > 0 {
      PagesCoverData(data, limit, k - 1);
      PageContents(data, k, limit);
      var start := (k - 1) * limit;
      Distrib(k, limit);
      var a := Min(start, |data|);
      var b := Min(start + limit, |data|);
      assert data[..b] == data[..a] + data[a..b];
    }
  }

  /** The pages up to `totalPages` are the whole list. */
  lemma AllPagesCoverData<T>(data: seq<T>, limit: int)
    requires 1 <= limit <= MaxLimit
    ensures var total := Paginate(data, 1, limit).pagination.totalPages;
            total.Some? && total.value >= 0 && FirstPages(data, limit, total.value) == data
  {
    var total := CeilDiv(|data|, limit).value;
    PagesCoverData(data, limit, total);
    assert |data| <= total * limit;
  }

  /** The pages `createPaginationQuery` links to. */
  datatype Links = Links(current: int, first: int, last: int, prev: Option<int>, next: Option<int>)

  /** The page numbers of `createPaginationQuery`'s links; the URLs around
      them are left out. */
  function PaginationLinks(page: int, totalPages: int): (r: Links)
    ensures r.prev.Some? <==> page > 1
    ensures r.next.Some? <==> page < totalPages
    ensures r.prev.Some? ==> r.prev.value == page - 1 && r.prev.value >= 1
    ensures r.next.Some? ==> r.next.value == page + 1 && r.next.value <= totalPages
    ensures r.first == 1 && r.last == totalPages && r.current == page
  {
    Links(page, 1, totalPages, if page > 1 then Some(page - 1) else None,
          if page < totalPages then Some(page + 1) else None)
  }
}
