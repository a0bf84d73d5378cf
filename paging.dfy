/** The page arithmetic the jobs, reminders and contacts listings share: `page` and
    `limit` come from the query string through `parseInt(x, 10) || default`, the
    listing skips `(page - 1) * limit` documents and returns at most `limit`, and the
    response advertises a next and a previous page. */
module Paging {
  import opened Common

  /** `parseInt(param, 10) || fallback`: a missing or unparsable parameter (None) and
      a parameter that parses to 0 both fall back. */
  function ParamOr(param: Option<int>, fallback: int): (v: int)
    ensures param.Some? && param.value != 0 ==> v == param.value
    ensures param.None? || param.value == 0 ==> v == fallback
  {
    if param.Some? && param.value != 0 then param.value else fallback
  }

  datatype PageLink = PageLink(page: int, limit: int)

  datatype Pagination = Pagination(page: int, limit: int, startIndex: int, endIndex: int,
                                   next: Option<PageLink>, prev: Option<PageLink>)

  /** The pagination block of a listing over `total` matching documents. */
  function Paginate(pageParam: Option<int>, limitParam: Option<int>, total: nat): (p: Pagination)
    ensures p.page == ParamOr(pageParam, 1) && p.limit == ParamOr(limitParam, 10)
    ensures p.startIndex == (p.page - 1) * p.limit && p.endIndex == p.page * p.limit
    ensures p.next.Some? <==> p.page * p.limit < total
    ensures p.next.Some? ==> p.next.value == PageLink(p.page + 1, p.limit)
    ensures p.prev.Some? <==> (p.page - 1) * p.limit > 0
    ensures p.prev.Some? ==> p.prev.value == PageLink(p.page - 1, p.limit)
  {
    var page := ParamOr(pageParam, 1);
    var limit := ParamOr(limitParam, 10);
    var startIndex := (page - 1) * limit;
    var endIndex := page * limit;
    Pagination(page, limit, startIndex, endIndex,
               if endIndex < total then Some(PageLink(page + 1, limit)) else None,
               if startIndex > 0 then Some(PageLink(page - 1, limit)) else None)
  }

  function Min(a: int, b: int): int {
    if a <= b then a else b
  }

  /** `find(filter).skip(startIndex).limit(limit)` over the sorted matches: None when
      the skip is negative (the database refuses it); a negative limit acts as its
      absolute value. */
  function PageItems<T>(items: seq<T>, startIndex: int, limit: int): (r: Option<seq<T>>)
    requires limit != 0
    ensures r.None? <==> startIndex < 0
    ensures r.Some? ==> |r.value| <= if limit < 0 then -limit else limit
  {
    var size := if limit < 0 then -limit else limit;
    if startIndex < 0 then None
    else if startIndex >= |items| then Some([])
    else Some(items[startIndex..Min(startIndex + size, |items|)])
  }

  /** With no page or limit in the query, the listing shows the first ten documents,
      has no previous page, and has a next page exactly when there are more than ten. */
  lemma DefaultPage<T>(items: seq<T>)
    ensures var p := Paginate(None, None, |items|);
      p.startIndex == 0 && p.limit == 10 && p.prev.None?
      && (p.next.Some? <==> |items| > 10)
      && PageItems(items, p.startIndex, p.limit) == Some(items[..Min(10, |items|)])
  {
  }

  /** For a positive page and limit, `next` is advertised exactly when the page it
      points to is not empty, and `prev` exactly when this is not the first page. */
  lemma LinksMatchNeighbours<T>(items: seq<T>, pageParam: Option<int>, limitParam: Option<int>)
    requires ParamOr(pageParam, 1) >= 1 && ParamOr(limitParam, 10) >= 1
    ensures var p := Paginate(pageParam, limitParam, |items|);
      (p.next.Some? <==> PageItems(items, p.endIndex, p.limit) != Some([]))
      && (p.prev.Some? <==> p.page >= 2)
  {
    var p := Paginate(pageParam, limitParam, |items|);
    MulAtLeast(p.page, p.limit);
    MulAtLeast(p.page - 1, p.limit);
  }

  lemma MulAtLeast(a: int, b: int)
    requires a >= 0 && b >= 1
    ensures a * b >= a && (a * b > 0 <==> a > 0)
  {
  }

  /** Pages 1..k, each of a positive `limit`, laid end to end are exactly the first
      k * limit documents: no document is skipped or shown twice. */
  lemma {:induction false} PagesTile<T>(items: seq<T>, limit: int, k: nat)
    requires limit >= 1
    ensures Concat(items, limit, k) == items[..Min(k * limit, |items|)]
  {
    if k > 0 {
      PagesTile(items, limit, k - 1);
      var start := (k - 1) * limit;
      assert k * limit == start + limit;
      if start < |items| {
        assert items[..Min(k * limit, |items|)]
            == items[..start] + items[start..Min(start + limit, |items|)];
      }
    }
  }

  /** The documents of pages 1..k laid end to end. */
  function Concat<T>(items: seq<T>, limit: int, k: nat): seq<T>
    requires limit >= 1
  {
    if k == 0 then []
    else Concat(items, limit, k - 1) + PageItems(items, (k - 1) * limit, limit).value
  }

  /** What a client that sends no query receives: the first page of the listing under
      the default page and limit. It is the whole listing exactly when there are at
      most ten documents. */
  function FirstPage<T>(items: seq<T>): (r: seq<T>)
    ensures |r| == Min(10, |items|)
    ensures r == items[..|r|]
    ensures r == items <==> |items| <= 10
  {
    var p := Paginate(None, None, |items|);
    PageItems(items, p.startIndex, p.limit).value
  }

  /** A client that follows the `next` links from page 1 under the default limit, as a
      caller that needs every document must; it collects the whole listing. */
  method FetchAllPages<T>(items: seq<T>) returns (all: seq<T>)
    ensures all == items
  {
    var page := 1;
    all := [];
    while true
      invariant page >= 1 && (page - 1) * 10 <= |items|
      invariant all == Concat(items, 10, page - 1)
      decreases |items| - (page - 1) * 10
    {
      var p := Paginate(Some(page), None, |items|);
      all := all + PageItems(items, p.startIndex, p.limit).value;
      if p.next.None? {
        PagesTile(items, 10, page);
        return;
      }
      page := page + 1;
    }
  }
}
