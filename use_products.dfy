/** The paginated product query of src/hooks/useProducts.ts: page selection and the pagination metadata. */
module UseProducts {
  import opened Wrappers
  import Paging

  const DefaultPage: int := 1
  const DefaultLimit: int := 9
  /** `initialPageParam` of the infinite mode. */
  const InitialPageParam: int := 1

  /** The option object after destructuring: a missing `page` or `limit` takes its default. */
  function PageOption(page: Option<int>): (r: int)
    ensures page.Some? ==> r == page.value
    ensures page.None? ==> r == 1
  {
    page.GetOr(DefaultPage)
  }

  function LimitOption(limit: Option<int>): (r: int)
    ensures limit.Some? ==> r == limit.value
    ensures limit.None? ==> r == 9
  {
    limit.GetOr(DefaultLimit)
  }

  /** `context.pageParam ?? page`: an explicit page parameter wins, even 0. */
  function CurrentPage(pageParam: Option<int>, page: int): (r: int)
    ensures pageParam.Some? ==> r == pageParam.value
    ensures pageParam.None? ==> r == page
  {
    pageParam.GetOr(page)
  }

  /** The metadata `fetchProducts` returns beside the rows, with the range it requested. */
  datatype PageMeta = PageMeta(
    from: int, to: int, totalPages: nat, totalCount: nat, nextPage: int, hasMore: bool)

  /** `fetchProducts` for the page it resolves, the limit and the exact `count` the backend reports. */
  function FetchMeta(pageParam: Option<int>, page: int, limit: int, count: Option<nat>): (m: PageMeta)
    requires limit > 0
    ensures m.from == (CurrentPage(pageParam, page) - 1) * limit
    ensures m.to - m.from + 1 == limit
    ensures m.totalCount == count.GetOr(0)
    ensures m.totalPages * limit >= m.totalCount
    ensures m.totalCount > 0 ==> (m.totalPages - 1) * limit < m.totalCount
    ensures m.nextPage == CurrentPage(pageParam, page) + 1
    ensures m.hasMore <==> m.from + limit < m.totalCount
  {
    var current := CurrentPage(pageParam, page);
    var from := Paging.RangeFrom(current, limit);
    var total := count.GetOr(0);
    Paging.PagesTile(current, limit);
    PageMeta(from, from + limit - 1, Paging.CeilDiv(total, limit), total, current + 1, from + limit < total)
  }

  /** For a page from 1 on, `hasMore` says exactly that the page is before the last one. */
  lemma HasMoreIffBeforeLastPage(pageParam: Option<int>, page: int, limit: int, count: Option<nat>)
    requires limit > 0 && CurrentPage(pageParam, page) >= 1
    ensures var m := FetchMeta(pageParam, page, limit, count);
      m.hasMore <==> CurrentPage(pageParam, page) < m.totalPages
  {
    var current := CurrentPage(pageParam, page);
    Paging.PagesTile(current, limit);
    Paging.PageHasRowsIff(current + 1, limit, count.GetOr(0));
  }

  /** `getNextPageParam`: the next page while there is more, `undefined` otherwise. */
  function NextPageParam(m: PageMeta): (r: Option<int>)
    ensures r.Some? <==> m.hasMore
    ensures r.Some? ==> r.value == m.nextPage
  {
    if m.hasMore then Some(m.nextPage) else None
  }

  /** The infinite list asks for the page after `p` exactly while `p` is not the last page. */
  lemma InfiniteScrollStopsAtLastPage(p: int, limit: int, count: Option<nat>)
    requires limit > 0 && p >= InitialPageParam
    ensures var m := FetchMeta(Some(p), DefaultPage, limit, count);
      NextPageParam(m) == (if p < m.totalPages then Some(p + 1) else None)
  {
    HasMoreIffBeforeLastPage(Some(p), DefaultPage, limit, count);
  }
}
