/**
 * Page arithmetic shared by the paginated screens: the `range(from, to)` of a page and
 * `Math.ceil(count / perPage)`.
 */
module Paging {
  import opened Wrappers

  /** `from = (page - 1) * perPage`. */
  function RangeFrom(page: int, perPage: int): int {
    (page - 1) * perPage
  }

  /** `to = from + perPage - 1` (inclusive). */
  function RangeTo(page: int, perPage: int): int {
    RangeFrom(page, perPage) + perPage - 1
  }

  /** `Math.ceil(count / perPage)` for a non-negative count: the least page count whose pages hold `count` rows. */
  function CeilDiv(count: nat, perPage: int): (r: nat)
    requires perPage > 0
    ensures r * perPage >= count
    ensures count == 0 ==> r == 0
    ensures count > 0 ==> (r - 1) * perPage < count
  {
    (count + perPage - 1) / perPage
  }

  /** `Math.ceil((count || 0) / perPage)`: a missing count counts as no rows. */
  function TotalPages(count: Option<nat>, perPage: int): (r: nat)
    requires perPage > 0
    ensures r * perPage >= count.GetOr(0)
    ensures count.GetOr(0) > 0 ==> (r - 1) * perPage < count.GetOr(0)
    ensures count.None? || count.value == 0 ==> r == 0
  {
    CeilDiv(count.GetOr(0), perPage)
  }

  lemma MulMono(a: int, b: int, k: int)
    requires a <= b && k >= 0
    ensures a * k <= b * k
  {
  }

  /** A page spans exactly `perPage` rows, and consecutive pages meet without overlap or gap. */
  lemma PagesTile(page: int, perPage: int)
    ensures RangeTo(page, perPage) - RangeFrom(page, perPage) + 1 == perPage
    ensures RangeFrom(page + 1, perPage) == RangeTo(page, perPage) + 1
  {
    assert (page + 1 - 1) * perPage == (page - 1) * perPage + perPage;
  }

  /** Every row index falls in the range of exactly one page, namely page `row / perPage + 1`. */
  lemma RowOnOnePage(row: nat, perPage: int, page: int)
    requires perPage > 0
    ensures RangeFrom(page, perPage) <= row <= RangeTo(page, perPage) <==> page == row / perPage + 1
  {
    var q := row / perPage;
    assert q * perPage <= row < (q + 1) * perPage;
    if page <= q {
      MulMono(page, q, perPage);
      assert RangeTo(page, perPage) == page * perPage - 1;
    } else if page >= q + 2 {
      MulMono(q + 1, page - 1, perPage);
    }
  }

  /** Page `page` (from 1) starts inside the first `count` rows exactly when it is at most the page count. */
  lemma PageHasRowsIff(page: int, perPage: int, count: nat)
    requires page >= 1 && perPage > 0
    ensures RangeFrom(page, perPage) < count <==> page <= CeilDiv(count, perPage)
  {
    var t := CeilDiv(count, perPage);
    if page <= t {
      MulMono(page - 1, t - 1, perPage);
    } else {
      MulMono(t, page - 1, perPage);
    }
  }
}
