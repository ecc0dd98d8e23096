/** The admin catalog screen of src/pages/admin/AdminCatalog.tsx: page ranges, page count, search, page controls. */
module AdminCatalog {
  import opened Wrappers
  import opened Text
  import Lists
  import Paging

  const ItemsPerPage: int := 15

  /** The product columns the search reads. */
  datatype Product = Product(name: string, category: string)

  /** The `range(from, to)` requested for a page: 15 rows, pages meeting end to end. */
  function PageRange(page: int): (r: (int, int))
    ensures r.1 - r.0 + 1 == ItemsPerPage
    ensures r.0 == (page - 1) * ItemsPerPage
    ensures r.1 + 1 == Paging.RangeFrom(page + 1, ItemsPerPage)
  {
    Paging.PagesTile(page, ItemsPerPage);
    (Paging.RangeFrom(page, ItemsPerPage), Paging.RangeTo(page, ItemsPerPage))
  }

  /** The search predicate: an empty term keeps everything, else name or category contains the term, ignoring case. */
  predicate Matches(term: string, p: Product) {
    term == "" || Includes(Lower(p.name), Lower(term)) || Includes(Lower(p.category), Lower(term))
  }

  /** `filteredProducts`. */
  function FilterProducts(rows: seq<Product>, term: string): (r: seq<Product>)
    ensures forall p :: p in r <==> p in rows && Matches(term, p)
    ensures term == "" ==> r == rows
  {
    if term == "" then Lists.FilterAll(rows, p => Matches(term, p)); Lists.Filter(rows, p => Matches(term, p))
    else Lists.Filter(rows, p => Matches(term, p))
  }

  /** The filter keeps the page's order. */
  lemma FilterOrdered(rows: seq<Product>, term: string)
    ensures Lists.IsSubsequence(FilterProducts(rows, term), rows)
  {
    Lists.FilterIsSubsequence(rows, p => Matches(term, p));
  }

  /** A product whose name is exactly the term, in any case, is found. */
  lemma NameFindsItself(p: Product, term: string)
    requires Lower(p.name) == Lower(term)
    ensures Matches(term, p)
  {
  }

  /** The pagination block is rendered only when the page count is above 1. */
  predicate ControlsShown(totalPages: nat) {
    totalPages > 1
  }

  /** The page links 1..totalPages. */
  function PageLinks(totalPages: nat): (r: seq<int>)
    ensures |r| == totalPages
    ensures forall i :: 0 <= i < |r| ==> r[i] == i + 1
  {
    seq(totalPages, i requires 0 <= i < totalPages => i + 1)
  }

  /** The `currentPage` state and its three ways of changing. */
  class Pager {
    var currentPage: int

    /** The page is a valid page number for the current page count. */
    ghost predicate InRange(totalPages: int)
      reads this
    {
      1 <= currentPage <= totalPages
    }

    /** The screen opens on page 1. */
    constructor ()
      ensures currentPage == 1
    {
      currentPage := 1;
    }

    /** Previous: `Math.max(1, currentPage - 1)`; never goes below page 1. */
    method Previous()
      modifies this
      ensures currentPage == if old(currentPage) - 1 > 1 then old(currentPage) - 1 else 1
      ensures forall t :: old(InRange(t)) ==> InRange(t)
    {
      currentPage := if currentPage - 1 > 1 then currentPage - 1 else 1;
    }

    /** Next: `Math.min(totalPages, currentPage + 1)`; never goes past the last page. */
    method Next(totalPages: int)
      modifies this
      ensures currentPage == if old(currentPage) + 1 < totalPages then old(currentPage) + 1 else totalPages
      ensures old(InRange(totalPages)) ==> InRange(totalPages)
    {
      currentPage := if currentPage + 1 < totalPages then currentPage + 1 else totalPages;
    }

    /** A click on page link `page`. */
    method GoTo(page: int)
      modifies this
      ensures currentPage == page
    {
      currentPage := page;
    }
  }
}
