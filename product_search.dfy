/** The product search box of src/components/ProductSearch.tsx: the name filter and the open/query state. */
module ProductSearch {
  import opened Wrappers
  import opened Text
  import Lists

  /** A product as the dropdown reads it. */
  datatype Product = Product(id: string, name: string)

  /** Case-insensitive name match: `product.name.toLowerCase().includes(query.toLowerCase())`. */
  predicate NameMatches(query: string, p: Product) {
    Includes(Lower(p.name), Lower(query))
  }

  /** `filteredProducts` over a list of products: the matching ones, in order; all of them for an empty query. */
  function FilterByName(products: seq<Product>, query: string): (r: seq<Product>)
    ensures forall p :: p in r <==> p in products && NameMatches(query, p)
    ensures query == "" ==> r == products
  {
    if query == "" then
      assert forall p :: NameMatches(query, p) by {
        forall p ensures NameMatches(query, p) { IncludesEmpty(Lower(p.name)); }
      }
      Lists.FilterAll(products, p => NameMatches(query, p));
      Lists.Filter(products, p => NameMatches(query, p))
    else Lists.Filter(products, p => NameMatches(query, p))
  }

  /** The filter keeps the products' order. */
  lemma FilterOrdered(products: seq<Product>, query: string)
    ensures Lists.IsSubsequence(FilterByName(products, query), products)
  {
    Lists.FilterIsSubsequence(products, p => NameMatches(query, p));
  }

  /** The `data` of the non-infinite product query: a response object whose `data` holds the rows. */
  datatype ProductsResponse =
    ProductsResponse(data: seq<Product>, totalPages: nat, totalCount: nat, nextPage: int, hasMore: bool)

  /**
   * As written: `const { data: products = [] } = useProducts()` names the response OBJECT
   * `products`, so `products.filter` is only an array method while the query is still loading;
   * once it has resolved the call throws (`products.filter is not a function`).
   */
  function FilteredAsWritten(data: Option<ProductsResponse>, query: string): (r: Result<seq<Product>>)
    ensures data.None? ==> r == Ok([])
    ensures data.Some? ==> r.Err?
  {
    match data
    case None => Ok(FilterByName([], query))
    case Some(_) => Err("products.filter is not a function")
  }

  /** Corrected: the filter runs over the response's rows, and over nothing while loading. */
  function SearchResults(data: Option<ProductsResponse>, query: string): (r: seq<Product>)
    ensures data.None? ==> r == []
    ensures data.Some? ==> forall p :: p in r <==> p in data.value.data && NameMatches(query, p)
    ensures data.Some? && query == "" ==> r == data.value.data
  {
    match data
    case None => []
    case Some(resp) => FilterByName(resp.data, query)
  }

  /** The discrepancy: a loaded response with a matching product lists it when corrected, and throws as written. */
  lemma LoadedResponseBreaksFilter(p: Product)
    ensures var resp := Some(ProductsResponse([p], 1, 1, 2, false));
      FilteredAsWritten(resp, "").Err? && SearchResults(resp, "") == [p]
  {
  }

  /** What a selection reports. */
  datatype Effect = SuccessToast | ErrorToast | SelectCallback(product: Product)

  /** The dropdown's `open` flag and the `query` text. */
  class SearchBox {
    var open: bool
    var query: string

    constructor ()
      ensures !open && query == ""
    {
      open := false;
      query := "";
    }

    /** The clear button is rendered while there is a query. */
    predicate ClearButtonShown()
      reads this
    {
      query != ""
    }

    /** Focusing the input opens the dropdown. */
    method Focus()
      modifies this
      ensures open && query == old(query)
    {
      open := true;
    }

    /** Typing replaces the query. */
    method Type(text: string)
      modifies this
      ensures query == text && open == old(open)
    {
      query := text;
    }

    /** A mouse-down outside the input and dropdown closes the dropdown. */
    method ClickOutside()
      modifies this
      ensures !open && query == old(query)
    {
      open := false;
    }

    /** The clear button empties the query and refocuses the input, whose focus handler opens the dropdown. */
    method Clear()
      modifies this
      ensures query == "" && open
    {
      query := "";
      Focus();
    }

    /**
     * `handleSelect`: after the cart accepted the product, report success, close, clear the query
     * and call `onSelectProduct` when one was given; after a failure only report it.
     */
    method Select(product: Product, addSucceeds: bool, hasCallback: bool) returns (effects: seq<Effect>)
      modifies this
      ensures addSucceeds ==> !open && query == ""
      ensures addSucceeds ==> effects == [SuccessToast] + (if hasCallback then [SelectCallback(product)] else [])
      ensures !addSucceeds ==> open == old(open) && query == old(query) && effects == [ErrorToast]
    {
      if addSucceeds {
        effects := [SuccessToast];
        open := false;
        query := "";
        if hasCallback {
          effects := effects + [SelectCallback(product)];
        }
      } else {
        effects := [ErrorToast];
      }
    }
  }
}
