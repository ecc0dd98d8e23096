/** The admin orders screen of src/pages/admin/AdminOrders.tsx: status filter, page range, page count and search. */
module AdminOrders {
  import opened Wrappers
  import opened Text
  import Lists
  import Paging

  const ItemsPerPage: int := 15
  const AllStatuses: string := "all"
  const OrderPrefix: string := "SPL"

  /** The status equality filter added to the query: none when "all" is selected. */
  function StatusFilter(selected: string): (r: Option<string>)
    ensures r.None? <==> selected == AllStatuses
    ensures r.Some? ==> r.value == selected
  {
    if selected != AllStatuses then Some(selected) else None
  }

  /** The `range(from, to)` requested for a page. */
  function PageRange(page: int): (r: (int, int))
    ensures r.1 - r.0 + 1 == ItemsPerPage
    ensures r.0 == (page - 1) * ItemsPerPage
  {
    Paging.PagesTile(page, ItemsPerPage);
    (Paging.RangeFrom(page, ItemsPerPage), Paging.RangeTo(page, ItemsPerPage))
  }

  /** The joined `customer` profile; its columns may be null. */
  datatype Customer = Customer(firstName: Option<string>, lastName: Option<string>, email: Option<string>)

  /** A `sample_requests` row as the search reads it; the customer may be missing. */
  datatype Order = Order(id: string, customer: Option<Customer>)

  /** A template literal's rendering of `order.customer?.field`: "undefined" without a customer, "null" for a null column. */
  function ShowCustomerField(c: Option<Customer>, field: Customer -> Option<string>): string {
    match c
    case None => "undefined"
    case Some(cu) => ShowNullable(field(cu))
  }

  /** `${order.customer?.first_name} ${order.customer?.last_name}`. */
  function CustomerName(o: Order): string {
    ShowCustomerField(o.customer, (c: Customer) => c.firstName) + " " + ShowCustomerField(o.customer, (c: Customer) => c.lastName)
  }

  /** `SPL${order.id.slice(0, 6)}`. */
  function OrderNumber(o: Order): (r: string)
    ensures |r| == 3 + (if |o.id| < 6 then |o.id| else 6)
    ensures r[..3] == OrderPrefix && r[3..] == o.id[..|r| - 3]
  {
    OrderPrefix + o.id[..if |o.id| < 6 then |o.id| else 6]
  }

  /** `order.customer?.email?.toLowerCase() || ''`. */
  function CustomerEmail(o: Order): (r: string)
    ensures o.customer.None? || o.customer.value.email.None? ==> r == ""
  {
    match o.customer
    case Some(c) => (match c.email case Some(e) => Lower(e) case None => "")
    case None => ""
  }

  /** The search predicate of `filteredOrders`. */
  predicate Matches(term: string, o: Order) {
    term == ""
    || Includes(Lower(CustomerName(o)), Lower(term))
    || Includes(Lower(OrderNumber(o)), Lower(term))
    || Includes(CustomerEmail(o), Lower(term))
  }

  /** `filteredOrders`: the page's orders that match, in order; everything for an empty term. */
  function FilterOrders(rows: seq<Order>, term: string): (r: seq<Order>)
    ensures forall o :: o in r <==> o in rows && Matches(term, o)
    ensures term == "" ==> r == rows
  {
    if term == "" then Lists.FilterAll(rows, o => Matches(term, o)); Lists.Filter(rows, o => Matches(term, o))
    else Lists.Filter(rows, o => Matches(term, o))
  }

  /** The filter keeps the page's order. */
  lemma FilterOrdered(rows: seq<Order>, term: string)
    ensures Lists.IsSubsequence(FilterOrders(rows, term), rows)
  {
    Lists.FilterIsSubsequence(rows, o => Matches(term, o));
  }

  /** Searching for an order's displayed number, in any case, finds it. */
  lemma OrderNumberFindsOrder(o: Order, term: string)
    requires Lower(term) == Lower(OrderNumber(o))
    ensures Matches(term, o)
  {
  }

  /** A missing e-mail takes part in matching as "", which contains no non-empty term. */
  lemma MissingEmailNeverMatches(o: Order, term: string)
    requires o.customer.None? || o.customer.value.email.None?
    requires term != ""
    ensures !Includes(CustomerEmail(o), Lower(term))
  {
  }

  /** An order without a customer row is found by a search for "undefined": the literal's rendering. */
  lemma MissingCustomerRendersUndefined(id: string)
    ensures CustomerName(Order(id, None)) == "undefined undefined"
    ensures Matches("Undefined", Order(id, None))
  {
    var name := "undefined undefined";
    assert Lower(name) == name;
    assert Lower("Undefined") == "undefined";
    assert StartsWith(name, "undefined");
  }
}
