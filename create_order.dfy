/** Placing a sample order in Shopify, src/lib/shopify/createOrder.ts: line-item filtering, payload and outcome. */
module CreateOrder {
  import opened Wrappers
  import opened Text
  import Lists

  const Country := "US"
  const FinancialStatus := "paid"
  const NoVariantsMessage := "No valid Shopify variants found for the products in the order"
  const FailureDescription := "There was a problem creating your order in Shopify. Please try again."

  /** Prices in integer cents. */
  datatype LineItem = LineItem(variantId: Option<string>, quantity: int, price: int)
  datatype Customer = Customer(firstName: string, lastName: string, email: string, phone: Option<string>)
  datatype Address = Address(address1: string, address2: Option<string>, city: string, province: string, zip: string, phone: string)

  /** The input address spread into an object with the customer's names and the country added. */
  datatype OrderAddress = OrderAddress(address: Address, firstName: string, lastName: string, country: string)

  datatype OrderData = OrderData(
    orderId: string,
    customer: Customer,
    shippingAddress: OrderAddress,
    billingAddress: OrderAddress,
    lineItems: seq<LineItem>,
    financialStatus: string)

  predicate HasVariant(item: LineItem) {
    TruthyOpt(item.variantId)
  }

  /** `validLineItems`: the items with a truthy variant id, in their original order. */
  function ValidLineItems(items: seq<LineItem>): (r: seq<LineItem>)
    ensures forall i :: i in r <==> i in items && HasVariant(i)
  {
    Lists.Filter(items, HasVariant)
  }

  lemma ValidLineItemsOrdered(items: seq<LineItem>)
    ensures Lists.IsSubsequence(ValidLineItems(items), items)
  {
    Lists.FilterIsSubsequence(items, HasVariant);
  }

  /** The `orderData` sent to the order-creation function. */
  function BuildOrderData(orderId: string, customer: Customer, address: Address, items: seq<LineItem>): (r: OrderData)
    ensures r.shippingAddress == r.billingAddress
    ensures r.shippingAddress.address == address && r.shippingAddress.country == Country
    ensures r.shippingAddress.firstName == customer.firstName && r.shippingAddress.lastName == customer.lastName
    ensures r.lineItems == ValidLineItems(items) && r.financialStatus == FinancialStatus
    ensures r.orderId == orderId && r.customer == customer
  {
    var withNames := OrderAddress(address, customer.firstName, customer.lastName, Country);
    OrderData(orderId, customer, withNames, withNames, ValidLineItems(items), FinancialStatus)
  }

  /** The created order as the function returns it; a missing order number renders as "undefined". */
  datatype ShopifyOrder = ShopifyOrder(id: Option<string>, orderNumber: Option<string>)

  /** The function's answer: an error, or data that may lack the created order. */
  datatype InvokeResponse = InvokeError(message: string) | InvokeData(shopifyOrder: Option<ShopifyOrder>)

  datatype Effect =
    | InvokeCreateOrder(orderData: OrderData)
    | UpdateSampleRequest(orderId: string, shopifyOrderId: string)
    | SuccessToast(description: string)
    | ErrorToast(description: string)

  /** Effects in order, and the returned order or the rethrown error. */
  datatype Outcome = Outcome(effects: seq<Effect>, result: Result<ShopifyOrder>)

  function SuccessDescription(o: ShopifyOrder): string {
    "Order #" + (match o.orderNumber case Some(n) => n case None => "undefined") + " was created successfully."
  }

  /** Every failure lands in the catch block: the error toast, then the rethrow. */
  function Fail(effects: seq<Effect>, message: string): Outcome {
    Outcome(effects + [ErrorToast(FailureDescription)], Err(message))
  }

  /**
   * `createShopifyOrder` with the remote function's answer as a parameter. A response without
   * an order reaches `data.shopifyOrder.order_number` and fails there.
   */
  function CreateShopifyOrder(orderId: string, customer: Customer, address: Address, items: seq<LineItem>,
                              response: InvokeResponse): (r: Outcome)
    ensures ValidLineItems(items) == [] ==> r == Outcome([ErrorToast(FailureDescription)], Err(NoVariantsMessage))
    ensures ValidLineItems(items) != [] ==> |r.effects| >= 2 && r.effects[0] == InvokeCreateOrder(BuildOrderData(orderId, customer, address, items))
    ensures r.result.Err? <==> ValidLineItems(items) == [] || response.InvokeError? || response.shopifyOrder.None?
    ensures r.result.Err? ==> r.effects[|r.effects| - 1] == ErrorToast(FailureDescription)
    ensures r.result.Ok? ==> r.result.value == response.shopifyOrder.value && r.effects[|r.effects| - 1].SuccessToast?
    ensures (exists e :: e in r.effects && e.UpdateSampleRequest?) <==>
      ValidLineItems(items) != [] && response.InvokeData? && response.shopifyOrder.Some? && TruthyOpt(response.shopifyOrder.value.id)
  {
    var valid := ValidLineItems(items);
    if valid == [] then Fail([], NoVariantsMessage)
    else
      var invoke := [InvokeCreateOrder(BuildOrderData(orderId, customer, address, items))];
      match response
      case InvokeError(message) => Fail(invoke, message)
      case InvokeData(None) => Fail(invoke, "Cannot read properties of undefined (reading 'order_number')")
      case InvokeData(Some(order)) =>
        var update := if TruthyOpt(order.id) then [UpdateSampleRequest(orderId, order.id.value)] else [];
        var effects := invoke + update + [SuccessToast(SuccessDescription(order))];
        assert TruthyOpt(order.id) ==> effects[1].UpdateSampleRequest?;
        Outcome(effects, Ok(order))
  }

  /** Nothing reaches Shopify when no item has a variant id. */
  lemma NoVariantsNoInvoke(orderId: string, customer: Customer, address: Address, items: seq<LineItem>, response: InvokeResponse)
    requires forall i :: i in items ==> !HasVariant(i)
    ensures forall e :: e in CreateShopifyOrder(orderId, customer, address, items, response).effects ==> !e.InvokeCreateOrder?
  {
    Lists.FilterNone(items, HasVariant);
  }
}
