/**
 * What the two versions of payments/views share: the order lookup behind
 * `get_object_or_404(Order, id=..., user=..., paid=False)`, the amount and
 * currency of a payment intent, and the calls made to and answers received
 * from the payment gateway. The gateway itself is not modelled: its answers
 * are inputs.
 */
module Payments {
  import opened Common
  import opened Catalog
  import opened Carts
  import opened Orders

  /** The currency every intent is created in. */
  const Currency: string := "inr"

  datatype HttpMethod = Get | Post

  /** A request sent to the payment gateway. */
  datatype GatewayCall =
    | CreateIntent(amount: int, currency: string, orderId: OrderId)
    | RetrieveIntent(intentId: string)

  /** The gateway's answer to a create request: the new intent, or the error it raised. */
  datatype CreateReply = IntentCreated(intentId: string, clientSecret: string) | CreateError(message: string)

  /** The gateway's answer to a retrieve request. */
  datatype RetrieveReply = IntentRetrieved(status: string, clientSecret: string) | RetrieveError(message: string)

  /**
   * `int(order.get_total_cost() * 100)`: the total in minor units. Prices are
   * kept in paise, so the rupee total times 100 is the paise total exactly.
   */
  function Amount(o: Order): int {
    TotalCost(o.items)
  }

  /**
   * The intent for a freshly placed order asks for exactly what the cart cost
   * at checkout, at the prices of that moment.
   */
  lemma IntentAmountIsCartTotal(id: OrderId, user: UserId, details: ShippingDetails,
                                lines: seq<Line>, products: seq<Product>)
    requires LinesInCatalog(lines, products)
    ensures Amount(NewOrder(id, user, details, Capture(lines, products))) == CartTotal(lines, products)
    ensures IntentRequest(NewOrder(id, user, details, Capture(lines, products))) ==
      CreateIntent(CartTotal(lines, products), Currency, id)
  {
    CaptureTotal(lines, products);
  }

  /** The create request for `o`: its amount, the currency and its id as metadata. */
  function IntentRequest(o: Order): GatewayCall {
    CreateIntent(Amount(o), Currency, o.id)
  }

  /** `if order.stripe_id:` — an id that is absent or empty counts as no intent. */
  predicate HasIntent(o: Order) {
    o.stripeId.Some? && o.stripeId.value != ""
  }

  /** `Order.objects.get(id=id)`: the position of the order with that key. */
  function OrderIndex(orders: seq<Order>, id: OrderId): (r: Option<nat>)
    ensures r.Some? ==> r.value < |orders| && orders[r.value].id == id
    ensures r.None? <==> forall k :: 0 <= k < |orders| ==> orders[k].id != id
  {
    if orders == [] then None
    else if orders[0].id == id then Some(0)
    else
      match OrderIndex(orders[1..], id)
      case Some(k) => Some(k + 1)
      case None => None
  }

  /** The order a payment request may act on: this id, owned by `user`, not yet paid. */
  function PayableIndex(orders: seq<Order>, id: OrderId, user: UserId): (r: Option<nat>)
    ensures r.Some? ==> r.value < |orders| && orders[r.value].id == id &&
                        orders[r.value].user == user && !orders[r.value].paid
    ensures r.None? ==> forall k :: 0 <= k < |orders| && orders[k].id == id ==>
                          orders[k].user != user || orders[k].paid
  {
    if orders == [] then None
    else if orders[0].id == id && orders[0].user == user && !orders[0].paid then Some(0)
    else
      match PayableIndex(orders[1..], id, user)
      case Some(k) => Some(k + 1)
      case None => None
  }

  /** What a payment step may change of an order: the intent id and nothing else. */
  predicate OnlyIntentChanged(before: Order, after: Order) {
    after.(stripeId := before.stripeId) == before
  }
}
