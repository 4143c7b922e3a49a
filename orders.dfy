/**
 * Orders and order lines (orders/views.py): the records the checkout writes, the
 * price capture, the stock each product is left with, totals and the history filter.
 */
module Orders {
  import opened Common
  import opened Catalog
  import opened Carts

  /** The fields of the shipping form. */
  datatype ShippingDetails = ShippingDetails(
    firstName: string,
    lastName: string,
    email: string,
    address: string,
    postalCode: string,
    city: string)

  /** An OrderItem row: the product, its price when the order was placed (paise), the quantity. */
  datatype OrderItem = OrderItem(product: ProductId, price: int, quantity: int)

  /**
   * An Order row. Its payment state is the `paid` flag and the intent id kept in
   * `stripeId`; there is no separate failed state.
   */
  datatype Order = Order(
    id: OrderId,
    user: UserId,
    shipping: ShippingDetails,
    items: seq<OrderItem>,
    paid: bool,
    stripeId: Option<string>)

  /** The order row `order_create` saves: the user's, unpaid, with no payment intent yet. */
  function NewOrder(id: OrderId, user: UserId, details: ShippingDetails, items: seq<OrderItem>): Order {
    Order(id, user, details, items, false, None)
  }

  /** `order.get_total_cost()`: the sum of captured price times quantity, in paise. */
  function TotalCost(items: seq<OrderItem>): int {
    if items == [] then 0
    else
      var last := items[|items| - 1];
      TotalCost(items[..|items| - 1]) + last.price * last.quantity
  }

  /**
   * The order lines the checkout loop creates: one per cart line, in cart order,
   * with the same product and quantity and the product's price at that moment.
   */
  function Capture(lines: seq<Line>, products: seq<Product>): (r: seq<OrderItem>)
    requires LinesInCatalog(lines, products)
    ensures |r| == |lines|
    ensures forall i :: 0 <= i < |lines| ==>
      r[i].product == lines[i].product && r[i].quantity == lines[i].quantity &&
      r[i].price == PriceOf(products, lines[i].product)
  {
    if lines == [] then []
    else
      var last := lines[|lines| - 1];
      Capture(lines[..|lines| - 1], products) + [OrderItem(last.product, PriceOf(products, last.product), last.quantity)]
  }

  /** The order costs what the cart cost at checkout. */
  lemma {:induction false} CaptureTotal(lines: seq<Line>, products: seq<Product>)
    requires LinesInCatalog(lines, products)
    ensures TotalCost(Capture(lines, products)) == CartTotal(lines, products)
  {
    if lines != [] {
      var front := lines[..|lines| - 1];
      assert LinesInCatalog(front, products);
      CaptureTotal(front, products);
      var items := Capture(lines, products);
      assert items[..|items| - 1] == Capture(front, products);
    }
  }

  /**
   * The product rows after the checkout loop: each row's stock lowered by the
   * quantity the cart holds of it. Nothing stops the stock going below zero.
   */
  function StockAfterCheckout(products: seq<Product>, lines: seq<Line>): seq<Product> {
    seq(|products|, k requires 0 <= k < |products| =>
      products[k].(stock := products[k].stock - Qty(Contents(lines), products[k].id)))
  }

  /**
   * With one line per product, every product in the cart loses exactly its line's
   * quantity, every other product keeps its stock, and no other column changes.
   */
  lemma CheckoutStock(products: seq<Product>, lines: seq<Line>, k: nat)
    requires Distinct(lines) && k < |products|
    ensures |StockAfterCheckout(products, lines)| == |products|
    ensures StockAfterCheckout(products, lines)[k].(stock := products[k].stock) == products[k]
    ensures var i := IndexOf(lines, products[k].id);
      StockAfterCheckout(products, lines)[k].stock ==
        products[k].stock - (if i < |lines| then lines[i].quantity else 0)
  {
    var i := IndexOf(lines, products[k].id);
    InContents(lines, products[k].id);
    if i < |lines| {
      ContentsAt(lines, i);
    }
  }

  /** `Order.objects.filter(user=user)`: the user's orders, in table order. */
  function OrderHistory(orders: seq<Order>, user: UserId): (r: seq<Order>)
    ensures |r| <= |orders|
    ensures forall o :: o in r <==> o in orders && o.user == user
    ensures forall o :: multiset(r)[o] == if o.user == user then multiset(orders)[o] else 0
  {
    if orders == [] then []
    else
      assert orders == [orders[0]] + orders[1..];
      var rest := OrderHistory(orders[1..], user);
      if orders[0].user == user then [orders[0]] + rest else rest
  }
}
