/**
 * The checkout view (orders/views.py, `order_create`): the empty-cart and form
 * guards, one order line per cart line with the price captured, the unguarded
 * stock decrement, and the cleared cart.
 */
module OrderViews {
  import opened Common
  import opened Catalog
  import opened Carts
  import opened Orders
  import opened Store

  /** A GET shows the form; a POST submits it, valid or not as the form class decides. */
  datatype CheckoutRequest = ShowForm | Submit(details: ShippingDetails, formValid: bool)

  datatype CheckoutOutcome = EmptyCart | FormShown | FormInvalid | Created(order: OrderId)

  /**
   * `order_create` for the signed-in `user`. The user's cart is fetched or
   * created empty. An empty cart is turned away, a GET shows the form and an
   * invalid form is shown again, each with no order, stock or cart change.
   * Otherwise an order is saved, each cart line becomes an order line at the
   * product's current price, each product's stock drops by its line's quantity
   * (possibly below zero), and the cart's lines are deleted.
   */
  method OrderCreate(db: Database, user: UserId, req: CheckoutRequest) returns (outcome: CheckoutOutcome)
    requires db.Valid()
    modifies db
    ensures db.Valid()
    ensures db.guestCarts == old(db.guestCarts) && db.categories == old(db.categories)
    ensures outcome.Created? <==> UserLinesOr(old(db.userCarts), user) != [] && req.Submit? && req.formValid
    ensures var lines := UserLinesOr(old(db.userCarts), user);
      && (lines == [] ==> outcome == EmptyCart)
      && (lines != [] && req.ShowForm? ==> outcome == FormShown)
      && (lines != [] && req.Submit? && !req.formValid ==> outcome == FormInvalid)
    ensures !outcome.Created? ==>
      && db.products == old(db.products) && db.orders == old(db.orders)
      && db.userCarts == old(db.userCarts)[user := UserLinesOr(old(db.userCarts), user)]
    ensures outcome.Created? ==>
      var lines := UserLinesOr(old(db.userCarts), user);
      && lines != [] && req.Submit? && req.formValid
      && LinesInCatalog(lines, old(db.products))
      && outcome.order == |old(db.orders)| + 1
      && db.orders == old(db.orders) + [NewOrder(outcome.order, user, req.details, Capture(lines, old(db.products)))]
      && db.products == StockAfterCheckout(old(db.products), lines)
      && db.userCarts == old(db.userCarts)[user := []]
  {
    if user !in db.userCarts {
      db.userCarts := db.userCarts[user := []];
    }
    var lines := db.userCarts[user];
    if lines == [] {
      return EmptyCart;
    }
    if req.ShowForm? {
      return FormShown;
    }
    if !req.formValid {
      return FormInvalid;
    }
    var id := |db.orders| + 1;
    KeysKept(db.products, lines, db.userCarts, db.guestCarts);
    var items, after := CheckoutLines(db.products, lines);
    db.products := after;
    db.orders := db.orders + [NewOrder(id, user, req.details, items)];
    db.userCarts := db.userCarts[user := []];
    outcome := Created(id);
  }

  /**
   * The loop of `order_create`: for each cart line, an order line at the
   * product's price, then `product.stock -= quantity` on that product.
   */
  method CheckoutLines(products: seq<Product>, lines: seq<Line>) returns (items: seq<OrderItem>, after: seq<Product>)
    requires DistinctIds(products) && LinesInCatalog(lines, products)
    ensures items == Capture(lines, products)
    ensures after == StockAfterCheckout(products, lines)
  {
    items := [];
    after := products;
    var i := 0;
    while i < |lines|
      invariant 0 <= i <= |lines|
      invariant items == Capture(lines[..i], products)
      invariant after == StockAfterCheckout(products, lines[..i])
    {
      var line := lines[i];
      SameKeysSameIndex(after, products, line.product);
      var k := ProductIndex(after, line.product);
      var product := after[k];
      items := items + [OrderItem(product.id, product.price, line.quantity)];
      after := after[k := product.(stock := product.stock - line.quantity)];
      StockStep(products, lines, i, k);
      assert lines[..i + 1][..i] == lines[..i];
      i := i + 1;
    }
    assert lines[..i] == lines;
  }

  /** Lowering stock leaves the keys alone, so every cart still points into the catalog. */
  lemma KeysKept(products: seq<Product>, lines: seq<Line>,
                 userCarts: map<UserId, seq<Line>>, guestCarts: map<SessionKey, seq<Line>>)
    requires DistinctIds(products)
    requires forall u :: u in userCarts ==> CartOk(userCarts[u], products)
    requires forall k :: k in guestCarts ==> CartOk(guestCarts[k], products)
    ensures DistinctIds(StockAfterCheckout(products, lines))
    ensures forall u :: u in userCarts ==> CartOk(userCarts[u], StockAfterCheckout(products, lines))
    ensures forall k :: k in guestCarts ==> CartOk(guestCarts[k], StockAfterCheckout(products, lines))
  {
    var after := StockAfterCheckout(products, lines);
    forall p
      ensures ProductIndex(after, p) == ProductIndex(products, p)
    {
      SameKeysSameIndex(after, products, p);
    }
  }

  /** One more pass of the checkout loop lowers the stock of line `i`'s product, and only of it. */
  lemma StockStep(products: seq<Product>, lines: seq<Line>, i: nat, k: nat)
    requires DistinctIds(products) && i < |lines| && k < |products| && products[k].id == lines[i].product
    ensures var now := StockAfterCheckout(products, lines[..i]);
      now[k := now[k].(stock := now[k].stock - lines[i].quantity)] == StockAfterCheckout(products, lines[..i + 1])
  {
    var p := lines[i].product;
    var c := Contents(lines[..i]);
    assert lines[..i + 1][..i] == lines[..i];
    assert Contents(lines[..i + 1]) == c[p := Qty(c, p) + lines[i].quantity];
  }
}
