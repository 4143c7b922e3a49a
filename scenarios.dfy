/**
 * The repository's test fixtures, worked through the model: an Apple at
 * 100.00 with 10 in stock and an Orange at 50.00 with 20, prices in paise.
 */
module Scenarios {
  import opened Common
  import opened Catalog
  import opened Carts
  import opened Orders
  import opened Payments

  const Apple: Product := Product(1, 1, "Apple", "apple", 10000, 10, true)
  const Orange: Product := Product(2, 1, "Orange", "orange", 5000, 20, true)

  function Fixture(): (r: seq<Product>)
    ensures DistinctIds(r)
  {
    [Apple, Orange]
  }

  /** Two Apples and three Oranges cost 350.00. */
  lemma CartTotalExample()
    ensures CartTotal([Line(1, 2), Line(2, 3)], Fixture()) == 35000
  {
  }

  /** Adding one Apple twice leaves one line of quantity 2. */
  lemma AddExistingItemExample()
    ensures Upsert(Upsert([], 1, 1), 1, 1) == [Line(1, 2)]
  {
  }

  /** An anonymous cart's two Apples join the user's one Apple as a single line of three. */
  lemma MergeExample()
    ensures Merge([Line(1, 1)], [Line(1, 2), Line(2, 1)]) == [Line(1, 3), Line(2, 1)]
  {
  }

  /**
   * Checking out two Apples and one Orange: an order of 250.00 whose payment
   * intent asks for 25000 paise, and the stock drops by 2 and by 1.
   */
  lemma CheckoutExample(id: OrderId, user: UserId, details: ShippingDetails)
    ensures var lines := [Line(1, 2), Line(2, 1)];
      var items := Capture(lines, Fixture());
      items == [OrderItem(1, 10000, 2), OrderItem(2, 5000, 1)] &&
      TotalCost(items) == 25000 &&
      Amount(Order(id, user, details, items, false, None)) == 25000 &&
      StockAfterCheckout(Fixture(), lines) == [Apple.(stock := 8), Orange.(stock := 19)]
  {
    var lines := [Line(1, 2), Line(2, 1)];
    var items := Capture(lines, Fixture());
    assert items[..1] == [OrderItem(1, 10000, 2)];
    assert items[..1][..0] == [];
    assert TotalCost(items[..1]) == 20000;
    assert lines[..1] == [Line(1, 2)];
    assert Contents(lines) == map[1 := 2, 2 := 1];
  }
}
