/**
 * Cart contents (cart/views.py). A cart is a sequence of lines, one CartItem row
 * each; `Contents` abstracts it to the quantity held per product. The functions
 * here are the specifications the cart views and the checkout are proved against.
 */
module Carts {
  import opened Common
  import opened Catalog

  /** A CartItem row: a product and its quantity (an int: the view never checks its sign). */
  datatype Line = Line(product: ProductId, quantity: int)

  /** At most one line per product. */
  predicate Distinct(lines: seq<Line>) {
    forall i, j :: 0 <= i < j < |lines| ==> lines[i].product != lines[j].product
  }

  /** Every line refers to a product row (the foreign key holds). */
  predicate LinesInCatalog(lines: seq<Line>, products: seq<Product>) {
    forall i :: 0 <= i < |lines| ==> InCatalog(products, lines[i].product)
  }

  /** `CartItem.objects.filter(cart=cart, product=p).first()`: the first line for `p`, or |lines|. */
  function IndexOf(lines: seq<Line>, p: ProductId): (r: nat)
    ensures r <= |lines|
    ensures r < |lines| ==> lines[r].product == p
    ensures forall j :: 0 <= j < r ==> lines[j].product != p
  {
    if lines == [] then 0
    else if lines[0].product == p then 0
    else 1 + IndexOf(lines[1..], p)
  }

  /** The quantity a map records for `p`, 0 when it records none. */
  function Qty(m: map<ProductId, int>, p: ProductId): int {
    if p in m then m[p] else 0
  }

  /** The products of a cart with their summed quantities. */
  function Contents(lines: seq<Line>): map<ProductId, int> {
    if lines == [] then map[]
    else
      var c := Contents(lines[..|lines| - 1]);
      var last := lines[|lines| - 1];
      c[last.product := Qty(c, last.product) + last.quantity]
  }

  /**
   * `get_or_create(cart=cart, product=p)` followed by the quantity update: an
   * existing line grows by `q`, otherwise a new line holding exactly `q` is appended.
   */
  function Upsert(lines: seq<Line>, p: ProductId, q: int): (r: seq<Line>)
    ensures |lines| <= |r| <= |lines| + 1
    ensures forall k :: 0 <= k < |lines| ==> r[k].product == lines[k].product
    ensures forall k :: 0 <= k < |lines| && lines[k].product != p ==> r[k] == lines[k]
  {
    var i := IndexOf(lines, p);
    if i < |lines| then lines[i := Line(p, lines[i].quantity + q)] else lines + [Line(p, q)]
  }

  /** The user cart after the guest lines have been folded into it one at a time. */
  function Merge(user: seq<Line>, guest: seq<Line>): (r: seq<Line>)
    ensures |user| <= |r| <= |user| + |guest|
    ensures forall k :: 0 <= k < |user| ==> r[k].product == user[k].product
  {
    if guest == [] then user
    else
      var last := guest[|guest| - 1];
      Upsert(Merge(user, guest[..|guest| - 1]), last.product, last.quantity)
  }

  /** The cart without its line at position `i` (`cart_item.delete()`). */
  function RemoveAt(lines: seq<Line>, i: nat): (r: seq<Line>)
    requires i < |lines|
    ensures |r| == |lines| - 1
    ensures forall k :: 0 <= k < |r| ==> r[k] == if k < i then lines[k] else lines[k + 1]
  {
    lines[..i] + lines[i + 1..]
  }

  /** `cart.get_total_price()`: the sum of price times quantity over the lines, in paise. */
  function CartTotal(lines: seq<Line>, products: seq<Product>): int
    requires LinesInCatalog(lines, products)
  {
    if lines == [] then 0
    else
      var last := lines[|lines| - 1];
      CartTotal(lines[..|lines| - 1], products) + PriceOf(products, last.product) * last.quantity
  }

  // ---------------------------------------------------------------------------
  // Contents

  /** A product is in the cart exactly when some line holds it, and the lookup finds it. */
  lemma {:induction false} InContents(lines: seq<Line>, p: ProductId)
    ensures p in Contents(lines) <==> exists i :: 0 <= i < |lines| && lines[i].product == p
    ensures p in Contents(lines) <==> IndexOf(lines, p) < |lines|
  {
    if lines != [] {
      var front := lines[..|lines| - 1];
      InContents(front, p);
      assert forall i :: 0 <= i < |front| ==> front[i] == lines[i];
      if p in Contents(lines) && p !in Contents(front) {
        assert lines[|lines| - 1].product == p;
      }
    }
  }

  /** With one line per product, the contents record each line's own quantity. */
  lemma {:induction false} ContentsAt(lines: seq<Line>, i: nat)
    requires Distinct(lines) && i < |lines|
    ensures lines[i].product in Contents(lines)
    ensures Contents(lines)[lines[i].product] == lines[i].quantity
  {
    var n := |lines|;
    var front := lines[..n - 1];
    assert Distinct(front);
    if i == n - 1 {
      InContents(front, lines[i].product);
    } else {
      ContentsAt(front, i);
    }
  }

  /** Replacing a line by one for the same product shifts that product's quantity by the difference. */
  lemma {:induction false} ContentsReplace(lines: seq<Line>, i: nat, y: Line)
    requires i < |lines| && y.product == lines[i].product
    ensures Contents(lines[i := y]) ==
      Contents(lines)[y.product := Qty(Contents(lines), y.product) - lines[i].quantity + y.quantity]
  {
    var n := |lines|;
    var after := lines[i := y];
    var front := lines[..n - 1];
    if i == n - 1 {
      assert after[..n - 1] == front;
    } else {
      assert after[..n - 1] == front[i := y];
      ContentsReplace(front, i, y);
    }
  }

  /** Appending a line adds its quantity to its product. */
  lemma ContentsAppend(lines: seq<Line>, y: Line)
    ensures Contents(lines + [y]) == Contents(lines)[y.product := Qty(Contents(lines), y.product) + y.quantity]
  {
    assert (lines + [y])[..|lines|] == lines;
  }

  // ---------------------------------------------------------------------------
  // Adding

  /**
   * After an add, `p` holds its old quantity plus `q` (exactly `q` for a new line)
   * and every other product keeps its quantity.
   */
  lemma UpsertContents(lines: seq<Line>, p: ProductId, q: int)
    ensures Contents(Upsert(lines, p, q)) == Contents(lines)[p := Qty(Contents(lines), p) + q]
  {
    var i := IndexOf(lines, p);
    var c := Contents(lines);
    if i < |lines| {
      var y := Line(p, lines[i].quantity + q);
      assert Upsert(lines, p, q) == lines[i := y];
      ContentsReplace(lines, i, y);
      assert Qty(c, p) - lines[i].quantity + y.quantity == Qty(c, p) + q;
    } else {
      assert Upsert(lines, p, q) == lines + [Line(p, q)];
      ContentsAppend(lines, Line(p, q));
    }
  }

  /** An add keeps one line per product: it grows the line it finds or appends a new product. */
  lemma UpsertDistinct(lines: seq<Line>, p: ProductId, q: int)
    requires Distinct(lines)
    ensures Distinct(Upsert(lines, p, q))
    ensures |Upsert(lines, p, q)| == if p in Contents(lines) then |lines| else |lines| + 1
  {
    InContents(lines, p);
    var i := IndexOf(lines, p);
    var r := Upsert(lines, p, q);
    if i < |lines| {
      assert forall k :: 0 <= k < |r| ==> r[k].product == lines[k].product;
    } else {
      assert forall k :: 0 <= k < |lines| ==> r[k] == lines[k];
      assert r[|lines|].product == p;
    }
  }

  /** The lookup finds the first line for `p`. */
  lemma IndexOfFirst(lines: seq<Line>, p: ProductId, i: nat)
    requires i < |lines| && lines[i].product == p
    requires forall j :: 0 <= j < i ==> lines[j].product != p
    ensures IndexOf(lines, p) == i
  {
  }

  /** Adding the same product twice is one add of the summed quantity: still one line. */
  lemma AddTwice(lines: seq<Line>, p: ProductId, a: int, b: int)
    ensures Upsert(Upsert(lines, p, a), p, b) == Upsert(lines, p, a + b)
  {
    var i := IndexOf(lines, p);
    var once := Upsert(lines, p, a);
    if i < |lines| {
      IndexOfFirst(once, p, i);
    } else {
      IndexOfFirst(once, p, |lines|);
    }
  }

  /** Adding a catalog product keeps every line pointing at the catalog. */
  lemma UpsertInCatalog(lines: seq<Line>, p: ProductId, q: int, products: seq<Product>)
    requires LinesInCatalog(lines, products) && InCatalog(products, p)
    ensures LinesInCatalog(Upsert(lines, p, q), products)
  {
  }

  /** The total grows by the product's price times the quantity added. */
  lemma {:induction false} ReplaceTotal(lines: seq<Line>, i: nat, y: Line, products: seq<Product>)
    requires LinesInCatalog(lines, products)
    requires i < |lines| && y.product == lines[i].product
    ensures LinesInCatalog(lines[i := y], products)
    ensures CartTotal(lines[i := y], products) ==
      CartTotal(lines, products) + PriceOf(products, y.product) * y.quantity
        - PriceOf(products, y.product) * lines[i].quantity
  {
    var n := |lines|;
    var after := lines[i := y];
    var front := lines[..n - 1];
    assert LinesInCatalog(front, products);
    if i == n - 1 {
      assert after[..n - 1] == front;
    } else {
      assert after[..n - 1] == front[i := y];
      ReplaceTotal(front, i, y, products);
    }
  }

  lemma UpsertTotal(lines: seq<Line>, p: ProductId, q: int, products: seq<Product>)
    requires LinesInCatalog(lines, products) && InCatalog(products, p)
    ensures LinesInCatalog(Upsert(lines, p, q), products)
    ensures CartTotal(Upsert(lines, p, q), products) == CartTotal(lines, products) + PriceOf(products, p) * q
  {
    var i := IndexOf(lines, p);
    var price := PriceOf(products, p);
    UpsertInCatalog(lines, p, q, products);
    if i < |lines| {
      var old_q := lines[i].quantity;
      assert Upsert(lines, p, q) == lines[i := Line(p, old_q + q)];
      ReplaceTotal(lines, i, Line(p, old_q + q), products);
      assert price * (old_q + q) == price * old_q + price * q;
    } else {
      var after := lines + [Line(p, q)];
      assert Upsert(lines, p, q) == after;
      assert after[..|lines|] == lines;
      assert CartTotal(after, products) == CartTotal(lines, products) + price * q;
    }
  }

  // ---------------------------------------------------------------------------
  // Merging the guest cart into the user cart

  /**
   * After the merge each product's quantity is its user quantity plus its guest
   * quantity, a product is in the merged cart when it was in either cart, and a
   * product only the guest cart held arrives with its guest quantity unchanged.
   */
  lemma {:induction false} MergeQuantities(user: seq<Line>, guest: seq<Line>, p: ProductId)
    ensures p in Contents(Merge(user, guest)) <==> p in Contents(user) || p in Contents(guest)
    ensures Qty(Contents(Merge(user, guest)), p) == Qty(Contents(user), p) + Qty(Contents(guest), p)
    ensures p !in Contents(user) ==> Qty(Contents(Merge(user, guest)), p) == Qty(Contents(guest), p)
  {
    if guest != [] {
      var front := guest[..|guest| - 1];
      var last := guest[|guest| - 1];
      var merged := Merge(user, front);
      var cf := Contents(front);
      assert Merge(user, guest) == Upsert(merged, last.product, last.quantity);
      assert Contents(guest) == cf[last.product := Qty(cf, last.product) + last.quantity];
      MergeQuantities(user, front, p);
      UpsertContents(merged, last.product, last.quantity);
    }
  }

  /** Merging keeps one line per product and keeps every line in the catalog. */
  lemma {:induction false} MergeWellFormed(user: seq<Line>, guest: seq<Line>, products: seq<Product>)
    requires Distinct(user)
    requires LinesInCatalog(user, products) && LinesInCatalog(guest, products)
    ensures Distinct(Merge(user, guest))
    ensures LinesInCatalog(Merge(user, guest), products)
  {
    if guest != [] {
      var front := guest[..|guest| - 1];
      var last := guest[|guest| - 1];
      assert LinesInCatalog(front, products);
      MergeWellFormed(user, front, products);
      UpsertDistinct(Merge(user, front), last.product, last.quantity);
      UpsertInCatalog(Merge(user, front), last.product, last.quantity, products);
    }
  }

  /** The merged cart costs what the two carts cost together. */
  lemma {:induction false} MergeTotal(user: seq<Line>, guest: seq<Line>, products: seq<Product>)
    requires LinesInCatalog(user, products) && LinesInCatalog(guest, products)
    ensures LinesInCatalog(Merge(user, guest), products)
    ensures CartTotal(Merge(user, guest), products) == CartTotal(user, products) + CartTotal(guest, products)
  {
    if guest != [] {
      var front := guest[..|guest| - 1];
      var last := guest[|guest| - 1];
      assert LinesInCatalog(front, products);
      MergeTotal(user, front, products);
      UpsertTotal(Merge(user, front), last.product, last.quantity, products);
    }
  }

  /** Folding in one more guest line is one more upsert (the step of the merge loop). */
  lemma MergeStep(user: seq<Line>, guest: seq<Line>, i: nat)
    requires i < |guest|
    ensures Merge(user, guest[..i + 1]) == Upsert(Merge(user, guest[..i]), guest[i].product, guest[i].quantity)
  {
    assert guest[..i + 1][..i] == guest[..i];
  }

  // ---------------------------------------------------------------------------
  // Removing

  /** Deleting a line keeps one line per product. */
  lemma RemoveDistinct(lines: seq<Line>, i: nat)
    requires Distinct(lines) && i < |lines|
    ensures Distinct(RemoveAt(lines, i))
  {
    var r := RemoveAt(lines, i);
    assert forall k :: 0 <= k < |r| ==> r[k] == (if k < i then lines[k] else lines[k + 1]);
  }

  /**
   * Deleting line `i` of a distinct cart takes its product out of the
   * contents and leaves every other product's quantity as it was.
   */
  lemma {:induction false} RemoveQuantity(lines: seq<Line>, i: nat, x: ProductId)
    requires Distinct(lines) && i < |lines|
    ensures x in Contents(RemoveAt(lines, i)) <==> x in Contents(lines) && x != lines[i].product
    ensures x != lines[i].product ==> Qty(Contents(RemoveAt(lines, i)), x) == Qty(Contents(lines), x)
  {
    var n := |lines|;
    var front := lines[..n - 1];
    var last := lines[n - 1];
    assert lines == front + [last];
    AppendOne(front, last, x);
    if i == n - 1 {
      assert RemoveAt(lines, i) == front;
      InContents(front, lines[i].product);
    } else {
      assert Distinct(front);
      assert last.product != lines[i].product;
      var rf := RemoveAt(front, i);
      RemoveQuantity(front, i, x);
      RemoveAtAppend(front, last, i);
      AppendOne(rf, last, x);
      var d := if x == last.product then last.quantity else 0;
      if x != lines[i].product {
        calc {
          Qty(Contents(RemoveAt(lines, i)), x);
        ==
          Qty(Contents(rf + [last]), x);
        ==
          Qty(Contents(rf), x) + d;
        ==
          Qty(Contents(front), x) + d;
        ==
          Qty(Contents(lines), x);
        }
      }
    }
  }

  /** What appending one line does to one product: it joins the contents and gains the line's quantity. */
  lemma AppendOne(lines: seq<Line>, y: Line, x: ProductId)
    ensures x in Contents(lines + [y]) <==> x in Contents(lines) || x == y.product
    ensures Qty(Contents(lines + [y]), x) == Qty(Contents(lines), x) + (if x == y.product then y.quantity else 0)
  {
    ContentsAppend(lines, y);
  }

  /** Deleting the line found for `p` takes exactly `p` out of the cart. */
  lemma RemoveContents(lines: seq<Line>, i: nat)
    requires Distinct(lines) && i < |lines|
    ensures Distinct(RemoveAt(lines, i))
    ensures Contents(RemoveAt(lines, i)) == Contents(lines) - {lines[i].product}
  {
    RemoveDistinct(lines, i);
    forall x
      ensures x in Contents(RemoveAt(lines, i)) <==> x in Contents(lines) - {lines[i].product}
      ensures x in Contents(RemoveAt(lines, i)) ==> Contents(RemoveAt(lines, i))[x] == Contents(lines)[x]
    {
      RemoveQuantity(lines, i, x);
    }
  }

  /** Deleting a line before the last one keeps the last line last. */
  lemma RemoveAtAppend(front: seq<Line>, last: Line, i: nat)
    requires i < |front|
    ensures RemoveAt(front + [last], i) == RemoveAt(front, i) + [last]
  {
    assert (front + [last])[i + 1..] == front[i + 1..] + [last];
  }

  /** Removing keeps every remaining line in the catalog. */
  lemma RemoveInCatalog(lines: seq<Line>, i: nat, products: seq<Product>)
    requires LinesInCatalog(lines, products) && i < |lines|
    ensures LinesInCatalog(RemoveAt(lines, i), products)
  {
    var r := RemoveAt(lines, i);
    assert forall k :: 0 <= k < |r| ==> r[k] == (if k < i then lines[k] else lines[k + 1]);
  }
}
