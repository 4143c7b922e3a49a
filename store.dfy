/**
 * The database the views read and write: the product, category, cart and order
 * tables. Carts are keyed by their owner: a signed-in user's cart, or the
 * anonymous cart of a session key (a cart created with no user).
 */
module Store {
  import opened Common
  import opened Catalog
  import opened Carts
  import opened Orders

  /** A cart as the views keep it: one line per product, each product a catalog row. */
  predicate CartOk(lines: seq<Line>, products: seq<Product>) {
    Distinct(lines) && LinesInCatalog(lines, products)
  }

  /** Orders get auto-increment keys 1, 2, 3, ... and are never deleted here. */
  predicate SequentialIds(orders: seq<Order>) {
    forall i :: 0 <= i < |orders| ==> orders[i].id == i + 1
  }

  /** The lines of the session cart under `k`; none when there is no such cart. */
  function LinesOr(m: map<SessionKey, seq<Line>>, k: SessionKey): seq<Line> {
    if k in m then m[k] else []
  }

  /** The lines of the user's cart; none when the user has no cart yet. */
  function UserLinesOr(m: map<UserId, seq<Line>>, u: UserId): seq<Line> {
    if u in m then m[u] else []
  }

  class Database {
    var products: seq<Product>
    var categories: seq<Category>
    var userCarts: map<UserId, seq<Line>>
    var guestCarts: map<SessionKey, seq<Line>>
    var orders: seq<Order>

    ghost predicate Valid()
      reads this
    {
      && DistinctIds(products)
      && (forall u :: u in userCarts ==> CartOk(userCarts[u], products))
      && (forall k :: k in guestCarts ==> CartOk(guestCarts[k], products))
      && SequentialIds(orders)
    }

    /** A shop with the given catalog, no carts and no orders. */
    constructor (products: seq<Product>, categories: seq<Category>)
      requires DistinctIds(products)
      ensures Valid()
      ensures this.products == products && this.categories == categories
      ensures userCarts == map[] && guestCarts == map[] && orders == []
    {
      this.products := products;
      this.categories := categories;
      userCarts := map[];
      guestCarts := map[];
      orders := [];
    }
  }
}
