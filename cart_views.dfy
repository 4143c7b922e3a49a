/**
 * The cart views (cart/views.py): finding or creating the request's cart, with
 * the merge of the session's anonymous cart into a signed-in user's cart, and
 * adding, removing and showing cart lines.
 */
module CartViews {
  import opened Common
  import opened Catalog
  import opened Carts
  import opened Store

  /** Who is asking: the signed-in user, if any, and the session key, if the session has one. */
  datatype Request = Request(user: Option<UserId>, session: Option<SessionKey>)

  /** Which cart a request resolved to. */
  datatype CartRef = UserCart(user: UserId) | GuestCart(key: SessionKey)

  /** The cart tables after `_get_or_create_cart`, the cart it returned and the session key. */
  datatype Resolution = Resolution(
    cart: CartRef,
    session: Option<SessionKey>,
    userCarts: map<UserId, seq<Line>>,
    guestCarts: map<SessionKey, seq<Line>>)
  {
    predicate HasCart() {
      match cart
      case UserCart(u) => u in userCarts
      case GuestCart(k) => k in guestCarts
    }

    /** The lines of the resolved cart. */
    function Lines(): seq<Line>
      requires HasCart()
    {
      match cart
      case UserCart(u) => userCarts[u]
      case GuestCart(k) => guestCarts[k]
    }

    /** The same tables with the resolved cart's lines replaced. */
    function Put(lines: seq<Line>): (r: Resolution)
      requires HasCart()
      ensures r.HasCart() && r.Lines() == lines && r.cart == cart && r.session == session
      ensures cart.UserCart? ==> r.userCarts == userCarts[cart.user := lines] && r.guestCarts == guestCarts
      ensures cart.GuestCart? ==> r.guestCarts == guestCarts[cart.key := lines] && r.userCarts == userCarts
    {
      match cart
      case UserCart(u) => this.(userCarts := userCarts[u := lines])
      case GuestCart(k) => this.(guestCarts := guestCarts[k := lines])
    }
  }

  /**
   * `_get_or_create_cart`. A signed-in user gets their cart (created empty if
   * absent); when the session has a key, the lines of the anonymous cart under
   * that key are merged in and that cart is deleted. An anonymous request uses
   * the user-less cart of its session key, creating the session (with
   * `freshKey`) and the cart when they do not exist.
   */
  function Resolve(userCarts: map<UserId, seq<Line>>, guestCarts: map<SessionKey, seq<Line>>,
                   req: Request, freshKey: SessionKey): (r: Resolution)
    ensures r.HasCart()
    ensures r.cart.UserCart? <==> req.user.Some?
    ensures req.user.Some? ==> r.cart == UserCart(req.user.value) && r.session == req.session
    ensures req.user.Some? && req.session.Some? ==>
      r.guestCarts == guestCarts - {req.session.value} && req.session.value !in r.guestCarts
    ensures req.user.Some? && req.session.None? ==>
      r.guestCarts == guestCarts && r.userCarts[req.user.value] == UserLinesOr(userCarts, req.user.value)
    ensures req.user.Some? ==> r.userCarts.Keys == userCarts.Keys + {req.user.value}
    ensures req.user.Some? ==> forall u :: u in userCarts && u != req.user.value ==> r.userCarts[u] == userCarts[u]
    ensures req.user.None? ==> r.userCarts == userCarts
    ensures req.user.None? ==>
      r.session.Some? && r.cart == GuestCart(r.session.value) &&
      r.session == (if req.session.Some? then req.session else Some(freshKey)) &&
      r.guestCarts == guestCarts[r.session.value := LinesOr(guestCarts, r.session.value)]
  {
    match req.user
    case Some(u) =>
      var base := UserLinesOr(userCarts, u);
      if req.session.Some? then
        var k := req.session.value;
        Resolution(UserCart(u), req.session, userCarts[u := Merge(base, LinesOr(guestCarts, k))], guestCarts - {k})
      else
        Resolution(UserCart(u), None, userCarts[u := base], guestCarts)
    case None =>
      var k := if req.session.Some? then req.session.value else freshKey;
      Resolution(GuestCart(k), Some(k), userCarts, guestCarts[k := LinesOr(guestCarts, k)])
  }

  /**
   * For a signed-in user the resolved cart holds, for every product, the old
   * user quantity plus the session cart's quantity; products only the session
   * cart held are moved over with their quantity.
   */
  lemma ResolveMerges(userCarts: map<UserId, seq<Line>>, guestCarts: map<SessionKey, seq<Line>>,
                      u: UserId, k: SessionKey, freshKey: SessionKey, p: ProductId)
    ensures var r := Resolve(userCarts, guestCarts, Request(Some(u), Some(k)), freshKey);
      var before := Contents(UserLinesOr(userCarts, u));
      var guest := Contents(LinesOr(guestCarts, k));
      && (p in Contents(r.Lines()) <==> p in before || p in guest)
      && Qty(Contents(r.Lines()), p) == Qty(before, p) + Qty(guest, p)
      && (p !in before ==> Qty(Contents(r.Lines()), p) == Qty(guest, p))
  {
    MergeQuantities(UserLinesOr(userCarts, u), LinesOr(guestCarts, k), p);
  }

  /**
   * Resolving again with the session key the first resolution left changes
   * nothing: the session cart is gone, so a repeated merge adds nothing.
   */
  lemma ResolveIdempotent(userCarts: map<UserId, seq<Line>>, guestCarts: map<SessionKey, seq<Line>>,
                          req: Request, freshKey: SessionKey, freshKey2: SessionKey)
    ensures var r := Resolve(userCarts, guestCarts, req, freshKey);
      Resolve(r.userCarts, r.guestCarts, req.(session := r.session), freshKey2) == r
  {
    var r := Resolve(userCarts, guestCarts, req, freshKey);
    if req.user.Some? {
      var u := req.user.value;
      var r2 := Resolve(r.userCarts, r.guestCarts, req.(session := r.session), freshKey2);
      assert r2.userCarts == r.userCarts;
    }
  }

  /** Resolution keeps every cart well formed. */
  lemma ResolveKeepsCarts(products: seq<Product>, userCarts: map<UserId, seq<Line>>,
                          guestCarts: map<SessionKey, seq<Line>>, req: Request, freshKey: SessionKey)
    requires forall u :: u in userCarts ==> CartOk(userCarts[u], products)
    requires forall k :: k in guestCarts ==> CartOk(guestCarts[k], products)
    ensures var r := Resolve(userCarts, guestCarts, req, freshKey);
      && (forall u :: u in r.userCarts ==> CartOk(r.userCarts[u], products))
      && (forall k :: k in r.guestCarts ==> CartOk(r.guestCarts[k], products))
  {
    if req.user.Some? && req.session.Some? {
      MergeWellFormed(UserLinesOr(userCarts, req.user.value), LinesOr(guestCarts, req.session.value), products);
    }
  }

  /**
   * The merge of `_get_or_create_cart` on the database: the session cart's
   * lines are folded into the user cart, then the session cart is deleted.
   */
  method MergeSessionCart(db: Database, u: UserId, key: SessionKey)
    requires db.Valid() && u in db.userCarts
    modifies db
    ensures db.Valid()
    ensures db.userCarts == old(db.userCarts)[u := Merge(old(db.userCarts)[u], LinesOr(old(db.guestCarts), key))]
    ensures db.guestCarts == old(db.guestCarts) - {key}
    ensures db.products == old(db.products) && db.categories == old(db.categories) && db.orders == old(db.orders)
  {
    var guest := LinesOr(db.guestCarts, key);
    MergeWellFormed(db.userCarts[u], guest, db.products);
    var merged := MergeLines(db.userCarts[u], guest);
    db.userCarts := db.userCarts[u := merged];
    db.guestCarts := db.guestCarts - {key};
  }

  /**
   * The loop over the session cart's items: for each, the user cart's line for
   * that product grows by the item's quantity, or the item moves over as it is.
   */
  method MergeLines(user: seq<Line>, guest: seq<Line>) returns (merged: seq<Line>)
    ensures merged == Merge(user, guest)
  {
    merged := user;
    var i := 0;
    while i < |guest|
      invariant 0 <= i <= |guest|
      invariant merged == Merge(user, guest[..i])
    {
      var item := guest[i];
      merged := UpsertLine(merged, item.product, item.quantity);
      MergeStep(user, guest, i);
      i := i + 1;
    }
    assert guest[..i] == guest;
  }

  /** `_get_or_create_cart` on the database. */
  method GetOrCreateCart(db: Database, req: Request, freshKey: SessionKey) returns (cart: CartRef, session: Option<SessionKey>)
    requires db.Valid()
    modifies db
    ensures db.Valid()
    ensures Resolution(cart, session, db.userCarts, db.guestCarts) ==
      Resolve(old(db.userCarts), old(db.guestCarts), req, freshKey)
    ensures db.products == old(db.products) && db.categories == old(db.categories) && db.orders == old(db.orders)
  {
    match req.user
    case Some(u) =>
      UserCartFor(db, u, req.session);
      cart, session := UserCart(u), req.session;
    case None =>
      var key := if req.session.Some? then req.session.value else freshKey;
      if key !in db.guestCarts {
        db.guestCarts := db.guestCarts[key := []];
      }
      cart, session := GuestCart(key), Some(key);
  }

  /**
   * The signed-in branch: `get_or_create` the user's cart, then fold the
   * session cart, when there is one, into it.
   */
  method UserCartFor(db: Database, u: UserId, key: Option<SessionKey>)
    requires db.Valid()
    modifies db
    ensures db.Valid()
    ensures key.None? ==>
      db.userCarts == old(db.userCarts)[u := UserLinesOr(old(db.userCarts), u)] &&
      db.guestCarts == old(db.guestCarts)
    ensures key.Some? ==>
      db.userCarts == old(db.userCarts)[u := Merge(UserLinesOr(old(db.userCarts), u), LinesOr(old(db.guestCarts), key.value))] &&
      db.guestCarts == old(db.guestCarts) - {key.value}
    ensures db.products == old(db.products) && db.categories == old(db.categories) && db.orders == old(db.orders)
  {
    ghost var base := UserLinesOr(db.userCarts, u);
    if u !in db.userCarts {
      db.userCarts := db.userCarts[u := []];
    }
    ghost var created := db.userCarts;
    assert created == old(db.userCarts)[u := base];
    if key.Some? {
      MergeSessionCart(db, u, key.value);
      assert db.userCarts == created[u := Merge(base, LinesOr(old(db.guestCarts), key.value))];
    }
  }

  /** Writes `lines` into the cart `cart` names. */
  method StoreLines(db: Database, cart: CartRef, lines: seq<Line>)
    requires db.Valid() && CartOk(lines, db.products)
    modifies db
    ensures db.Valid()
    ensures cart.UserCart? ==>
      db.userCarts == old(db.userCarts)[cart.user := lines] && db.guestCarts == old(db.guestCarts)
    ensures cart.GuestCart? ==>
      db.guestCarts == old(db.guestCarts)[cart.key := lines] && db.userCarts == old(db.userCarts)
    ensures db.products == old(db.products) && db.categories == old(db.categories) && db.orders == old(db.orders)
  {
    match cart
    case UserCart(u) => db.userCarts := db.userCarts[u := lines];
    case GuestCart(k) => db.guestCarts := db.guestCarts[k := lines];
  }

  datatype AddOutcome = ProductNotFound | NotEnoughStock(available: int) | Added

  /**
   * `add_to_cart`. An unknown product is a 404 before the cart is touched. The
   * cart is then resolved; a quantity above the product's visible stock is
   * refused with that stock; otherwise the product's line grows by the quantity
   * or a new line holding it is appended. The quantity defaults to 1 and is not
   * checked for sign.
   */
  method AddToCart(db: Database, req: Request, productId: ProductId, quantity: Option<int>, freshKey: SessionKey)
    returns (outcome: AddOutcome, session: Option<SessionKey>)
    requires db.Valid()
    modifies db
    ensures db.Valid()
    ensures db.products == old(db.products) && db.categories == old(db.categories) && db.orders == old(db.orders)
    ensures !InCatalog(old(db.products), productId) ==>
      outcome == ProductNotFound && session == req.session &&
      db.userCarts == old(db.userCarts) && db.guestCarts == old(db.guestCarts)
    ensures InCatalog(old(db.products), productId) ==>
      var r := Resolve(old(db.userCarts), old(db.guestCarts), req, freshKey);
      var stock := old(db.products)[ProductIndex(old(db.products), productId)].stock;
      var q := quantity.GetOr(1);
      && session == r.session
      && (stock < q ==> outcome == NotEnoughStock(stock) && db.userCarts == r.userCarts && db.guestCarts == r.guestCarts)
      && (stock >= q ==>
            outcome == Added &&
            Resolution(r.cart, r.session, db.userCarts, db.guestCarts) == r.Put(Upsert(r.Lines(), productId, q)))
  {
    var k := ProductIndex(db.products, productId);
    if k == |db.products| {
      return ProductNotFound, req.session;
    }
    var product := db.products[k];
    var cart;
    cart, session := GetOrCreateCart(db, req, freshKey);
    ghost var r := Resolution(cart, session, db.userCarts, db.guestCarts);
    var q := quantity.GetOr(1);
    if product.stock < q {
      return NotEnoughStock(product.stock), session;
    }
    AddLine(db, cart, session, productId, q);
    outcome := Added;
  }

  /** The line update of `add_to_cart` on the resolved cart: `Upsert`, then save. */
  method AddLine(db: Database, cart: CartRef, ghost session: Option<SessionKey>, productId: ProductId, q: int)
    requires db.Valid() && InCatalog(db.products, productId)
    requires Resolution(cart, session, db.userCarts, db.guestCarts).HasCart()
    modifies db
    ensures db.Valid()
    ensures var r := Resolution(cart, session, old(db.userCarts), old(db.guestCarts));
      Resolution(cart, session, db.userCarts, db.guestCarts) == r.Put(Upsert(r.Lines(), productId, q))
    ensures db.products == old(db.products) && db.categories == old(db.categories) && db.orders == old(db.orders)
  {
    ghost var r := Resolution(cart, session, db.userCarts, db.guestCarts);
    var lines := if cart.UserCart? then db.userCarts[cart.user] else db.guestCarts[cart.key];
    UpsertDistinct(lines, productId, q);
    UpsertInCatalog(lines, productId, q, db.products);
    lines := UpsertLine(lines, productId, q);
    StoreLines(db, cart, lines);
  }

  /**
   * `CartItem.objects.get_or_create(cart=cart, product=product)` and the
   * quantity update: the existing line grows by `q`, or a new line holds `q`.
   */
  method UpsertLine(lines: seq<Line>, productId: ProductId, q: int) returns (updated: seq<Line>)
    ensures updated == Upsert(lines, productId, q)
    ensures Contents(updated) == Contents(lines)[productId := Qty(Contents(lines), productId) + q]
  {
    var j := IndexOf(lines, productId);
    if j < |lines| {
      updated := lines[j := Line(productId, lines[j].quantity + q)];
    } else {
      updated := lines + [Line(productId, q)];
    }
    UpsertContents(lines, productId, q);
  }

  datatype RemoveOutcome = RemoveProductNotFound | LineNotFound | Removed

  /**
   * `remove_from_cart`. An unknown product is a 404 before the cart is touched;
   * after the cart is resolved, a product without a line is a 404 too;
   * otherwise exactly that product's line is deleted.
   */
  method RemoveFromCart(db: Database, req: Request, productId: ProductId, freshKey: SessionKey)
    returns (outcome: RemoveOutcome, session: Option<SessionKey>)
    requires db.Valid()
    modifies db
    ensures db.Valid()
    ensures db.products == old(db.products) && db.categories == old(db.categories) && db.orders == old(db.orders)
    ensures !InCatalog(old(db.products), productId) ==>
      outcome == RemoveProductNotFound && session == req.session &&
      db.userCarts == old(db.userCarts) && db.guestCarts == old(db.guestCarts)
    ensures InCatalog(old(db.products), productId) ==>
      var r := Resolve(old(db.userCarts), old(db.guestCarts), req, freshKey);
      && session == r.session
      && (productId in Contents(r.Lines()) <==> IndexOf(r.Lines(), productId) < |r.Lines()|)
      && (IndexOf(r.Lines(), productId) == |r.Lines()| ==>
            outcome == LineNotFound && db.userCarts == r.userCarts && db.guestCarts == r.guestCarts)
      && (IndexOf(r.Lines(), productId) < |r.Lines()| ==>
            var after := Resolution(r.cart, r.session, db.userCarts, db.guestCarts);
            && outcome == Removed
            && after == r.Put(RemoveAt(r.Lines(), IndexOf(r.Lines(), productId)))
            && Contents(after.Lines()) == Contents(r.Lines()) - {productId})
  {
    var k := ProductIndex(db.products, productId);
    if k == |db.products| {
      return RemoveProductNotFound, req.session;
    }
    var cart;
    cart, session := GetOrCreateCart(db, req, freshKey);
    ghost var r := Resolution(cart, session, db.userCarts, db.guestCarts);
    var lines := if cart.UserCart? then db.userCarts[cart.user] else db.guestCarts[cart.key];
    InContents(lines, productId);
    var j := IndexOf(lines, productId);
    if j == |lines| {
      return LineNotFound, session;
    }
    DeleteLine(db, cart, session, j);
    outcome := Removed;
  }

  /** `cart_item.delete()` on the resolved cart's line `j`. */
  method DeleteLine(db: Database, cart: CartRef, ghost session: Option<SessionKey>, j: nat)
    requires db.Valid()
    requires Resolution(cart, session, db.userCarts, db.guestCarts).HasCart()
    requires j < |Resolution(cart, session, db.userCarts, db.guestCarts).Lines()|
    modifies db
    ensures db.Valid()
    ensures var r := Resolution(cart, session, old(db.userCarts), old(db.guestCarts));
      var after := Resolution(cart, session, db.userCarts, db.guestCarts);
      && after == r.Put(RemoveAt(r.Lines(), j))
      && Contents(after.Lines()) == Contents(r.Lines()) - {r.Lines()[j].product}
    ensures db.products == old(db.products) && db.categories == old(db.categories) && db.orders == old(db.orders)
  {
    var lines := if cart.UserCart? then db.userCarts[cart.user] else db.guestCarts[cart.key];
    RemoveContents(lines, j);
    RemoveInCatalog(lines, j, db.products);
    StoreLines(db, cart, RemoveAt(lines, j));
  }

  /** `cart_detail`: the resolved cart's lines and their total price. */
  method CartDetail(db: Database, req: Request, freshKey: SessionKey)
    returns (lines: seq<Line>, total: int, session: Option<SessionKey>)
    requires db.Valid()
    modifies db
    ensures db.Valid()
    ensures db.products == old(db.products) && db.categories == old(db.categories) && db.orders == old(db.orders)
    ensures var r := Resolve(old(db.userCarts), old(db.guestCarts), req, freshKey);
      && session == r.session && db.userCarts == r.userCarts && db.guestCarts == r.guestCarts
      && lines == r.Lines() && LinesInCatalog(lines, db.products) && total == CartTotal(lines, db.products)
  {
    var cart;
    cart, session := GetOrCreateCart(db, req, freshKey);
    lines := if cart.UserCart? then db.userCarts[cart.user] else db.guestCarts[cart.key];
    total := CartTotal(lines, db.products);
  }
}
