# FreshCart: cart, checkout and payment, modelled in Dafny

FreshCart is a Django grocery shop. This project models the path a purchase
takes through it:

- the catalog pages (`product_list`, `product_detail`);
- the shopping cart (`_get_or_create_cart` with the merge of an anonymous
  session cart into a signed-in user's cart, `add_to_cart`, `remove_from_cart`,
  `cart_detail`);
- checkout (`order_create`, which captures prices, lowers stock and clears the
  cart) and `order_history`;
- the payment step in both versions of the payments views (`process_payment`)
  and the gateway's webhook (`stripe_webhook`), which marks orders paid.

The database is one class, `Store.Database`, whose fields are the product,
category, cart and order tables. The views are methods that modify it.
`Database.Valid()` holds that product ids are distinct, every cart has one line
per product and only points at catalog rows, and order ids run 1, 2, 3, ….
Every view keeps it.

Each view is proved against a pure function of the old state, and the
properties the shop relies on are lemmas about those functions:

- `Resolve` describes cart lookup and merge.
- `Upsert` describes adding a line.
- `RemoveAt` describes removing one.
- `Merge` describes the session-cart merge.
- `Capture` and `StockAfterCheckout` describe checkout.
- `PaymentStep` describes a payment request, and `Handle` describes a webhook delivery.

A cart's meaning is `Carts.Contents`, a map from product to summed quantity.

Money is kept as integer paise, so a price of 100.00 is `10000`. A Decimal
price has two places, so the gateway amount `int(total * 100)` is exactly the
paise total (`Payments.Amount`), and for a fresh order it is the cart's total
at checkout (`Payments.IntentAmountIsCartTotal`).

The definitions the contracts are stated in:
- `Carts.Contents` (cart/views.py:21-27) is the cart as a map from product to
  summed quantity, and `Carts.CartTotal` (cart/tests.py:37-41) its price.
- `Orders.TotalCost` (orders/tests.py:45-46) is `get_total_cost()`, and
  `Orders.NewOrder` (orders/views.py:23-25) the unpaid order the form saves.
- `Orders.StockAfterCheckout` (orders/views.py:35-36) is the product table
  with each product's stock lowered by its cart quantity.
- `Payments.HasIntent` (payments/views2.py:26) is the `if order.stripe_id:` test,
  `Payments.IntentRequest` (payments/views2.py:34-38) the create call for an
  order, and `PaymentsV2.Settled` (payments/views2.py:29) the statuses that end
  a payment.
- `Store.Database.Valid` is the invariant above. The views keep one line per
  product themselves: a line is looked up before it is created (cart/views.py:21-27,
  cart/views.py:50).

The payment gateway, the session store and the random session key are inputs,
not modelled code:
- the create and retrieve replies are datatypes passed in;
- the verified or unverified webhook event is a `Webhook.Delivery`;
- a new session's key is the parameter `freshKey`.

## Model

| member | source | states |
|---|---|---|
| `Catalog.ProductIndex` | cart/views.py:41 | `get_object_or_404(Product, id=…)` finds the first row with that id, or the table length (a 404) when no row has it |
| `Catalog.SameKeysSameIndex` | orders/views.py:35-36 | changing only non-key columns (stock) does not move any product's lookup position |
| `Catalog.CategoryIndex` | products/views1.py:24 | the category lookup by slug returns a row with that slug, or the table length when none has it |
| `Catalog.FilterListed` | products/views1.py:13-25 | every row occurs in the listing as often as in the catalog when it is available (and of the chosen category, when one is given), and not at all otherwise |
| `Catalog.ProductList` | products/views1.py:10-31 | a given slug with no matching category is a 404; otherwise the page shows each available product (of the slug's category, when a non-empty slug is given) as often as the catalog holds it, and no other row |
| `Catalog.ProductDetail` | products/views1.py:34-36 | a product is shown iff a row has that id, that slug and is available; otherwise 404 |
| `Catalog.UnavailableIsNotFound` | products/views1.py:35 | an unavailable product is a 404 even with the right id and slug |
| `Catalog.WrongSlugIsNotFound` | products/views1.py:35 | the right id with the wrong slug is a 404 |
| `Carts.Upsert` | cart/views.py:50-55 | adding keeps every existing line's product in place, changes no line of another product, and adds at most one line |
| `Carts.Merge` | cart/views.py:19-27 | the merge keeps the user cart's lines in place and adds at most one line per session line |
| `Carts.RemoveAt` | cart/views.py:68 | deleting a line leaves the other lines in their order, one fewer |
| `Carts.IndexOf` | cart/views.py:21-22 | the line lookup returns the first line holding the product, or the cart length when no line does |
| `Carts.InContents` | cart/views.py:21-22 | a product is in the cart's contents iff some line holds it iff the lookup finds a line |
| `Carts.ContentsAt` | cart/views.py:50 | with one line per product, the contents give each product its line's quantity |
| `Carts.ContentsReplace` | cart/views.py:52-55 | replacing a line of a distinct cart sets that product's quantity and leaves the others alone |
| `Carts.ContentsAppend` | cart/views.py:26-27 | appending a line for a new product adds that product with its quantity |
| `Carts.UpsertContents` | cart/views.py:50-55 | adding `q` of a product raises its quantity by `q` (from 0 when absent) and changes no other product |
| `Carts.UpsertDistinct` | cart/views.py:50-55 | adding keeps one line per product; the cart grows by one line exactly when the product was absent |
| `Carts.IndexOfFirst` | cart/views.py:21 | a line at a position with no earlier line for its product is the one the lookup finds |
| `Carts.AddTwice` | cart/tests.py:69-75 | adding `a` then `b` of a product is the same cart as adding `a + b` once |
| `Carts.UpsertInCatalog` | cart/views.py:41-50 | adding a catalog product keeps every line pointing into the catalog |
| `Carts.ReplaceTotal` | cart/tests.py:37-41 | replacing one line changes the cart total by the price of the quantity difference |
| `Carts.UpsertTotal` | cart/views.py:50-55 | adding `q` of a catalog product raises the cart total by `q` times its price |
| `Carts.MergeQuantities` | cart/views.py:19-27 | after the merge a product is in the user cart iff it was in either cart, its quantity is the sum of both, and a product only the session cart had keeps its session quantity |
| `Carts.MergeWellFormed` | cart/views.py:19-27 | the merge keeps one line per product and keeps every line in the catalog |
| `Carts.MergeTotal` | cart/views.py:19-27 | the merged cart costs what the two carts cost together |
| `Carts.MergeStep` | cart/views.py:20-27 | one pass of the merge loop on line `i` yields the merge of the first `i + 1` session lines |
| `Carts.RemoveQuantity` | cart/views.py:67-68 | after deleting a line of a distinct cart, a product is in the contents iff it was and is not the deleted line's, and every other product keeps its quantity |
| `Carts.RemoveContents` | cart/views.py:67-68 | deleting a line keeps one line per product and removes exactly that product from the contents |
| `Carts.RemoveInCatalog` | cart/views.py:68 | deleting a line keeps the others in the catalog |
| `Orders.Capture` | orders/views.py:27-33 | one order line per cart line, in order, with the same product and quantity and the product's current price |
| `Orders.CaptureTotal` | orders/tests.py:82-92 | the order's total cost is the cart's total at checkout |
| `Orders.CheckoutStock` | orders/views.py:34-36 | checkout lowers each product's stock by its line's quantity (by nothing when it has no line), may go below zero, and changes no other column |
| `Orders.OrderHistory` | orders/views.py:58-61 | each of the user's orders occurs in the history as often as in the table, and no other user's order occurs |
| `CartViews.Resolution.Put` | cart/views.py:50-55 | writing lines into the resolved cart leaves which cart and session it was, reading it back gives those lines, and every other cart is unchanged |
| `CartViews.Resolve` | cart/views.py:11-37 | a signed-in user gets their own cart, created if missing; with a session key the session cart is merged in and deleted, and the key stays in the session; without one the user cart keeps its lines and no session cart changes; other users' carts are unchanged; an anonymous request gets the user-less cart of its session key, with the key and the cart created when missing |
| `CartViews.ResolveMerges` | cart/views.py:18-29 | on sign-in each product's quantity in the user cart becomes the old user quantity plus the session cart's |
| `CartViews.ResolveIdempotent` | cart/views.py:11-37 | resolving again with the session the first resolution left changes nothing, so a repeated merge adds nothing |
| `CartViews.ResolveKeepsCarts` | cart/views.py:11-37 | resolution keeps every cart one-line-per-product and inside the catalog |
| `CartViews.UserCartFor` | cart/views.py:15-30 | the signed-in branch: the user cart is created when missing, and becomes `Merge` of its lines and the session cart when there is a session key, which deletes that cart |
| `CartViews.MergeSessionCart` | cart/views.py:18-29 | the user cart becomes `Merge` of the old user cart and the session cart, and the session cart is deleted |
| `CartViews.MergeLines` | cart/views.py:20-27 | the loop over the session cart's items computes exactly `Merge` of the two carts |
| `CartViews.UpsertLine` | cart/views.py:50-55 | the get-or-create of a line and its quantity update compute `Upsert`: the product's quantity rises by `q` and no other product changes |
| `CartViews.GetOrCreateCart` | cart/views.py:11-37 | the database after `_get_or_create_cart` is exactly `Resolve` of the old cart tables |
| `CartViews.AddLine` | cart/views.py:50-55 | the resolved cart becomes `Upsert` of its lines and the database invariant is kept |
| `CartViews.DeleteLine` | cart/views.py:67-68 | the resolved cart loses its line `j`, and exactly that line's product leaves the contents |
| `CartViews.StoreLines` | cart/views.py:55-68 | saves lines into the named cart and touches nothing else |
| `CartViews.AddToCart` | cart/views.py:39-57 | an unknown product is a 404 with nothing changed; after the cart is resolved, a quantity (default 1) above the stock is refused with the stock shown; otherwise the cart becomes `Upsert` of the resolved cart |
| `CartViews.RemoveFromCart` | cart/views.py:63-70 | an unknown product is a 404 with nothing changed; after the cart is resolved, a product with no line is a 404; otherwise that one line is deleted and only that product leaves the contents |
| `CartViews.CartDetail` | cart/views.py:59-61 | shows the resolved cart's lines, all in the catalog, with their total price |
| `OrderViews.OrderCreate` | orders/views.py:11-56 | an order is created iff the cart is not empty and a valid form was submitted; an empty cart, a GET or an invalid form creates nothing and changes no stock; a valid submission appends an unpaid order with the next id and the captured lines, lowers the stock as `StockAfterCheckout` says and empties the cart |
| `OrderViews.CheckoutLines` | orders/views.py:27-36 | the checkout loop returns `Capture` of the cart and the product table as `StockAfterCheckout` |
| `OrderViews.KeysKept` | orders/views.py:35-36 | lowering stock keeps ids distinct and every cart pointing into the catalog |
| `OrderViews.StockStep` | orders/views.py:35-36 | one pass of the checkout loop lowers exactly the stock of that line's product |
| `Payments.IntentAmountIsCartTotal` | payments/views2.py:34-38 | the intent created for a fresh order asks for the cart's total at checkout, in paise, in rupees, with the order id as metadata |
| `Payments.OrderIndex` | payments/views2.py:81 | the lookup by order id returns a row with that id, or none when no row has it |
| `Payments.PayableIndex` | payments/views2.py:20 | the order the payment view acts on has that id, belongs to the user and is unpaid; none (a 404) when no row qualifies |
| `PaymentsV2.PaymentStep` | payments/views2.py:19-56 | a POST only acknowledges; a GET on an order with an intent id retrieves that intent and refuses one that succeeded or was canceled; a GET without one creates an intent for the order's amount in rupees with its id as metadata and, when the gateway creates it, stores exactly that id; a gateway error changes nothing; only the intent id ever changes |
| `PaymentsV2.IntentReused` | payments/views2.py:26-40 | after a GET stored an intent, a second GET retrieves that intent and creates none |
| `PaymentsV2.ProcessPayment` | payments/views2.py:18-56 | a request on an order not the user's or already paid is a 404 with nothing changed; otherwise the order table changes only as `PaymentStep` says |
| `PaymentsV1.PaymentStep` | payments/views1.py:19-41 | a GET only renders the page; a POST creates an intent for the order's amount in rupees, answering with the client secret and storing the intent id, or with the gateway's message and status 400 and no change |
| `PaymentsV1.EveryPostCreates` | payments/views1.py:22-31 | every POST creates a new intent, and its id replaces the one stored before |
| `PaymentsV1.ProcessPayment` | payments/views1.py:18-41 | a request on an order not the user's or already paid is a 404 with nothing changed; otherwise the order table changes only as `PaymentStep` says |
| `Webhook.Dispatch` | payments/views2.py:59-95 | a bad payload or signature is rejected; a verified succeeded event with an order id marks that order paid; a failed or other event is only acknowledged |
| `Webhook.Handle` | payments/views2.py:59-95 | a delivery changes at most the paid flags, and only with status 200; 400 iff the payload or signature is bad; 404 iff a succeeded event names an order that does not exist; a verified event of any other type gives 200 and changes nothing |
| `Webhook.SucceededMarksPaid` | payments/views1.py:61-67 | a succeeded event for an existing order sets exactly that order's paid flag and answers 200 |
| `Webhook.HandleTwice` | payments/views2.py:77-83 | delivering the same event twice leaves what one delivery left |
| `Webhook.SameKeysSameOrderIndex` | payments/views2.py:81 | marking orders paid does not move any order's lookup position |
| `Webhook.PaidStaysPaid` | payments/views1.py:61-79 | no delivery makes a paid order unpaid; a verified event that is not a succeeded payment (a failed payment or any other type) gives 200 and changes nothing |
| `Webhook.StripeWebhook` | payments/views1.py:43-79 | the handler's status and the order table afterwards are exactly what `Handle` gives |
| `Login.RotatedKeyOrphansGuestCart` | cart/views.py:18-29 | when `login` has replaced the session key, the next lookup merges nothing into the user cart and leaves the anonymous cart under the old key |
| `Login.RotatedKeyExample` | accounts/views.py:17 | two items in an anonymous cart are not in the user's cart after signing in, though a merge under the old key gives them |
| `Login.SignIn` | accounts/views.py:17 | signing in merges the cart of the pre-login key into the user's cart, deletes it, and leaves the new key in the session |
| `Login.SignInKeepsGuestItems` | cart/views.py:18-29 | after signing in each product's quantity is its old user quantity plus its anonymous-cart quantity |
| `Login.SignInThenResolve` | cart/views.py:15-30 | the cart lookups after signing in, with the new key, leave the merged cart unchanged |
| `Scenarios.CartTotalExample` | cart/tests.py:37-41 | two Apples at 100.00 and three Oranges at 50.00 cost 350.00 |
| `Scenarios.AddExistingItemExample` | cart/tests.py:69-75 | adding one Apple twice leaves a single line of two |
| `Scenarios.MergeExample` | cart/views.py:19-27 | a session cart with two Apples and an Orange, merged into a user cart with one Apple, gives three Apples and one Orange |
| `Scenarios.CheckoutExample` | orders/tests.py:82-101 | checking out two Apples and one Orange gives an order of 250.00, an intent of 25000 paise, and stock 8 and 19 |

## Left out

- Quantities are modelled exactly as the code takes them: `int(request.POST.get('quantity', 1))` with no sign check. A zero or negative quantity is accepted, and stock may go negative at checkout. A quantity that does not parse raises an error and is not modelled.
- Cart and order models, forms and templates: cart/models.py, orders/models.py, products/models.py and orders/forms.py are not part of this model. The cart total follows the tested behaviour (cart/tests.py:37-41), the order total orders/tests.py:45-46. No database constraint on cart lines is modelled; one line per product (`Distinct`) is what the views keep by looking a line up before creating it.
- `Catalog.ProductList`: the product list cache is commented out in the source and not modelled.
- `OrderViews.OrderCreate`: form validation is an input (`formValid`), and the prefilled initial form data is not modelled.
- Authentication: `login_required` redirects are not modelled. The views that need a user take a `UserId`.
- Sessions: `request.session.pop('session_key', None)` removes a session entry of that name, not the session's key, so the key stays after the merge. The model keeps it, and a later request merges an already-deleted cart, which adds nothing (`ResolveIdempotent`).
- Key rotation: Django's `login` (accounts/views.py:17, accounts/views.py:33) gives the session a new key; that framework code is not part of this model. The request after signing in is modelled with the new key as its input (see Findings).
- `@require_POST` (cart/views.py:39, cart/views.py:63): a GET to add or remove answers 405 before the view runs; the model's add and remove take only POSTs.
- Messages, redirects and rendering are not modelled: each response is reduced to an outcome datatype.
- The Stripe library is not modelled: signature checking, HMAC and payload parsing are the input `Webhook.Delivery`; create and retrieve are their replies.
- `Webhook.Handle`: a test (payments/tests.py:73-92) expects the webhook to store the intent id on the order, but the handler only sets `paid`. The model follows the code.
- `Webhook.Event`: the order id is an integer. Stripe metadata values are strings, and `int(...)` of a non-numeric one raises `ValueError` (a 500); that case is not modelled.
- A missing `HTTP_STRIPE_SIGNATURE` header or a succeeded event with no `order_id` metadata raises an uncaught `KeyError`. The model answers 500, as the framework does.
- The merge loop and the checkout loop save each row as they go. The model computes the new cart (`CartViews.MergeLines`) or product table (`OrderViews.CheckoutLines`) in the loop and writes it once. The loops do read the tables between writes (cart/views.py:21 looks the user's line up again; orders/views.py:31 and orders/views.py:35 read the product row again), but each such read sees only rows the loop itself wrote, and the model's local value carries those writes, so the final state is the same; the intermediate states are not modelled.
- Decimal arithmetic is modelled as integer paise.
- Concurrency, database transactions and the ORM's SQL are not modelled. A lost update between two requests is outside the model.
- The accounts app other than `login`'s key rotation, the admin, URL routing, settings and static JavaScript are not part of this model.

## Findings

| source | as written | input that shows it | evidently intended | confidence | as-written member | corrected member |
|---|---|---|---|---|---|---|
| cart/views.py:18-29 | the merge looks for the anonymous cart under the session's current key, but `login` (accounts/views.py:17) has already replaced that key, so the anonymous cart is never found | anonymous cart "a" holds two of product 1; the user signs in and `login` issues key "b"; the next cart view shows a user cart without product 1, and cart "a" stays in the table | merge the cart filed under the pre-login key when signing in | not executed; rests on Django's `login` rotating the key | `Login.RotatedKeyOrphansGuestCart`, `Login.RotatedKeyExample` | `Login.SignIn`, `Login.SignInKeepsGuestItems` |
