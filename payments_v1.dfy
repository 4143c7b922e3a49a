/**
 * payments/views1.py, `process_payment`: every POST creates a new intent and
 * stores its id, answering with the client secret or with the gateway's error;
 * a GET only renders the payment page.
 */
module PaymentsV1 {
  import opened Common
  import opened Orders
  import opened Store
  import opened Payments

  datatype Response =
    | NotFound
    | ClientSecret(secret: string)
    | CreateFailed(message: string)
    | PaymentPage

  /** The HTTP status the JSON response carries (the page is a 200 as well). */
  function Status(r: Response): int {
    match r
    case NotFound => 404
    case CreateFailed(_) => 400
    case _ => 200
  }

  datatype Step = Step(response: Response, calls: seq<GatewayCall>, order: Order)

  /** The branching of `process_payment` for a payable order `o`. */
  function PaymentStep(o: Order, verb: HttpMethod, create: CreateReply): (r: Step)
    ensures OnlyIntentChanged(o, r.order)
    ensures verb.Get? ==> r == Step(PaymentPage, [], o)
    ensures verb.Post? ==> r.calls == [IntentRequest(o)]
    ensures verb.Post? && create.IntentCreated? ==>
      r.response == ClientSecret(create.clientSecret) && r.order == o.(stripeId := Some(create.intentId))
    ensures verb.Post? && create.CreateError? ==>
      r.response == CreateFailed(create.message) && Status(r.response) == 400 && r.order == o
  {
    match verb
    case Get => Step(PaymentPage, [], o)
    case Post =>
      var calls := [IntentRequest(o)];
      match create
      case CreateError(m) => Step(CreateFailed(m), calls, o)
      case IntentCreated(id, secret) => Step(ClientSecret(secret), calls, o.(stripeId := Some(id)))
  }

  /**
   * Unlike the other version, a second POST creates a second intent for the
   * same amount, and its id replaces the first.
   */
  lemma EveryPostCreates(o: Order, create: CreateReply, create2: CreateReply)
    requires create.IntentCreated? && create2.IntentCreated?
    ensures var first := PaymentStep(o, Post, create);
      var second := PaymentStep(first.order, Post, create2);
      second.calls == first.calls == [IntentRequest(o)] &&
      second.order == o.(stripeId := Some(create2.intentId))
  {
  }

  /** `process_payment` on the database. */
  method ProcessPayment(db: Database, user: UserId, orderId: OrderId, verb: HttpMethod, create: CreateReply)
    returns (response: Response, calls: seq<GatewayCall>)
    requires db.Valid()
    modifies db
    ensures db.Valid()
    ensures db.products == old(db.products) && db.categories == old(db.categories)
    ensures db.userCarts == old(db.userCarts) && db.guestCarts == old(db.guestCarts)
    ensures PayableIndex(old(db.orders), orderId, user).None? ==>
      response == NotFound && calls == [] && db.orders == old(db.orders)
    ensures PayableIndex(old(db.orders), orderId, user).Some? ==>
      var i := PayableIndex(old(db.orders), orderId, user).value;
      var s := PaymentStep(old(db.orders)[i], verb, create);
      response == s.response && calls == s.calls && db.orders == old(db.orders)[i := s.order]
  {
    var found := PayableIndex(db.orders, orderId, user);
    if found.None? {
      return NotFound, [];
    }
    var i := found.value;
    var order := db.orders[i];
    var s := PaymentStep(order, verb, create);
    if s.order != order {
      db.orders := db.orders[i := s.order];
    }
    response, calls := s.response, s.calls;
  }
}
