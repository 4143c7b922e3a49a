/**
 * payments/views2.py, `process_payment`: on GET, reuse the order's intent when
 * it has one (refusing an intent that already succeeded or was canceled), or
 * create one and store its id; on POST, acknowledge client-side confirmation.
 */
module PaymentsV2 {
  import opened Common
  import opened Orders
  import opened Store
  import opened Payments

  datatype Response =
    | NotFound
    | PaymentPage(clientSecret: string)
    | AlreadySettled(status: string)
    | PreparationFailed(message: string)
    | ConfirmationStarted

  /** What one request does: its response, the gateway calls it made, the order afterwards. */
  datatype Step = Step(response: Response, calls: seq<GatewayCall>, order: Order)

  /** `payment_intent.status in ['succeeded', 'canceled']`. */
  predicate Settled(status: string) {
    status == "succeeded" || status == "canceled"
  }

  /** The branching of `process_payment` for a payable order `o`. */
  function PaymentStep(o: Order, verb: HttpMethod, retrieve: RetrieveReply, create: CreateReply): (r: Step)
    ensures OnlyIntentChanged(o, r.order)
    ensures r.order != o ==> r.response.PaymentPage? && verb.Get? && !HasIntent(o) &&
                             create.IntentCreated? && r.order.stripeId == Some(create.intentId)
    ensures verb.Post? ==> r == Step(ConfirmationStarted, [], o)
    ensures verb.Get? && HasIntent(o) ==>
      r.order == o && r.calls == [RetrieveIntent(o.stripeId.value)] &&
      r.response == match retrieve
        case RetrieveError(m) => PreparationFailed(m)
        case IntentRetrieved(status, secret) => if Settled(status) then AlreadySettled(status) else PaymentPage(secret)
    ensures verb.Get? && !HasIntent(o) ==>
      r.calls == [IntentRequest(o)] &&
      r.response == match create
        case CreateError(m) => PreparationFailed(m)
        case IntentCreated(_, secret) => PaymentPage(secret)
    ensures verb.Get? && !HasIntent(o) && create.IntentCreated? ==> r.order == o.(stripeId := Some(create.intentId))
    ensures r.response.PreparationFailed? || r.response.AlreadySettled? ==> r.order == o
  {
    match verb
    case Post => Step(ConfirmationStarted, [], o)
    case Get =>
      if HasIntent(o) then
        var calls := [RetrieveIntent(o.stripeId.value)];
        match retrieve
        case RetrieveError(m) => Step(PreparationFailed(m), calls, o)
        case IntentRetrieved(status, secret) =>
          if Settled(status) then Step(AlreadySettled(status), calls, o)
          else Step(PaymentPage(secret), calls, o)
      else
        var calls := [IntentRequest(o)];
        match create
        case CreateError(m) => Step(PreparationFailed(m), calls, o)
        case IntentCreated(id, secret) => Step(PaymentPage(secret), calls, o.(stripeId := Some(id)))
  }

  /**
   * Once a GET has stored a (non-empty) intent id, later GETs reuse it: they
   * retrieve that intent and never ask for a new one.
   */
  lemma IntentReused(o: Order, retrieve: RetrieveReply, create: CreateReply,
                     retrieve2: RetrieveReply, create2: CreateReply)
    requires !HasIntent(o) && create.IntentCreated? && create.intentId != ""
    ensures var first := PaymentStep(o, Get, retrieve, create);
      var second := PaymentStep(first.order, Get, retrieve2, create2);
      first.calls == [IntentRequest(o)] &&
      second.calls == [RetrieveIntent(create.intentId)] && second.order == first.order
  {
  }

  /**
   * `process_payment` on the database: a 404 unless the order is the user's and
   * unpaid; otherwise the step above, and its intent id saved to the order.
   */
  method ProcessPayment(db: Database, user: UserId, orderId: OrderId, verb: HttpMethod,
                        retrieve: RetrieveReply, create: CreateReply)
    returns (response: Response, calls: seq<GatewayCall>)
    requires db.Valid()
    modifies db
    ensures db.Valid()
    ensures db.products == old(db.products) && db.categories == old(db.categories)
    ensures db.userCarts == old(db.userCarts) && db.guestCarts == old(db.guestCarts)
    ensures PayableIndex(old(db.orders), orderId, user).None? ==>
      response == NotFound && calls == [] && db.orders == old(db.orders)
    ensures PayableIndex(old(db.orders), orderId, user).Some? ==>
      var i := PayableIndex(old(db.orders), orderId, user).value;
      var s := PaymentStep(old(db.orders)[i], verb, retrieve, create);
      response == s.response && calls == s.calls && db.orders == old(db.orders)[i := s.order]
  {
    var found := PayableIndex(db.orders, orderId, user);
    if found.None? {
      return NotFound, [];
    }
    var i := found.value;
    var order := db.orders[i];
    var s := PaymentStep(order, verb, retrieve, create);
    if s.order != order {
      db.orders := db.orders[i := s.order];
    }
    response, calls := s.response, s.calls;
  }
}
