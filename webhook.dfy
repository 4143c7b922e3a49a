/**
 * `stripe_webhook`, the same handler in both versions of payments/views: the
 * signed event is checked first, then a succeeded event marks its order paid;
 * a failed event and any other type are acknowledged without a change.
 */
module Webhook {
  import opened Common
  import opened Orders
  import opened Store
  import opened Payments

  const PaymentSucceeded: string := "payment_intent.succeeded"
  const PaymentFailed: string := "payment_intent.payment_failed"

  /** An event: its type, the intent it is about, and the order id in the intent's metadata. */
  datatype Event = Event(kind: string, intentId: string, orderId: Option<OrderId>)

  /**
   * What the handler gets from the request: no signature header at all, or the
   * outcome of the library's payload and signature check (its internals are not modelled).
   */
  datatype Delivery =
    | NoSignatureHeader
    | InvalidPayload
    | InvalidSignature
    | Verified(event: Event)

  /** The event-type dispatch. */
  datatype Action =
    | Crash          // an uncaught KeyError: the framework answers 500
    | Reject         // 400
    | MarkPaid(orderId: OrderId)
    | NoteFailure    // only logged
    | Ignore

  function Dispatch(d: Delivery): (a: Action)
    ensures a.Reject? <==> d.InvalidPayload? || d.InvalidSignature?
    ensures a.MarkPaid? <==> d.Verified? && d.event.kind == PaymentSucceeded && d.event.orderId.Some?
    ensures a.MarkPaid? ==> a.orderId == d.event.orderId.value
    ensures d.Verified? && d.event.kind != PaymentSucceeded ==> a.NoteFailure? || a.Ignore?
  {
    match d
    case NoSignatureHeader => Crash
    case InvalidPayload => Reject
    case InvalidSignature => Reject
    case Verified(e) =>
      if e.kind == PaymentSucceeded then
        if e.orderId.Some? then MarkPaid(e.orderId.value) else Crash
      else if e.kind == PaymentFailed then NoteFailure
      else Ignore
  }

  /** An HTTP status and the order table after the handler ran. */
  datatype Outcome = Outcome(status: int, orders: seq<Order>)

  /** The handler's effect on the order table. */
  function Handle(orders: seq<Order>, d: Delivery): (r: Outcome)
    ensures |r.orders| == |orders|
    ensures forall i :: 0 <= i < |orders| ==> r.orders[i] == orders[i] || r.orders[i] == orders[i].(paid := true)
    ensures r.status != 200 ==> r.orders == orders
    ensures r.status == 400 <==> d.InvalidPayload? || d.InvalidSignature?
    ensures r.status == 404 <==> Dispatch(d).MarkPaid? && OrderIndex(orders, Dispatch(d).orderId).None?
    ensures d.Verified? && d.event.kind != PaymentSucceeded ==> r == Outcome(200, orders)
  {
    match Dispatch(d)
    case Crash => Outcome(500, orders)
    case Reject => Outcome(400, orders)
    case NoteFailure => Outcome(200, orders)
    case Ignore => Outcome(200, orders)
    case MarkPaid(id) =>
      match OrderIndex(orders, id)
      case None => Outcome(404, orders)
      case Some(k) => Outcome(200, orders[k := orders[k].(paid := true)])
  }

  /** A succeeded event for an existing order marks exactly that order paid. */
  lemma SucceededMarksPaid(orders: seq<Order>, e: Event, k: nat)
    requires e.kind == PaymentSucceeded && e.orderId.Some?
    requires k < |orders| && orders[k].id == e.orderId.value
    requires forall j :: 0 <= j < |orders| && orders[j].id == e.orderId.value ==> j == k
    ensures Handle(orders, Verified(e)) == Outcome(200, orders[k := orders[k].(paid := true)])
  {
  }

  /** Delivering the same event twice leaves what delivering it once left. */
  lemma HandleTwice(orders: seq<Order>, d: Delivery)
    ensures Handle(Handle(orders, d).orders, d) == Handle(orders, d)
  {
    var once := Handle(orders, d);
    if Dispatch(d).MarkPaid? {
      var id := Dispatch(d).orderId;
      match OrderIndex(orders, id)
      case None =>
      case Some(k) =>
        assert OrderIndex(once.orders, id) == Some(k) by {
          SameKeysSameOrderIndex(orders, once.orders, id);
        }
    }
  }

  /** The lookup by id depends on the keys only. */
  lemma {:induction false} SameKeysSameOrderIndex(a: seq<Order>, b: seq<Order>, id: OrderId)
    requires |a| == |b| && forall k :: 0 <= k < |a| ==> a[k].id == b[k].id
    ensures OrderIndex(a, id) == OrderIndex(b, id)
  {
    if a != [] && a[0].id != id {
      SameKeysSameOrderIndex(a[1..], b[1..], id);
    }
  }

  /**
   * No delivery makes a paid order unpaid; a verified event of any type but
   * `payment_intent.succeeded` (a failed payment included) changes nothing.
   */
  lemma PaidStaysPaid(orders: seq<Order>, d: Delivery, i: nat)
    requires i < |orders| && orders[i].paid
    ensures Handle(orders, d).orders[i].paid
    ensures d.Verified? && d.event.kind != PaymentSucceeded ==> Handle(orders, d) == Outcome(200, orders)
  {
  }

  /** `stripe_webhook` on the database: the dispatch, then `order.paid = True` and save. */
  method StripeWebhook(db: Database, d: Delivery) returns (status: int)
    requires db.Valid()
    modifies db
    ensures db.Valid()
    ensures Outcome(status, db.orders) == Handle(old(db.orders), d)
    ensures db.products == old(db.products) && db.categories == old(db.categories)
    ensures db.userCarts == old(db.userCarts) && db.guestCarts == old(db.guestCarts)
  {
    match Dispatch(d)
    case Crash => status := 500;
    case Reject => status := 400;
    case NoteFailure => status := 200;
    case Ignore => status := 200;
    case MarkPaid(id) =>
      var found := OrderIndex(db.orders, id);
      if found.None? {
        status := 404;
      } else {
        var k := found.value;
        db.orders := db.orders[k := db.orders[k].(paid := true)];
        status := 200;
      }
  }
}
