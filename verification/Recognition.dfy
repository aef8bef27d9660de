/** Three readings of an order: revenue and costs both count, costs alone do, or neither. */
module OrderRecognition {
  import opened Sequences
  import opened Domain

  predicate NeverSettled(state: PaymentState) {
    state.Unpaid? || state.Authorized? || state.Failed? || state.Voided?
  }

  function LiveOutbound(shipments: seq<Shipment>): seq<Shipment> {
    Filter((s: Shipment) => s.direction.Outbound? && Live(s.status), shipments)
  }

  function ComputeRecognition(order: Order, shipments: seq<Shipment>): Recognition {
    var live := LiveOutbound(shipments);
    if order.isTest then Excluded(TestOrder)
    else if order.lifecycle.Draft? then Excluded(DraftOrder)
    else if order.fulfillmentState.Rto? && NeverSettled(order.paymentState) then CostOnly(RtoUncollected)
    else if live != [] && (forall s :: s in live ==> s.status.Lost?) && NeverSettled(order.paymentState) then
      CostOnly(GoodsLost)
    else if order.paymentState.Voided? || order.paymentState.Failed? then
      if Dispatched(order.fulfillmentState) then CostOnly(PaymentNotSettled) else Excluded(CancelledBeforeEffect)
    else if order.lifecycle.Cancelled? then
      if order.paymentState.PartiallyRefunded? then Recognized
      else if order.paymentState.Paid? || order.paymentState.Refunded? then CostOnly(CancelledAfterCapture)
      else if Dispatched(order.fulfillmentState) then CostOnly(CancelledAfterDispatch)
      else Excluded(CancelledBeforeEffect)
    else Recognized
  }

  // -------------------------------------------------------------------- laws

  /** Something was sent, and none of what was sent can still arrive. */
  predicate AllLost(shipments: seq<Shipment>) {
    LiveOutbound(shipments) != [] && forall s :: s in LiveOutbound(shipments) ==> s.status.Lost?
  }

  /** Nothing was ever collected, and the goods came back or were lost. */
  predicate GoneUnpaid(order: Order, shipments: seq<Shipment>) {
    NeverSettled(order.paymentState) && (order.fulfillmentState.Rto? || AllLost(shipments))
  }

  predicate Declined(state: PaymentState) { state.Voided? || state.Failed? }

  /** Revenue counts exactly on real orders whose money was neither refused, uncollected, nor given back by a cancellation. */
  lemma RevenueCountsIff(order: Order, shipments: seq<Shipment>)
    ensures ComputeRecognition(order, shipments).Recognized? <==>
      && !order.isTest && !order.lifecycle.Draft?
      && !GoneUnpaid(order, shipments) && !Declined(order.paymentState)
      && (order.lifecycle.Cancelled? ==> order.paymentState.PartiallyRefunded?)
  {
    hide LiveOutbound;
  }

  /** Costs are dropped exactly on test and draft orders, and on orders that ended before anything moved. */
  lemma NothingCountsIff(order: Order, shipments: seq<Shipment>)
    ensures ComputeRecognition(order, shipments).Excluded? <==>
      || order.isTest || order.lifecycle.Draft?
      || (&& !Dispatched(order.fulfillmentState) && !GoneUnpaid(order, shipments)
          && (Declined(order.paymentState)
              || (order.lifecycle.Cancelled? && (order.paymentState.Unpaid? || order.paymentState.Authorized?))))
  {
    hide LiveOutbound;
  }

  /** Neither a test order nor a draft. */
  ghost predicate Real(order: Order) { !order.isTest && order.lifecycle != Draft }

  ghost predicate NeverPaid(order: Order) {
    order.paymentState == Unpaid || order.paymentState == Authorized || order.paymentState == Failed
        || order.paymentState == Voided
  }

  ghost predicate SentOut(s: Shipment) { s.direction == Outbound && s.status != CancelledLabel }

  /** Something was sent, and all of it is lost. */
  ghost predicate AllGone(shipments: seq<Shipment>) {
    && (exists s :: s in shipments && SentOut(s))
    && (forall s :: s in shipments && SentOut(s) ==> s.status == Lost)
  }

  /** The goods left: the order is not waiting to be sent, and there was something to send. */
  ghost predicate HasLeft(order: Order) { order.fulfillmentState != Unfulfilled && order.fulfillmentState != NotApplicable }

  /** An unpaid order whose goods came back or are lost. */
  ghost predicate Wasted(order: Order, shipments: seq<Shipment>) {
    NeverPaid(order) && (order.fulfillmentState == Rto || AllGone(shipments))
  }

  ghost predicate Refused(order: Order) { order.paymentState == Voided || order.paymentState == Failed }

  ghost predicate Waiting(order: Order) { order.paymentState == Unpaid || order.paymentState == Authorized }

  /** The order is that, for that reason. */
  ghost predicate IsSo(order: Order, shipments: seq<Shipment>, r: Recognition) {
    var sound := Real(order) && !Wasted(order, shipments);
    match r
    case Excluded(TestOrder) => order.isTest
    case Excluded(DraftOrder) => !order.isTest && order.lifecycle == Draft
    case Excluded(CancelledBeforeEffect) =>
      sound && !HasLeft(order) && (Refused(order) || (order.lifecycle == Cancelled && Waiting(order)))
    case CostOnly(RtoUncollected) => Real(order) && NeverPaid(order) && order.fulfillmentState == Rto
    case CostOnly(GoodsLost) => Real(order) && NeverPaid(order) && order.fulfillmentState != Rto && AllGone(shipments)
    case CostOnly(PaymentNotSettled) => sound && Refused(order) && HasLeft(order)
    case CostOnly(CancelledAfterCapture) =>
      sound && order.lifecycle == Cancelled && (order.paymentState == Paid || order.paymentState == Refunded)
    case CostOnly(CancelledAfterDispatch) => sound && order.lifecycle == Cancelled && Waiting(order) && HasLeft(order)
    case Recognized => sound && !Refused(order) && (order.lifecycle == Cancelled ==> order.paymentState == PartiallyRefunded)
  }

  lemma LostIsGone(shipments: seq<Shipment>)
    ensures AllGone(shipments) <==> LiveOutbound(shipments) != [] && forall s :: s in LiveOutbound(shipments) ==> s.status.Lost?
  {
    var live := LiveOutbound(shipments);
    assert forall s :: s in live <==> s in shipments && SentOut(s);
    if live != [] { assert live[0] in live; }
  }

  /** Every reading has its own exact condition, and every order exactly one reading. */
  lemma RecognizedAsItIs(order: Order, shipments: seq<Shipment>, r: Recognition)
    ensures ComputeRecognition(order, shipments) == r <==> IsSo(order, shipments, r)
  {
    hide LiveOutbound, AllGone;
    LostIsGone(shipments);
  }
}
