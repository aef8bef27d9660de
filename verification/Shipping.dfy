/** What the courier charged per parcel, or what the merchant's rate card says it would have. */
module Shipping {
  import opened Prelude
  import opened Sequences
  import opened Money
  import opened Domain
  import opened Choice

  predicate GeographyMatches(rule: ShippingRule, order: Order, carrier: Option<string>) {
    && (rule.countryCode.Some? ==> order.destination.Some? && rule.countryCode.value == order.destination.value.countryCode)
    && (rule.region.Some? ==> order.destination.Some? && rule.region == order.destination.value.region)
    && (rule.carrier.Some? ==> rule.carrier == carrier)
  }

  function Score(rule: ShippingRule): int {
    (if rule.countryCode.Some? then 4 else 0) + (if rule.region.Some? then 2 else 0)
    + (if rule.carrier.Some? then 1 else 0)
  }

  /** A rule fits a leg when it is written for that direction class and its geography matches. */
  function Fits(order: Order, carrier: Option<string>, direction: RuleDirection): ShippingRule -> bool {
    (r: ShippingRule) => r.direction == direction && GeographyMatches(r, order, carrier)
  }

  function PickFor(rules: seq<ShippingRule>, order: Order, carrier: Option<string>,
        direction: RuleDirection): Option<ShippingRule> {
    Pick(rules, Fits(order, carrier, direction), Score)
  }

  method PickForLoop(rules: seq<ShippingRule>, order: Order, carrier: Option<string>, direction: RuleDirection)
    returns (best: Option<ShippingRule>)
    ensures best == PickFor(rules, order, carrier, direction)
  {
    best := None;
    var bestScore := -1;
    for i := 0 to |rules|
      invariant best == PickUpTo(rules, Fits(order, carrier, direction), Score, i)
      invariant bestScore == if best.Some? then Score(best.value) else -1
    {
      if rules[i].direction == direction && GeographyMatches(rules[i], order, carrier) && Score(rules[i]) > bestScore {
        best := Some(rules[i]);
        bestScore := Score(rules[i]);
      }
    }
  }

  function RuleSide(direction: Direction): RuleDirection {
    if direction.Outbound? then ForOutbound else ForReturn
  }

  /** The rules of the leg's own direction are consulted first; direction-neutral ones only if none of those fits. */
  function MatchShippingRule(rules: seq<ShippingRule>, order: Order, carrier: Option<string>,
        direction: Direction): Option<ShippingRule> {
    var specific := PickFor(rules, order, carrier, RuleSide(direction));
    if specific.Some? then specific else PickFor(rules, order, carrier, ForAny)
  }

  method MatchShippingRuleLoop(rules: seq<ShippingRule>, order: Order, carrier: Option<string>, direction: Direction)
    returns (best: Option<ShippingRule>)
    ensures best == MatchShippingRule(rules, order, carrier, direction)
  {
    best := PickForLoop(rules, order, carrier, RuleSide(direction));
    if best.None? { best := PickForLoop(rules, order, carrier, ForAny); }
  }

  // -------------------------------------------------------------- the parcels

  datatype Parcel = Parcel(shipmentId: string, cost: int, lineIds: seq<string>)

  datatype ShippingLeg = ShippingLeg(cost: int, basis: TermBasis, parcels: seq<Parcel>)

  datatype Packed = Packed(parcels: seq<Parcel>, anyEstimated: bool, anyMissing: bool, diagnostics: seq<Diagnostic>)

  predicate MayEstimate(order: Order) { order.fulfillmentMethod.ByCarrier? }

  function LegsOf(shipments: seq<Shipment>, direction: Direction): seq<Shipment> {
    Filter((s: Shipment) => s.direction == direction && Live(s.status), shipments)
  }

  function PackLeg(p: Packed, shipment: Shipment, order: Order, rules: seq<ShippingRule>, direction: Direction): Packed {
    if shipment.carrierCost.Some? then
      p.(parcels := p.parcels + [Parcel(shipment.id, shipment.carrierCost.value, shipment.lineIds)])
    else
      var noted := p.diagnostics + [Diagnostic(CarrierCostMissing, OfShipment(shipment.id))];
      if !MayEstimate(order) then p.(anyMissing := true, diagnostics := noted)
      else
        match MatchShippingRule(rules, order, Some(shipment.carrier), direction)
        case None =>
          p.(anyMissing := true, diagnostics := noted + [Diagnostic(ShippingFallbackMissing, OfShipment(shipment.id))])
        case Some(rule) =>
          Packed(p.parcels + [Parcel(shipment.id, rule.cost, shipment.lineIds)], true, p.anyMissing,
                 noted + [Diagnostic(ShippingFallbackUsed, OfShipment(shipment.id))])
  }

  function PackLegs(legs: seq<Shipment>, order: Order, rules: seq<ShippingRule>, direction: Direction, n: nat): Packed
    requires n <= |legs|
  {
    if n == 0 then Packed([], false, false, [])
    else PackLeg(PackLegs(legs, order, rules, direction, n - 1), legs[n-1], order, rules, direction)
  }

  function ParcelCosts(parcels: seq<Parcel>): (r: seq<int>)
    ensures |r| == |parcels|
  {
    Map((p: Parcel) => p.cost, parcels)
  }

  /** No live leg: nothing for a return or an order that cannot ship, else one estimated parcel. */
  function WithoutLegs(order: Order, rules: seq<ShippingRule>, direction: Direction): Computed<ShippingLeg> {
    if direction.Return? || !MayEstimate(order) || (order.lifecycle.Cancelled? && !Dispatched(order.fulfillmentState)) then
      Computed(ShippingLeg(0, NoTerm, []), [])
    else
      match MatchShippingRule(rules, order, None, direction)
      case None =>
        Computed(ShippingLeg(0, Missing, []), [OnOrder(NoOutboundShipment), OnOrder(ShippingFallbackMissing)])
      case Some(rule) =>
        Computed(ShippingLeg(rule.cost, Estimated, []), [OnOrder(NoOutboundShipment), OnOrder(ShippingFallbackUsed)])
  }

  function ComputeShippingCost(order: Order, shipments: seq<Shipment>, rules: seq<ShippingRule>, direction: Direction)
    : Result<Computed<ShippingLeg>>
  {
    var legs := LegsOf(shipments, direction);
    if legs == [] then Ok(WithoutLegs(order, rules, direction))
    else
      var packed := PackLegs(legs, order, rules, direction, |legs|);
      var cost :- AddMinor(ParcelCosts(packed.parcels));
      var basis := if packed.anyMissing then Missing else if packed.anyEstimated then Estimated else Actual;
      Ok(Computed(ShippingLeg(cost, basis, packed.parcels), packed.diagnostics))
  }

  method ComputeShippingCostLoop(order: Order, shipments: seq<Shipment>, rules: seq<ShippingRule>, direction: Direction)
    returns (r: Result<Computed<ShippingLeg>>)
    ensures r == ComputeShippingCost(order, shipments, rules, direction)
  {
    var legs := LegsOf(shipments, direction);
    if legs == [] {
      return Ok(WithoutLegs(order, rules, direction));
    }
    var parcels: seq<Parcel>, anyEstimated, anyMissing := [], false, false;
    var diagnostics: seq<Diagnostic> := [];
    for i := 0 to |legs|
      invariant PackLegs(legs, order, rules, direction, i) == Packed(parcels, anyEstimated, anyMissing, diagnostics)
    {
      var shipment := legs[i];
      if shipment.carrierCost.Some? {
        parcels := parcels + [Parcel(shipment.id, shipment.carrierCost.value, shipment.lineIds)];
        continue;
      }
      diagnostics := diagnostics + [Diagnostic(CarrierCostMissing, OfShipment(shipment.id))];
      if !MayEstimate(order) {
        anyMissing := true;
        continue;
      }
      var rule := MatchShippingRuleLoop(rules, order, Some(shipment.carrier), direction);
      if rule.None? {
        anyMissing := true;
        diagnostics := diagnostics + [Diagnostic(ShippingFallbackMissing, OfShipment(shipment.id))];
        continue;
      }
      anyEstimated := true;
      diagnostics := diagnostics + [Diagnostic(ShippingFallbackUsed, OfShipment(shipment.id))];
      parcels := parcels + [Parcel(shipment.id, rule.value.cost, shipment.lineIds)];
    }
    var cost := AddMinorLoop(ParcelCosts(parcels));
    if cost.Err? { return Err(cost.error); }
    var basis := if anyMissing then Missing else if anyEstimated then Estimated else Actual;
    return Ok(Computed(ShippingLeg(cost.value, basis, parcels), diagnostics));
  }
}
