/**
 * The shipping terms leg by leg: what each leg cost or would have cost, which rate of the card says
 * so, and what is remarked on, in the card's own words.
 */
module ParcelLaws {
  import opened Prelude
  import opened Sequences
  import opened Sums
  import opened Money
  import opened Domain
  import opened Choice
  import opened Shipping

  // ------------------------------------------------------------------ the rates

  /** Every place and carrier the rate names is the order's and the leg's. */
  ghost predicate Suits(rule: ShippingRule, order: Order, carrier: Option<string>) {
    && (rule.countryCode.Some? ==> order.destination.Some? && order.destination.value.countryCode == rule.countryCode.value)
    && (rule.region.Some? ==> order.destination.Some? && order.destination.value.region == rule.region)
    && (rule.carrier.Some? ==> rule.carrier == carrier)
  }

  /** The rate is written for legs that go this way, and not for either. */
  ghost predicate OneWay(rule: ShippingRule, direction: Direction) {
    rule.direction == if direction == Outbound then ForOutbound else ForReturn
  }

  /** Naming the country comes before the region, and that before the carrier. */
  ghost predicate FinerRate(a: ShippingRule, b: ShippingRule) {
    || (a.countryCode.Some? && b.countryCode.None?)
    || (a.countryCode.Some? == b.countryCode.Some? && a.region.Some? && b.region.None?)
    || (a.countryCode.Some? == b.countryCode.Some? && a.region.Some? == b.region.Some? && a.carrier.Some? && b.carrier.None?)
  }

  /** The i-th rate is the first of the finest that suit, rates for this way coming before rates for either. */
  ghost predicate RightRate(rules: seq<ShippingRule>, order: Order, carrier: Option<string>, direction: Direction, i: nat) {
    && i < |rules| && Suits(rules[i], order, carrier) && (OneWay(rules[i], direction) || rules[i].direction == ForAny)
    && (forall j :: 0 <= j < |rules| && Suits(rules[j], order, carrier) && OneWay(rules[j], direction) ==> OneWay(rules[i], direction))
    && (forall j :: 0 <= j < |rules| && Suits(rules[j], order, carrier) && rules[j].direction == rules[i].direction ==>
          !FinerRate(rules[j], rules[i]) && (j < i ==> FinerRate(rules[i], rules[j])))
  }

  ghost predicate NoRate(rules: seq<ShippingRule>, order: Order, carrier: Option<string>, direction: Direction) {
    forall r :: r in rules && Suits(r, order, carrier) ==> !OneWay(r, direction) && r.direction != ForAny
  }

  /** The rate that answers, if any. */
  ghost predicate RateFor(rules: seq<ShippingRule>, order: Order, carrier: Option<string>, direction: Direction,
        rate: Option<nat>) {
    if rate.Some? then RightRate(rules, order, carrier, direction, rate.value) else NoRate(rules, order, carrier, direction)
  }

  lemma FinerScores(a: ShippingRule, b: ShippingRule)
    ensures FinerRate(a, b) <==> Score(a) > Score(b)
  {
  }

  lemma PickIsFinest(rules: seq<ShippingRule>, order: Order, carrier: Option<string>, side: RuleDirection) returns (i: nat)
    requires PickFor(rules, order, carrier, side).Some?
    ensures i < |rules| && PickFor(rules, order, carrier, side) == Some(rules[i])
    ensures rules[i].direction == side && Suits(rules[i], order, carrier)
    ensures forall j :: 0 <= j < |rules| && Suits(rules[j], order, carrier) && rules[j].direction == side ==>
      !FinerRate(rules[j], rules[i]) && (j < i ==> FinerRate(rules[i], rules[j]))
  {
    hide Score, FinerRate;
    i := PickPlace(rules, Fits(order, carrier, side), Score, |rules|);
    forall j | 0 <= j < |rules| && Suits(rules[j], order, carrier) && rules[j].direction == side
      ensures !FinerRate(rules[j], rules[i]) && (j < i ==> FinerRate(rules[i], rules[j]))
    {
      assert Fits(order, carrier, side)(rules[j]);
      FinerScores(rules[j], rules[i]);
      FinerScores(rules[i], rules[j]);
    }
  }

  lemma NothingPicked(rules: seq<ShippingRule>, order: Order, carrier: Option<string>, side: RuleDirection)
    ensures PickFor(rules, order, carrier, side).None? <==> forall r :: r in rules && Suits(r, order, carrier) ==> r.direction != side
  {
    PickIsBest(rules, Fits(order, carrier, side), Score);
    assert forall r :: Fits(order, carrier, side)(r) <==> r.direction == side && Suits(r, order, carrier);
  }

  /** The lookup finds the right rate, or there is none. */
  lemma MatchIsRight(rules: seq<ShippingRule>, order: Order, carrier: Option<string>,
        direction: Direction) returns (rate: Option<nat>)
    ensures RateFor(rules, order, carrier, direction, rate)
    ensures var found := MatchShippingRule(rules, order, carrier, direction);
      if rate.Some? then rate.value < |rules| && found == Some(rules[rate.value]) else found == None
  {
    hide PickFor, Suits, FinerRate;
    var side := RuleSide(direction);
    NothingPicked(rules, order, carrier, side);
    NothingPicked(rules, order, carrier, ForAny);
    if PickFor(rules, order, carrier, side).Some? {
      var i := PickIsFinest(rules, order, carrier, side);
      rate := Some(i);
    } else if PickFor(rules, order, carrier, ForAny).Some? {
      var i := PickIsFinest(rules, order, carrier, ForAny);
      rate := Some(i);
    } else {
      rate := None;
    }
  }

  // ------------------------------------------------------------------- the legs

  /** A leg as it was costed: what it counts for, if anything, and the rate that was taken, if one was. */
  datatype Costing = Costing(cost: Option<int>, rate: Option<nat>)

  /** What the courier recorded counts; else, if a carrier delivers the order, the rate for that carrier, if there is one. */
  ghost predicate LegCosted(order: Order, rules: seq<ShippingRule>, direction: Direction, s: Shipment, c: Costing) {
    if s.carrierCost.Some? then c == Costing(s.carrierCost, None)
    else if order.fulfillmentMethod != ByCarrier then c == Costing(None, None)
    else
      && RateFor(rules, order, Some(s.carrier), direction, c.rate)
      && c.cost == if c.rate.Some? && c.rate.value < |rules| then Some(rules[c.rate.value].cost) else None
  }

  /** The parcels of the legs that count for something. */
  function ParcelsOf(legs: seq<Shipment>, costings: seq<Costing>): seq<Parcel>
    requires |legs| == |costings|
  {
    if legs == [] then []
    else
      var k := |legs| - 1;
      ParcelsOf(legs[..k], costings[..k])
      + if costings[k].cost.Some? then [Parcel(legs[k].id, costings[k].cost.value, legs[k].lineIds)] else []
  }

  /** What is remarked on a leg. */
  ghost predicate LegRemark(order: Order, s: Shipment, c: Costing, d: Diagnostic) {
    d.subject == OfShipment(s.id) && s.carrierCost.None? && match d.code
      case CarrierCostMissing => true
      case ShippingFallbackMissing => order.fulfillmentMethod == ByCarrier && c.rate.None?
      case ShippingFallbackUsed => c.rate.Some?
      case _ => false
  }

  ghost predicate RemarkedLegs(order: Order, legs: seq<Shipment>, costings: seq<Costing>, d: Diagnostic)
    requires |legs| == |costings|
  {
    exists k :: 0 <= k < |legs| && LegRemark(order, legs[k], costings[k], d)
  }

  ghost predicate AnyMissing(costings: seq<Costing>) { exists k :: 0 <= k < |costings| && costings[k].cost.None? }

  ghost predicate AnyEstimated(costings: seq<Costing>) { exists k :: 0 <= k < |costings| && costings[k].rate.Some? }

  /** What packing a leg adds. */
  function Packing(p: Packed, order: Order, s: Shipment, c: Costing): Packed {
    Packed(p.parcels + (if c.cost.Some? then [Parcel(s.id, c.cost.value, s.lineIds)] else []),
           p.anyEstimated || c.rate.Some?, p.anyMissing || c.cost.None?, p.diagnostics + RemarksOn(order, s, c))
  }

  function RemarksOn(order: Order, s: Shipment, c: Costing): seq<Diagnostic> {
    if s.carrierCost.Some? then []
    else if order.fulfillmentMethod != ByCarrier then [Diagnostic(CarrierCostMissing, OfShipment(s.id))]
    else [Diagnostic(CarrierCostMissing, OfShipment(s.id)),
          Diagnostic(if c.rate.Some? then ShippingFallbackUsed else ShippingFallbackMissing, OfShipment(s.id))]
  }

  lemma LegIsCosted(p: Packed, s: Shipment, order: Order, rules: seq<ShippingRule>, direction: Direction) returns (c: Costing)
    ensures LegCosted(order, rules, direction, s, c)
    ensures PackLeg(p, s, order, rules, direction) == Packing(p, order, s, c)
  {
    hide RightRate, NoRate, MatchShippingRule;
    if s.carrierCost.Some? {
      c := Costing(s.carrierCost, None);
    } else if order.fulfillmentMethod != ByCarrier {
      c := Costing(None, None);
    } else {
      var rate := MatchIsRight(rules, order, Some(s.carrier), direction);
      c := Costing(if rate.Some? then Some(rules[rate.value].cost) else None, rate);
    }
  }

  lemma RemarksOnLeg(order: Order, rules: seq<ShippingRule>, direction: Direction, s: Shipment, c: Costing, d: Diagnostic)
    requires LegCosted(order, rules, direction, s, c)
    ensures d in RemarksOn(order, s, c) <==> LegRemark(order, s, c, d)
  {
    hide RateFor;
  }

  /** The legs in order, as they were costed. */
  ghost predicate LegsCosted(order: Order, rules: seq<ShippingRule>, direction: Direction, legs: seq<Shipment>,
        costings: seq<Costing>) {
    |costings| == |legs| && forall k :: 0 <= k < |legs| ==> LegCosted(order, rules, direction, legs[k], costings[k])
  }

  ghost predicate PackedAs(order: Order, legs: seq<Shipment>, costings: seq<Costing>, p: Packed)
    requires |legs| == |costings|
  {
    && p.parcels == ParcelsOf(legs, costings)
    && (p.anyMissing <==> AnyMissing(costings)) && (p.anyEstimated <==> AnyEstimated(costings))
    && forall d :: d in p.diagnostics <==> RemarkedLegs(order, legs, costings, d)
  }

  lemma PackingAdds(order: Order, rules: seq<ShippingRule>, direction: Direction, legs: seq<Shipment>, costings: seq<Costing>,
        p: Packed, s: Shipment, c: Costing)
    requires |legs| == |costings| && PackedAs(order, legs, costings, p) && LegCosted(order, rules, direction, s, c)
    ensures PackedAs(order, legs + [s], costings + [c], Packing(p, order, s, c))
  {
    hide LegCosted, LegRemark, RemarksOn;
    var legs', costings', q := legs + [s], costings + [c], Packing(p, order, s, c);
    assert legs'[..|legs|] == legs && costings'[..|legs|] == costings;
    FlagsAdd(costings, c);
    forall d: Diagnostic ensures d in q.diagnostics <==> RemarkedLegs(order, legs', costings', d) {
      RemarksOnLeg(order, rules, direction, s, c, d);
      RemarkAdds(order, legs, costings, s, c, d);
    }
  }

  lemma FlagsAdd(costings: seq<Costing>, c: Costing)
    ensures AnyMissing(costings + [c]) <==> AnyMissing(costings) || c.cost.None?
    ensures AnyEstimated(costings + [c]) <==> AnyEstimated(costings) || c.rate.Some?
  {
    var all := costings + [c];
    assert all[|costings|] == c && forall k :: 0 <= k < |costings| ==> all[k] == costings[k];
  }

  lemma RemarkAdds(order: Order, legs: seq<Shipment>, costings: seq<Costing>, s: Shipment, c: Costing, d: Diagnostic)
    requires |legs| == |costings|
    ensures RemarkedLegs(order, legs + [s], costings + [c], d)
        <==> RemarkedLegs(order, legs, costings, d) || LegRemark(order, s, c, d)
  {
    hide LegRemark;
    var legs', costings' := legs + [s], costings + [c];
    if LegRemark(order, s, c, d) { assert LegRemark(order, legs'[|legs|], costings'[|legs|], d); }
    if RemarkedLegs(order, legs, costings, d) {
      var k :| 0 <= k < |legs| && LegRemark(order, legs[k], costings[k], d);
      assert LegRemark(order, legs'[k], costings'[k], d);
    }
  }

  lemma {:induction false} LegsAreCosted(legs: seq<Shipment>, order: Order, rules: seq<ShippingRule>,
        direction: Direction, n: nat)
    returns (costings: seq<Costing>)
    requires n <= |legs|
    ensures LegsCosted(order, rules, direction, legs[..n], costings)
    ensures PackedAs(order, legs[..n], costings, PackLegs(legs, order, rules, direction, n))
  {
    if n == 0 {
      costings := [];
    } else {
      hide PackedAs, LegCosted, Packing, PackLeg;
      var before := LegsAreCosted(legs, order, rules, direction, n - 1);
      var p := PackLegs(legs, order, rules, direction, n - 1);
      var c := LegIsCosted(p, legs[n-1], order, rules, direction);
      PackingAdds(order, rules, direction, legs[..n-1], before, p, legs[n-1], c);
      costings := before + [c];
      assert legs[..n] == legs[..n-1] + [legs[n-1]];
    }
  }

  // -------------------------------------------------------------------- the term

  /** The legs that went this way and were not called off, at their places and in order. */
  ghost predicate LegsAt(shipments: seq<Shipment>, direction: Direction, at: seq<nat>, legs: seq<Shipment>) {
    && |at| == |legs|
    && (forall k :: 0 <= k < |at| ==>
          at[k] < |shipments| && legs[k] == shipments[at[k]] && legs[k].direction == direction
              && legs[k].status != CancelledLabel)
    && (forall j, k :: 0 <= j < k < |at| ==> at[j] < at[k])
    && (forall i :: 0 <= i < |shipments| && shipments[i].direction == direction && shipments[i].status != CancelledLabel
          ==> i in at)
  }

  lemma LegsInPlace(shipments: seq<Shipment>, direction: Direction) returns (at: seq<nat>)
    ensures LegsAt(shipments, direction, at, LegsOf(shipments, direction))
  {
    var moves := (s: Shipment) => s.direction == direction && Live(s.status);
    at := FilterPicks(moves, shipments);
    assert LegsOf(shipments, direction) == Filter(moves, shipments);
  }

  /** Nothing was sent and nothing could have been: a return, an order no carrier delivers, or one cancelled before it left. */
  ghost predicate NothingToSend(order: Order, direction: Direction) {
    || direction == Return || order.fulfillmentMethod != ByCarrier
    || (order.lifecycle == Cancelled && (order.fulfillmentState == Unfulfilled || order.fulfillmentState == NotApplicable))
  }

  /** One parcel at the rate of the card, or a gap where the card has none. */
  ghost predicate OneEstimate(rules: seq<ShippingRule>, rate: Option<nat>, c: Computed<ShippingLeg>) {
    if rate.Some? && rate.value < |rules| then
      && c.value == ShippingLeg(rules[rate.value].cost, Estimated, [])
      && c.diagnostics == [Diagnostic(NoOutboundShipment, OfOrder), Diagnostic(ShippingFallbackUsed, OfOrder)]
    else
      && c.value == ShippingLeg(0, Missing, [])
      && c.diagnostics == [Diagnostic(NoOutboundShipment, OfOrder), Diagnostic(ShippingFallbackMissing, OfOrder)]
  }

  /** Without a leg: nothing, or what one parcel would have cost by the card, if the card says. */
  ghost predicate EstimateOnly(order: Order, rules: seq<ShippingRule>, direction: Direction, c: Computed<ShippingLeg>) {
    if NothingToSend(order, direction) then c == Computed(ShippingLeg(0, NoTerm, []), [])
    else exists rate: Option<nat> :: RateFor(rules, order, None, direction, rate) && OneEstimate(rules, rate, c)
  }

  lemma NoLegs(order: Order, rules: seq<ShippingRule>, direction: Direction)
    ensures EstimateOnly(order, rules, direction, WithoutLegs(order, rules, direction))
  {
    hide RateFor, MatchShippingRule;
    if !NothingToSend(order, direction) { var rate := MatchIsRight(rules, order, None, direction); }
  }

  /**
   * The whole shipping term of one direction: every live leg counts for what its courier recorded, or
   * else for the right rate of the card where a carrier delivers; the parcels are the legs that count
   * for something and the term is their sum; the basis says whether anything is missing or estimated;
   * and nothing is remarked but what is so. With no leg at all, one parcel may be estimated.
   */
  lemma ShippingIsItsLegs(order: Order, shipments: seq<Shipment>, rules: seq<ShippingRule>, direction: Direction)
    returns (at: seq<nat>, legs: seq<Shipment>, costings: seq<Costing>)
    requires ComputeShippingCost(order, shipments, rules, direction).Ok?
    ensures LegsAt(shipments, direction, at, legs) && LegsCosted(order, rules, direction, legs, costings)
    ensures var c := ComputeShippingCost(order, shipments, rules, direction).value;
      && c.value.parcels == ParcelsOf(legs, costings)
      && if legs == [] then EstimateOnly(order, rules, direction, c)
         else
           && c.value.cost == Sum(ParcelCosts(c.value.parcels))
           && c.value.basis == (if AnyMissing(costings) then Missing else if AnyEstimated(costings) then Estimated else Actual)
           && forall d :: d in c.diagnostics <==> RemarkedLegs(order, legs, costings, d)
  {
    hide PackLegs, AddMinor, Sum, ParcelCosts, LegsOf, LegsAt, LegCosted, AnyMissing, AnyEstimated, RemarkedLegs,
      EstimateOnly, MatchShippingRule;
    at := LegsInPlace(shipments, direction);
    legs := LegsOf(shipments, direction);
    costings := LegsAreCosted(legs, order, rules, direction, |legs|);
    assert legs[..|legs|] == legs;
    if legs == [] {
      NoLegs(order, rules, direction);
    } else {
      AddMinorIsSum(ParcelCosts(PackLegs(legs, order, rules, direction, |legs|).parcels));
    }
  }
}
