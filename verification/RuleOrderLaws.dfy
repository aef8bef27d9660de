/** The row order of a rate card changes no cost, no line and no margin of any order. */
module RuleOrderLaws {
  import opened Prelude
  import opened Sequences
  import opened Money
  import opened Domain
  import opened Fee
  import opened Confidence
  import opened Diagnostics
  import opened Profit
  import opened ProfitLaws
  import opened TermLaws
  import AllocateLines
  import Cogs
  import Normalize
  import NormalizeLaws
  import OrderRecognition
  import ReturnLaws
  import Revenue
  import Rules
  import RuleTies
  import Gateway
  import Shipping
  import Cod = CashOnDelivery
  import Reversals

  // ---------------------------------------------------------------- shipping

  lemma {:induction false} PackingForgetsRuleOrder(legs: seq<Shipment>, order: Order, rules: seq<ShippingRule>,
        others: seq<ShippingRule>, direction: Direction, n: nat)
    requires n <= |legs| && Distinct(Rules.ShippingKeys(rules)) && multiset(rules) == multiset(others)
    ensures Shipping.PackLegs(legs, order, rules, direction, n) == Shipping.PackLegs(legs, order, others, direction, n)
  {
    hide Shipping.MatchShippingRule, Rules.ShippingKeys, Distinct;
    if n > 0 {
      PackingForgetsRuleOrder(legs, order, rules, others, direction, n - 1);
      Rules.ShippingRuleForgetsOrder(rules, others, order, Some(legs[n-1].carrier), direction);
    }
  }

  lemma ShippingForgetsRuleOrder(order: Order, shipments: seq<Shipment>, rules: seq<ShippingRule>,
        others: seq<ShippingRule>, direction: Direction)
    requires Distinct(Rules.ShippingKeys(rules)) && multiset(rules) == multiset(others)
    ensures Shipping.ComputeShippingCost(order, shipments, rules, direction)
        == Shipping.ComputeShippingCost(order, shipments, others, direction)
  {
    hide Shipping.MatchShippingRule, Rules.ShippingKeys, Distinct, Shipping.PackLegs, AddMinor, Shipping.LegsOf;
    var legs := Shipping.LegsOf(shipments, direction);
    PackingForgetsRuleOrder(legs, order, rules, others, direction, |legs|);
    Rules.ShippingRuleForgetsOrder(rules, others, order, None, direction);
  }

  // -------------------------------------------------------- cash on delivery

  lemma {:induction false} PortionsForgetRuleOrder(c: Cod.Charged, rules: seq<CodRule>, others: seq<CodRule>,
        carriers: seq<string>, portions: seq<Cod.Portion>, index: nat, registered: bool, n: nat)
    requires n <= |portions| && Distinct(Rules.CodKeys(rules)) && multiset(rules) == multiset(others)
    ensures Cod.ChargePortions(c, rules, carriers, portions, index, registered, n)
        == Cod.ChargePortions(c, others, carriers, portions, index, registered, n)
  {
    hide Cod.RuleFor, Rules.CodKeys, Distinct, ApplyFee;
    if n > 0 {
      PortionsForgetRuleOrder(c, rules, others, carriers, portions, index, registered, n - 1);
      Rules.CodRuleForgetsOrder(rules, others, if carriers == [] then None else Some(portions[n-1].carrier));
    }
  }

  lemma {:induction false} ChargesForgetRuleOrder(rules: seq<CodRule>, others: seq<CodRule>, carriers: seq<string>,
        payments: seq<Payment>, registered: bool, n: nat)
    requires n <= |payments| && Distinct(Rules.CodKeys(rules)) && multiset(rules) == multiset(others)
    ensures Cod.ChargeLegs(rules, carriers, payments, registered, n) == Cod.ChargeLegs(others, carriers, payments, registered, n)
  {
    hide Cod.ChargePortions, Cod.PortionsOf, Rules.CodKeys, Distinct;
    if n > 0 {
      ChargesForgetRuleOrder(rules, others, carriers, payments, registered, n - 1);
      var before := Cod.ChargeLegs(rules, carriers, payments, registered, n - 1);
      var portions := Cod.PortionsOf(payments[n-1].amountGross, carriers);
      if before.Ok? && portions.Ok? {
        PortionsForgetRuleOrder(before.value, rules, others, carriers, portions.value, n - 1, registered, |portions.value|);
      }
    }
  }

  lemma CodForgetsRuleOrder(order: Order, shipments: seq<Shipment>, rules: seq<CodRule>, others: seq<CodRule>,
        registered: bool)
    requires Distinct(Rules.CodKeys(rules)) && multiset(rules) == multiset(others)
    ensures Cod.ComputeCodCost(order, shipments, rules, registered) == Cod.ComputeCodCost(order, shipments, others, registered)
  {
    hide Cod.ChargeLegs, Rules.CodKeys, Distinct, AddMinor, Cod.Carriers;
    ChargesForgetRuleOrder(rules, others, Cod.Carriers(shipments), order.payments, registered, |order.payments|);
  }

  // ------------------------------------------------------------ gateway fees

  /** What an unnamed scheme costs is the most any candidate costs, so the order of the candidates is no matter. */
  lemma CostliestForgetsOrder(xs: seq<GatewayRule>, ys: seq<GatewayRule>, amount: int, registered: bool)
    requires |xs| == |ys| > 0 && forall r :: r in xs <==> r in ys
    requires Gateway.Costliest(xs, amount, registered, |xs|).Ok? && Gateway.Costliest(ys, amount, registered, |ys|).Ok?
    ensures var a, b := Gateway.Costliest(xs, amount, registered, |xs|).value,
        Gateway.Costliest(ys, amount, registered, |ys|).value;
      ApplyFee(amount, a.formula, registered).Ok? && ApplyFee(amount, b.formula, registered).Ok? ==>
        ApplyFee(amount, a.formula, registered).value.cost == ApplyFee(amount, b.formula, registered).value.cost
  {
    hide ApplyFee, Gateway.Costliest;
    if |xs| == 1 {
      Rules.FirstCandidate(xs, amount, registered);
      Rules.FirstCandidate(ys, amount, registered);
      assert xs[0] in ys;
    } else {
      Rules.CostliestIsMost(xs, amount, registered, |xs|);
      Rules.CostliestIsMost(ys, amount, registered, |ys|);
      var a, b := Gateway.Costliest(xs, amount, registered, |xs|).value, Gateway.Costliest(ys, amount, registered, |ys|).value;
      assert a in ys && b in xs;
    }
  }

  /** Two walks that differ at most in which of two equally dear rules they named. */
  ghost predicate SameFees(g: Gateway.Gathered, h: Gateway.Gathered) {
    Gateway.Costs(g.applied) == Gateway.Costs(h.applied) && g.anyMissing == h.anyMissing && g.worstBasis == h.worstBasis
  }

  lemma CostsSnoc(xs: seq<AppliedFee>, fee: AppliedFee)
    ensures Gateway.Costs(xs + [fee]) == Gateway.Costs(xs) + [fee.cost]
  {
  }

  lemma ChosenForgetsOrder(rules: seq<GatewayRule>, others: seq<GatewayRule>, payment: Payment, registered: bool)
    requires Distinct(Rules.GatewayKeys(rules)) && multiset(rules) == multiset(others)
    requires Gateway.ChooseRule(rules, payment, registered).Ok? && Gateway.ChooseRule(others, payment, registered).Ok?
    ensures var a, b := Gateway.ChooseRule(rules, payment, registered).value,
        Gateway.ChooseRule(others, payment, registered).value;
      && (a.None? <==> b.None?)
      && (!Gateway.SchemeUnknown(payment) ==> a == b)
      && (a.Some? && ApplyFee(payment.amountGross, a.value.formula, registered).Ok?
          && ApplyFee(payment.amountGross, b.value.formula, registered).Ok? ==>
            ApplyFee(payment.amountGross, a.value.formula, registered).value.cost
                == ApplyFee(payment.amountGross, b.value.formula, registered).value.cost)
  {
    hide ApplyFee, Gateway.Costliest, Gateway.SchemeCandidates, Gateway.BestRule, Rules.GatewayKeys, Distinct,
      Gateway.SchemeUnknown;
    if Gateway.SchemeUnknown(payment) {
      RuleTies.CandidatesPermute(rules, others, payment);
      var xs, ys := Gateway.SchemeCandidates(rules, payment), Gateway.SchemeCandidates(others, payment);
      if xs != [] { CostliestForgetsOrder(xs, ys, payment.amountGross, registered); }
    } else {
      Rules.BestRuleForgetsOrder(rules, others, payment, payment.scheme);
    }
  }

  /** What one order of the rows chooses prices the amount exactly when what another chooses does. */
  lemma ChosenPricedAlike(rules: seq<GatewayRule>, others: seq<GatewayRule>, payment: Payment, registered: bool)
    requires Distinct(Rules.GatewayKeys(rules)) && multiset(rules) == multiset(others)
    requires Gateway.ChooseRule(rules, payment, registered).Ok? && Gateway.ChooseRule(others, payment, registered).Ok?
    ensures var a, b := Gateway.ChooseRule(rules, payment, registered).value,
        Gateway.ChooseRule(others, payment, registered).value;
      && (a.None? <==> b.None?)
      && (a.Some? ==> (ApplyFee(payment.amountGross, a.value.formula, registered).Ok?
          <==> ApplyFee(payment.amountGross, b.value.formula, registered).Ok?))
  {
    hide ApplyFee, Gateway.Costliest, Gateway.SchemeCandidates, Gateway.BestRule, Rules.GatewayKeys, Distinct,
      Gateway.SchemeUnknown, Rules.InTopTier;
    if Gateway.SchemeUnknown(payment) {
      RuleTies.CandidatesPermute(rules, others, payment);
      var xs, ys := Gateway.SchemeCandidates(rules, payment), Gateway.SchemeCandidates(others, payment);
      if |xs| == 1 {
        Rules.FirstCandidate(xs, payment.amountGross, registered);
        Rules.FirstCandidate(ys, payment.amountGross, registered);
        assert xs[0] in ys;
      } else if |xs| > 1 {
        Rules.CostliestIsMost(xs, payment.amountGross, registered, |xs|);
        Rules.CostliestIsMost(ys, payment.amountGross, registered, |ys|);
      }
    } else {
      Rules.BestRuleForgetsOrder(rules, others, payment, payment.scheme);
    }
  }

  lemma LegForgetsRuleOrder(g: Gateway.Gathered, h: Gateway.Gathered, rules: seq<GatewayRule>,
        others: seq<GatewayRule>, payment: Payment, index: nat, registered: bool)
    requires SameFees(g, h) && Distinct(Rules.GatewayKeys(rules)) && multiset(rules) == multiset(others)
    ensures var x, y := Gateway.PriceLeg(g, rules, payment, index, registered),
        Gateway.PriceLeg(h, others, payment, index, registered);
      (x.Ok? <==> y.Ok?) && (x.Ok? ==> SameFees(x.value, y.value))
  {
    hide ApplyFee, Gateway.ChooseRule, Rules.GatewayKeys, Distinct, Gateway.SchemeUnknown, Gateway.Costs,
      Gateway.LegDiagnostics;
    RuleTies.ChoiceComputesAlike(rules, others, payment, registered);
    if Gateway.Chargeable(payment) && Gateway.ChooseRule(rules, payment, registered).Ok? {
      ChosenForgetsOrder(rules, others, payment, registered);
      ChosenPricedAlike(rules, others, payment, registered);
      var a, b := Gateway.ChooseRule(rules, payment, registered).value, Gateway.ChooseRule(others, payment, registered).value;
      if a.Some? && ApplyFee(payment.amountGross, a.value.formula, registered).Ok? {
        CostsSnoc(g.applied, ApplyFee(payment.amountGross, a.value.formula, registered).value);
        CostsSnoc(h.applied, ApplyFee(payment.amountGross, b.value.formula, registered).value);
      }
    }
  }

  lemma {:induction false} LegsForgetRuleOrder(g: Gateway.Gathered, rules: seq<GatewayRule>, others: seq<GatewayRule>,
        payments: seq<Payment>, registered: bool, n: nat)
    requires n <= |payments| && Distinct(Rules.GatewayKeys(rules)) && multiset(rules) == multiset(others)
    ensures var x, y := Gateway.PriceLegs(g, rules, payments, registered, n),
        Gateway.PriceLegs(g, others, payments, registered, n);
      (x.Ok? <==> y.Ok?) && (x.Ok? ==> SameFees(x.value, y.value))
  {
    hide Gateway.PriceLeg, Rules.GatewayKeys, Distinct, Gateway.Costs;
    if n > 0 {
      LegsForgetRuleOrder(g, rules, others, payments, registered, n - 1);
      var x, y := Gateway.PriceLegs(g, rules, payments, registered, n - 1),
          Gateway.PriceLegs(g, others, payments, registered, n - 1);
      if x.Ok? { LegForgetsRuleOrder(x.value, y.value, rules, others, payments[n-1], n - 1, registered); }
    }
  }

  /** The walk over an order's legs, from what it starts with. */
  function Walk(order: Order, rules: seq<GatewayRule>, registered: bool): Result<Gateway.Gathered> {
    var captured :- AddMinor(Gateway.Captured(order.payments));
    var start := Gateway.Gathered([], false, Actual,
      if order.paymentState.Paid? && captured < order.totalIncVat then [OnOrder(PaymentLegsUnderTotal)] else []);
    Gateway.PriceLegs(start, rules, order.payments, registered, |order.payments|)
  }

  /** The legs' VAT adds up within range, and so do their nets where these are not the costs themselves. */
  ghost predicate SplitFits(order: Order, rules: seq<GatewayRule>, registered: bool) {
    var w := Walk(order, rules, registered);
    w.Ok? ==> AddMinor(Gateway.Vats(w.value.applied)).Ok? && (registered || AddMinor(Gateway.ExVats(w.value.applied)).Ok?)
  }

  /** A registered merchant's cost is the net. */
  lemma {:induction false} RegisteredCostsAreNet(g: Gateway.Gathered, rules: seq<GatewayRule>, payments: seq<Payment>,
        n: nat)
    requires n <= |payments| && Gateway.PriceLegs(g, rules, payments, true, n).Ok?
        && Gateway.ExVats(g.applied) == Gateway.Costs(g.applied)
    ensures var w := Gateway.PriceLegs(g, rules, payments, true, n).value; Gateway.ExVats(w.applied) == Gateway.Costs(w.applied)
  {
    hide Gateway.ChooseRule, Quote, Gateway.LegDiagnostics;
    if n > 0 {
      RegisteredCostsAreNet(g, rules, payments, n - 1);
      var before := Gateway.PriceLegs(g, rules, payments, true, n - 1).value;
      var after := Gateway.PriceLegs(g, rules, payments, true, n).value;
      if after.applied != before.applied {
        var fee := after.applied[|before.applied|];
        assert after.applied == before.applied + [fee] && fee.cost == fee.exVat;
        CostsSnoc(before.applied, fee);
        assert Gateway.ExVats(before.applied + [fee]) == Gateway.ExVats(before.applied) + [fee.exVat];
      }
    }
  }

  lemma {:induction false} NothingApplied(g: Gateway.Gathered, rules: seq<GatewayRule>, payments: seq<Payment>,
        registered: bool, n: nat)
    requires n <= |payments| && forall i :: 0 <= i < |payments| ==> !Gateway.Chargeable(payments[i])
    ensures Gateway.PriceLegs(g, rules, payments, registered, n) == Ok(g)
  {
    if n > 0 { NothingApplied(g, rules, payments, registered, n - 1); }
  }

  ghost predicate NoneChargeable(order: Order) {
    forall i :: 0 <= i < |order.payments| ==> !Gateway.Chargeable(order.payments[i])
  }

  /** Without chargeable legs there is nothing to add up; otherwise the walk and its three sums decide. */
  lemma GatewayByWalk(order: Order, rules: seq<GatewayRule>, registered: bool)
    ensures var r, w := Gateway.ComputeGatewayFees(order, rules, registered), Walk(order, rules, registered);
      if NoneChargeable(order) then
        && (r.Ok? <==> w.Ok?) && (w.Ok? ==> w.value.applied == []) && (r.Ok? ==> r.value.value.cost == 0)
      else
        && (r.Ok? <==> w.Ok? && AddMinor(Gateway.ExVats(w.value.applied)).Ok? && AddMinor(Gateway.Vats(w.value.applied)).Ok?
                       && AddMinor(Gateway.Costs(w.value.applied)).Ok?)
        && (r.Ok? ==> AddMinor(Gateway.Costs(w.value.applied)) == Ok(r.value.value.cost))
  {
    hide Gateway.PriceLegs, AddMinor, Gateway.Captured, Gateway.Chargeable, Gateway.ExVats, Gateway.Vats,
      Gateway.Costs;
    var captured := AddMinor(Gateway.Captured(order.payments));
    if captured.Ok? && NoneChargeable(order) {
      var start := Gateway.Gathered([], false, Actual,
        if order.paymentState.Paid? && captured.value < order.totalIncVat then [OnOrder(PaymentLegsUnderTotal)] else []);
      NothingApplied(start, rules, order.payments, registered, |order.payments|);
    }
  }

  lemma NoSums()
    ensures AddMinor(Gateway.Vats([])) == AddMinor(Gateway.ExVats([])) == Ok(0)
  {
    assert Gateway.Vats([]) == [] && Gateway.ExVats([]) == [];
  }

  lemma WalkForgetsRuleOrder(order: Order, rules: seq<GatewayRule>, others: seq<GatewayRule>, registered: bool)
    requires Distinct(Rules.GatewayKeys(rules)) && multiset(rules) == multiset(others)
    ensures var x, y := Walk(order, rules, registered), Walk(order, others, registered);
      (x.Ok? <==> y.Ok?) && (x.Ok? ==> SameFees(x.value, y.value))
  {
    hide Gateway.PriceLegs, Rules.GatewayKeys, Distinct, Gateway.Costs, AddMinor, Gateway.Captured;
    var captured := AddMinor(Gateway.Captured(order.payments));
    if captured.Ok? {
      var start := Gateway.Gathered([], false, Actual,
        if order.paymentState.Paid? && captured.value < order.totalIncVat then [OnOrder(PaymentLegsUnderTotal)] else []);
      LegsForgetRuleOrder(start, rules, others, order.payments, registered, |order.payments|);
    }
  }

  lemma WalkNetsAreCosts(order: Order, rules: seq<GatewayRule>)
    requires Walk(order, rules, true).Ok?
    ensures var w := Walk(order, rules, true).value; Gateway.ExVats(w.applied) == Gateway.Costs(w.applied)
  {
    hide Gateway.PriceLegs, AddMinor, Gateway.Captured;
    var captured := AddMinor(Gateway.Captured(order.payments)).value;
    var start := Gateway.Gathered([], false, Actual,
      if order.paymentState.Paid? && captured < order.totalIncVat then [OnOrder(PaymentLegsUnderTotal)] else []);
    assert Gateway.ExVats([]) == Gateway.Costs([]);
    RegisteredCostsAreNet(start, rules, order.payments, |order.payments|);
  }

  /**
   * Where one order of the rows computes the gateway term, another does exactly when the legs'
   * split into net and VAT still adds up within range, and then the cost and its basis are the same.
   */
  lemma GatewayCostForgetsRuleOrder(order: Order, rules: seq<GatewayRule>, others: seq<GatewayRule>, registered: bool)
    requires Distinct(Rules.GatewayKeys(rules)) && multiset(rules) == multiset(others)
    requires Gateway.ComputeGatewayFees(order, rules, registered).Ok?
    ensures Gateway.ComputeGatewayFees(order, others, registered).Ok? <==> SplitFits(order, others, registered)
    ensures Gateway.ComputeGatewayFees(order, others, registered).Ok? ==>
      var a, b := Gateway.ComputeGatewayFees(order, rules, registered).value.value,
          Gateway.ComputeGatewayFees(order, others, registered).value.value;
      a.cost == b.cost && a.basis == b.basis
  {
    hide Gateway.PriceLegs, Rules.GatewayKeys, Distinct, Gateway.Costs, Gateway.ExVats, Gateway.Vats, AddMinor,
      Gateway.Captured, Walk, Gateway.ComputeGatewayFees, NoneChargeable;
    GatewayByWalk(order, rules, registered);
    GatewayByWalk(order, others, registered);
    WalkForgetsRuleOrder(order, rules, others, registered);
    NoSums();
    if registered && Walk(order, others, registered).Ok? {
      WalkNetsAreCosts(order, others);
    }
    BasisForgetsRuleOrder(order, rules, others, registered);
  }

  lemma BasisForgetsRuleOrder(order: Order, rules: seq<GatewayRule>, others: seq<GatewayRule>, registered: bool)
    requires Walk(order, rules, registered).Ok? && Walk(order, others, registered).Ok?
      ==> SameFees(Walk(order, rules, registered).value, Walk(order, others, registered).value)
    requires Gateway.ComputeGatewayFees(order, rules, registered).Ok?
    ensures Gateway.ComputeGatewayFees(order, others, registered).Ok? ==>
      Gateway.ComputeGatewayFees(order, rules, registered).value.value.basis
          == Gateway.ComputeGatewayFees(order, others, registered).value.value.basis
  {
    hide Gateway.PriceLegs, AddMinor, Gateway.Captured, Gateway.Chargeable, Gateway.ExVats, Gateway.Vats,
      Gateway.Costs;
  }

  // -------------------------------------------------------- without a tie

  /** No leg of an unnamed scheme could be priced by either of two equally dear rows. */
  ghost predicate NoLegTies(order: Order, rules: seq<GatewayRule>, registered: bool) {
    forall i :: 0 <= i < |order.payments| && Gateway.Chargeable(order.payments[i]) && Gateway.SchemeUnknown(order.payments[i]) ==>
      !RuleTies.Tied(rules, order.payments[i], registered)
  }

  lemma {:induction false} UntiedLegs(g: Gateway.Gathered, order: Order, rules: seq<GatewayRule>,
        others: seq<GatewayRule>, registered: bool, n: nat)
    requires n <= |order.payments| && Distinct(Rules.GatewayKeys(rules)) && ValidGateway(rules)
        && multiset(rules) == multiset(others)
    requires NoLegTies(order, rules, registered)
    ensures Gateway.PriceLegs(g, rules, order.payments, registered, n)
        == Gateway.PriceLegs(g, others, order.payments, registered, n)
  {
    hide Gateway.ChooseRule, ApplyFee, Rules.GatewayKeys, Distinct, ValidGateway, RuleTies.Tied,
      Gateway.SchemeUnknown, Gateway.LegDiagnostics;
    if n > 0 {
      UntiedLegs(g, order, rules, others, registered, n - 1);
      if Gateway.Chargeable(order.payments[n-1]) {
        RuleTies.UntiedForgetsOrder(rules, others, order.payments[n-1], registered);
      }
    }
  }

  /** Without ties the gateway term is the same to the last remark. */
  lemma UntiedGateway(order: Order, rules: seq<GatewayRule>, others: seq<GatewayRule>, registered: bool)
    requires Distinct(Rules.GatewayKeys(rules)) && ValidGateway(rules) && multiset(rules) == multiset(others)
    requires NoLegTies(order, rules, registered)
    ensures Gateway.ComputeGatewayFees(order, rules, registered) == Gateway.ComputeGatewayFees(order, others, registered)
  {
    hide Gateway.PriceLegs, AddMinor, Gateway.Captured, Gateway.ExVats, Gateway.Vats, Gateway.Costs,
      Rules.GatewayKeys, Distinct, ValidGateway, NoLegTies, Gateway.Chargeable;
    var captured := AddMinor(Gateway.Captured(order.payments));
    if captured.Ok? {
      var start := Gateway.Gathered([], false, Actual,
        if order.paymentState.Paid? && captured.value < order.totalIncVat then [OnOrder(PaymentLegsUnderTotal)] else []);
      UntiedLegs(start, order, rules, others, registered, |order.payments|);
    }
  }

  /** The codes confidence looks for are none a gateway term raises. */
  predicate GatewayCode(c: Code) {
    c.PaymentLegsUnderTotal? || c.UnknownPaymentInstrument? || c.CardSchemeUnknown? || c.FeeRuleMissing? || c.FeeRuleDefaultUsed?
  }

  ghost predicate GatewayOnly(ds: seq<Diagnostic>) { forall i :: 0 <= i < |ds| ==> GatewayCode(ds[i].code) }

  lemma {:induction false} LegsRaiseGatewayCodes(g: Gateway.Gathered, rules: seq<GatewayRule>, payments: seq<Payment>,
        registered: bool, n: nat)
    requires n <= |payments| && GatewayOnly(g.diagnostics) && Gateway.PriceLegs(g, rules, payments, registered, n).Ok?
    ensures GatewayOnly(Gateway.PriceLegs(g, rules, payments, registered, n).value.diagnostics)
  {
    hide Gateway.ChooseRule, ApplyFee;
    if n > 0 { LegsRaiseGatewayCodes(g, rules, payments, registered, n - 1); }
  }

  lemma GatewayRaisesGatewayCodes(order: Order, rules: seq<GatewayRule>, registered: bool)
    requires Gateway.ComputeGatewayFees(order, rules, registered).Ok?
    ensures GatewayOnly(Gateway.ComputeGatewayFees(order, rules, registered).value.diagnostics)
  {
    hide Gateway.PriceLegs, AddMinor, Gateway.Captured;
    var captured := AddMinor(Gateway.Captured(order.payments)).value;
    var start := Gateway.Gathered([], false, Actual,
      if order.paymentState.Paid? && captured < order.totalIncVat then [OnOrder(PaymentLegsUnderTotal)] else []);
    if !(forall i :: 0 <= i < |order.payments| ==> !Gateway.Chargeable(order.payments[i])) {
      LegsRaiseGatewayCodes(start, rules, order.payments, registered, |order.payments|);
    }
  }

  // ------------------------------------------------------------ whole orders

  /** The same rate card with its rows in another order. */
  ghost predicate SameCard(a: FeeRuleSet, b: FeeRuleSet) {
    && a.id == b.id && a.currency == b.currency && multiset(a.gateway) == multiset(b.gateway)
    && multiset(a.cod) == multiset(b.cod) && multiset(a.shippingFallback) == multiset(b.shippingFallback)
  }

  /** Terms that differ at most in how the gateway fee splits into net and VAT, and in what it remarked. */
  ghost predicate SameButGateway(s: Terms, t: Terms) {
    && t == s.(gateway := t.gateway)
    && s.gateway.value.cost == t.gateway.value.cost && s.gateway.value.basis == t.gateway.value.basis
    && GatewayOnly(s.gateway.diagnostics) && GatewayOnly(t.gateway.diagnostics)
  }

  lemma FormulasPermute(a: FeeRuleSet, b: FeeRuleSet)
    requires SameCard(a, b)
    ensures multiset(Normalize.Formulas(a)) == multiset(Normalize.Formulas(b))
  {
    MapPermutes((r: GatewayRule) => r.formula, a.gateway, b.gateway);
    MapPermutes((r: CodRule) => r.formula, a.cod, b.cod);
  }

  lemma KeysForgetOrder(a: FeeRuleSet, b: FeeRuleSet)
    requires SameCard(a, b)
    ensures Distinct(Rules.GatewayKeys(a.gateway)) <==> Distinct(Rules.GatewayKeys(b.gateway))
    ensures Distinct(Rules.CodKeys(a.cod)) <==> Distinct(Rules.CodKeys(b.cod))
    ensures Distinct(Rules.ShippingKeys(a.shippingFallback)) <==> Distinct(Rules.ShippingKeys(b.shippingFallback))
  {
    hide Distinct, Rules.GatewayKey, Rules.CodKey, Rules.ShippingKey, Map;
    NormalizeLaws.KeysPermute(Rules.GatewayKey, a.gateway, b.gateway);
    NormalizeLaws.KeysPermute(Rules.CodKey, a.cod, b.cod);
    NormalizeLaws.KeysPermute(Rules.ShippingKey, a.shippingFallback, b.shippingFallback);
  }

  /** The gate judges a card whatever the order of its rows. */
  lemma GoodRulesForgetOrder(a: FeeRuleSet, b: FeeRuleSet)
    requires SameCard(a, b)
    ensures NormalizeLaws.GoodRules(a) <==> NormalizeLaws.GoodRules(b)
    ensures a.id == b.id && a.currency == b.currency
  {
    FormulasPermute(a, b);
    KeysForgetOrder(a, b);
    hide Normalize.Formulas, Distinct, FormulaIsValid, Rules.GatewayKeys, Rules.CodKeys, Rules.ShippingKeys;
    RuleTies.SameMembers(Normalize.Formulas(a), Normalize.Formulas(b));
    RuleTies.SameMembers(a.shippingFallback, b.shippingFallback);
  }

  lemma AcceptanceForgetsRuleOrder(a: ProfitInput, b: ProfitInput)
    requires b == a.(feeRuleSet := b.feeRuleSet) && SameCard(a.feeRuleSet, b.feeRuleSet)
    ensures NormalizeLaws.Acceptable(a) <==> NormalizeLaws.Acceptable(b)
    ensures NormalizeLaws.Acceptable(a) ==>
      var n := Normalize.Canonical(a);
      Normalize.NormalizeAndValidate(a) == Normalize.NormalizeAndValidate(b) == Normalize.Accepted(n) && n.order == a.order
  {
    hide Normalize.NormalizeAndValidate, NormalizeLaws.GoodRules, NormalizeLaws.GoodItems,
      NormalizeLaws.GoodReversals, NormalizeLaws.GoodShipments, NormalizeLaws.GoodCosts, SameCard;
    GoodRulesForgetOrder(a.feeRuleSet, b.feeRuleSet);
    NormalizeLaws.AcceptedIffAcceptable(a);
    NormalizeLaws.AcceptedIffAcceptable(b);
    if NormalizeLaws.Acceptable(a) {
      AcceptedForm(a);
      AcceptedForm(b);
    }
  }

  lemma AcceptedForm(a: ProfitInput)
    requires Normalize.NormalizeAndValidate(a).Accepted?
    ensures Normalize.NormalizeAndValidate(a) == Normalize.Accepted(Normalize.Canonical(a))
  {
    hide Normalize.Fatals, Normalize.Canonical;
  }

  /** All terms but the gateway's are those of the other card. */
  lemma TermsForgetRuleOrder(a: ProfitInput, b: ProfitInput, n: Normalize.Normalized, s: Terms)
    requires b == a.(feeRuleSet := b.feeRuleSet) && SameCard(a.feeRuleSet, b.feeRuleSet) && NormalizeLaws.GoodRules(a.feeRuleSet)
    requires ComputeTerms(a, n) == Ok(s) && n.order == a.order
    ensures ComputeTerms(b, n).Ok? <==> SplitFits(b.order, b.feeRuleSet.gateway, b.store.vatRegistered)
    ensures ComputeTerms(b, n).Ok? ==> SameButGateway(s, ComputeTerms(b, n).value)
  {
    hide OrderRecognition.ComputeRecognition, Revenue.ComputeRevenue, Cogs.ComputeCogs, Shipping.ComputeShippingCost,
      Gateway.ComputeGatewayFees, Cod.ComputeCodCost, Reversals.ComputeReversalImpact, LedgerFor, Normalize.Formulas,
      Rules.GatewayKeys, Rules.CodKeys, Rules.ShippingKeys, Distinct, GatewayOnly, SplitFits;
    var rules, others, registered := a.feeRuleSet, b.feeRuleSet, a.store.vatRegistered;
    ShippingForgetsRuleOrder(n.order, n.shipments, rules.shippingFallback, others.shippingFallback, Outbound);
    ShippingForgetsRuleOrder(n.order, n.shipments, rules.shippingFallback, others.shippingFallback, Return);
    CodForgetsRuleOrder(n.order, n.shipments, rules.cod, others.cod, registered);
    GatewayCostForgetsRuleOrder(n.order, rules.gateway, others.gateway, registered);
    GatewayRaisesGatewayCodes(n.order, rules.gateway, registered);
    if Gateway.ComputeGatewayFees(n.order, others.gateway, registered).Ok? {
      GatewayRaisesGatewayCodes(n.order, others.gateway, registered);
    }
  }

  lemma NotGatewayHas(ds: seq<Diagnostic>, code: Code)
    requires GatewayOnly(ds) && !GatewayCode(code)
    ensures !Has(ds, code)
  {
  }

  lemma HasEither(x: seq<Diagnostic>, y: seq<Diagnostic>, code: Code)
    ensures Has(x + y, code) <==> Has(x, code) || Has(y, code)
  {
    if Has(x, code) {
      var i :| 0 <= i < |x| && x[i].code == code;
      assert (x + y)[i].code == code;
    } else if Has(y, code) {
      var i :| 0 <= i < |y| && y[i].code == code;
      assert (x + y)[|x| + i].code == code;
    }
  }

  /** A code no gateway term raises is there or not there, whatever the gateway term remarked. */
  lemma HasForgetsGateway(s: Terms, t: Terms, code: Code)
    requires SameButGateway(s, t) && !GatewayCode(code)
    ensures Has(AllDiagnostics(s), code) <==> Has(AllDiagnostics(t), code)
  {
    hide Has, GatewayOnly, GatewayCode;
    NotGatewayHas(s.gateway.diagnostics, code);
    NotGatewayHas(t.gateway.diagnostics, code);
    var before := s.revenue.diagnostics + s.cogs.diagnostics + s.outbound.diagnostics + s.returned.diagnostics;
    HasEither(before, s.gateway.diagnostics, code);
    HasEither(before, t.gateway.diagnostics, code);
    HasEither(before + s.gateway.diagnostics, s.cod.diagnostics, code);
    HasEither(before + t.gateway.diagnostics, t.cod.diagnostics, code);
    HasEither(before + s.gateway.diagnostics + s.cod.diagnostics, s.reversal.diagnostics, code);
    HasEither(before + t.gateway.diagnostics + t.cod.diagnostics, t.reversal.diagnostics, code);
  }

  lemma ConfidenceForgetsGateway(s: Terms, t: Terms, noItems: bool, noReversals: bool)
    requires SameButGateway(s, t)
    ensures ConfidenceOf(s, noItems, noReversals) == ConfidenceOf(t, noItems, noReversals)
  {
    hide Has, GatewayOnly, AllDiagnostics, AllSettled;
    HasForgetsGateway(s, t, RestockUnconfirmed);
    HasForgetsGateway(s, t, ReversalLineUnmatched);
    HasForgetsGateway(s, t, ReversalTotalMismatch);
    HasForgetsGateway(s, t, OrderHasNoItems);
  }

  lemma LinesForgetGateway(items: seq<Item>, s: Terms, t: Terms)
    requires SameButGateway(s, t)
    ensures ComputeLines(items, s) == ComputeLines(items, t)
  {
    hide AllocateLines.AllocateOrderCostsToLines, GatewayOnly;
  }

  lemma TotalsForgetGateway(lines: seq<AllocateLines.ProfitLine>, s: Terms, t: Terms)
    requires SameButGateway(s, t)
    ensures TotalsOf(s, lines).Ok? <==> TotalsOf(t, lines).Ok?
    ensures TotalsOf(s, lines).Ok? ==>
      var x, y := TotalsOf(s, lines).value, TotalsOf(t, lines).value;
      y == x.(gatewayExVat := y.gatewayExVat, gatewayVat := y.gatewayVat)
  {
    hide GatewayOnly, ContributionMargin, MarginBpsOf, AddMinor, CoveredRevenues;
  }

  /** Reports that agree on every cost, line, total and margin, and on confidence. */
  ghost predicate SameNumbers(a: Report, b: Report) {
    && a.lines == b.lines && a.confidence == b.confidence && a.recognition == b.recognition
    && b.totals == a.totals.(gatewayExVat := b.totals.gatewayExVat, gatewayVat := b.totals.gatewayVat)
  }

  /**
   * Reordering a rate card moves no margin. Of an order the card computes, the reordered card
   * computes the same lines, totals and confidence exactly when the legs' VAT still adds up within
   * range; only the fee's own split into net and VAT, and its remarks, may name another of two
   * equally dear rules.
   */
  lemma RuleOrderMovesNoMargin(a: ProfitInput, b: ProfitInput, x: Report)
    requires b == a.(feeRuleSet := b.feeRuleSet) && SameCard(a.feeRuleSet, b.feeRuleSet) && Reports(a, x)
    ensures Compute(b).ComputedOrder? <==> SplitFits(b.order, b.feeRuleSet.gateway, b.store.vatRegistered)
    ensures Compute(b).ComputedOrder? ==> SameNumbers(x, Compute(b).report)
  {
    hide *;
    var n, s := Opened(a, x);
    BehindIsGood(a, n, s, x);
    AcceptanceForgetsRuleOrder(a, b);
    TermsForgetRuleOrder(a, b, n, s);
    ReportsAlike(a, b, n, s, x);
  }

  lemma BehindIsGood(a: ProfitInput, n: Normalize.Normalized, s: Terms, x: Report)
    requires Behind(a, n, s, x)
    ensures NormalizeLaws.Acceptable(a) && NormalizeLaws.GoodRules(a.feeRuleSet) && ComputeTerms(a, n) == Ok(s)
        && n == Normalize.Canonical(a)
  {
    hide ComputeTerms, ComputeLines, TotalsOf, ConfidenceOf, SortDiagnostics, AllDiagnostics,
      Normalize.NormalizeAndValidate, Normalize.Canonical, NormalizeLaws.GoodRules, NormalizeLaws.GoodItems,
      NormalizeLaws.GoodReversals, NormalizeLaws.GoodShipments, NormalizeLaws.GoodCosts, NormalizeLaws.GoodHeader;
    NormalizeLaws.AcceptedIffAcceptable(a);
  }

  /** With terms that differ only in the gateway's remarks and split, one order reports when the other does. */
  lemma ReportsAlike(a: ProfitInput, b: ProfitInput, n: Normalize.Normalized, s: Terms, x: Report)
    requires Behind(a, n, s, x) && b == a.(feeRuleSet := b.feeRuleSet)
    requires Reports(a, x) && Normalize.NormalizeAndValidate(b) == Normalize.Accepted(n)
    requires ComputeTerms(b, n).Ok? ==> SameButGateway(s, ComputeTerms(b, n).value)
    ensures Compute(b).ComputedOrder? <==> ComputeTerms(b, n).Ok?
    ensures Compute(b).ComputedOrder? ==> SameNumbers(x, Compute(b).report)
  {
    hide ComputeTerms, ComputeLines, TotalsOf, ConfidenceOf, SortDiagnostics, AllDiagnostics,
      Normalize.NormalizeAndValidate, Normalize.Canonical, SameButGateway;
    if ComputeTerms(b, n).Ok? {
      var t := ComputeTerms(b, n).value;
      LinesForgetGateway(n.items, s, t);
      TotalsForgetGateway(x.lines, s, t);
      ConfidenceForgetsGateway(s, t, n.items == [], n.reversals == []);
      SameRecognition(s, t);
    }
  }

  lemma SameRecognition(s: Terms, t: Terms)
    requires SameButGateway(s, t)
    ensures s.recognition == t.recognition
  {
  }

  /**
   * Without ties the order of a card's rows is invisible: the gate accepts the one order of the rows
   * when it accepts the other, and the outcome is the same to the last remark.
   */
  lemma RuleOrderIsInvisible(a: ProfitInput, b: ProfitInput)
    requires b == a.(feeRuleSet := b.feeRuleSet) && SameCard(a.feeRuleSet, b.feeRuleSet)
    requires NoLegTies(a.order, a.feeRuleSet.gateway, a.store.vatRegistered)
    ensures NormalizeLaws.Acceptable(a) <==> NormalizeLaws.Acceptable(b)
    ensures NormalizeLaws.Acceptable(a) ==> Compute(a) == Compute(b)
  {
    hide *;
    AcceptanceForgetsRuleOrder(a, b);
    GoodRulesForgetOrder(a.feeRuleSet, b.feeRuleSet);
    if NormalizeLaws.Acceptable(a) {
      AcceptableIsGood(a);
      ReturnLaws.RulesAreValid(a);
      UntiedTerms(a, b, Normalize.Canonical(a));
      SameTermsSameOutcome(a, b, Normalize.Canonical(a));
    }
  }

  lemma AcceptableIsGood(a: ProfitInput)
    requires NormalizeLaws.Acceptable(a)
    ensures NormalizeLaws.GoodRules(a.feeRuleSet)
  {
  }

  lemma UntiedTerms(a: ProfitInput, b: ProfitInput, n: Normalize.Normalized)
    requires b == a.(feeRuleSet := b.feeRuleSet) && SameCard(a.feeRuleSet, b.feeRuleSet) && NormalizeLaws.GoodRules(a.feeRuleSet)
    requires NoLegTies(a.order, a.feeRuleSet.gateway, a.store.vatRegistered) && n.order == a.order
        && ValidGateway(a.feeRuleSet.gateway)
    ensures ComputeTerms(a, n) == ComputeTerms(b, n)
  {
    hide OrderRecognition.ComputeRecognition, Revenue.ComputeRevenue, Cogs.ComputeCogs, Shipping.ComputeShippingCost,
      Gateway.ComputeGatewayFees, Cod.ComputeCodCost, Reversals.ComputeReversalImpact, LedgerFor, Normalize.Formulas,
      Rules.GatewayKeys, Rules.CodKeys, Rules.ShippingKeys, Distinct, NoLegTies, ValidGateway;
    var rules, others, registered := a.feeRuleSet, b.feeRuleSet, a.store.vatRegistered;
    ShippingForgetsRuleOrder(n.order, n.shipments, rules.shippingFallback, others.shippingFallback, Outbound);
    ShippingForgetsRuleOrder(n.order, n.shipments, rules.shippingFallback, others.shippingFallback, Return);
    CodForgetsRuleOrder(n.order, n.shipments, rules.cod, others.cod, registered);
    UntiedGateway(n.order, rules.gateway, others.gateway, registered);
  }

  lemma SameTermsSameOutcome(a: ProfitInput, b: ProfitInput, n: Normalize.Normalized)
    requires b == a.(feeRuleSet := b.feeRuleSet) && a.feeRuleSet.id == b.feeRuleSet.id && ComputeTerms(a, n) == ComputeTerms(b, n)
    requires Normalize.NormalizeAndValidate(a) == Normalize.NormalizeAndValidate(b) == Normalize.Accepted(n)
    ensures Compute(a) == Compute(b)
  {
    hide ComputeTerms, ComputeLines, TotalsOf, ConfidenceOf, SortDiagnostics, AllDiagnostics,
      Normalize.NormalizeAndValidate, Normalize.Canonical;
  }
}
