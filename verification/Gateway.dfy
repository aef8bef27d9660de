/** Processor fees: which rule prices each captured leg, and what the legs cost together. */
module Gateway {
  import opened Prelude
  import opened Sequences
  import opened Money
  import opened Domain
  import opened Choice
  import opened Fee

  // ----------------------------------------------------------- rule matching

  /** The legs a processor takes a fee on: captured, and neither collected in cash nor free of charge. */
  predicate Chargeable(p: Payment) {
    p.state.LegCaptured? && !p.instrument.Cod? && !p.instrument.Free?
  }

  predicate Matches(rule: GatewayRule, payment: Payment, scheme: Option<Scheme>) {
    && (rule.instrument.Some? ==> rule.instrument.value == payment.instrument)
    && (rule.scheme.Some? ==> rule.scheme == scheme)
    && (rule.provider.Some? ==> rule.provider == payment.provider)
  }

  function Specificity(rule: GatewayRule): int {
    (if rule.instrument.Some? then 4 else 0) + (if rule.scheme.Some? then 2 else 0)
    + (if rule.provider.Some? then 1 else 0)
  }

  function Accepts(payment: Payment, scheme: Option<Scheme>): GatewayRule -> bool {
    (r: GatewayRule) => Matches(r, payment, scheme)
  }

  function BestRule(rules: seq<GatewayRule>, payment: Payment, scheme: Option<Scheme>): Option<GatewayRule> {
    Pick(rules, Accepts(payment, scheme), Specificity)
  }

  method BestRuleLoop(rules: seq<GatewayRule>, payment: Payment, scheme: Option<Scheme>)
    returns (best: Option<GatewayRule>)
    ensures best == BestRule(rules, payment, scheme)
  {
    best := None;
    var bestScore := -1;
    for i := 0 to |rules|
      invariant best == PickUpTo(rules, Accepts(payment, scheme), Specificity, i)
      invariant bestScore == if best.Some? then Specificity(best.value) else -1
    {
      if Matches(rules[i], payment, scheme) && Specificity(rules[i]) > bestScore {
        best := Some(rules[i]);
        bestScore := Specificity(rules[i]);
      }
    }
  }

  /** A rule that could price the leg if only the scheme were known. */
  predicate Eligible(rule: GatewayRule, payment: Payment) {
    && (rule.instrument.None? || rule.instrument.value == payment.instrument)
    && (rule.provider.None? || rule.provider == payment.provider)
  }

  function EligibleFor(payment: Payment): GatewayRule -> bool {
    (r: GatewayRule) => Eligible(r, payment)
  }

  function TopSpecificity(rules: seq<GatewayRule>): int
    requires rules != []
  {
    if |rules| == 1 then Specificity(rules[0]) else Max(Specificity(rules[0]), TopSpecificity(rules[1..]))
  }

  function AtTier(tier: int): GatewayRule -> bool {
    (r: GatewayRule) => Specificity(r) == tier
  }

  /** The eligible rows of the greatest specificity among them. */
  function SchemeCandidates(rules: seq<GatewayRule>, payment: Payment): seq<GatewayRule> {
    var eligible := Filter(EligibleFor(payment), rules);
    if eligible == [] then [] else Filter(AtTier(TopSpecificity(eligible)), eligible)
  }

  /** The first of the most expensive among the first n candidates. */
  function Costliest(candidates: seq<GatewayRule>, amount: int, vatRegistered: bool, n: nat): Result<GatewayRule>
    requires 0 < n <= |candidates|
  {
    if n == 1 then Ok(candidates[0])
    else
      var worst :- Costliest(candidates, amount, vatRegistered, n - 1);
      var candidateFee :- ApplyFee(amount, candidates[n-1].formula, vatRegistered);
      var worstFee :- ApplyFee(amount, worst.formula, vatRegistered);
      Ok(if candidateFee.cost > worstFee.cost then candidates[n-1] else worst)
  }

  predicate SchemeUnknown(payment: Payment) {
    payment.instrument.Card? && (payment.scheme.None? || payment.scheme.value.UnknownScheme?)
  }

  function ChooseRule(rules: seq<GatewayRule>, payment: Payment, vatRegistered: bool): Result<Option<GatewayRule>> {
    if SchemeUnknown(payment) then
      var candidates := SchemeCandidates(rules, payment);
      if candidates == [] then Ok(None)
      else
        var worst :- Costliest(candidates, payment.amountGross, vatRegistered, |candidates|);
        Ok(Some(worst))
    else Ok(BestRule(rules, payment, payment.scheme))
  }

  method ChooseRuleLoop(rules: seq<GatewayRule>, payment: Payment, vatRegistered: bool)
    returns (r: Result<Option<GatewayRule>>)
    ensures r == ChooseRule(rules, payment, vatRegistered)
  {
    hide ApplyFee, SchemeCandidates, BestRule;
    if SchemeUnknown(payment) {
      var candidates := SchemeCandidates(rules, payment);
      if candidates == [] { return Ok(None); }
      var worst := candidates[0];
      for i := 1 to |candidates|
        invariant Costliest(candidates, payment.amountGross, vatRegistered, i) == Ok(worst)
      {
        var candidateFee := ApplyFee(payment.amountGross, candidates[i].formula, vatRegistered);
        if candidateFee.Err? {
          CostliestFails(candidates, payment.amountGross, vatRegistered, i + 1, |candidates|);
          return Err(candidateFee.error);
        }
        var worstFee := ApplyFee(payment.amountGross, worst.formula, vatRegistered);
        if worstFee.Err? {
          CostliestFails(candidates, payment.amountGross, vatRegistered, i + 1, |candidates|);
          return Err(worstFee.error);
        }
        if candidateFee.value.cost > worstFee.value.cost { worst := candidates[i]; }
      }
      return Ok(Some(worst));
    }
    var best := BestRuleLoop(rules, payment, payment.scheme);
    return Ok(best);
  }

  lemma {:induction false} CostliestFails(candidates: seq<GatewayRule>, amount: int, vatRegistered: bool, i: nat, n: nat)
    requires 0 < i <= n <= |candidates|
    requires Costliest(candidates, amount, vatRegistered, i).Err?
    ensures Costliest(candidates, amount, vatRegistered, n) == Costliest(candidates, amount, vatRegistered, i)
  {
    hide ApplyFee;
    if i < n { CostliestFails(candidates, amount, vatRegistered, i, n - 1); }
  }

  // ------------------------------------------------------------- the fee term

  datatype GatewayFees = GatewayFees(exVat: int, vat: int, cost: int, basis: TermBasis)

  /** What the walk over the legs has gathered so far. */
  datatype Gathered = Gathered(applied: seq<AppliedFee>, anyMissing: bool, worstBasis: TermBasis, diagnostics: seq<Diagnostic>)

  function LegDiagnostics(payment: Payment, index: nat): seq<Diagnostic> {
    (if payment.instrument.UnknownInstrument? || payment.instrument.OtherInstrument?
     then [Diagnostic(UnknownPaymentInstrument, OfPayment(index))] else [])
    + (if SchemeUnknown(payment) then [Diagnostic(CardSchemeUnknown, OfPayment(index))] else [])
  }

  function PriceLeg(g: Gathered, rules: seq<GatewayRule>, payment: Payment, index: nat,
        vatRegistered: bool): Result<Gathered> {
    if !Chargeable(payment) then Ok(g)
    else
      var noted := g.diagnostics + LegDiagnostics(payment, index);
      var chosen :- ChooseRule(rules, payment, vatRegistered);
      match chosen
      case None => Ok(Gathered(g.applied, true, g.worstBasis, noted + [Diagnostic(FeeRuleMissing, OfPayment(index))]))
      case Some(rule) =>
        var flagged := if rule.formula.source.DefaultTable?
                       then noted + [Diagnostic(FeeRuleDefaultUsed, OfPayment(index))] else noted;
        var basis := if SchemeUnknown(payment) then Estimated else BasisOf(rule.formula.source);
        var fee :- ApplyFee(payment.amountGross, rule.formula, vatRegistered);
        Ok(Gathered(g.applied + [fee], g.anyMissing,
                    if basis.Estimated? && g.worstBasis.Actual? then Estimated else g.worstBasis, flagged))
  }

  function PriceLegs(g: Gathered, rules: seq<GatewayRule>, payments: seq<Payment>, vatRegistered: bool,
        n: nat): Result<Gathered>
    requires n <= |payments|
  {
    if n == 0 then Ok(g)
    else
      var before :- PriceLegs(g, rules, payments, vatRegistered, n - 1);
      PriceLeg(before, rules, payments[n-1], n - 1, vatRegistered)
  }

  function Captured(payments: seq<Payment>): seq<int> {
    Map((p: Payment) => p.amountGross, Filter((p: Payment) => p.state.LegCaptured?, payments))
  }

  function ExVats(fees: seq<AppliedFee>): (r: seq<int>) ensures |r| == |fees| { Map((f: AppliedFee) => f.exVat, fees) }
  function Vats(fees: seq<AppliedFee>): (r: seq<int>) ensures |r| == |fees| { Map((f: AppliedFee) => f.vat, fees) }
  function Costs(fees: seq<AppliedFee>): (r: seq<int>) ensures |r| == |fees| { Map((f: AppliedFee) => f.cost, fees) }

  function ComputeGatewayFees(order: Order, rules: seq<GatewayRule>, vatRegistered: bool): Result<Computed<GatewayFees>> {
    var captured :- AddMinor(Captured(order.payments));
    var underMapped := order.paymentState.Paid? && captured < order.totalIncVat;
    var diagnostics := if underMapped then [OnOrder(PaymentLegsUnderTotal)] else [];
    if forall i :: 0 <= i < |order.payments| ==> !Chargeable(order.payments[i]) then
      Ok(Computed(GatewayFees(0, 0, 0, if underMapped then Missing else NoTerm), diagnostics))
    else
      var g :- PriceLegs(Gathered([], false, Actual, diagnostics), rules, order.payments, vatRegistered, |order.payments|);
      var exVat :- AddMinor(ExVats(g.applied));
      var vat :- AddMinor(Vats(g.applied));
      var cost :- AddMinor(Costs(g.applied));
      Ok(Computed(GatewayFees(exVat, vat, cost, if g.anyMissing || underMapped then Missing else g.worstBasis), g.diagnostics))
  }

  method PriceLegStep(g: Gathered, rules: seq<GatewayRule>, payment: Payment, index: nat, vatRegistered: bool)
    returns (r: Result<Gathered>)
    ensures r == PriceLeg(g, rules, payment, index, vatRegistered)
  {
    hide ApplyFee, ChooseRule;
    if !Chargeable(payment) { return Ok(g); }
    var applied, anyMissing, worstBasis := g.applied, g.anyMissing, g.worstBasis;
    var diagnostics := g.diagnostics + LegDiagnostics(payment, index);
    var chosen := ChooseRuleLoop(rules, payment, vatRegistered);
    if chosen.Err? { return Err(chosen.error); }
    if chosen.value.None? {
      anyMissing := true;
      diagnostics := diagnostics + [Diagnostic(FeeRuleMissing, OfPayment(index))];
      return Ok(Gathered(applied, anyMissing, worstBasis, diagnostics));
    }
    var rule := chosen.value.value;
    if rule.formula.source.DefaultTable? {
      diagnostics := diagnostics + [Diagnostic(FeeRuleDefaultUsed, OfPayment(index))];
    }
    var basis := if SchemeUnknown(payment) then Estimated else BasisOf(rule.formula.source);
    if basis.Estimated? && worstBasis.Actual? { worstBasis := Estimated; }
    var fee := ApplyFee(payment.amountGross, rule.formula, vatRegistered);
    if fee.Err? { return Err(fee.error); }
    applied := applied + [fee.value];
    return Ok(Gathered(applied, anyMissing, worstBasis, diagnostics));
  }

  method PriceLegsLoop(start: Gathered, rules: seq<GatewayRule>, payments: seq<Payment>, vatRegistered: bool)
    returns (r: Result<Gathered>)
    ensures r == PriceLegs(start, rules, payments, vatRegistered, |payments|)
  {
    hide PriceLeg;
    var g := start;
    for index := 0 to |payments|
      invariant PriceLegs(start, rules, payments, vatRegistered, index) == Ok(g)
    {
      var next := PriceLegStep(g, rules, payments[index], index, vatRegistered);
      if next.Err? {
        PriceLegsFails(start, rules, payments, vatRegistered, index + 1, |payments|);
        return next;
      }
      g := next.value;
    }
    return Ok(g);
  }

  lemma {:induction false} PriceLegsFails(start: Gathered, rules: seq<GatewayRule>, payments: seq<Payment>,
        vatRegistered: bool, i: nat, n: nat)
    requires i <= n <= |payments| && PriceLegs(start, rules, payments, vatRegistered, i).Err?
    ensures PriceLegs(start, rules, payments, vatRegistered, n) == PriceLegs(start, rules, payments, vatRegistered, i)
  {
    hide PriceLeg;
    if i < n { PriceLegsFails(start, rules, payments, vatRegistered, i, n - 1); }
  }

  method ComputeGatewayFeesLoop(order: Order, rules: seq<GatewayRule>, vatRegistered: bool)
    returns (r: Result<Computed<GatewayFees>>)
    ensures r == ComputeGatewayFees(order, rules, vatRegistered)
  {
    var captured := AddMinorLoop(Captured(order.payments));
    if captured.Err? { return Err(captured.error); }
    var underMapped := order.paymentState.Paid? && captured.value < order.totalIncVat;
    var diagnostics := [];
    if underMapped { diagnostics := [OnOrder(PaymentLegsUnderTotal)]; }
    if forall i :: 0 <= i < |order.payments| ==> !Chargeable(order.payments[i]) {
      return Ok(Computed(GatewayFees(0, 0, 0, if underMapped then Missing else NoTerm), diagnostics));
    }
    var g := PriceLegsLoop(Gathered([], false, Actual, diagnostics), rules, order.payments, vatRegistered);
    if g.Err? { return Err(g.error); }
    var exVat := AddMinorLoop(ExVats(g.value.applied));
    if exVat.Err? { return Err(exVat.error); }
    var vat := AddMinorLoop(Vats(g.value.applied));
    if vat.Err? { return Err(vat.error); }
    var cost := AddMinorLoop(Costs(g.value.applied));
    if cost.Err? { return Err(cost.error); }
    var basis := if g.value.anyMissing || underMapped then Missing else g.value.worstBasis;
    return Ok(Computed(GatewayFees(exVat.value, vat.value, cost.value, basis), g.value.diagnostics));
  }
}
