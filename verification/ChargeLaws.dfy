/**
 * The fee terms leg by leg: which row of the card prices which leg, at what fee, what is remarked
 * on, and how far the total can be trusted, in the card's own words.
 */
module ChargeLaws {
  import opened Prelude
  import opened Sequences
  import opened Sums
  import opened Money
  import opened Domain
  import opened Choice
  import opened Fee
  import Gateway
  import Rules
  import TermLaws

  // --------------------------------------------------- the row that prices a leg

  /** Captured, and neither collected in cash nor free of charge. */
  ghost predicate TakesFee(p: Payment) { p.state == LegCaptured && p.instrument != Cod && p.instrument != Free }

  /** A card whose network the platform does not tell. */
  ghost predicate Unnamed(p: Payment) { p.instrument == Card && (p.scheme == None || p.scheme == Some(UnknownScheme)) }

  /** Every column the row fills in agrees with the leg; of an unnamed scheme the row is given the benefit of the doubt. */
  ghost predicate Covers(rule: GatewayRule, p: Payment) {
    && (rule.instrument == None || rule.instrument == Some(p.instrument))
    && (rule.provider == None || rule.provider == p.provider)
    && (Unnamed(p) || rule.scheme == None || rule.scheme == p.scheme)
  }

  /** The first row is the more specific: naming the instrument comes before the scheme, and that before the provider. */
  ghost predicate Finer(a: GatewayRule, b: GatewayRule) {
    || (a.instrument.Some? && b.instrument.None?)
    || (a.instrument.Some? == b.instrument.Some? && a.scheme.Some? && b.scheme.None?)
    || (a.instrument.Some? == b.instrument.Some? && a.scheme.Some? == b.scheme.Some? && a.provider.Some? && b.provider.None?)
  }

  /** The row's own fee on the leg is no more than that. */
  ghost predicate AsksAtMost(rule: GatewayRule, p: Payment, registered: bool, most: int) {
    exists fee :: IsFee(p.amountGross, rule.formula, registered, fee) && fee.cost <= most
  }

  /**
   * The i-th row prices the leg at that fee. It covers the leg and no covering row is finer; of
   * equals the first does, unless the scheme is unnamed: then the dearest, and the first of those.
   */
  ghost predicate Prices(rules: seq<GatewayRule>, p: Payment, registered: bool, i: nat, fee: AppliedFee)
    requires i < |rules|
  {
    && Covers(rules[i], p) && IsFee(p.amountGross, rules[i].formula, registered, fee)
    && (forall j :: 0 <= j < |rules| && Covers(rules[j], p) ==> !Finer(rules[j], rules[i]))
    && (forall j :: 0 <= j < |rules| && j != i && Covers(rules[j], p) && !Finer(rules[i], rules[j]) ==>
          if Unnamed(p) then AsksAtMost(rules[j], p, registered, if j < i then fee.cost - 1 else fee.cost) else i < j)
  }

  /** No row covers the leg. */
  ghost predicate Uncovered(rules: seq<GatewayRule>, p: Payment) { forall r :: r in rules ==> !Covers(r, p) }

  lemma FinerIsHigher(a: GatewayRule, b: GatewayRule)
    ensures Finer(a, b) <==> Gateway.Specificity(a) > Gateway.Specificity(b)
  {
  }

  lemma {:induction false} FilterTwice<T>(p: T -> bool, q: T -> bool, both: T -> bool, xs: seq<T>)
    requires forall x :: both(x) <==> p(x) && q(x)
    ensures Filter(q, Filter(p, xs)) == Filter(both, xs)
  {
    if xs != [] {
      FilterTwice(p, q, both, xs[1..]);
      FilterStep(p, xs);
      FilterStep(both, xs);
      if p(xs[0]) {
        FilterStep(q, [xs[0]] + Filter(p, xs[1..]));
        assert ([xs[0]] + Filter(p, xs[1..]))[1..] == Filter(p, xs[1..]);
      }
    }
  }

  lemma AsksNoMore(rule: GatewayRule, p: Payment, registered: bool, most: int, more: int)
    requires AsksAtMost(rule, p, registered, most) && most <= more
    ensures AsksAtMost(rule, p, registered, more)
  {
  }

  /** None of the first n candidates but the k-th costs more than it, and none before it as much. */
  ghost predicate DearestAt(candidates: seq<GatewayRule>, p: Payment, registered: bool, n: nat, k: nat, cost: int)
    requires n <= |candidates|
  {
    && (forall j :: 0 <= j < n && j < k ==> AsksAtMost(candidates[j], p, registered, cost - 1))
    && (forall j :: k < j < n ==> AsksAtMost(candidates[j], p, registered, cost))
  }

  lemma {:induction false} CostliestPlace(candidates: seq<GatewayRule>, p: Payment, registered: bool, n: nat) returns (k: nat)
    requires 0 < n <= |candidates| && Gateway.Costliest(candidates, p.amountGross, registered, n).Ok?
    ensures k < n && candidates[k] == Gateway.Costliest(candidates, p.amountGross, registered, n).value
    ensures ApplyFee(p.amountGross, candidates[k].formula, registered).Ok? ==>
      DearestAt(candidates, p, registered, n, k, ApplyFee(p.amountGross, candidates[k].formula, registered).value.cost)
  {
    hide ApplyFee, IsFee, AsksAtMost;
    if n == 1 {
      k := 0;
    } else {
      var before := CostliestPlace(candidates, p, registered, n - 1);
      var last := ApplyFee(p.amountGross, candidates[n-1].formula, registered).value.cost;
      var held := ApplyFee(p.amountGross, candidates[before].formula, registered).value.cost;
      AsksItsFee(candidates[n-1], p, registered);
      AsksItsFee(candidates[before], p, registered);
      if last > held {
        k := n - 1;
        forall j | 0 <= j < n - 1 ensures AsksAtMost(candidates[j], p, registered, last - 1) {
          if j != before { AsksNoMore(candidates[j], p, registered, if j < before then held - 1 else held, last - 1); }
          else { AsksNoMore(candidates[j], p, registered, held, last - 1); }
        }
      } else {
        k := before;
        AsksNoMore(candidates[n-1], p, registered, last, held);
      }
    }
  }

  lemma AsksItsFee(rule: GatewayRule, p: Payment, registered: bool)
    requires ApplyFee(p.amountGross, rule.formula, registered).Ok?
    ensures AsksAtMost(rule, p, registered, ApplyFee(p.amountGross, rule.formula, registered).value.cost)
  {
    hide ApplyFee, IsFee;
    FeeIsTheCards(p.amountGross, rule.formula, registered);
  }

  lemma NamedChoice(rules: seq<GatewayRule>, p: Payment, registered: bool)
    returns (i: nat)
    requires !Unnamed(p) && Gateway.BestRule(rules, p, p.scheme).Some?
    requires ApplyFee(p.amountGross, Gateway.BestRule(rules, p, p.scheme).value.formula, registered).Ok?
    ensures i < |rules| && rules[i] == Gateway.BestRule(rules, p, p.scheme).value
    ensures Prices(rules, p, registered, i, ApplyFee(p.amountGross, rules[i].formula, registered).value)
  {
    hide ApplyFee, IsFee, Finer, Gateway.Specificity;
    i := PickPlace(rules, Gateway.Accepts(p, p.scheme), Gateway.Specificity, |rules|);
    FeeIsTheCards(p.amountGross, rules[i].formula, registered);
    forall j | 0 <= j < |rules| && Covers(rules[j], p)
      ensures !Finer(rules[j], rules[i]) && (j < i ==> Finer(rules[i], rules[j]))
    {
      assert Gateway.Accepts(p, p.scheme)(rules[j]);
      FinerIsHigher(rules[j], rules[i]);
      FinerIsHigher(rules[i], rules[j]);
    }
  }

  /** The candidates for an unnamed scheme, where they stand on the card. */
  lemma CandidatePlaces(rules: seq<GatewayRule>, p: Payment) returns (at: seq<nat>)
    requires Unnamed(p)
    ensures var candidates := Gateway.SchemeCandidates(rules, p);
      && (candidates == [] ==> Uncovered(rules, p))
      && |at| == |candidates|
      && (forall k :: 0 <= k < |at| ==> at[k] < |rules| && rules[at[k]] == candidates[k] && Covers(candidates[k], p))
      && (forall k, j :: 0 <= k < |at| && 0 <= j < |rules| && Covers(rules[j], p) ==> !Finer(rules[j], candidates[k]))
      && (forall j, k :: 0 <= j < k < |at| ==> at[j] < at[k])
      && (forall j, k :: 0 <= k < |at| && 0 <= j < |rules| && Covers(rules[j], p) && !Finer(candidates[k], rules[j]) ==> j in at)
  {
    hide Finer, Gateway.Specificity, Filter;
    var eligible := Filter(Gateway.EligibleFor(p), rules);
    assert forall r :: Gateway.EligibleFor(p)(r) <==> Covers(r, p);
    if eligible == [] {
      assert forall r :: r in rules ==> !Covers(r, p);
      at := [];
    } else {
      var top := Gateway.TopSpecificity(eligible);
      Rules.TopIsReached(eligible);
      var both := (r: GatewayRule) => Gateway.EligibleFor(p)(r) && Gateway.AtTier(top)(r);
      FilterTwice(Gateway.EligibleFor(p), Gateway.AtTier(top), both, rules);
      at := FilterPicks(both, rules);
      var candidates := Gateway.SchemeCandidates(rules, p);
      assert candidates == Filter(both, rules);
      forall k, j | 0 <= k < |at| && 0 <= j < |rules| && Covers(rules[j], p)
        ensures !Finer(rules[j], candidates[k]) && (!Finer(candidates[k], rules[j]) ==> j in at)
      {
        FinerIsHigher(rules[j], candidates[k]);
        FinerIsHigher(candidates[k], rules[j]);
        assert rules[j] in eligible;
      }
    }
  }

  lemma UnnamedChoice(rules: seq<GatewayRule>, p: Payment, registered: bool, rule: GatewayRule) returns (i: nat)
    requires Unnamed(p) && Gateway.ChooseRule(rules, p, registered) == Ok(Some(rule))
    requires ApplyFee(p.amountGross, rule.formula, registered).Ok?
    ensures i < |rules| && rules[i] == rule
    ensures Prices(rules, p, registered, i, ApplyFee(p.amountGross, rule.formula, registered).value)
  {
    hide ApplyFee, IsFee, Finer, Gateway.SchemeCandidates, Covers, Gateway.Costliest, AsksAtMost;
    var candidates := Gateway.SchemeCandidates(rules, p);
    var at := CandidatePlaces(rules, p);
    var k := CostliestPlace(candidates, p, registered, |candidates|);
    i := at[k];
    var fee := ApplyFee(p.amountGross, rule.formula, registered).value;
    FeeIsTheCards(p.amountGross, rule.formula, registered);
    forall j | 0 <= j < |rules| && j != i && Covers(rules[j], p) && !Finer(rules[i], rules[j])
      ensures AsksAtMost(rules[j], p, registered, if j < i then fee.cost - 1 else fee.cost)
    {
      var m :| 0 <= m < |at| && at[m] == j;
      assert m < k ==> j < i;
      assert k < m ==> i < j;
    }
  }

  /** What the choice of a row comes to, in the card's words. */
  lemma ChoiceIsRight(rules: seq<GatewayRule>, p: Payment, registered: bool, rule: GatewayRule) returns (i: nat)
    requires Gateway.ChooseRule(rules, p, registered) == Ok(Some(rule))
    requires ApplyFee(p.amountGross, rule.formula, registered).Ok?
    ensures i < |rules| && rules[i] == rule
    ensures Prices(rules, p, registered, i, ApplyFee(p.amountGross, rule.formula, registered).value)
  {
    hide ApplyFee, Prices, Gateway.BestRule;
    if Unnamed(p) { i := UnnamedChoice(rules, p, registered, rule); } else { i := NamedChoice(rules, p, registered); }
  }

  lemma NoChoice(rules: seq<GatewayRule>, p: Payment, registered: bool)
    requires Gateway.ChooseRule(rules, p, registered).Ok?
    ensures Gateway.ChooseRule(rules, p, registered).value.None? <==> Uncovered(rules, p)
  {
    hide ApplyFee, Gateway.Costliest, Finer, Gateway.SchemeCandidates;
    if Unnamed(p) {
      var at := CandidatePlaces(rules, p);
      if Gateway.SchemeCandidates(rules, p) != [] { assert rules[at[0]] in rules && Covers(rules[at[0]], p); }
    } else {
      PickIsBest(rules, Gateway.Accepts(p, p.scheme), Gateway.Specificity);
      assert forall r :: Gateway.Accepts(p, p.scheme)(r) <==> Covers(r, p);
    }
  }

  // -------------------------------------------------------------- leg after leg

  /** The k-th fee is that of the leg at at[k] by the row at used[k]; legs that should be charged and are not, no row covers. */
  ghost predicate ChargedByLeg(rules: seq<GatewayRule>, payments: seq<Payment>, registered: bool, at: seq<nat>, used: seq<nat>,
        fees: seq<AppliedFee>)
  {
    && |at| == |used| == |fees|
    && (forall k :: 0 <= k < |at| ==> 
          at[k] < |payments| && used[k] < |rules| && TakesFee(payments[at[k]])
              && Prices(rules, payments[at[k]], registered, used[k], fees[k]))
    && (forall j, k :: 0 <= j < k < |at| ==> at[j] < at[k])
    && (forall i :: 0 <= i < |payments| && TakesFee(payments[i]) && i !in at ==> Uncovered(rules, payments[i]))
  }

  function Nets(fees: seq<AppliedFee>): seq<int> { seq(|fees|, k requires 0 <= k < |fees| => fees[k].exVat) }
  function Taxes(fees: seq<AppliedFee>): seq<int> { seq(|fees|, k requires 0 <= k < |fees| => fees[k].vat) }
  function Losses(fees: seq<AppliedFee>): seq<int> { seq(|fees|, k requires 0 <= k < |fees| => fees[k].cost) }

  /** Everything captured, in cash or not. */
  function CapturedTotal(payments: seq<Payment>): int {
    if payments == [] then 0
    else (if payments[0].state == LegCaptured then payments[0].amountGross else 0) + CapturedTotal(payments[1..])
  }

  /** The order is called paid and its legs do not add up to it. */
  ghost predicate FallsShort(order: Order) {
    order.paymentState == Paid && CapturedTotal(order.payments) < order.totalIncVat
  }

  lemma {:induction false} CapturedIsSum(payments: seq<Payment>)
    ensures Sum(Gateway.Captured(payments)) == CapturedTotal(payments)
  {
    var held, amount := (p: Payment) => p.state.LegCaptured?, (p: Payment) => p.amountGross;
    assert Gateway.Captured(payments) == Map(amount, Filter(held, payments));
    if payments != [] {
      CapturedIsSum(payments[1..]);
      assert Gateway.Captured(payments[1..]) == Map(amount, Filter(held, payments[1..]));
      FilterStep(held, payments);
      if held(payments[0]) {
        var rest := Filter(held, payments[1..]);
        assert ([payments[0]] + rest)[1..] == rest;
      }
    }
  }

  /** The chosen row, or none. */
  ghost predicate Chosen(rules: seq<GatewayRule>, p: Payment, registered: bool, rule: Option<GatewayRule>) {
    Gateway.ChooseRule(rules, p, registered) == Ok(rule)
  }

  ghost predicate IsGuess(p: Payment, rule: GatewayRule) { Unnamed(p) || rule.formula.source != GatewayStatement }

  ghost predicate Guessed(rules: seq<GatewayRule>, p: Payment, registered: bool) {
    TakesFee(p) && exists rule :: Chosen(rules, p, registered, Some(rule)) && IsGuess(p, rule)
  }

  ghost predicate Defaulted(rules: seq<GatewayRule>, p: Payment, registered: bool) {
    TakesFee(p) && exists rule :: Chosen(rules, p, registered, Some(rule)) && rule.formula.source == DefaultTable
  }

  ghost predicate Missed(rules: seq<GatewayRule>, p: Payment, registered: bool) {
    TakesFee(p) && Chosen(rules, p, registered, None)
  }

  /** What is remarked on a leg. */
  ghost predicate Raises(code: Code, p: Payment, missed: bool, defaulted: bool) {
    TakesFee(p) && match code
      case UnknownPaymentInstrument => p.instrument == UnknownInstrument || p.instrument == OtherInstrument
      case CardSchemeUnknown => Unnamed(p)
      case FeeRuleMissing => missed
      case FeeRuleDefaultUsed => defaulted
      case _ => false
  }

  lemma InParts(a: seq<Diagnostic>, b: seq<Diagnostic>, d: Diagnostic)
    ensures d in a + b <==> d in a || d in b
  {
  }

  /** What pricing a leg adds to the diagnostics, the row being known. */
  function RemarksOn(p: Payment, index: nat, chosen: Option<GatewayRule>): seq<Diagnostic> {
    Gateway.LegDiagnostics(p, index)
    + if chosen.None? then [Diagnostic(FeeRuleMissing, OfPayment(index))]
      else if chosen.value.formula.source.DefaultTable? then [Diagnostic(FeeRuleDefaultUsed, OfPayment(index))] else []
  }

  lemma LegRemarks(p: Payment, index: nat, chosen: Option<GatewayRule>, d: Diagnostic)
    requires TakesFee(p)
    ensures d in RemarksOn(p, index, chosen) <==>
      d.subject == OfPayment(index) && Raises(d.code, p, chosen.None?, chosen.Some?
          && chosen.value.formula.source == DefaultTable)
  {
  }

  lemma LegAdds(g: Gateway.Gathered, rules: seq<GatewayRule>, p: Payment, index: nat, registered: bool)
    requires TakesFee(p) && Gateway.PriceLeg(g, rules, p, index, registered).Ok?
    ensures Gateway.ChooseRule(rules, p, registered).Ok?
    ensures Gateway.PriceLeg(g, rules, p, index, registered).value.diagnostics
         == g.diagnostics + RemarksOn(p, index, Gateway.ChooseRule(rules, p, registered).value)
  {
    hide Gateway.ChooseRule, ApplyFee, Gateway.LegDiagnostics;
  }

  lemma LegRaises(g: Gateway.Gathered, rules: seq<GatewayRule>, p: Payment, index: nat, registered: bool, d: Diagnostic)
    requires Gateway.PriceLeg(g, rules, p, index, registered).Ok?
    ensures d in Gateway.PriceLeg(g, rules, p, index, registered).value.diagnostics <==>
      d in g.diagnostics || (d.subject == OfPayment(index)
          && Raises(d.code, p, Missed(rules, p, registered), Defaulted(rules, p, registered)))
  {
    if TakesFee(p) {
      hide Gateway.PriceLeg, Gateway.ChooseRule, RemarksOn, TakesFee, Raises;
      LegAdds(g, rules, p, index, registered);
      var chosen := Gateway.ChooseRule(rules, p, registered).value;
      LegRemarks(p, index, chosen, d);
      InParts(g.diagnostics, RemarksOn(p, index, chosen), d);
      assert Chosen(rules, p, registered, chosen);
    }
  }

  lemma LegFlags(g: Gateway.Gathered, rules: seq<GatewayRule>, p: Payment, index: nat, registered: bool)
    requires Gateway.PriceLeg(g, rules, p, index, registered).Ok? && (g.worstBasis.Actual? || g.worstBasis.Estimated?)
    ensures var h := Gateway.PriceLeg(g, rules, p, index, registered).value;
      && (h.anyMissing <==> g.anyMissing || Missed(rules, p, registered))
      && h.worstBasis == (if Guessed(rules, p, registered) then Estimated else g.worstBasis)
  {
    hide Gateway.ChooseRule, ApplyFee, Gateway.LegDiagnostics;
    if TakesFee(p) { assert Chosen(rules, p, registered, Gateway.ChooseRule(rules, p, registered).value); }
  }

  lemma {:induction false} WalkFlags(g: Gateway.Gathered, rules: seq<GatewayRule>, payments: seq<Payment>,
        registered: bool, n: nat)
    requires n <= |payments| && Gateway.PriceLegs(g, rules, payments, registered, n).Ok? && g.worstBasis.Actual? && !g.anyMissing
    ensures var h := Gateway.PriceLegs(g, rules, payments, registered, n).value;
      && (h.anyMissing <==> exists i :: 0 <= i < n && Missed(rules, payments[i], registered))
      && h.worstBasis == (if exists i :: 0 <= i < n && Guessed(rules, payments[i], registered) then Estimated else Actual)
  {
    hide Gateway.PriceLeg, Missed, Guessed;
    if n > 0 {
      WalkFlags(g, rules, payments, registered, n - 1);
      LegFlags(Gateway.PriceLegs(g, rules, payments, registered, n - 1).value, rules, payments[n-1], n - 1, registered);
    }
  }

  ghost predicate RaisedAt(rules: seq<GatewayRule>, payments: seq<Payment>, registered: bool, n: nat, d: Diagnostic)
    requires n <= |payments|
  {
    d.subject.OfPayment? && d.subject.index < n && var p := payments[d.subject.index];
      Raises(d.code, p, Missed(rules, p, registered), Defaulted(rules, p, registered))
  }

  lemma {:induction false} WalkRaises(g: Gateway.Gathered, rules: seq<GatewayRule>, payments: seq<Payment>, registered: bool,
        n: nat, d: Diagnostic)
    requires n <= |payments| && Gateway.PriceLegs(g, rules, payments, registered, n).Ok?
    ensures d in Gateway.PriceLegs(g, rules, payments, registered, n).value.diagnostics <==>
      d in g.diagnostics || RaisedAt(rules, payments, registered, n, d)
  {
    hide Gateway.PriceLeg, Missed, Defaulted, Raises;
    if n > 0 {
      WalkRaises(g, rules, payments, registered, n - 1, d);
      LegRaises(Gateway.PriceLegs(g, rules, payments, registered, n - 1).value, rules, payments[n-1], n - 1, registered, d);
    }
  }

  /** A leg among the charged ones that the card prices by guess: the network is untold, or no statement stands behind the row. */
  ghost predicate AnyGuess(rules: seq<GatewayRule>, payments: seq<Payment>, at: seq<nat>, used: seq<nat>)
    requires |at| == |used|
    requires forall k :: 0 <= k < |at| ==> at[k] < |payments| && used[k] < |rules|
  {
    exists k :: 0 <= k < |at| && (Unnamed(payments[at[k]]) || rules[used[k]].formula.source != GatewayStatement)
  }

  ghost predicate AllCharged(payments: seq<Payment>, at: seq<nat>) {
    forall i :: 0 <= i < |payments| && TakesFee(payments[i]) ==> i in at
  }

  ghost predicate TableAt(rules: seq<GatewayRule>, at: seq<nat>, used: seq<nat>, i: nat)
    requires |at| == |used| && forall k :: 0 <= k < |at| ==> used[k] < |rules|
  {
    exists k :: 0 <= k < |at| && at[k] == i && rules[used[k]].formula.source == DefaultTable
  }

  /** The remarks of the term: the order's, and of each leg that takes a fee its own. */
  ghost predicate GatewayRemark(order: Order, rules: seq<GatewayRule>, at: seq<nat>, used: seq<nat>, d: Diagnostic)
    requires |at| == |used| && forall k :: 0 <= k < |at| ==> used[k] < |rules|
  {
    || (d == Diagnostic(PaymentLegsUnderTotal, OfOrder) && FallsShort(order))
    || (d.subject.OfPayment? && d.subject.index < |order.payments|
        && Raises(d.code, order.payments[d.subject.index], d.subject.index !in at, TableAt(rules, at, used, d.subject.index)))
  }

  /** The positions of the charged legs and of the rows the walk chose for them. */
  ghost predicate Placed(rules: seq<GatewayRule>, payments: seq<Payment>, registered: bool, at: seq<nat>, used: seq<nat>) {
    && |at| == |used|
    && (forall k :: 0 <= k < |at| ==>
          at[k] < |payments| && used[k] < |rules| && TakesFee(payments[at[k]])
              && Chosen(rules, payments[at[k]], registered, Some(rules[used[k]])))
    && (forall i :: 0 <= i < |payments| && TakesFee(payments[i]) && i !in at ==> Chosen(rules, payments[i], registered, None))
  }

  lemma PlacedFlags(rules: seq<GatewayRule>, payments: seq<Payment>, registered: bool, at: seq<nat>, used: seq<nat>)
    requires Placed(rules, payments, registered, at, used)
    ensures (exists i :: 0 <= i < |payments| && Missed(rules, payments[i], registered)) <==> !AllCharged(payments, at)
    ensures (exists i :: 0 <= i < |payments| && Guessed(rules, payments[i], registered)) <==> AnyGuess(rules, payments, at, used)
  {
    hide TakesFee, Unnamed;
    forall i | 0 <= i < |payments| && Guessed(rules, payments[i], registered) ensures AnyGuess(rules, payments, at, used) {
      var k :| 0 <= k < |at| && at[k] == i;
      assert Chosen(rules, payments[at[k]], registered, Some(rules[used[k]]));
    }
    if k :| 0 <= k < |at| && (Unnamed(payments[at[k]]) || rules[used[k]].formula.source != GatewayStatement) {
      assert Guessed(rules, payments[at[k]], registered);
    }
    forall i | 0 <= i < |payments| && i in at ensures !Missed(rules, payments[i], registered) {
      var k :| 0 <= k < |at| && at[k] == i;
      assert Chosen(rules, payments[at[k]], registered, Some(rules[used[k]]));
    }
  }

  lemma PlacedRaises(rules: seq<GatewayRule>, payments: seq<Payment>, registered: bool, at: seq<nat>, used: seq<nat>, i: nat)
    requires Placed(rules, payments, registered, at, used) && i < |payments| && TakesFee(payments[i])
    ensures Missed(rules, payments[i], registered) <==> i !in at
    ensures Defaulted(rules, payments[i], registered) <==> TableAt(rules, at, used, i)
  {
    hide TakesFee;
    if i in at {
      var k :| 0 <= k < |at| && at[k] == i;
      assert Chosen(rules, payments[at[k]], registered, Some(rules[used[k]]));
    }
  }

  lemma ChargesInPlace(g: Gateway.Gathered, rules: seq<GatewayRule>, payments: seq<Payment>, registered: bool)
    returns (at: seq<nat>, used: seq<nat>)
    requires Gateway.PriceLegs(g, rules, payments, registered, |payments|).Ok?
    requires g.applied == [] && forall d :: d in g.diagnostics ==> !d.code.FeeRuleMissing?
    ensures Placed(rules, payments, registered, at, used)
    ensures ChargedByLeg(rules, payments, registered, at, used,
        Gateway.PriceLegs(g, rules, payments, registered, |payments|).value.applied)
  {
    hide Gateway.PriceLegs, Prices, Gateway.ChooseRule, ApplyFee, TakesFee, TermLaws.MissingNoted, Uncovered,
      Gateway.Chargeable;
    at := TermLaws.LegsAreAccountedFor(g, rules, payments, registered, |payments|);
    var fees := Gateway.PriceLegs(g, rules, payments, registered, |payments|).value.applied;
    assert forall p :: TakesFee(p) <==> Gateway.Chargeable(p) by { SameLegs(); }
    used := [];
    while |used| < |at|
      invariant |used| <= |at|
      invariant forall k :: 0 <= k < |used| ==> used[k] < |rules| && Prices(rules, payments[at[k]], registered, used[k], fees[k])
      invariant forall k :: 0 <= k < |used| ==> Chosen(rules, payments[at[k]], registered, Some(rules[used[k]]))
    {
      var p := payments[at[|used|]];
      assert TermLaws.PricedBy(rules, p, registered, fees[|used|]);
      var i := ChoiceIsRight(rules, p, registered, Gateway.ChooseRule(rules, p, registered).value.value);
      used := used + [i];
    }
    forall i | 0 <= i < |payments| && TakesFee(payments[i]) && i !in at
      ensures Chosen(rules, payments[i], registered, None) && Uncovered(rules, payments[i])
    {
      assert TermLaws.Unpriced(rules, payments[i], registered);
      NoChoice(rules, payments[i], registered);
    }
  }

  lemma SameLegs()
    ensures forall p :: TakesFee(p) <==> Gateway.Chargeable(p)
  {
  }

  lemma SameSums(fees: seq<AppliedFee>)
    ensures Gateway.ExVats(fees) == Nets(fees) && Gateway.Vats(fees) == Taxes(fees) && Gateway.Costs(fees) == Losses(fees)
  {
  }

  ghost predicate NoFees(payments: seq<Payment>) { forall p :: p in payments ==> !TakesFee(p) }

  /** How far the term can be trusted. */
  ghost predicate GatewayBasis(order: Order, rules: seq<GatewayRule>, at: seq<nat>, used: seq<nat>, basis: TermBasis)
    requires |at| == |used|
    requires forall k :: 0 <= k < |at| ==> at[k] < |order.payments| && used[k] < |rules|
  {
    basis == if FallsShort(order) || !AllCharged(order.payments, at) then Missing
             else if NoFees(order.payments) then NoTerm
             else if AnyGuess(rules, order.payments, at, used) then Estimated else Actual
  }

  lemma StartOf(order: Order, rules: seq<GatewayRule>, registered: bool) returns (start: seq<Diagnostic>)
    requires Gateway.ComputeGatewayFees(order, rules, registered).Ok?
    ensures forall d :: d in start <==> d == Diagnostic(PaymentLegsUnderTotal, OfOrder) && FallsShort(order)
    ensures var c, g := Gateway.ComputeGatewayFees(order, rules, registered).value, Gateway.Gathered([], false, Actual, start);
      var walk := Gateway.PriceLegs(g, rules, order.payments, registered, |order.payments|);
      if NoFees(order.payments) then
        c == Computed(Gateway.GatewayFees(0, 0, 0, if FallsShort(order) then Missing else NoTerm), start)
      else
        && walk.Ok? && c.diagnostics == walk.value.diagnostics
        && c.value.basis == (if walk.value.anyMissing || FallsShort(order) then Missing else walk.value.worstBasis)
        && c.value.exVat == Sum(Nets(walk.value.applied)) && c.value.vat == Sum(Taxes(walk.value.applied))
        && c.value.cost == Sum(Losses(walk.value.applied))
  {
    hide Gateway.PriceLegs, AddMinor, Gateway.Captured, Sum, CapturedTotal, Nets, Taxes, Losses;
    AddMinorIsSum(Gateway.Captured(order.payments));
    CapturedIsSum(order.payments);
    start := if FallsShort(order) then [OnOrder(PaymentLegsUnderTotal)] else [];
    SameLegs();
    if !NoFees(order.payments) {
      var p :| p in order.payments && TakesFee(p);
      var applied := Gateway.PriceLegs(Gateway.Gathered([], false, Actual, start), rules, order.payments, registered,
          |order.payments|).value.applied;
      SameSums(applied);
      AddMinorIsSum(Gateway.ExVats(applied));
      AddMinorIsSum(Gateway.Vats(applied));
      AddMinorIsSum(Gateway.Costs(applied));
    }
  }

  lemma WalkRemarks(order: Order, rules: seq<GatewayRule>, registered: bool, at: seq<nat>, used: seq<nat>,
        start: seq<Diagnostic>, d: Diagnostic)
    requires Placed(rules, order.payments, registered, at, used)
    requires forall d :: d in start <==> d == Diagnostic(PaymentLegsUnderTotal, OfOrder) && FallsShort(order)
    ensures d in start || RaisedAt(rules, order.payments, registered, |order.payments|, d)
        <==> GatewayRemark(order, rules, at, used, d)
  {
    hide FallsShort, Missed, Defaulted, TableAt, Chosen;
    if d.subject.OfPayment? && d.subject.index < |order.payments| && TakesFee(order.payments[d.subject.index]) {
      PlacedRaises(rules, order.payments, registered, at, used, d.subject.index);
    }
  }

  /**
   * The whole gateway term: each leg that takes a fee is charged once, in order, by the row of the
   * card that is right for it and at that row's fee, or no row covers it; the totals are the sums of
   * those fees; the basis says whether anything is missing or guessed; and nothing is remarked but
   * what is so.
   */
  lemma GatewayIsItsLegs(order: Order, rules: seq<GatewayRule>, registered: bool)
    returns (at: seq<nat>, used: seq<nat>, fees: seq<AppliedFee>)
    requires Gateway.ComputeGatewayFees(order, rules, registered).Ok?
    ensures ChargedByLeg(rules, order.payments, registered, at, used, fees)
    ensures var c := Gateway.ComputeGatewayFees(order, rules, registered).value;
      && c.value.exVat == Sum(Nets(fees)) && c.value.vat == Sum(Taxes(fees)) && c.value.cost == Sum(Losses(fees))
      && GatewayBasis(order, rules, at, used, c.value.basis)
      && forall d :: d in c.diagnostics <==> GatewayRemark(order, rules, at, used, d)
  {
    hide Gateway.ComputeGatewayFees, Gateway.PriceLegs, Sum, Prices, RaisedAt, FallsShort, GatewayRemark, TakesFee,
      AnyGuess;
    var start := StartOf(order, rules, registered);
    if NoFees(order.payments) {
      at, used, fees := [], [], [];
      NothingRemarked(order, rules);
    } else {
      var g := Gateway.Gathered([], false, Actual, start);
      at, used := ChargesInPlace(g, rules, order.payments, registered);
      fees := Gateway.PriceLegs(g, rules, order.payments, registered, |order.payments|).value.applied;
      WalkFlags(g, rules, order.payments, registered, |order.payments|);
      PlacedFlags(rules, order.payments, registered, at, used);
      forall d: Diagnostic
        ensures d in start || RaisedAt(rules, order.payments, registered, |order.payments|, d)
            <==> GatewayRemark(order, rules, at, used, d)
        ensures d in Gateway.ComputeGatewayFees(order, rules, registered).value.diagnostics <==>
          d in start || RaisedAt(rules, order.payments, registered, |order.payments|, d)
      {
        WalkRemarks(order, rules, registered, at, used, start, d);
        WalkRaises(g, rules, order.payments, registered, |order.payments|, d);
      }
    }
  }

  lemma NothingRemarked(order: Order, rules: seq<GatewayRule>)
    requires NoFees(order.payments)
    ensures forall d :: GatewayRemark(order, rules, [], [], d) <==> d == Diagnostic(PaymentLegsUnderTotal, OfOrder) && FallsShort(order)
    ensures Sum(Nets([])) == 0 && Sum(Taxes([])) == 0 && Sum(Losses([])) == 0
  {
  }
}
