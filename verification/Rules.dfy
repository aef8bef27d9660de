/** Rate-card rows: their keys, and why the row order of a duplicate-free card cannot matter. */
module Rules {
  import opened Prelude
  import opened Sequences
  import opened Sums
  import opened Money
  import opened Domain
  import opened Choice
  import opened Fee
  import opened Gateway
  import opened Shipping
  import CashOnDelivery

  function InstrumentName(i: Instrument): string {
    match i
    case Card => "card" case Bnpl => "bnpl" case Wallet => "wallet" case Cod => "cod" case BankTransfer => "bank_transfer"
    case Free => "free" case UnknownInstrument => "unknown" case OtherInstrument => "other"
  }

  function SchemeName(s: Scheme): string {
    match s
    case Mada => "mada" case Visa => "visa" case Mastercard => "mastercard" case Amex => "amex" case Unionpay => "unionpay"
    case OtherScheme => "other" case UnknownScheme => "unknown"
  }

  function DirectionName(d: RuleDirection): string {
    match d case ForOutbound => "outbound" case ForReturn => "return" case ForAny => "any"
  }

  function GatewayKey(r: GatewayRule): string {
    (if r.instrument.Some? then InstrumentName(r.instrument.value) else "") + "|"
    + (if r.scheme.Some? then SchemeName(r.scheme.value) else "") + "|" + r.provider.GetOr("")
  }

  function CodKey(r: CodRule): string { r.carrier.GetOr("") }

  function ShippingKey(r: ShippingRule): string {
    r.countryCode.GetOr("") + "|" + r.region.GetOr("") + "|" + r.carrier.GetOr("") + "|" + DirectionName(r.direction)
  }

  function GatewayKeys(rules: seq<GatewayRule>): (r: seq<string>) ensures |r| == |rules| { Map(GatewayKey, rules) }
  function CodKeys(rules: seq<CodRule>): (r: seq<string>) ensures |r| == |rules| { Map(CodKey, rules) }
  function ShippingKeys(rules: seq<ShippingRule>): (r: seq<string>) ensures |r| == |rules| { Map(ShippingKey, rules) }

  lemma DistinctPositions<T>(xs: seq<T>, key: T -> string, x: T, y: T)
    requires Distinct(Map(key, xs)) && x in xs && y in xs && key(x) == key(y)
    ensures x == y
  {
    var i :| 0 <= i < |xs| && xs[i] == x;
    var j :| 0 <= j < |xs| && xs[j] == y;
    assert Map(key, xs)[i] == Map(key, xs)[j];
  }

  // ------------------------------------------------------------------- no ties

  /** Two rows that match one leg equally specifically have the same key. */
  lemma GatewayNoTies(rules: seq<GatewayRule>, payment: Payment, scheme: Option<Scheme>)
    requires Distinct(GatewayKeys(rules))
    ensures NoTies(rules, Accepts(payment, scheme), Specificity)
  {
    forall x, y | x in rules && y in rules && Matches(x, payment, scheme) && Matches(y, payment, scheme)
        && Specificity(x) == Specificity(y)
      ensures x == y
    {
      assert GatewayKey(x) == GatewayKey(y);
      DistinctPositions(rules, GatewayKey, x, y);
    }
  }

  lemma ShippingNoTies(rules: seq<ShippingRule>, order: Order, carrier: Option<string>, direction: RuleDirection)
    requires Distinct(ShippingKeys(rules))
    ensures NoTies(rules, Fits(order, carrier, direction), Score)
  {
    forall x, y | x in rules && y in rules && Fits(order, carrier, direction)(x)
        && Fits(order, carrier, direction)(y) && Score(x) == Score(y)
      ensures x == y
    {
      assert ShippingKey(x) == ShippingKey(y);
      DistinctPositions(rules, ShippingKey, x, y);
    }
  }

  lemma CodNoTies(rules: seq<CodRule>, carrier: Option<string>)
    requires Distinct(CodKeys(rules))
    ensures NoTies(rules, CashOnDelivery.Serves(carrier), CashOnDelivery.CarrierScore)
  {
    forall x, y | x in rules && y in rules && CashOnDelivery.Serves(carrier)(x) && CashOnDelivery.Serves(carrier)(y)
                  && CashOnDelivery.CarrierScore(x) == CashOnDelivery.CarrierScore(y)
      ensures x == y
    {
      assert CodKey(x) == CodKey(y);
      DistinctPositions(rules, CodKey, x, y);
    }
  }

  // ---------------------------------------------------------------- the choice

  /** The chosen gateway rule is the one matching rule more specific than every other, and row order is no matter. */
  lemma BestRuleForgetsOrder(rules: seq<GatewayRule>, others: seq<GatewayRule>, payment: Payment, scheme: Option<Scheme>)
    requires Distinct(GatewayKeys(rules)) && multiset(rules) == multiset(others)
    ensures BestRule(rules, payment, scheme) == BestRule(others, payment, scheme)
    ensures var best := BestRule(rules, payment, scheme);
      && (best.None? <==> forall r :: r in rules ==> !Matches(r, payment, scheme))
      && (best.Some? ==> best.value in rules && Matches(best.value, payment, scheme))
      && (best.Some? ==> forall r :: r in rules && Matches(r, payment, scheme) && r != best.value ==> Specificity(r) < Specificity(best.value))
  {
    GatewayNoTies(rules, payment, scheme);
    PickForgetsOrder(rules, others, Accepts(payment, scheme), Specificity);
    PickIsBest(rules, Accepts(payment, scheme), Specificity);
    var best := BestRule(rules, payment, scheme);
    assert forall r :: Accepts(payment, scheme)(r) <==> Matches(r, payment, scheme);
    if best.Some? {
      forall r | r in rules && Matches(r, payment, scheme) && r != best.value ensures Specificity(r) < Specificity(best.value) {
        assert Accepts(payment, scheme)(r);
      }
    }
  }

  predicate Applies(r: ShippingRule, order: Order, carrier: Option<string>, direction: Direction) {
    GeographyMatches(r, order, carrier) && (r.direction == RuleSide(direction) || r.direction.ForAny?)
  }

  /** r gives way to best: best is written for the direction and r for either, or best is more specific. */
  predicate Yields(r: ShippingRule, best: ShippingRule, direction: Direction) {
    || (best.direction == RuleSide(direction) && r.direction.ForAny?)
    || (best.direction == r.direction && Score(r) < Score(best))
  }

  /**
   * A rule for the direction wins over any rule for either, and within a class the most specific
   * wins; row order is no matter, and none is found exactly when none applies.
   */
  lemma ShippingRuleForgetsOrder(rules: seq<ShippingRule>, others: seq<ShippingRule>, order: Order,
        carrier: Option<string>, direction: Direction)
    requires Distinct(ShippingKeys(rules)) && multiset(rules) == multiset(others)
    ensures MatchShippingRule(rules, order, carrier, direction) == MatchShippingRule(others, order, carrier, direction)
    ensures var best := MatchShippingRule(rules, order, carrier, direction);
      && (best.None? <==> forall r :: r in rules ==> !Applies(r, order, carrier, direction))
      && (best.Some? ==> best.value in rules && Applies(best.value, order, carrier, direction))
      && (best.Some? ==> forall r :: r in rules && Applies(r, order, carrier, direction) && r != best.value ==> Yields(r, best.value, direction))
  {
    hide Pick, Score, GeographyMatches, ShippingKeys, NoTies;
    var side := RuleSide(direction);
    ShippingNoTies(rules, order, carrier, side);
    ShippingNoTies(rules, order, carrier, ForAny);
    PickForgetsOrder(rules, others, Fits(order, carrier, side), Score);
    PickForgetsOrder(rules, others, Fits(order, carrier, ForAny), Score);
    PickIsBest(rules, Fits(order, carrier, side), Score);
    PickIsBest(rules, Fits(order, carrier, ForAny), Score);
    var best := MatchShippingRule(rules, order, carrier, direction);
    assert forall r :: Applies(r, order, carrier, direction) <==> Fits(order, carrier, side)(r) || Fits(order, carrier, ForAny)(r);
    if best.Some? {
      forall r | r in rules && Applies(r, order, carrier, direction) && r != best.value ensures Yields(r, best.value, direction) {
        WinnerYields(rules, order, carrier, direction, best.value, r);
      }
    }
  }

  lemma WinnerYields(rules: seq<ShippingRule>, order: Order, carrier: Option<string>, direction: Direction,
        best: ShippingRule, r: ShippingRule)
    requires NoTies(rules, Fits(order, carrier, r.direction), Score) && r in rules && best in rules && r != best
    requires Fits(order, carrier, best.direction)(best) && Fits(order, carrier, r.direction)(r)
    requires best.direction == RuleSide(direction) || (best.direction.ForAny? && r.direction.ForAny?)
    requires r.direction == RuleSide(direction) || r.direction.ForAny?
    requires r.direction == best.direction ==> Score(r) <= Score(best)
    ensures Yields(r, best, direction)
  {
  }

  /** The carrier's own rule wins over a general one; row order is no matter, and none is found exactly when none serves the carrier. */
  lemma CodRuleForgetsOrder(rules: seq<CodRule>, others: seq<CodRule>, carrier: Option<string>)
    requires Distinct(CodKeys(rules)) && multiset(rules) == multiset(others)
    ensures CashOnDelivery.RuleFor(rules, carrier) == CashOnDelivery.RuleFor(others, carrier)
    ensures var best := CashOnDelivery.RuleFor(rules, carrier);
      && (best.None? <==> forall r :: r in rules ==> r.carrier.Some? && r.carrier != carrier)
      && (best.Some? ==> best.value in rules && (best.value.carrier.None? || best.value.carrier == carrier))
      && (best.Some? ==> forall r :: r in rules && r != best.value && (r.carrier.None? || r.carrier == carrier) ==>
            r.carrier.None? && best.value.carrier.Some?)
  {
    hide Pick, CodKeys;
    CodNoTies(rules, carrier);
    PickForgetsOrder(rules, others, CashOnDelivery.Serves(carrier), CashOnDelivery.CarrierScore);
    PickIsBest(rules, CashOnDelivery.Serves(carrier), CashOnDelivery.CarrierScore);
    var best := CashOnDelivery.RuleFor(rules, carrier);
    assert forall r :: CashOnDelivery.Serves(carrier)(r) <==> r.carrier.None? || r.carrier == carrier;
  }

  // -------------------------------------------------------- an unknown scheme

  lemma {:induction false} TopIsReached(rules: seq<GatewayRule>)
    requires rules != []
    ensures forall r :: r in rules ==> Specificity(r) <= TopSpecificity(rules)
    ensures exists r :: r in rules && Specificity(r) == TopSpecificity(rules)
  {
    if |rules| == 1 {
      assert rules[0] in rules;
    } else {
      TopIsReached(rules[1..]);
      var r :| r in rules[1..] && Specificity(r) == TopSpecificity(rules[1..]);
      assert r in rules && rules[0] in rules;
    }
  }

  /** The candidates are exactly the eligible rules that no eligible rule is more specific than. */
  lemma CandidatesAreTopTier(rules: seq<GatewayRule>, payment: Payment)
    ensures forall r :: r in SchemeCandidates(rules, payment) <==>
      r in rules && Eligible(r, payment) && forall q :: q in rules && Eligible(q, payment) ==> Specificity(q) <= Specificity(r)
  {
    var eligible := Filter(EligibleFor(payment), rules);
    assert forall r :: r in eligible <==> r in rules && Eligible(r, payment);
    if eligible != [] {
      TopIsReached(eligible);
      assert forall r :: r in SchemeCandidates(rules, payment) <==> r in eligible && Specificity(r) == TopSpecificity(eligible);
    }
  }

  /** The priced candidate costs at least as much as every other. */
  lemma {:induction false} CostliestIsMost(candidates: seq<GatewayRule>, amount: int, vatRegistered: bool, n: nat)
    requires 1 < n <= |candidates| && Costliest(candidates, amount, vatRegistered, n).Ok?
    ensures var worst := Costliest(candidates, amount, vatRegistered, n).value;
      && worst in candidates && ApplyFee(amount, worst.formula, vatRegistered).Ok?
      && (forall i :: 0 <= i < n ==> ApplyFee(amount, candidates[i].formula, vatRegistered).Ok?)
      && (forall i :: 0 <= i < n ==>
            ApplyFee(amount, candidates[i].formula, vatRegistered).value.cost <= ApplyFee(amount, worst.formula,
                vatRegistered).value.cost)
  {
    hide ApplyFee;
    if n == 2 {
      assert Costliest(candidates, amount, vatRegistered, 1) == Ok(candidates[0]);
    } else {
      CostliestIsMost(candidates, amount, vatRegistered, n - 1);
    }
  }

  /** An eligible row that no eligible row is more specific than. */
  ghost predicate InTopTier(rules: seq<GatewayRule>, payment: Payment, r: GatewayRule) {
    r in rules && Eligible(r, payment) && forall q :: q in rules && Eligible(q, payment) ==> Specificity(q) <= Specificity(r)
  }

  /** Both rows price the amount, and the first costs at least what the second does. */
  ghost predicate CostsAtLeast(r: GatewayRule, other: GatewayRule, amount: int, vatRegistered: bool) {
    var fee, otherFee := ApplyFee(amount, r.formula, vatRegistered), ApplyFee(amount, other.formula, vatRegistered);
    fee.Ok? && otherFee.Ok? && fee.value.cost >= otherFee.value.cost
  }

  lemma ChosenIsCostliest(rules: seq<GatewayRule>, payment: Payment, vatRegistered: bool, r: GatewayRule)
    requires SchemeUnknown(payment) && ChooseRule(rules, payment, vatRegistered).Ok? && InTopTier(rules, payment, r)
    ensures var chosen := ChooseRule(rules, payment, vatRegistered).value;
      && chosen.Some? && InTopTier(rules, payment, chosen.value)
      && (chosen.value == r || CostsAtLeast(chosen.value, r, payment.amountGross, vatRegistered))
  {
    hide ApplyFee, Costliest;
    CandidatesAreTopTier(rules, payment);
    var candidates := SchemeCandidates(rules, payment);
    assert r in candidates;
    var i :| 0 <= i < |candidates| && candidates[i] == r;
    if |candidates| > 1 {
      CostliestIsMost(candidates, payment.amountGross, vatRegistered, |candidates|);
    } else {
      FirstCandidate(candidates, payment.amountGross, vatRegistered);
    }
  }

  lemma BestIsEligible(rules: seq<GatewayRule>, payment: Payment, scheme: Option<Scheme>)
    requires BestRule(rules, payment, scheme).Some?
    ensures var best := BestRule(rules, payment, scheme).value;
      && best in rules && Matches(best, payment, scheme) && Eligible(best, payment)
      && forall r :: r in rules && Matches(r, payment, scheme) ==> Specificity(r) <= Specificity(best)
  {
    PickIsBest(rules, Accepts(payment, scheme), Specificity);
    assert forall r :: Accepts(payment, scheme)(r) <==> Matches(r, payment, scheme);
  }

  lemma SomeTopTier(rules: seq<GatewayRule>, payment: Payment, r: GatewayRule) returns (top: GatewayRule)
    requires r in rules && Eligible(r, payment)
    ensures InTopTier(rules, payment, top)
  {
    var eligible := Filter(EligibleFor(payment), rules);
    assert r in eligible;
    TopIsReached(eligible);
    top :| top in eligible && Specificity(top) == TopSpecificity(eligible);
  }

  /**
   * Where the rows that matter price the amount, a card whose scheme the platform will not name is
   * charged at least what it would be under a given scheme exactly when some eligible row of the
   * highest specificity costs at least as much as that scheme's own row.
   */
  lemma UnknownSchemeCostsMost(rules: seq<GatewayRule>, payment: Payment, scheme: Option<Scheme>, vatRegistered: bool)
    requires SchemeUnknown(payment) && BestRule(rules, payment, scheme).Some? && ChooseRule(rules, payment, vatRegistered).Ok?
    requires ApplyFee(payment.amountGross, BestRule(rules, payment, scheme).value.formula, vatRegistered).Ok?
    requires var chosen := ChooseRule(rules, payment, vatRegistered).value;
      chosen.Some? ==> ApplyFee(payment.amountGross, chosen.value.formula, vatRegistered).Ok?
    ensures var chosen, best := ChooseRule(rules, payment, vatRegistered).value, BestRule(rules, payment, scheme).value;
      && chosen.Some?
      && (CostsAtLeast(chosen.value, best, payment.amountGross, vatRegistered)
          <==> exists r :: InTopTier(rules, payment, r) && CostsAtLeast(r, best, payment.amountGross, vatRegistered))
  {
    hide ApplyFee, ChooseRule, BestRule, InTopTier;
    BestIsEligible(rules, payment, scheme);
    var best := BestRule(rules, payment, scheme).value;
    var top := SomeTopTier(rules, payment, best);
    ChosenIsCostliest(rules, payment, vatRegistered, top);
    forall r | InTopTier(rules, payment, r) && CostsAtLeast(r, best, payment.amountGross, vatRegistered)
      ensures CostsAtLeast(ChooseRule(rules, payment, vatRegistered).value.value, best, payment.amountGross, vatRegistered)
    {
      ChosenIsCostliest(rules, payment, vatRegistered, r);
    }
  }

  /** The same rows with other formulas. */
  function Repriced(rules: seq<GatewayRule>, prices: seq<FeeFormula>): (r: seq<GatewayRule>)
    requires |prices| == |rules|
    ensures |r| == |rules|
    ensures forall i :: 0 <= i < |rules| ==> r[i] == rules[i].(formula := prices[i])
  {
    seq(|rules|, i requires 0 <= i < |rules| => rules[i].(formula := prices[i]))
  }

  /** If the rows price the amount, an unnamed scheme costs at least what the given one would. */
  ghost predicate PromiseKept(rules: seq<GatewayRule>, payment: Payment, scheme: Option<Scheme>, vatRegistered: bool) {
    (forall r :: r in rules ==> ApplyFee(payment.amountGross, r.formula, vatRegistered).Ok?) ==>
      && BestRule(rules, payment, scheme).Some? && ChooseRule(rules, payment, vatRegistered).Ok?
      && ChooseRule(rules, payment, vatRegistered).value.Some?
      && CostsAtLeast(ChooseRule(rules, payment, vatRegistered).value.value, BestRule(rules, payment, scheme).value,
                      payment.amountGross, vatRegistered)
  }

  ghost predicate ValidPrices(prices: seq<FeeFormula>, rules: seq<GatewayRule>) {
    |prices| == |rules| && forall f :: f in prices ==> FormulaIsValid(f)
  }

  lemma {:induction false} CostliestComputes(candidates: seq<GatewayRule>, amount: int, vatRegistered: bool, n: nat)
    requires 0 < n <= |candidates|
    requires forall r :: r in candidates ==> ApplyFee(amount, r.formula, vatRegistered).Ok?
    ensures Costliest(candidates, amount, vatRegistered, n).Ok?
        && Costliest(candidates, amount, vatRegistered, n).value in candidates
  {
    hide ApplyFee;
    if n == 1 { assert candidates[0] in candidates; } else { CostliestComputes(candidates, amount, vatRegistered, n - 1); }
  }

  lemma ChoiceComputes(rules: seq<GatewayRule>, payment: Payment, vatRegistered: bool)
    requires SchemeUnknown(payment)
    requires forall r :: r in rules ==> ApplyFee(payment.amountGross, r.formula, vatRegistered).Ok?
    ensures ChooseRule(rules, payment, vatRegistered).Ok?
    ensures var chosen := ChooseRule(rules, payment, vatRegistered).value; chosen.Some? ==> chosen.value in rules
  {
    hide ApplyFee, Costliest;
    CandidatesAreTopTier(rules, payment);
    var candidates := SchemeCandidates(rules, payment);
    if candidates != [] { CostliestComputes(candidates, payment.amountGross, vatRegistered, |candidates|); }
  }

  /** Repricing changes neither which rows match nor how specific they are. */
  lemma RepricedRows(rules: seq<GatewayRule>, prices: seq<FeeFormula>, payment: Payment, scheme: Option<Scheme>)
    requires |prices| == |rules| && BestRule(rules, payment, scheme).Some?
    ensures var priced := Repriced(rules, prices);
      && BestRule(priced, payment, scheme).Some?
      && Specificity(BestRule(priced, payment, scheme).value) == Specificity(BestRule(rules, payment, scheme).value)
      && (InTopTier(priced, payment, BestRule(priced, payment, scheme).value)
          <==> InTopTier(rules, payment, BestRule(rules, payment, scheme).value))
  {
    hide BestRule, Specificity, Matches, Eligible, InTopTier, Repriced;
    var priced, best := Repriced(rules, prices), BestRule(rules, payment, scheme).value;
    BestIsEligible(rules, payment, scheme);
    PickIsBest(priced, Accepts(payment, scheme), Specificity);
    BestIsPick(priced, payment, scheme);
    var twin := Twin(rules, prices, payment, scheme, best);
    assert Accepts(payment, scheme)(twin);
    BestIsEligible(priced, payment, scheme);
    var other := Origin(rules, prices, payment, scheme, BestRule(priced, payment, scheme).value);
    TierByHeight(rules, prices, payment, scheme, best, BestRule(priced, payment, scheme).value);
  }

  /** Whether an eligible row is in the top tier is a matter of its specificity. */
  lemma TierByHeight(rules: seq<GatewayRule>, prices: seq<FeeFormula>, payment: Payment, scheme: Option<Scheme>,
        r: GatewayRule, p: GatewayRule)
    requires |prices| == |rules| && Specificity(r) == Specificity(p)
    requires r in rules && Eligible(r, payment) && p in Repriced(rules, prices) && Eligible(p, payment)
    ensures InTopTier(rules, payment, r) <==> InTopTier(Repriced(rules, prices), payment, p)
  {
    hide Specificity, Matches, Eligible, Repriced;
    if InTopTier(rules, payment, r) {
      forall q | q in Repriced(rules, prices) && Eligible(q, payment) ensures Specificity(q) <= Specificity(p) {
        var o := Origin(rules, prices, payment, scheme, q);
      }
    }
    if InTopTier(Repriced(rules, prices), payment, p) {
      forall q | q in rules && Eligible(q, payment) ensures Specificity(q) <= Specificity(r) {
        var t := Twin(rules, prices, payment, scheme, q);
      }
    }
  }

  lemma BestIsPick(rules: seq<GatewayRule>, payment: Payment, scheme: Option<Scheme>)
    ensures BestRule(rules, payment, scheme) == Pick(rules, Accepts(payment, scheme), Specificity)
  {
  }

  lemma Twin(rules: seq<GatewayRule>, prices: seq<FeeFormula>, payment: Payment, scheme: Option<Scheme>, q: GatewayRule)
    returns (p: GatewayRule)
    requires |prices| == |rules| && q in rules
    ensures p in Repriced(rules, prices) && SameRow(q, p, payment, scheme)
  {
    var i :| 0 <= i < |rules| && rules[i] == q;
    p := Repriced(rules, prices)[i];
  }

  lemma Origin(rules: seq<GatewayRule>, prices: seq<FeeFormula>, payment: Payment, scheme: Option<Scheme>, p: GatewayRule)
    returns (q: GatewayRule)
    requires |prices| == |rules| && p in Repriced(rules, prices)
    ensures q in rules && SameRow(q, p, payment, scheme)
  {
    var i :| 0 <= i < |rules| && Repriced(rules, prices)[i] == p;
    q := rules[i];
  }

  ghost predicate SameRow(q: GatewayRule, p: GatewayRule, payment: Payment, scheme: Option<Scheme>) {
    && Specificity(q) == Specificity(p) && (Eligible(q, payment) <==> Eligible(p, payment))
    && (Matches(q, payment, scheme) <==> Matches(p, payment, scheme))
  }

  /** A row below the top tier costs one unit, a row in it nothing. */
  function Adverse(rules: seq<GatewayRule>, below: int): (r: seq<FeeFormula>)
    ensures |r| == |rules|
    ensures forall i :: 0 <= i < |rules| ==>
      r[i] == FeeFormula(0, if Specificity(rules[i]) <= below then 1 else 0, None, None, 0, false, MerchantEntered)
  {
    Map((r: GatewayRule) => FeeFormula(0, if Specificity(r) <= below then 1 else 0, None, None, 0, false, MerchantEntered), rules)
  }

  lemma FixedFee(amount: int, fixed: int, vatRegistered: bool)
    requires 0 <= fixed <= MAX_MINOR
    ensures ApplyFee(amount, FeeFormula(0, fixed, None, None, 0, false, MerchantEntered), vatRegistered)
        == Ok(AppliedFee(fixed, 0, fixed))
  {
    hide AddMinor;
    assert amount * 0 == 0 && fixed * 0 == 0;
    SumOf2(0, fixed);
    AddMinorSucceeds([0, fixed]);
    SumOf2(fixed, 0);
    AddMinorSucceeds([fixed, 0]);
  }

  /** Below the top tier, there are valid prices under which the promise fails. */
  lemma AdverseBreaks(rules: seq<GatewayRule>, payment: Payment, scheme: Option<Scheme>, vatRegistered: bool)
    requires SchemeUnknown(payment) && BestRule(rules, payment, scheme).Some?
    requires !InTopTier(rules, payment, BestRule(rules, payment, scheme).value)
    ensures var prices := Adverse(rules, Specificity(BestRule(rules, payment, scheme).value));
      ValidPrices(prices, rules) && !PromiseKept(Repriced(rules, prices), payment, scheme, vatRegistered)
  {
    hide ApplyFee, BestRule, ChooseRule, InTopTier;
    var below := Specificity(BestRule(rules, payment, scheme).value);
    var prices := Adverse(rules, below);
    var priced := Repriced(rules, prices);
    RepricedRows(rules, prices, payment, scheme);
    FixedFee(payment.amountGross, 0, vatRegistered);
    FixedFee(payment.amountGross, 1, vatRegistered);
    ChoiceComputes(priced, payment, vatRegistered);
    BestIsEligible(priced, payment, scheme);
    var best := BestRule(priced, payment, scheme).value;
    var top := SomeTopTier(priced, payment, best);
    ChosenIsCostliest(priced, payment, vatRegistered, top);
    TopIsAbove(priced, payment, best, ChooseRule(priced, payment, vatRegistered).value.value);
  }

  lemma TopIsAbove(rules: seq<GatewayRule>, payment: Payment, r: GatewayRule, top: GatewayRule)
    requires r in rules && Eligible(r, payment) && !InTopTier(rules, payment, r) && InTopTier(rules, payment, top)
    ensures Specificity(top) > Specificity(r)
  {
  }

  /**
   * Whatever the rows of a card charge, an unnamed scheme costs at least what a given scheme would
   * if and only if that scheme's own row is among the most specific that apply.
   */
  lemma PromiseNeedsTheTopTier(rules: seq<GatewayRule>, payment: Payment, scheme: Option<Scheme>, vatRegistered: bool)
    requires SchemeUnknown(payment) && BestRule(rules, payment, scheme).Some?
    ensures InTopTier(rules, payment, BestRule(rules, payment, scheme).value) <==>
      forall prices :: ValidPrices(prices, rules) ==> PromiseKept(Repriced(rules, prices), payment, scheme, vatRegistered)
  {
    hide ApplyFee, BestRule, ChooseRule, InTopTier, PromiseKept;
    if InTopTier(rules, payment, BestRule(rules, payment, scheme).value) {
      forall prices | ValidPrices(prices, rules) ensures PromiseKept(Repriced(rules, prices), payment, scheme, vatRegistered) {
        RepricedRows(rules, prices, payment, scheme);
        TopTierKeeps(Repriced(rules, prices), payment, scheme, vatRegistered);
      }
    } else {
      AdverseBreaks(rules, payment, scheme, vatRegistered);
    }
  }

  lemma TopTierKeeps(rules: seq<GatewayRule>, payment: Payment, scheme: Option<Scheme>, vatRegistered: bool)
    requires SchemeUnknown(payment) && BestRule(rules, payment, scheme).Some?
    requires InTopTier(rules, payment, BestRule(rules, payment, scheme).value)
    ensures PromiseKept(rules, payment, scheme, vatRegistered)
  {
    hide ApplyFee, BestRule, ChooseRule, InTopTier;
    if forall r :: r in rules ==> ApplyFee(payment.amountGross, r.formula, vatRegistered).Ok? {
      ChoiceComputes(rules, payment, vatRegistered);
      BestIsEligible(rules, payment, scheme);
      ChosenIsCostliest(rules, payment, vatRegistered, BestRule(rules, payment, scheme).value);
    }
  }

  lemma FirstCandidate(candidates: seq<GatewayRule>, amount: int, vatRegistered: bool)
    requires candidates != []
    ensures Costliest(candidates, amount, vatRegistered, 1) == Ok(candidates[0])
  {
  }

  /**
   * Outside the top tier the promise fails: with one card row for Visa at 1% and one for any card
   * at 3%, an unnamed scheme is charged 1% although Amex would have been charged 3%.
   */
  lemma UnknownSchemeCanCostLess()
    ensures var flat := (bps: int) => FeeFormula(bps, 0, None, None, 0, false, MerchantEntered);
      var visa := GatewayRule(flat(100), Some(Card), Some(Visa), None);
      var anyCard := GatewayRule(flat(300), Some(Card), None, None);
      var payment := Payment(Card, None, None, LegCaptured, 10_000);
      && BestRule([visa, anyCard], payment, Some(Amex)) == Some(anyCard)
      && ChooseRule([visa, anyCard], payment, true) == Ok(Some(visa))
      && ApplyFee(10_000, anyCard.formula, true) == Ok(AppliedFee(300, 0, 300))
      && ApplyFee(10_000, visa.formula, true) == Ok(AppliedFee(100, 0, 100))
  {
    var flat := (bps: int) => FeeFormula(bps, 0, None, None, 0, false, MerchantEntered);
    var visa := GatewayRule(flat(100), Some(Card), Some(Visa), None);
    var anyCard := GatewayRule(flat(300), Some(Card), None, None);
    var payment := Payment(Card, None, None, LegCaptured, 10_000);
    var rules := [visa, anyCard];
    PickIsBest(rules, Accepts(payment, Some(Amex)), Specificity);
    CandidatesAreTopTier(rules, payment);
    var candidates := SchemeCandidates(rules, payment);
    assert visa in rules && anyCard in rules;
    assert visa in candidates && anyCard !in candidates;
    FlatFee(10_000, 100);
    FlatFee(10_000, 300);
    OnlyCandidate(candidates, visa, 10_000);
  }

  lemma OnlyCandidate(candidates: seq<GatewayRule>, rule: GatewayRule, amount: int)
    requires rule in candidates && forall c :: c in candidates ==> c == rule
    requires ApplyFee(amount, rule.formula, true).Ok?
    ensures Costliest(candidates, amount, true, |candidates|) == Ok(rule)
  {
    OnlyCandidateUpTo(candidates, rule, amount, |candidates|);
  }

  lemma {:induction false} OnlyCandidateUpTo(candidates: seq<GatewayRule>, rule: GatewayRule, amount: int, n: nat)
    requires 0 < n <= |candidates| && forall c :: c in candidates ==> c == rule
    requires ApplyFee(amount, rule.formula, true).Ok?
    ensures Costliest(candidates, amount, true, n) == Ok(rule)
  {
    hide ApplyFee;
    assert candidates[0] in candidates && candidates[n-1] in candidates;
    if n > 1 { OnlyCandidateUpTo(candidates, rule, amount, n - 1); }
  }

  lemma FlatFee(amount: int, bps: int)
    requires amount == 10_000 && 0 <= bps <= 10_000
    ensures ApplyFee(amount, FeeFormula(bps, 0, None, None, 0, false, MerchantEntered), true) == Ok(AppliedFee(bps, 0, bps))
  {
    hide AddMinor, MulBps;
    FlatRate(bps);
    SumOf2(bps, 0);
    AddMinorSucceeds([bps, 0]);
  }

  lemma FlatRate(bps: int)
    requires 0 <= bps <= 10_000
    ensures MulBps(10_000, bps) == Ok(bps) && MulBps(bps, 0) == Ok(0)
  {
    RateMultiplicationIsSafe(10_000, bps);
    RoundingIsUnique(10_000 * bps, 10_000, bps, MulBps(10_000, bps).value);
    RateMultiplicationIsSafe(bps, 0);
    RoundingIsUnique(0, 10_000, 0, MulBps(bps, 0).value);
  }
}
