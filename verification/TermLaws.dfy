/**
 * What each cost term guarantees: its parts tie, it is never negative on non-negative inputs,
 * and a term that claims to be settled raised nothing but an unknown instrument.
 */
module TermLaws {
  import opened Prelude
  import opened Sequences
  import opened Sums
  import opened Money
  import opened Domain
  import opened Choice
  import opened Confidence
  import opened Fee
  import opened Allocation
  import Allocator
  import NormalizeLaws
  import Gateway
  import Shipping
  import Cod = CashOnDelivery

  /** Diagnostics that leave a term trustworthy. */
  ghost predicate Quiet(ds: seq<Diagnostic>) {
    forall i :: 0 <= i < |ds| ==> ds[i].code.UnknownPaymentInstrument?
  }

  /** A fee whose cost is its net part, plus the VAT a merchant outside VAT cannot reclaim. */
  ghost predicate Priced(fee: AppliedFee, registered: bool, nonNegative: bool) {
    && fee.cost == (if registered then fee.exVat else fee.exVat + fee.vat)
    && (nonNegative ==> fee.exVat >= 0 && fee.vat >= 0 && fee.cost >= 0)
  }

  lemma FeeIsPriced(base: int, f: FeeFormula, registered: bool)
    requires FormulaIsValid(f) && ApplyFee(base, f, registered).Ok?
    ensures Priced(ApplyFee(base, f, registered).value, registered, base >= 0)
  {
    hide FormulaIsValid, WithVat;
    WithVatFacts(Quote(base, f).value, f, registered);
    if base >= 0 { FeeIsNonNegative(base, f, registered); }
  }

  // ------------------------------------------------------------ gateway fees

  ghost predicate ValidGateway(rules: seq<GatewayRule>) { forall r :: r in rules ==> FormulaIsValid(r.formula) }

  lemma {:induction false} CostliestIsCandidate(candidates: seq<GatewayRule>, amount: int, registered: bool, n: nat)
    requires 0 < n <= |candidates| && Gateway.Costliest(candidates, amount, registered, n).Ok?
    ensures Gateway.Costliest(candidates, amount, registered, n).value in candidates
  {
    hide ApplyFee;
    if n > 1 { CostliestIsCandidate(candidates, amount, registered, n - 1); }
  }

  lemma ChosenIsARule(rules: seq<GatewayRule>, payment: Payment, registered: bool)
    requires Gateway.ChooseRule(rules, payment, registered).Ok? && Gateway.ChooseRule(rules, payment, registered).value.Some?
    ensures Gateway.ChooseRule(rules, payment, registered).value.value in rules
  {
    hide Gateway.Costliest, Pick, Gateway.TopSpecificity;
    if Gateway.SchemeUnknown(payment) {
      var candidates := Gateway.SchemeCandidates(rules, payment);
      CostliestIsCandidate(candidates, payment.amountGross, registered, |candidates|);
    } else {
      PickIsBest(rules, Gateway.Accepts(payment, payment.scheme), Gateway.Specificity);
    }
  }

  /** The walk so far: fees are priced, and doubt has left a mark. */
  ghost predicate SoundWalk(g: Gateway.Gathered, registered: bool, nonNegative: bool) {
    && (forall i :: 0 <= i < |g.applied| ==> Priced(g.applied[i], registered, nonNegative))
    && (g.worstBasis.Actual? || g.worstBasis.Estimated?)
  }

  ghost predicate HonestWalk(g: Gateway.Gathered) {
    g.anyMissing || g.worstBasis.Estimated? || Quiet(g.diagnostics)
  }

  lemma LegIsSound(g: Gateway.Gathered, rules: seq<GatewayRule>, payment: Payment, index: nat, registered: bool,
        nonNegative: bool)
    requires ValidGateway(rules) && SoundWalk(g, registered, nonNegative) && (nonNegative ==> payment.amountGross >= 0)
    requires Gateway.PriceLeg(g, rules, payment, index, registered).Ok?
    ensures SoundWalk(Gateway.PriceLeg(g, rules, payment, index, registered).value, registered, nonNegative)
  {
    hide Gateway.ChooseRule, ApplyFee, FormulaIsValid, Gateway.LegDiagnostics;
    if Gateway.Chargeable(payment) {
      var chosen := Gateway.ChooseRule(rules, payment, registered).value;
      if chosen.Some? {
        ChosenIsARule(rules, payment, registered);
        FeeIsPriced(payment.amountGross, chosen.value.formula, registered);
      }
    }
  }

  lemma LegIsHonest(g: Gateway.Gathered, rules: seq<GatewayRule>, payment: Payment, index: nat, registered: bool)
    requires HonestWalk(g) && (g.worstBasis.Actual? || g.worstBasis.Estimated?)
    requires Gateway.PriceLeg(g, rules, payment, index, registered).Ok?
    ensures HonestWalk(Gateway.PriceLeg(g, rules, payment, index, registered).value)
  {
    hide Gateway.ChooseRule, ApplyFee;
  }

  lemma {:induction false} LegsAreSound(g: Gateway.Gathered, rules: seq<GatewayRule>, payments: seq<Payment>,
        registered: bool, nonNegative: bool, n: nat)
    requires n <= |payments| && ValidGateway(rules) && SoundWalk(g, registered, nonNegative)
    requires nonNegative ==> forall p :: p in payments ==> p.amountGross >= 0
    requires Gateway.PriceLegs(g, rules, payments, registered, n).Ok?
    ensures SoundWalk(Gateway.PriceLegs(g, rules, payments, registered, n).value, registered, nonNegative)
  {
    hide Gateway.PriceLeg, SoundWalk, ValidGateway;
    if n > 0 {
      LegsAreSound(g, rules, payments, registered, nonNegative, n - 1);
      LegIsSound(Gateway.PriceLegs(g, rules, payments, registered, n - 1).value, rules, payments[n-1], n - 1,
          registered, nonNegative);
    }
  }

  lemma {:induction false} LegsAreHonest(g: Gateway.Gathered, rules: seq<GatewayRule>, payments: seq<Payment>,
        registered: bool, n: nat)
    requires n <= |payments| && HonestWalk(g) && g.worstBasis.Actual?
    requires Gateway.PriceLegs(g, rules, payments, registered, n).Ok?
    ensures var w := Gateway.PriceLegs(g, rules, payments, registered, n).value;
      HonestWalk(w) && (w.worstBasis.Actual? || w.worstBasis.Estimated?)
  {
    hide Gateway.ChooseRule, ApplyFee, HonestWalk, Gateway.LegDiagnostics;
    if n > 0 {
      LegsAreHonest(g, rules, payments, registered, n - 1);
      LegIsHonest(Gateway.PriceLegs(g, rules, payments, registered, n - 1).value, rules, payments[n-1], n - 1, registered);
    }
  }

  lemma PricedSums(fees: seq<AppliedFee>, registered: bool, nonNegative: bool)
    requires forall i :: 0 <= i < |fees| ==> Priced(fees[i], registered, nonNegative)
    ensures Priced(AppliedFee(Sum(Gateway.ExVats(fees)), Sum(Gateway.Vats(fees)), Sum(Gateway.Costs(fees))),
        registered, nonNegative)
  {
    SumLinear(Gateway.Costs(fees), 1, Gateway.ExVats(fees), if registered then 0 else 1, Gateway.Vats(fees));
    if nonNegative {
      SumNonNegative(Gateway.ExVats(fees));
      SumNonNegative(Gateway.Vats(fees));
      SumNonNegative(Gateway.Costs(fees));
    }
  }

  /** The gateway term: net plus irrecoverable VAT, and never negative on captured amounts that are not. */
  lemma GatewayIsSound(order: Order, rules: seq<GatewayRule>, registered: bool, nonNegative: bool)
    requires ValidGateway(rules) && Gateway.ComputeGatewayFees(order, rules, registered).Ok?
    requires nonNegative ==> forall p :: p in order.payments ==> p.amountGross >= 0
    ensures var g := Gateway.ComputeGatewayFees(order, rules, registered).value.value;
      Priced(AppliedFee(g.exVat, g.vat, g.cost), registered, nonNegative)
  {
    hide Gateway.PriceLegs, AddMinor, Gateway.Captured, ValidGateway;
    if !(forall i :: 0 <= i < |order.payments| ==> !Gateway.Chargeable(order.payments[i])) {
      var captured := AddMinor(Gateway.Captured(order.payments)).value;
      var start := Gateway.Gathered([], false, Actual,
        if order.paymentState.Paid? && captured < order.totalIncVat then [OnOrder(PaymentLegsUnderTotal)] else []);
      LegsAreSound(start, rules, order.payments, registered, nonNegative, |order.payments|);
      var applied := Gateway.PriceLegs(start, rules, order.payments, registered, |order.payments|).value.applied;
      PricedSums(applied, registered, nonNegative);
      AddMinorIsSum(Gateway.ExVats(applied));
      AddMinorIsSum(Gateway.Vats(applied));
      AddMinorIsSum(Gateway.Costs(applied));
    }
  }

  /** A settled gateway term raised nothing but an unknown instrument. */
  lemma GatewayIsHonest(order: Order, rules: seq<GatewayRule>, registered: bool)
    requires Gateway.ComputeGatewayFees(order, rules, registered).Ok?
    ensures var c := Gateway.ComputeGatewayFees(order, rules, registered).value;
      Settled(c.value.basis) ==> Quiet(c.diagnostics)
  {
    hide Gateway.PriceLegs, AddMinor, Gateway.Captured;
    var captured := AddMinor(Gateway.Captured(order.payments)).value;
    if !(order.paymentState.Paid? && captured < order.totalIncVat) {
      if !(forall i :: 0 <= i < |order.payments| ==> !Gateway.Chargeable(order.payments[i])) {
        LegsAreHonest(Gateway.Gathered([], false, Actual, []), rules, order.payments, registered, |order.payments|);
      }
    }
  }

  /** The fee is what the chosen rule charges on the leg. */
  ghost predicate PricedBy(rules: seq<GatewayRule>, payment: Payment, registered: bool, fee: AppliedFee) {
    var chosen := Gateway.ChooseRule(rules, payment, registered);
    chosen.Ok? && chosen.value.Some? && ApplyFee(payment.amountGross, chosen.value.value.formula, registered) == Ok(fee)
  }

  /** A leg that should be priced and that no rule matches. */
  ghost predicate Unpriced(rules: seq<GatewayRule>, payment: Payment, registered: bool) {
    Gateway.Chargeable(payment) && Gateway.ChooseRule(rules, payment, registered) == Ok(None)
  }

  /** The k-th fee is that of the leg at position at[k], and the positions are in order. */
  ghost predicate FeesStandAt(applied: seq<AppliedFee>, at: seq<nat>, rules: seq<GatewayRule>, payments: seq<Payment>,
        registered: bool, n: nat)
    requires n <= |payments|
  {
    && |at| == |applied|
    && (forall k :: 0 <= k < |at| ==> at[k] < n && Gateway.Chargeable(payments[at[k]]) && PricedBy(rules, payments[at[k]], registered, applied[k]))
    && (forall j, k :: 0 <= j < k < |at| ==> at[j] < at[k])
    && (forall i :: 0 <= i < n && Gateway.Chargeable(payments[i]) ==> i in at || Unpriced(rules, payments[i], registered))
  }

  /** Exactly the unpriced legs are remarked on as such, each under its own position. */
  ghost predicate MissingNoted(ds: seq<Diagnostic>, rules: seq<GatewayRule>, payments: seq<Payment>, registered: bool,
        n: nat)
    requires n <= |payments|
  {
    && (forall d :: d in ds && d.code.FeeRuleMissing? ==>
          d.subject.OfPayment? && d.subject.index < n && Unpriced(rules, payments[d.subject.index], registered))
    && (forall i :: 0 <= i < n && Unpriced(rules, payments[i], registered) ==> Diagnostic(FeeRuleMissing, OfPayment(i)) in ds)
  }

  lemma LegIsPriced(g: Gateway.Gathered, rules: seq<GatewayRule>, payment: Payment, index: nat, registered: bool)
    requires Gateway.PriceLeg(g, rules, payment, index, registered).Ok?
    ensures var h := Gateway.PriceLeg(g, rules, payment, index, registered).value;
      && (if Gateway.Chargeable(payment) && !Unpriced(rules, payment, registered)
          then |h.applied| == |g.applied| + 1 && h.applied[..|g.applied|] == g.applied
              && PricedBy(rules, payment, registered, h.applied[|g.applied|])
          else h.applied == g.applied)
      && (forall d: Diagnostic :: d.code.FeeRuleMissing? ==>
            (d in h.diagnostics <==> d in g.diagnostics || (Unpriced(rules, payment, registered) && d == Diagnostic(FeeRuleMissing, OfPayment(index)))))
  {
    hide Gateway.ChooseRule, ApplyFee, Gateway.Chargeable, Gateway.SchemeUnknown;
  }

  /**
   * Every captured leg that has a gateway is priced once, by its own rule and in its own place, or
   * remarked on as having none; no other leg is either.
   */
  lemma {:induction false} LegsAreAccountedFor(g: Gateway.Gathered, rules: seq<GatewayRule>, payments: seq<Payment>,
        registered: bool, n: nat) returns (at: seq<nat>)
    requires n <= |payments| && Gateway.PriceLegs(g, rules, payments, registered, n).Ok?
    requires g.applied == [] && forall d :: d in g.diagnostics ==> !d.code.FeeRuleMissing?
    ensures var h := Gateway.PriceLegs(g, rules, payments, registered, n).value;
      FeesStandAt(h.applied, at, rules, payments, registered, n) && MissingNoted(h.diagnostics, rules, payments, registered, n)
  {
    hide Gateway.PriceLeg, Gateway.Chargeable, PricedBy, Unpriced;
    if n == 0 {
      at := [];
    } else {
      at := LegsAreAccountedFor(g, rules, payments, registered, n - 1);
      var before := Gateway.PriceLegs(g, rules, payments, registered, n - 1).value;
      LegIsPriced(before, rules, payments[n-1], n - 1, registered);
      var after := Gateway.PriceLegs(g, rules, payments, registered, n).value;
      NoteStays(before.diagnostics, after.diagnostics, rules, payments, registered, n);
      if Gateway.Chargeable(payments[n-1]) && !Unpriced(rules, payments[n-1], registered) {
        PlaceStays(before.applied, after.applied, at, rules, payments, registered, n);
        at := at + [n - 1];
      }
    }
  }

  lemma PlaceStays(before: seq<AppliedFee>, after: seq<AppliedFee>, at: seq<nat>, rules: seq<GatewayRule>,
        payments: seq<Payment>,
        registered: bool, n: nat)
    requires 0 < n <= |payments| && FeesStandAt(before, at, rules, payments, registered, n - 1)
    requires |after| == |before| + 1 && after[..|before|] == before && PricedBy(rules, payments[n-1], registered, after[|before|])
    requires Gateway.Chargeable(payments[n-1])
    ensures FeesStandAt(after, at + [n - 1], rules, payments, registered, n)
  {
    hide PricedBy, Unpriced, Gateway.Chargeable;
    var now := at + [n - 1];
    forall k | 0 <= k < |now| ensures now[k] < n && Gateway.Chargeable(payments[now[k]])
        && PricedBy(rules, payments[now[k]], registered, after[k]) {
      if k < |before| { assert after[k] == after[..|before|][k]; }
    }
    forall i | 0 <= i < n && Gateway.Chargeable(payments[i]) ensures i in now || Unpriced(rules, payments[i], registered) {
      assert now[|at|] == n - 1 && forall k :: 0 <= k < |at| ==> now[k] == at[k];
    }
  }

  lemma NoteStays(before: seq<Diagnostic>, after: seq<Diagnostic>, rules: seq<GatewayRule>, payments: seq<Payment>,
        registered: bool, n: nat)
    requires 0 < n <= |payments| && MissingNoted(before, rules, payments, registered, n - 1)
    requires forall d: Diagnostic :: d.code.FeeRuleMissing? ==>
      (d in after <==> d in before || (Unpriced(rules, payments[n-1], registered) && d == Diagnostic(FeeRuleMissing, OfPayment(n - 1))))
    ensures MissingNoted(after, rules, payments, registered, n)
  {
    hide Unpriced;
  }

  // --------------------------------------------------------- cash on delivery

  ghost predicate ValidCod(rules: seq<CodRule>) { forall r :: r in rules ==> FormulaIsValid(r.formula) }

  ghost predicate SoundCharges(c: Cod.Charged, registered: bool, nonNegative: bool) {
    forall i :: 0 <= i < |c.applied| ==> Priced(c.applied[i].fee, registered, nonNegative)
  }

  /** Doubt has left a mark on some charge. */
  ghost predicate HonestCharges(c: Cod.Charged) {
    c.diagnostics == [] || exists i :: 0 <= i < |c.applied| && !c.applied[i].basis.Actual?
  }

  lemma PortionIsSound(c: Cod.Charged, rules: seq<CodRule>, carriers: seq<string>, portion: Cod.Portion, index: nat,
        registered: bool, nonNegative: bool)
    requires ValidCod(rules) && SoundCharges(c, registered, nonNegative) && (nonNegative ==> portion.amount >= 0)
    requires Cod.ChargePortion(c, rules, carriers, portion, index, registered).Ok?
    ensures SoundCharges(Cod.ChargePortion(c, rules, carriers, portion, index, registered).value, registered, nonNegative)
  {
    hide ApplyFee, FormulaIsValid, Pick;
    var carrier := if carriers == [] then None else Some(portion.carrier);
    PickIsBest(rules, Cod.Serves(carrier), Cod.CarrierScore);
    var rule := Cod.RuleFor(rules, carrier);
    if rule.Some? { FeeIsPriced(portion.amount, rule.value.formula, registered); }
  }

  lemma PortionIsHonest(c: Cod.Charged, rules: seq<CodRule>, carriers: seq<string>, portion: Cod.Portion, index: nat,
        registered: bool)
    requires HonestCharges(c) && Cod.ChargePortion(c, rules, carriers, portion, index, registered).Ok?
    ensures HonestCharges(Cod.ChargePortion(c, rules, carriers, portion, index, registered).value)
  {
    hide ApplyFee, Cod.RuleFor;
    var d := Cod.ChargePortion(c, rules, carriers, portion, index, registered).value;
    var last := d.applied[|c.applied|];
    if c.diagnostics != [] {
      var i :| 0 <= i < |c.applied| && !c.applied[i].basis.Actual?;
      assert d.applied[i] == c.applied[i];
    } else if d.diagnostics != [] {
      assert !last.basis.Actual?;
    }
  }

  lemma {:induction false} PortionsAreSound(c: Cod.Charged, rules: seq<CodRule>, carriers: seq<string>,
        portions: seq<Cod.Portion>, index: nat, registered: bool, nonNegative: bool, n: nat)
    requires n <= |portions| && ValidCod(rules) && SoundCharges(c, registered, nonNegative)
    requires nonNegative ==> forall i :: 0 <= i < |portions| ==> portions[i].amount >= 0
    requires Cod.ChargePortions(c, rules, carriers, portions, index, registered, n).Ok?
    ensures SoundCharges(Cod.ChargePortions(c, rules, carriers, portions, index, registered, n).value, registered, nonNegative)
  {
    hide Cod.ChargePortion, ValidCod, SoundCharges;
    if n > 0 {
      PortionsAreSound(c, rules, carriers, portions, index, registered, nonNegative, n - 1);
      PortionIsSound(Cod.ChargePortions(c, rules, carriers, portions, index, registered, n - 1).value, rules,
          carriers, portions[n-1], index, registered, nonNegative);
    }
  }

  lemma {:induction false} PortionsAreHonest(c: Cod.Charged, rules: seq<CodRule>, carriers: seq<string>,
        portions: seq<Cod.Portion>, index: nat, registered: bool, n: nat)
    requires n <= |portions| && HonestCharges(c) && Cod.ChargePortions(c, rules, carriers, portions, index, registered, n).Ok?
    ensures HonestCharges(Cod.ChargePortions(c, rules, carriers, portions, index, registered, n).value)
  {
    hide Cod.ChargePortion, HonestCharges;
    if n > 0 {
      PortionsAreHonest(c, rules, carriers, portions, index, registered, n - 1);
      PortionIsHonest(Cod.ChargePortions(c, rules, carriers, portions, index, registered, n - 1).value, rules,
          carriers, portions[n-1], index, registered);
    }
  }

  function PortionAmounts(portions: seq<Cod.Portion>): (r: seq<int>)
    ensures |r| == |portions|
    ensures forall i :: 0 <= i < |portions| ==> r[i] == portions[i].amount
  {
    Map((p: Cod.Portion) => p.amount, portions)
  }

  /** Splitting a cash leg between carriers conserves it, and leaves no part negative when it is not. */
  lemma PortionsSplit(amount: int, carriers: seq<string>)
    requires Cod.PortionsOf(amount, carriers).Ok?
    ensures var portions := Cod.PortionsOf(amount, carriers).value;
      && Sum(PortionAmounts(portions)) == amount
      && (|carriers| > 1 ==> |portions| == |carriers|)
      && (amount >= 0 ==> forall i :: 0 <= i < |portions| ==> portions[i].amount >= 0)
  {
    hide Allocate, Sum, Along, Keys;
    var portions := Cod.PortionsOf(amount, carriers).value;
    if |carriers| > 1 {
      ManyPortions(amount, carriers);
    } else {
      SumOfOne(amount);
      assert PortionAmounts(portions) == [amount];
    }
  }

  lemma EvenKeys(carriers: seq<string>)
    ensures Keys(Cod.EvenBuckets(carriers)) == carriers
  {
  }

  lemma ManyPortions(amount: int, carriers: seq<string>)
    requires |carriers| > 1 && Cod.PortionsOf(amount, carriers).Ok?
    ensures var portions := Cod.PortionsOf(amount, carriers).value;
      && |portions| == |carriers| && Sum(PortionAmounts(portions)) == amount
      && (amount >= 0 ==> forall i :: 0 <= i < |portions| ==> portions[i].amount >= 0)
  {
    hide Allocate, Sum, Keys, Cod.EvenBuckets;
    var portions, buckets := Cod.PortionsOf(amount, carriers).value, Cod.EvenBuckets(carriers);
    var shares := Allocate(amount, buckets).value;
    Allocator.AllocateHolds(amount, buckets);
    EvenKeys(carriers);
    assert forall i :: 0 <= i < |carriers| ==> portions[i].amount == Get(shares, carriers[i]);
    assert PortionAmounts(portions) == Along(shares, carriers);
    forall i | 0 <= i < |carriers| && amount >= 0 ensures portions[i].amount >= 0 {
      if carriers[i] in shares { Allocator.AllocateSigns(amount, buckets, carriers[i]); }
    }
  }

  lemma SumOfOne(x: int)
    ensures Sum([x]) == x
  {
    SumSnoc([], x);
    assert [] + [x] == [x];
  }

  lemma {:induction false} CashLegsAreSound(rules: seq<CodRule>, carriers: seq<string>, payments: seq<Payment>,
        registered: bool, nonNegative: bool, n: nat)
    requires n <= |payments| && ValidCod(rules) && (nonNegative ==> forall p :: p in payments ==> p.amountGross >= 0)
    requires Cod.ChargeLegs(rules, carriers, payments, registered, n).Ok?
    ensures SoundCharges(Cod.ChargeLegs(rules, carriers, payments, registered, n).value, registered, nonNegative)
  {
    hide Cod.ChargePortions, Cod.PortionsOf, ValidCod;
    if n > 0 {
      CashLegsAreSound(rules, carriers, payments, registered, nonNegative, n - 1);
      if Cod.IsCashLeg(payments[n-1]) {
        var portions := Cod.PortionsOf(payments[n-1].amountGross, carriers).value;
        if nonNegative { PortionsSplit(payments[n-1].amountGross, carriers); }
        PortionsAreSound(Cod.ChargeLegs(rules, carriers, payments, registered, n - 1).value, rules, carriers,
            portions, n - 1, registered, nonNegative, |portions|);
      }
    }
  }

  lemma {:induction false} CashLegsAreHonest(rules: seq<CodRule>, carriers: seq<string>, payments: seq<Payment>,
        registered: bool, n: nat)
    requires n <= |payments| && Cod.ChargeLegs(rules, carriers, payments, registered, n).Ok?
    ensures HonestCharges(Cod.ChargeLegs(rules, carriers, payments, registered, n).value)
  {
    hide Cod.ChargePortions, Cod.PortionsOf;
    if n > 0 {
      CashLegsAreHonest(rules, carriers, payments, registered, n - 1);
      if Cod.IsCashLeg(payments[n-1]) {
        var portions := Cod.PortionsOf(payments[n-1].amountGross, carriers).value;
        PortionsAreHonest(Cod.ChargeLegs(rules, carriers, payments, registered, n - 1).value, rules, carriers,
            portions, n - 1, registered, |portions|);
      }
    }
  }

  function Fees(cs: seq<Cod.Charge>): (r: seq<AppliedFee>)
    ensures |r| == |cs|
    ensures forall i :: 0 <= i < |cs| ==> r[i] == cs[i].fee
  {
    Map((c: Cod.Charge) => c.fee, cs)
  }

  lemma ChargesSum(applied: seq<Cod.Charge>, registered: bool, nonNegative: bool)
    requires forall i :: 0 <= i < |applied| ==> Priced(applied[i].fee, registered, nonNegative)
    ensures Priced(AppliedFee(Sum(Cod.ExVats(applied)), Sum(Cod.Vats(applied)), Sum(Cod.Costs(applied))), registered, nonNegative)
  {
    hide Priced, Sum;
    var fees := Fees(applied);
    assert Gateway.ExVats(fees) == Cod.ExVats(applied) && Gateway.Vats(fees) == Cod.Vats(applied)
        && Gateway.Costs(fees) == Cod.Costs(applied);
    PricedSums(fees, registered, nonNegative);
  }

  /** The cash-on-delivery term: net plus irrecoverable VAT, and never negative on cash that is not. */
  lemma CodIsSound(order: Order, shipments: seq<Shipment>, rules: seq<CodRule>, registered: bool, nonNegative: bool)
    requires ValidCod(rules) && Cod.ComputeCodCost(order, shipments, rules, registered).Ok?
    requires nonNegative ==> forall p :: p in order.payments ==> p.amountGross >= 0
    ensures var c := Cod.ComputeCodCost(order, shipments, rules, registered).value.value;
      Priced(AppliedFee(c.exVat, c.vat, c.cost), registered, nonNegative)
  {
    hide Cod.ChargeLegs, AddMinor, Cod.Carriers, ValidCod;
    if !(forall i :: 0 <= i < |order.payments| ==> !Cod.IsCashLeg(order.payments[i])) {
      CashLegsAreSound(rules, Cod.Carriers(shipments), order.payments, registered, nonNegative, |order.payments|);
      var applied := Cod.ChargeLegs(rules, Cod.Carriers(shipments), order.payments, registered, |order.payments|).value.applied;
      ChargesSum(applied, registered, nonNegative);
      AddMinorIsSum(Cod.ExVats(applied));
      AddMinorIsSum(Cod.Vats(applied));
      AddMinorIsSum(Cod.Costs(applied));
    }
  }

  lemma WorstBasisIsWorst(applied: seq<Cod.Charge>)
    requires Settled(Cod.WorstBasis(applied))
    requires forall i :: 0 <= i < |applied| ==> !applied[i].basis.NoTerm?
    ensures forall i :: 0 <= i < |applied| ==> applied[i].basis.Actual?
  {
    forall i | 0 <= i < |applied| ensures applied[i].basis.Actual? {
      assert applied[i].basis.Missing? || applied[i].basis.Estimated? || applied[i].basis.Actual?;
    }
  }

  ghost predicate AllTerms(applied: seq<Cod.Charge>) { forall i :: 0 <= i < |applied| ==> !applied[i].basis.NoTerm? }

  lemma {:induction false} PortionsAreTerms(c: Cod.Charged, rules: seq<CodRule>, carriers: seq<string>,
        portions: seq<Cod.Portion>, index: nat, registered: bool, n: nat)
    requires n <= |portions| && AllTerms(c.applied) && Cod.ChargePortions(c, rules, carriers, portions, index, registered, n).Ok?
    ensures AllTerms(Cod.ChargePortions(c, rules, carriers, portions, index, registered, n).value.applied)
  {
    hide ApplyFee, Cod.RuleFor;
    if n > 0 { PortionsAreTerms(c, rules, carriers, portions, index, registered, n - 1); }
  }

  lemma {:induction false} CashLegsAreTerms(rules: seq<CodRule>, carriers: seq<string>, payments: seq<Payment>,
        registered: bool, n: nat)
    requires n <= |payments| && Cod.ChargeLegs(rules, carriers, payments, registered, n).Ok?
    ensures AllTerms(Cod.ChargeLegs(rules, carriers, payments, registered, n).value.applied)
  {
    hide Cod.ChargePortions, Cod.PortionsOf;
    if n > 0 {
      CashLegsAreTerms(rules, carriers, payments, registered, n - 1);
      if Cod.IsCashLeg(payments[n-1]) {
        var portions := Cod.PortionsOf(payments[n-1].amountGross, carriers).value;
        PortionsAreTerms(Cod.ChargeLegs(rules, carriers, payments, registered, n - 1).value, rules, carriers,
            portions, n - 1, registered, |portions|);
      }
    }
  }

  /** A settled cash-on-delivery term raised nothing. */
  lemma CodIsHonest(order: Order, shipments: seq<Shipment>, rules: seq<CodRule>, registered: bool)
    requires Cod.ComputeCodCost(order, shipments, rules, registered).Ok?
    ensures var c := Cod.ComputeCodCost(order, shipments, rules, registered).value;
      Settled(c.value.basis) ==> c.diagnostics == []
  {
    hide Cod.ChargeLegs, AddMinor, Cod.Carriers;
    if !(forall i :: 0 <= i < |order.payments| ==> !Cod.IsCashLeg(order.payments[i])) {
      var carriers := Cod.Carriers(shipments);
      CashLegsAreHonest(rules, carriers, order.payments, registered, |order.payments|);
      CashLegsAreTerms(rules, carriers, order.payments, registered, |order.payments|);
      var applied := Cod.ChargeLegs(rules, carriers, order.payments, registered, |order.payments|).value.applied;
      if Settled(Cod.WorstBasis(applied)) { WorstBasisIsWorst(applied); }
    }
  }

  // ----------------------------------------------------------------- shipping

  ghost predicate ValidFallback(rules: seq<ShippingRule>) { forall r :: r in rules ==> r.cost >= 0 }

  lemma MatchIsARule(rules: seq<ShippingRule>, order: Order, carrier: Option<string>, direction: Direction)
    ensures var r := Shipping.MatchShippingRule(rules, order, carrier, direction); r.Some? ==> r.value in rules
  {
    hide Pick;
    PickIsBest(rules, Shipping.Fits(order, carrier, Shipping.RuleSide(direction)), Shipping.Score);
    PickIsBest(rules, Shipping.Fits(order, carrier, ForAny), Shipping.Score);
  }

  /** The parcels so far: none is negative, and doubt has left a mark. */
  ghost predicate SoundParcels(p: Shipping.Packed) {
    forall i :: 0 <= i < |p.parcels| ==> p.parcels[i].cost >= 0
  }

  lemma {:induction false} LegsPackSoundly(legs: seq<Shipment>, order: Order, rules: seq<ShippingRule>,
        direction: Direction, n: nat)
    requires n <= |legs| && ValidFallback(rules)
    requires forall s :: s in legs && s.carrierCost.Some? ==> s.carrierCost.value >= 0
    ensures SoundParcels(Shipping.PackLegs(legs, order, rules, direction, n))
  {
    hide Shipping.MatchShippingRule;
    if n > 0 {
      LegsPackSoundly(legs, order, rules, direction, n - 1);
      MatchIsARule(rules, order, Some(legs[n-1].carrier), direction);
      assert legs[n-1] in legs;
    }
  }

  lemma {:induction false} LegsPackHonestly(legs: seq<Shipment>, order: Order, rules: seq<ShippingRule>,
        direction: Direction, n: nat)
    requires n <= |legs|
    ensures var p := Shipping.PackLegs(legs, order, rules, direction, n); p.anyMissing || p.anyEstimated || p.diagnostics == []
  {
    hide Shipping.MatchShippingRule;
    if n > 0 { LegsPackHonestly(legs, order, rules, direction, n - 1); }
  }

  /** A shipping term is the sum of its parcels whenever it has any. */
  lemma ShippingTies(order: Order, shipments: seq<Shipment>, rules: seq<ShippingRule>, direction: Direction)
    requires Shipping.ComputeShippingCost(order, shipments, rules, direction).Ok?
    ensures var leg := Shipping.ComputeShippingCost(order, shipments, rules, direction).value.value;
      leg.parcels != [] ==> leg.cost == Sum(Shipping.ParcelCosts(leg.parcels))
  {
    hide Shipping.PackLegs, Shipping.MatchShippingRule, AddMinor, Shipping.LegsOf, Sum;
    var legs := Shipping.LegsOf(shipments, direction);
    if legs != [] { AddMinorIsSum(Shipping.ParcelCosts(Shipping.PackLegs(legs, order, rules, direction, |legs|).parcels)); }
  }

  /** No parcel, and so no shipping term, is negative when no courier charge is. */
  lemma ShippingIsNonNegative(order: Order, shipments: seq<Shipment>, rules: seq<ShippingRule>, direction: Direction)
    requires ValidFallback(rules) && Shipping.ComputeShippingCost(order, shipments, rules, direction).Ok?
    requires forall s :: s in shipments && s.carrierCost.Some? ==> s.carrierCost.value >= 0
    ensures var leg := Shipping.ComputeShippingCost(order, shipments, rules, direction).value.value;
      leg.cost >= 0 && forall i :: 0 <= i < |leg.parcels| ==> leg.parcels[i].cost >= 0
  {
    hide Shipping.PackLegs, Shipping.MatchShippingRule, AddMinor, Sum;
    var legs := Shipping.LegsOf(shipments, direction);
    if legs == [] {
      MatchIsARule(rules, order, None, direction);
    } else {
      var parcels := Shipping.PackLegs(legs, order, rules, direction, |legs|).parcels;
      LegsPackSoundly(legs, order, rules, direction, |legs|);
      ParcelsNonNegative(parcels);
      AddMinorIsSum(Shipping.ParcelCosts(parcels));
    }
  }

  lemma ParcelsNonNegative(parcels: seq<Shipping.Parcel>)
    requires forall i :: 0 <= i < |parcels| ==> parcels[i].cost >= 0
    ensures Sum(Shipping.ParcelCosts(parcels)) >= 0
  {
    SumNonNegative(Shipping.ParcelCosts(parcels));
  }

  // ------------------------------------------------------- recorded charges

  /** What the courier recorded for each leg; nothing recorded counts zero. */
  function ChargesOf(legs: seq<Shipment>): (r: seq<int>)
    ensures |r| == |legs|
    ensures forall i :: 0 <= i < |legs| ==> r[i] == legs[i].carrierCost.GetOr(0)
  {
    Map((s: Shipment) => s.carrierCost.GetOr(0), legs)
  }

  /** The recorded charges of the live legs in one direction. */
  function Charged(shipments: seq<Shipment>, direction: Direction): int {
    Sum(ChargesOf(Shipping.LegsOf(shipments, direction)))
  }

  /** The recorded charges of all live legs. */
  function LiveCharges(shipments: seq<Shipment>): int { Charged(shipments, Outbound) + Charged(shipments, Return) }

  lemma ChargedForgetsOrder(xs: seq<Shipment>, ys: seq<Shipment>, direction: Direction)
    requires multiset(xs) == multiset(ys)
    ensures Charged(xs, direction) == Charged(ys, direction)
  {
    var live, f := (s: Shipment) => s.direction == direction && Live(s.status), (s: Shipment) => s.carrierCost.GetOr(0);
    assert Shipping.LegsOf(xs, direction) == Filter(live, xs) && Shipping.LegsOf(ys, direction) == Filter(live, ys);
    NormalizeLaws.FilterPermutes(live, xs, ys);
    MapPermutes(f, Filter(live, xs), Filter(live, ys));
    assert ChargesOf(Filter(live, xs)) == Map(f, Filter(live, xs)) && ChargesOf(Filter(live, ys)) == Map(f, Filter(live, ys));
    SumForgetsOrder(Map(f, Filter(live, xs)), Map(f, Filter(live, ys)));
  }

  lemma ChargesCount(shipments: seq<Shipment>, direction: Direction)
    requires forall s :: s in shipments && s.carrierCost.Some? ==> s.carrierCost.value >= 0
    ensures Charged(shipments, direction) >= 0
  {
    var legs := Shipping.LegsOf(shipments, direction);
    forall i | 0 <= i < |legs| ensures ChargesOf(legs)[i] >= 0 { assert legs[i] in legs; }
    SumNonNegative(ChargesOf(legs));
  }

  lemma PackAdds(p: Shipping.Packed, leg: Shipment, order: Order, rules: seq<ShippingRule>, direction: Direction)
    requires ValidFallback(rules)
    ensures Sum(Shipping.ParcelCosts(Shipping.PackLeg(p, leg, order, rules, direction).parcels))
      >= Sum(Shipping.ParcelCosts(p.parcels)) + leg.carrierCost.GetOr(0)
  {
    hide Shipping.MatchShippingRule;
    MatchIsARule(rules, order, Some(leg.carrier), direction);
    var after := Shipping.PackLeg(p, leg, order, rules, direction).parcels;
    if after != p.parcels {
      var parcel := after[|p.parcels|];
      assert Shipping.ParcelCosts(after) == Shipping.ParcelCosts(p.parcels) + [parcel.cost];
      SumSnoc(Shipping.ParcelCosts(p.parcels), parcel.cost);
    }
  }

  lemma {:induction false} PackCovers(legs: seq<Shipment>, order: Order, rules: seq<ShippingRule>,
        direction: Direction, n: nat)
    requires n <= |legs| && ValidFallback(rules)
    ensures Sum(Shipping.ParcelCosts(Shipping.PackLegs(legs, order, rules, direction, n).parcels)) >= Sum(ChargesOf(legs)[..n])
  {
    hide Shipping.PackLeg, ValidFallback;
    if n > 0 {
      PackCovers(legs, order, rules, direction, n - 1);
      PackAdds(Shipping.PackLegs(legs, order, rules, direction, n - 1), legs[n-1], order, rules, direction);
      SumTake(ChargesOf(legs), n - 1);
    }
  }

  /** With no negative rate on the card, a shipping term costs at least what its legs recorded. */
  lemma ShippingCovers(order: Order, shipments: seq<Shipment>, rules: seq<ShippingRule>, direction: Direction)
    requires ValidFallback(rules) && Shipping.ComputeShippingCost(order, shipments, rules, direction).Ok?
    ensures Shipping.ComputeShippingCost(order, shipments, rules, direction).value.value.cost >= Charged(shipments, direction)
  {
    hide Shipping.PackLegs, Shipping.MatchShippingRule, AddMinor, Sum, Shipping.LegsOf, ChargesOf;
    var legs := Shipping.LegsOf(shipments, direction);
    assert ChargesOf(legs)[..|legs|] == ChargesOf(legs);
    if legs == [] {
      MatchIsARule(rules, order, None, direction);
      NothingCharged(legs);
    } else {
      PackCovers(legs, order, rules, direction, |legs|);
      AddMinorIsSum(Shipping.ParcelCosts(Shipping.PackLegs(legs, order, rules, direction, |legs|).parcels));
    }
  }

  lemma NothingCharged(legs: seq<Shipment>)
    requires legs == []
    ensures Sum(ChargesOf(legs)) == 0
  {
  }

  /** The recorded charges among the first n legs, in order, without the legs that have none. */
  function Recorded(legs: seq<Shipment>, n: nat): seq<int>
    requires n <= |legs|
  {
    if n == 0 then [] else Recorded(legs, n - 1) + if legs[n-1].carrierCost.Some? then [legs[n-1].carrierCost.value] else []
  }

  lemma {:induction false} RecordedSum(legs: seq<Shipment>, n: nat)
    requires n <= |legs|
    ensures Sum(Recorded(legs, n)) == Sum(ChargesOf(legs)[..n])
  {
    if n > 0 {
      RecordedSum(legs, n - 1);
      SumTake(ChargesOf(legs), n - 1);
      if legs[n-1].carrierCost.Some? {
        SumSnoc(Recorded(legs, n - 1), legs[n-1].carrierCost.value);
      } else {
        assert Recorded(legs, n - 1) + [] == Recorded(legs, n - 1);
      }
    }
  }

  lemma {:induction false} RecordedParcels(legs: seq<Shipment>, order: Order, rules: seq<ShippingRule>,
        direction: Direction, n: nat)
    requires n <= |legs| && !Shipping.MayEstimate(order)
    ensures Shipping.ParcelCosts(Shipping.PackLegs(legs, order, rules, direction, n).parcels) == Recorded(legs, n)
  {
    hide Shipping.MatchShippingRule, Shipping.MayEstimate;
    if n > 0 {
      RecordedParcels(legs, order, rules, direction, n - 1);
      var before, after := Shipping.PackLegs(legs, order, rules, direction, n - 1).parcels,
          Shipping.PackLegs(legs, order, rules, direction, n).parcels;
      if after != before {
        assert Shipping.ParcelCosts(after) == Shipping.ParcelCosts(before) + [legs[n-1].carrierCost.value];
      }
    }
  }

  /** Where nothing may be estimated, a shipping term is what its legs recorded, if that adds up. */
  lemma ShippingIsRecorded(order: Order, shipments: seq<Shipment>, rules: seq<ShippingRule>, direction: Direction)
    requires !Shipping.MayEstimate(order)
    ensures var r, legs := Shipping.ComputeShippingCost(order, shipments, rules, direction),
        Shipping.LegsOf(shipments, direction);
      && (r.Ok? <==> AddMinor(Recorded(legs, |legs|)).Ok?)
      && (r.Ok? ==> r.value.value.cost == Charged(shipments, direction))
  {
    hide Shipping.PackLegs, Shipping.MatchShippingRule, AddMinor, Sum, Shipping.LegsOf, ChargesOf, Recorded,
      Shipping.MayEstimate;
    var legs := Shipping.LegsOf(shipments, direction);
    assert ChargesOf(legs)[..|legs|] == ChargesOf(legs);
    RecordedSum(legs, |legs|);
    AddMinorIsSum(Recorded(legs, |legs|));
    if legs == [] {
      NothingCharged(legs);
      NoneRecorded(legs);
    } else {
      RecordedParcels(legs, order, rules, direction, |legs|);
    }
  }

  lemma NoneRecorded(legs: seq<Shipment>)
    requires legs == []
    ensures AddMinor(Recorded(legs, 0)) == Ok(0)
  {
  }

  /** A settled shipping term raised nothing. */
  lemma ShippingIsHonest(order: Order, shipments: seq<Shipment>, rules: seq<ShippingRule>, direction: Direction)
    requires Shipping.ComputeShippingCost(order, shipments, rules, direction).Ok?
    ensures var c := Shipping.ComputeShippingCost(order, shipments, rules, direction).value;
      Settled(c.value.basis) ==> c.diagnostics == []
  {
    hide Shipping.PackLegs, Shipping.MatchShippingRule, AddMinor, Shipping.LegsOf;
    var legs := Shipping.LegsOf(shipments, direction);
    LegsPackHonestly(legs, order, rules, direction, |legs|);
  }
}
