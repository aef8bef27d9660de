/** When the row order of a rate card shows: a tie among the dearest rows that could price an unnamed scheme. */
module RuleTies {
  import opened Prelude
  import opened Sequences
  import opened Sums
  import opened Money
  import opened Domain
  import opened Fee
  import opened Gateway
  import opened Rules
  import Normalize
  import NormalizeLaws
  import TermLaws

  // -------------------------------------------------------------- one leg

  /** A row of the top tier that costs at least what every row of it does. */
  ghost predicate Dearest(rules: seq<GatewayRule>, payment: Payment, vatRegistered: bool, r: GatewayRule) {
    && InTopTier(rules, payment, r)
    && forall q :: InTopTier(rules, payment, q) ==> CostsAtLeast(r, q, payment.amountGross, vatRegistered)
  }

  /** Two rows are the dearest. */
  ghost predicate Tied(rules: seq<GatewayRule>, payment: Payment, vatRegistered: bool) {
    exists x, y :: x != y && Dearest(rules, payment, vatRegistered, x) && Dearest(rules, payment, vatRegistered, y)
  }

  lemma SameMembers<T>(xs: seq<T>, ys: seq<T>)
    requires multiset(xs) == multiset(ys)
    ensures forall x :: x in xs <==> x in ys
  {
    forall x ensures x in xs <==> x in ys { assert x in multiset(xs) <==> x in multiset(ys); }
  }

  lemma CandidatesPermute(rules: seq<GatewayRule>, others: seq<GatewayRule>, payment: Payment)
    requires multiset(rules) == multiset(others)
    ensures |SchemeCandidates(rules, payment)| == |SchemeCandidates(others, payment)|
    ensures forall r :: r in SchemeCandidates(rules, payment) <==> r in SchemeCandidates(others, payment)
    ensures forall r :: r in SchemeCandidates(rules, payment) <==> InTopTier(rules, payment, r)
  {
    hide TopSpecificity, Filter, Eligible, Specificity;
    SameLength(rules, others);
    CandidatesAreTopTier(rules, payment);
    var p := EligibleFor(payment);
    var a, b := Filter(p, rules), Filter(p, others);
    NormalizeLaws.FilterPermutes(p, rules, others);
    SameLength(a, b);
    if a != [] {
      TopIsReached(a);
      TopIsReached(b);
      var q := AtTier(TopSpecificity(a));
      assert TopSpecificity(a) == TopSpecificity(b);
      NormalizeLaws.FilterPermutes(q, a, b);
      SameLength(Filter(q, a), Filter(q, b));
    }
  }

  ghost predicate AllPriced(candidates: seq<GatewayRule>, amount: int, vatRegistered: bool) {
    forall r :: r in candidates ==> ApplyFee(amount, r.formula, vatRegistered).Ok?
  }

  lemma {:induction false} CostliestFailsInRange(candidates: seq<GatewayRule>, amount: int, vatRegistered: bool, n: nat)
    requires 0 < n <= |candidates| && TermLaws.ValidGateway(candidates)
    ensures Costliest(candidates, amount, vatRegistered, n).Err?
        ==> Costliest(candidates, amount, vatRegistered, n).error.OutOfRange?
  {
    hide ApplyFee, FormulaIsValid;
    if n > 1 {
      CostliestFailsInRange(candidates, amount, vatRegistered, n - 1);
      FeeFailsInRange(amount, candidates[n-1].formula, vatRegistered);
      var before := Costliest(candidates, amount, vatRegistered, n - 1);
      if before.Ok? {
        TermLaws.CostliestIsCandidate(candidates, amount, vatRegistered, n - 1);
        FeeFailsInRange(amount, before.value.formula, vatRegistered);
      }
    }
  }

  /** Of two or more candidates the choice computes exactly when all of them price the amount. */
  lemma CostliestComputesIff(candidates: seq<GatewayRule>, amount: int, vatRegistered: bool)
    requires |candidates| > 1
    ensures Costliest(candidates, amount, vatRegistered, |candidates|).Ok? <==> AllPriced(candidates, amount, vatRegistered)
  {
    hide ApplyFee, Costliest;
    if AllPriced(candidates, amount, vatRegistered) {
      CostliestComputes(candidates, amount, vatRegistered, |candidates|);
    }
    if Costliest(candidates, amount, vatRegistered, |candidates|).Ok? {
      CostliestIsMost(candidates, amount, vatRegistered, |candidates|);
    }
  }

  /** The choice computes from one order of the rows exactly when it does from any other. */
  lemma ChoiceComputesAlike(rules: seq<GatewayRule>, others: seq<GatewayRule>, payment: Payment, vatRegistered: bool)
    requires multiset(rules) == multiset(others)
    ensures ChooseRule(rules, payment, vatRegistered).Ok? <==> ChooseRule(others, payment, vatRegistered).Ok?
  {
    hide ApplyFee, Costliest, SchemeCandidates, BestRule, InTopTier;
    CandidatesPermute(rules, others, payment);
    var xs, ys := SchemeCandidates(rules, payment), SchemeCandidates(others, payment);
    if |xs| == 1 {
      FirstCandidate(xs, payment.amountGross, vatRegistered);
      FirstCandidate(ys, payment.amountGross, vatRegistered);
    } else if |xs| > 1 {
      CostliestComputesIff(xs, payment.amountGross, vatRegistered);
      CostliestComputesIff(ys, payment.amountGross, vatRegistered);
    }
  }

  /** What is chosen among several candidates is one of the dearest. */
  lemma ChosenIsDearest(rules: seq<GatewayRule>, payment: Payment, vatRegistered: bool)
    requires SchemeUnknown(payment) && |SchemeCandidates(rules, payment)| > 1 && ChooseRule(rules, payment, vatRegistered).Ok?
    ensures var chosen := ChooseRule(rules, payment, vatRegistered).value;
      chosen.Some? && Dearest(rules, payment, vatRegistered, chosen.value)
  {
    hide ApplyFee, Costliest, SchemeCandidates, InTopTier;
    var candidates := SchemeCandidates(rules, payment);
    CandidatesPermute(rules, rules, payment);
    CostliestIsMost(candidates, payment.amountGross, vatRegistered, |candidates|);
  }

  /** Unless the scheme is unnamed and two rows tie, the order of the rows is no matter. */
  lemma UntiedForgetsOrder(rules: seq<GatewayRule>, others: seq<GatewayRule>, payment: Payment, vatRegistered: bool)
    requires Distinct(GatewayKeys(rules)) && TermLaws.ValidGateway(rules) && multiset(rules) == multiset(others)
    requires SchemeUnknown(payment) ==> !Tied(rules, payment, vatRegistered)
    ensures ChooseRule(rules, payment, vatRegistered) == ChooseRule(others, payment, vatRegistered)
  {
    hide ApplyFee, Costliest, SchemeCandidates, BestRule, InTopTier, GatewayKeys, Distinct, SchemeUnknown,
      FormulaIsValid, Dearest;
    if SchemeUnknown(payment) {
      CandidatesPermute(rules, others, payment);
      var xs, ys := SchemeCandidates(rules, payment), SchemeCandidates(others, payment);
      if |xs| == 1 {
        FirstCandidate(xs, payment.amountGross, vatRegistered);
        FirstCandidate(ys, payment.amountGross, vatRegistered);
        assert xs[0] in ys;
      } else if |xs| > 1 {
        SeveralForgetOrder(rules, others, payment, vatRegistered);
      }
    } else {
      BestRuleForgetsOrder(rules, others, payment, payment.scheme);
    }
  }

  lemma SeveralForgetOrder(rules: seq<GatewayRule>, others: seq<GatewayRule>, payment: Payment, vatRegistered: bool)
    requires TermLaws.ValidGateway(rules) && multiset(rules) == multiset(others)
    requires SchemeUnknown(payment) && !Tied(rules, payment, vatRegistered) && |SchemeCandidates(rules, payment)| > 1
    ensures ChooseRule(rules, payment, vatRegistered) == ChooseRule(others, payment, vatRegistered)
  {
    hide ApplyFee, Costliest, SchemeCandidates, BestRule, FormulaIsValid, Dearest;
    ChoiceComputesAlike(rules, others, payment, vatRegistered);
    CandidatesPermute(rules, others, payment);
    CandidatesPermute(others, others, payment);
    SameMembers(rules, others);
    if ChooseRule(rules, payment, vatRegistered).Ok? {
      ChosenIsDearest(rules, payment, vatRegistered);
      ChosenIsDearest(others, payment, vatRegistered);
      DearestForgetsOrder(rules, others, payment, vatRegistered, ChooseRule(others, payment, vatRegistered).value.value);
    } else {
      var xs, ys := SchemeCandidates(rules, payment), SchemeCandidates(others, payment);
      CostliestFailsInRange(xs, payment.amountGross, vatRegistered, |xs|);
      CostliestFailsInRange(ys, payment.amountGross, vatRegistered, |ys|);
    }
  }

  lemma DearestForgetsOrder(rules: seq<GatewayRule>, others: seq<GatewayRule>, payment: Payment, vatRegistered: bool,
        r: GatewayRule)
    requires multiset(rules) == multiset(others)
    ensures Dearest(rules, payment, vatRegistered, r) <==> Dearest(others, payment, vatRegistered, r)
  {
    hide SchemeCandidates, InTopTier, CostsAtLeast;
    CandidatesPermute(rules, others, payment);
    CandidatesPermute(others, rules, payment);
  }

  // ---------------------------------------------------------------- ties show

  lemma {:induction false} FirstDearestStays(candidates: seq<GatewayRule>, amount: int, vatRegistered: bool, n: nat)
    requires 0 < n <= |candidates|
    requires forall q :: q in candidates ==> CostsAtLeast(candidates[0], q, amount, vatRegistered)
    ensures Costliest(candidates, amount, vatRegistered, n) == Ok(candidates[0])
  {
    hide ApplyFee;
    if n > 1 {
      FirstDearestStays(candidates, amount, vatRegistered, n - 1);
      assert candidates[n-1] in candidates;
    }
  }

  /** A top-tier row that comes first is the first candidate. */
  lemma FirstStaysFirst(x: GatewayRule, rest: seq<GatewayRule>, payment: Payment)
    requires InTopTier([x] + rest, payment, x)
    ensures var candidates := SchemeCandidates([x] + rest, payment); candidates != [] && candidates[0] == x
  {
    hide TopSpecificity, Eligible, Specificity;
    var rules, p := [x] + rest, EligibleFor(payment);
    assert rules[1..] == rest && rules[0] == x;
    var eligible := Filter(p, rules);
    assert eligible == [x] + Filter(p, rest);
    assert forall r :: r in eligible <==> r in rules && Eligible(r, payment);
    TopIsReached(eligible);
    assert Specificity(x) == TopSpecificity(eligible);
    assert eligible[1..] == Filter(p, rest) && eligible[0] == x;
  }

  /** Put first, one of the dearest rows is the one that prices the leg. */
  lemma PutFirst(rules: seq<GatewayRule>, payment: Payment, vatRegistered: bool,
        x: GatewayRule) returns (others: seq<GatewayRule>)
    requires SchemeUnknown(payment) && Dearest(rules, payment, vatRegistered, x)
    ensures multiset(others) == multiset(rules) && ChooseRule(others, payment, vatRegistered) == Ok(Some(x))
  {
    hide ApplyFee, Costliest, SchemeCandidates, BestRule, CostsAtLeast;
    var i :| 0 <= i < |rules| && rules[i] == x;
    var rest := rules[..i] + rules[i+1..];
    others := [x] + rest;
    Extract(rules, i);
    assert rules == rules[..i] + [x] + rules[i+1..];
    DearestForgetsOrder(rules, others, payment, vatRegistered, x);
    FirstStaysFirst(x, rest, payment);
    CandidatesPermute(others, others, payment);
    var candidates := SchemeCandidates(others, payment);
    FirstDearestStays(candidates, payment.amountGross, vatRegistered, |candidates|);
  }

  /**
   * Every order of a card's rows prices a leg by the same row if and only if the leg's scheme is
   * known or no two rows tie as the dearest of the top tier.
   */
  lemma RowOrderShowsOnTies(rules: seq<GatewayRule>, payment: Payment, vatRegistered: bool)
    requires Distinct(GatewayKeys(rules)) && TermLaws.ValidGateway(rules)
    ensures (forall others :: multiset(others) == multiset(rules) ==>
              ChooseRule(others, payment, vatRegistered) == ChooseRule(rules, payment, vatRegistered))
      <==> (SchemeUnknown(payment) ==> !Tied(rules, payment, vatRegistered))
  {
    hide ChooseRule, Dearest, SchemeUnknown, GatewayKeys, Distinct, FormulaIsValid;
    if SchemeUnknown(payment) && Tied(rules, payment, vatRegistered) {
      var x, y :| x != y && Dearest(rules, payment, vatRegistered, x) && Dearest(rules, payment, vatRegistered, y);
      var first := PutFirst(rules, payment, vatRegistered, x);
      var second := PutFirst(rules, payment, vatRegistered, y);
      assert ChooseRule(first, payment, vatRegistered) != ChooseRule(second, payment, vatRegistered);
    } else {
      forall others | multiset(others) == multiset(rules)
        ensures ChooseRule(others, payment, vatRegistered) == ChooseRule(rules, payment, vatRegistered)
      {
        UntiedForgetsOrder(rules, others, payment, vatRegistered);
      }
    }
  }

  // ------------------------------------------------------------- a tie at work

  function VisaRow(): GatewayRule {
    GatewayRule(FeeFormula(100, 0, None, None, 0, false, MerchantEntered), Some(Card), Some(Visa), None)
  }

  function MadaRow(): GatewayRule {
    GatewayRule(FeeFormula(100, 0, None, None, 1_500, false, DefaultTable), Some(Card), Some(Mada), None)
  }

  function UnnamedLeg(): Payment { Payment(Card, None, None, LegCaptured, 10_000) }

  function PaidOrder(): Order {
    Order("order", "", Open, Paid, NotApplicable, false, Digital, None, "SAR", 10_000, 0, 0, 0, 10_000, [], [UnnamedLeg()])
  }

  /** The gate accepts a card of these two rows in either order. */
  lemma EitherCardIsGood()
    ensures NormalizeLaws.GoodRules(FeeRuleSet("rules", "SAR", [VisaRow(), MadaRow()], [], []))
    ensures NormalizeLaws.GoodRules(FeeRuleSet("rules", "SAR", [MadaRow(), VisaRow()], [], []))
  {
    TwoRowsAreGood(VisaRow(), MadaRow());
    TwoRowsAreGood(MadaRow(), VisaRow());
  }

  lemma TwoRowsAreGood(x: GatewayRule, y: GatewayRule)
    requires {x, y} == {VisaRow(), MadaRow()}
    ensures NormalizeLaws.GoodRules(FeeRuleSet("rules", "SAR", [x, y], [], []))
  {
    var rules := FeeRuleSet("rules", "SAR", [x, y], [], []);
    assert x in {VisaRow(), MadaRow()} && y in {VisaRow(), MadaRow()} && VisaRow() in {x, y} && MadaRow() in {x, y};
    assert forall f :: f in Normalize.Formulas(rules) ==> f == x.formula || f == y.formula;
    assert GatewayKey(VisaRow())[5] == 'v' && GatewayKey(MadaRow())[5] == 'm';
    assert GatewayKeys([x, y]) == [GatewayKey(x), GatewayKey(y)];
  }

  lemma TheFees()
    ensures ApplyFee(10_000, VisaRow().formula, true) == Ok(AppliedFee(100, 0, 100))
    ensures ApplyFee(10_000, MadaRow().formula, true) == Ok(AppliedFee(100, 15, 100))
  {
    hide AddMinor, MulBps;
    FlatRate(100);
    RateMultiplicationIsSafe(100, 1_500);
    RoundingIsUnique(150_000, 10_000, 15, MulBps(100, 1_500).value);
    SumOf2(100, 0);
    AddMinorSucceeds([100, 0]);
  }

  /** A pair of rows of one tier that cost the same: the first prices the leg. */
  lemma TiedPair(x: GatewayRule, y: GatewayRule, payment: Payment)
    requires SchemeUnknown(payment) && Eligible(x, payment) && Eligible(y, payment) && Specificity(x) == Specificity(y)
    requires CostsAtLeast(x, y, payment.amountGross, true)
    ensures ChooseRule([x, y], payment, true) == Ok(Some(x))
  {
    hide ApplyFee, Costliest, SchemeCandidates, Eligible, Specificity;
    assert InTopTier([x] + [y], payment, x);
    FirstStaysFirst(x, [y], payment);
    assert [x] + [y] == [x, y];
    var candidates := SchemeCandidates([x, y], payment);
    CandidatesAreTopTier([x, y], payment);
    FirstDearestStays(candidates, payment.amountGross, true, |candidates|);
  }

  function LegRemarks(source: FeeSource): seq<Diagnostic> {
    if source.DefaultTable? then [Diagnostic(CardSchemeUnknown, OfPayment(0)), Diagnostic(FeeRuleDefaultUsed, OfPayment(0))]
    else [Diagnostic(CardSchemeUnknown, OfPayment(0))]
  }

  /** One captured leg, priced by the row that was chosen. */
  lemma OneLeg(rules: seq<GatewayRule>, rule: GatewayRule, fee: AppliedFee)
    requires ChooseRule(rules, UnnamedLeg(), true) == Ok(Some(rule)) && ApplyFee(10_000, rule.formula, true) == Ok(fee)
    requires 0 <= fee.exVat <= 100 && 0 <= fee.vat <= 100 && 0 <= fee.cost <= 100
    ensures ComputeGatewayFees(PaidOrder(), rules, true)
      == Ok(Computed(GatewayFees(fee.exVat, fee.vat, fee.cost, Estimated), LegRemarks(rule.formula.source)))
  {
    hide ChooseRule, ApplyFee, AddMinor;
    var order, leg := PaidOrder(), UnnamedLeg();
    var captured := (p: Payment) => p.state.LegCaptured?;
    assert Filter(captured, []) == [] && order.payments[1..] == [];
    assert Captured(order.payments) == [10_000];
    AddMinorOfOne(10_000);
    AddMinorOfOne(fee.exVat);
    AddMinorOfOne(fee.vat);
    AddMinorOfOne(fee.cost);
    var start := Gathered([], false, Actual, []);
    assert PriceLegs(start, rules, order.payments, true, 0) == Ok(start);
    assert Chargeable(order.payments[0]) && LegDiagnostics(leg, 0) == [Diagnostic(CardSchemeUnknown, OfPayment(0))];
    var g := PriceLegs(start, rules, order.payments, true, 1).value;
    assert g.applied == [fee] && g.diagnostics == LegRemarks(rule.formula.source);
    assert ExVats(g.applied) == [fee.exVat] && Vats(g.applied) == [fee.vat] && Costs(g.applied) == [fee.cost];
  }

  /**
   * A tie at work, on a card the gate accepts in either order: both rows cost 100, but one carries
   * VAT and comes from the default table, so the order of the rows decides the VAT and the remarks.
   */
  lemma TieSplitsDiffer()
    ensures NormalizeLaws.GoodRules(FeeRuleSet("rules", "SAR", [VisaRow(), MadaRow()], [], []))
    ensures NormalizeLaws.GoodRules(FeeRuleSet("rules", "SAR", [MadaRow(), VisaRow()], [], []))
    ensures ComputeGatewayFees(PaidOrder(), [VisaRow(), MadaRow()], true)
      == Ok(Computed(GatewayFees(100, 0, 100, Estimated), [Diagnostic(CardSchemeUnknown, OfPayment(0))]))
    ensures ComputeGatewayFees(PaidOrder(), [MadaRow(), VisaRow()], true)
      == Ok(Computed(GatewayFees(100, 15, 100, Estimated),
                     [Diagnostic(CardSchemeUnknown, OfPayment(0)), Diagnostic(FeeRuleDefaultUsed, OfPayment(0))]))
  {
    hide ChooseRule, ApplyFee, ComputeGatewayFees, NormalizeLaws.GoodRules;
    EitherCardIsGood();
    TheFees();
    TiedPair(VisaRow(), MadaRow(), UnnamedLeg());
    TiedPair(MadaRow(), VisaRow(), UnnamedLeg());
    OneLeg([VisaRow(), MadaRow()], VisaRow(), AppliedFee(100, 0, 100));
    OneLeg([MadaRow(), VisaRow()], MadaRow(), AppliedFee(100, 15, 100));
  }
}
