/** What a report may claim about itself: an exact badge, and fees that tie to their parts. */
module TrustLaws {
  import opened Domain
  import opened Cogs
  import opened Confidence
  import opened Diagnostics
  import opened TermLaws
  import opened Profit
  import opened ProfitLaws
  import opened ReturnLaws
  import Money
  import Normalize
  import Sequences
  import Sorting
  import Revenue
  import Gateway
  import Shipping
  import Cod = CashOnDelivery
  import Reversals
  import ReversalLaws

  /** The two remarks that take nothing away from a number. */
  ghost predicate Harmless(ds: seq<Diagnostic>) {
    forall d :: d in ds ==> d.code.RecognitionCostOnly? || d.code.UnknownPaymentInstrument?
  }

  lemma RevenueRemarks(input: ProfitInput, n: Normalize.Normalized, t: Terms)
    requires TermsFrom(input, n, t)
    ensures t.revenue.diagnostics == Revenue.RevenueDiagnostics(t.revenue.value.reconciles, n.items == [], t.recognition)
  {
    hide Revenue.RevenueDiagnostics, Money.AddMinor, ComputeCogs, Shipping.ComputeShippingCost,
      Gateway.ComputeGatewayFees, Cod.ComputeCodCost, Reversals.ComputeReversalImpact, LedgerFor,
      Revenue.Unreflected, Revenue.ComputeLineRevenue;
  }

  lemma RevenueIsQuiet(reconciles: bool, empty: bool, recognition: Recognition)
    ensures reconciles && !empty && !recognition.Excluded?
        ==> Harmless(Revenue.RevenueDiagnostics(reconciles, empty, recognition))
    ensures empty ==> Has(Revenue.RevenueDiagnostics(reconciles, empty, recognition), OrderHasNoItems)
  {
    var ds := Revenue.RevenueDiagnostics(reconciles, empty, recognition);
    if empty { assert ds[if reconciles then 0 else 1].code == OrderHasNoItems; }
  }

  lemma CogsAreHonest(input: ProfitInput, n: Normalize.Normalized, t: Terms)
    requires TermsFrom(input, n, t) && !t.cogs.value.anyMissing && !t.cogs.value.anyEstimated
    ensures t.cogs.diagnostics == []
  {
    hide Money.AddMinor, Shipping.ComputeShippingCost, Gateway.ComputeGatewayFees, Cod.ComputeCodCost, CostLines,
      CostsItem, Reversals.ComputeReversalImpact, LedgerFor, Revenue.ComputeRevenue;
    CostLinesFacts(n.items, n.costs, |n.items|);
  }

  lemma UnallocatedDoubt(isAllocated: bool, ds: seq<Diagnostic>)
    requires ReversalLaws.Honest(isAllocated, ds) && !isAllocated
    ensures ds == [] || Has(ds, RestockUnconfirmed)
  {
    assert ds != [] ==> ds[0].code.RestockUnconfirmed?;
  }

  lemma ReversalIsHonest(input: ProfitInput, n: Normalize.Normalized, t: Terms)
    requires TermsFrom(input, n, t)
    requires !ReversalTrustOf(t, n.reversals == []).AllocatedReversal? && !Has(t.reversal.diagnostics, RestockUnconfirmed)
    ensures t.reversal.diagnostics == []
  {
    hide Shipping.ComputeShippingCost, Gateway.ComputeGatewayFees, Cod.ComputeCodCost, ComputeCogs,
      Reversals.ComputeReversalImpact, LedgerFor, Revenue.ComputeRevenue, ReversalLaws.Honest, Has;
    ReversalLaws.ImpactHonest(n.reversals, t.revenue.value.lines, LedgerFor(n.items, t.revenue.value, t.cogs.value),
                              t.recognition, n.shipments, Dispatched(n.order.fulfillmentState));
    UnallocatedDoubt(t.reversal.value.isAllocated, t.reversal.diagnostics);
  }

  lemma CostTermsAreHonest(input: ProfitInput, n: Normalize.Normalized, t: Terms)
    requires TermsFrom(input, n, t)
    ensures Settled(t.outbound.value.basis) ==> t.outbound.diagnostics == []
    ensures Settled(t.returned.value.basis) ==> t.returned.diagnostics == []
    ensures Settled(t.gateway.value.basis) ==> Quiet(t.gateway.diagnostics)
    ensures Settled(t.cod.value.basis) ==> t.cod.diagnostics == []
  {
    hide Shipping.ComputeShippingCost, Gateway.ComputeGatewayFees, Cod.ComputeCodCost, ComputeCogs,
      Reversals.ComputeReversalImpact, LedgerFor, Revenue.ComputeRevenue, Quiet, Settled;
    var rules, registered := input.feeRuleSet, input.store.vatRegistered;
    ShippingIsHonest(n.order, n.shipments, rules.shippingFallback, Outbound);
    ShippingIsHonest(n.order, n.shipments, rules.shippingFallback, Return);
    GatewayIsHonest(n.order, rules.gateway, registered);
    CodIsHonest(n.order, n.shipments, rules.cod, registered);
  }

  lemma HasInPart(a: seq<Diagnostic>, b: seq<Diagnostic>, code: Code)
    ensures Has(a, code) || Has(b, code) ==> Has(a + b, code)
  {
    if Has(a, code) {
      var i :| 0 <= i < |a| && a[i].code == code;
      assert (a + b)[i].code == code;
    } else if Has(b, code) {
      var i :| 0 <= i < |b| && b[i].code == code;
      assert (a + b)[|a| + i].code == code;
    }
  }

  /** A remark raised by the revenue or the reversal term is among the order's. */
  lemma HasInAll(t: Terms, code: Code)
    ensures Has(t.revenue.diagnostics, code) || Has(t.reversal.diagnostics, code) ==> Has(AllDiagnostics(t), code)
  {
    hide Has;
    var r, c, o, b, g, d := t.revenue.diagnostics, t.cogs.diagnostics, t.outbound.diagnostics, t.returned.diagnostics,
        t.gateway.diagnostics, t.cod.diagnostics;
    HasInPart(r, c, code);
    HasInPart(r + c, o, code);
    HasInPart(r + c + o, b, code);
    HasInPart(r + c + o + b, g, code);
    HasInPart(r + c + o + b + g, d, code);
    HasInPart(r + c + o + b + g + d, t.reversal.diagnostics, code);
  }

  lemma ExactIsQuiet(input: ProfitInput, n: Normalize.Normalized, t: Terms)
    requires TermsFrom(input, n, t) && !t.recognition.Excluded?
    requires FullyKnown(TermBasesOf(t, n.items == [], n.reversals == []), AllDiagnostics(t))
    ensures Harmless(AllDiagnostics(t))
  {
    hide TermsFrom, Has, Revenue.RevenueDiagnostics;
    RevenueRemarks(input, n, t);
    RevenueIsQuiet(t.revenue.value.reconciles, n.items == [], t.recognition);
    HasInAll(t, OrderHasNoItems);
    HasInAll(t, RestockUnconfirmed);
    CogsAreHonest(input, n, t);
    ReversalIsHonest(input, n, t);
    CostTermsAreHonest(input, n, t);
  }

  lemma SortedIsHarmless(ds: seq<Diagnostic>)
    requires Harmless(ds)
    ensures Harmless(SortDiagnostics(ds))
  {
    hide NotAfter;
    Sorting.SortPermutes(NotAfter, ds);
    Sequences.SameLength(SortDiagnostics(ds), ds);
  }

  /**
   * Honest confidence: an order badged exact carries no diagnostic that would make its number
   * less trustworthy, whichever computation might have raised it.
   */
  lemma HonestConfidence(input: ProfitInput, report: Report)
    requires Reports(input, report) && !report.recognition.Excluded? && report.confidence.level.Exact?
    ensures Harmless(report.diagnostics)
  {
    hide *;
    var n, t := Opened(input, report);
    BehindOpens(input, n, t, report);
    BehindConfidence(input, n, t, report);
    LevelsPartition(TermBasesOf(t, n.items == [], n.reversals == []), AllDiagnostics(t));
    ExactIsQuiet(input, n, t);
    SortedIsHarmless(AllDiagnostics(t));
  }

  lemma BehindConfidence(input: ProfitInput, n: Normalize.Normalized, t: Terms, report: Report)
    requires Behind(input, n, t, report)
    ensures report.confidence == DeriveConfidence(TermBasesOf(t, n.items == [], n.reversals == []), AllDiagnostics(t))
    ensures report.diagnostics == SortDiagnostics(AllDiagnostics(t))
  {
    hide ComputeTerms, Normalize.NormalizeAndValidate, Normalize.Canonical, ComputeLines, TotalsOf, SortDiagnostics,
      AllDiagnostics, DeriveConfidence, TermBasesOf;
  }

  /** What the merchant loses to a processor or courier: the net fee, plus the VAT only when it cannot be reclaimed. */
  ghost predicate FeesTie(totals: Totals, registered: bool) {
    && totals.costs.gateway == totals.gatewayExVat + (if registered then 0 else totals.gatewayVat)
    && totals.costs.cod == totals.codExVat + (if registered then 0 else totals.codVat)
  }

  /** On every computed order, both fee terms cost exactly their parts. */
  lemma FeeTotalsTie(input: ProfitInput, report: Report)
    requires Reports(input, report)
    ensures FeesTie(report.totals, input.store.vatRegistered)
  {
    hide *;
    var n, t := Opened(input, report);
    BehindOpens(input, n, t, report);
    BehindFees(input, n, t, report);
  }

  lemma BehindFees(input: ProfitInput, n: Normalize.Normalized, t: Terms, report: Report)
    requires Behind(input, n, t, report) && TermsFrom(input, n, t)
    ensures FeesTie(report.totals, input.store.vatRegistered)
  {
    hide ComputeTerms, Normalize.NormalizeAndValidate, Normalize.Canonical, ComputeLines, ConfidenceOf,
      SortDiagnostics, AllDiagnostics, ContributionMargin, Money.AddMinor, MarginBpsOf, Shipping.ComputeShippingCost,
      Gateway.ComputeGatewayFees, Cod.ComputeCodCost, ComputeCogs, Reversals.ComputeReversalImpact, LedgerFor,
      Revenue.ComputeRevenue, ValidGateway, ValidCod, ValidFallback;
    RulesAreValid(input);
    var rules, registered := input.feeRuleSet, input.store.vatRegistered;
    GatewayIsSound(n.order, rules.gateway, registered, false);
    CodIsSound(n.order, n.shipments, rules.cod, registered, false);
  }
}
