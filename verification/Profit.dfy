/** One order becomes exact totals, a per-line breakdown, and a statement of how far to trust them. */
module Profit {
  import opened Prelude
  import opened Money
  import opened Domain
  import opened Cogs
  import opened Diagnostics
  import opened Confidence
  import opened AllocateLines
  import Normalize
  import OrderRecognition
  import Revenue
  import Gateway
  import Shipping
  import CashOnDelivery
  import Reversals
  import ReversalLoop
  import Sequences

  // ------------------------------------------------------------------- terms

  /** Every order-level computation, before anything is added up. */
  datatype Terms = Terms(
    recognition: Recognition, revenue: Computed<Revenue.OrderRevenue>, cogs: Computed<OrderCogs>,
    outbound: Computed<Shipping.ShippingLeg>, returned: Computed<Shipping.ShippingLeg>,
    gateway: Computed<Gateway.GatewayFees>, cod: Computed<CashOnDelivery.CodCost>,
    reversal: Computed<Reversals.ReversalImpact>)

  function Quantities(items: seq<Item>): (r: seq<int>)
    ensures |r| == |items|
    ensures forall i :: 0 <= i < |items| ==> r[i] == items[i].quantity
  {
    Sequences.Map((i: Item) => i.quantity, items)
  }

  function QuantityTable(items: seq<Item>): map<string, int> {
    Sequences.TableOf(Revenue.ItemIds(items), Quantities(items))
  }

  function LedgerFor(items: seq<Item>, revenue: Revenue.OrderRevenue, cogs: OrderCogs): Reversals.Ledger {
    Reversals.LedgerOf(revenue.lines, cogs.lines, QuantityTable(items), WeightTable(items))
  }

  function ComputeTerms(input: ProfitInput, n: Normalize.Normalized): Result<Terms> {
    var rules, registered := input.feeRuleSet, input.store.vatRegistered;
    var recognition := OrderRecognition.ComputeRecognition(n.order, n.shipments);
    var revenue :- Revenue.ComputeRevenue(n.order, n.items, recognition);
    var cogs :- ComputeCogs(n.items, n.costs);
    var outbound :- Shipping.ComputeShippingCost(n.order, n.shipments, rules.shippingFallback, Outbound);
    var returned :- Shipping.ComputeShippingCost(n.order, n.shipments, rules.shippingFallback, Return);
    var gateway :- Gateway.ComputeGatewayFees(n.order, rules.gateway, registered);
    var cod :- CashOnDelivery.ComputeCodCost(n.order, n.shipments, rules.cod, registered);
    var ledger := LedgerFor(n.items, revenue.value, cogs.value);
    var reversal :- Reversals.ComputeReversalImpact(n.reversals, revenue.value.lines, ledger, recognition, n.shipments,
                                                    Dispatched(n.order.fulfillmentState));
    Ok(Terms(recognition, revenue, cogs, outbound, returned, gateway, cod, reversal))
  }

  /** The costs that count: all of them, or none on an excluded order. */
  datatype Costs = Costs(cogs: int, outbound: int, returned: int, gateway: int, cod: int)

  function CostsOf(t: Terms): Costs {
    if t.recognition.Excluded? then Costs(0, 0, 0, 0, 0)
    else Costs(t.cogs.value.cogs, t.outbound.value.cost, t.returned.value.cost, t.gateway.value.cost, t.cod.value.cost)
  }

  function AmountsOf(t: Terms, shippingRevenue: int, codFeeRevenue: int): Amounts {
    var c := CostsOf(t);
    Amounts(shippingRevenue, codFeeRevenue, t.outbound.value.parcels, t.returned.value.parcels, c.outbound,
        c.returned, c.gateway, c.cod)
  }

  function ComputeLines(items: seq<Item>, t: Terms): Result<seq<ProfitLine>> {
    if t.recognition.Excluded? then Ok([])
    else
      var r := t.revenue.value;
      var shippingRevenue :- SubMinor(r.shipping, r.shippingDiscount);
      var codFeeRevenue :- SubMinor(r.codFee, r.codFeeDiscount);
      AllocateOrderCostsToLines(items, r.lines, t.cogs.value.lines, t.reversal.value.lines,
                                AmountsOf(t, shippingRevenue, codFeeRevenue))
  }

  // ------------------------------------------------------------------ totals

  datatype Totals = Totals(
    items: int, shipping: int, codFee: int, orderDiscount: int, revenue: int, vatCollected: int,
    costs: Costs, gatewayExVat: int, gatewayVat: int, codExVat: int, codVat: int,
    reversedRevenue: int, restocked: int, impact: int,
    margin: int, marginBps: Option<int>, coveredRevenue: int)

  /** Revenue plus what the reversals changed, less every cost. */
  function ContributionMargin(revenue: int, impact: int, c: Costs): Result<int> {
    var earned :- AddMinor([revenue, impact]);
    var spent :- AddMinor([c.cogs, c.outbound, c.returned, c.gateway, c.cod]);
    SubMinor(earned, spent)
  }

  /** A ratio to no revenue is absent, not zero. */
  function MarginBpsOf(margin: int, revenue: int): Result<Option<int>> {
    if revenue <= 0 then Ok(None)
    else
      var bps :- DivRoundHalfAway(margin * 10_000, revenue);
      Ok(Some(bps))
  }

  function CoveredRevenues(lines: seq<ProfitLine>): (r: seq<int>)
    ensures |r| == |lines|
  {
    Sequences.Map((l: ProfitLine) => l.coveredRevenue, lines)
  }

  function ImpactOf(t: Terms): int { if t.recognition.Excluded? then 0 else t.reversal.value.impact }

  function TotalsOf(t: Terms, lines: seq<ProfitLine>): Result<Totals> {
    var r, c, counted := t.revenue.value, CostsOf(t), !t.recognition.Excluded?;
    var margin :- ContributionMargin(r.total, ImpactOf(t), c);
    var bps :- MarginBpsOf(margin, r.total);
    var covered :- AddMinor(CoveredRevenues(lines));
    Ok(Totals(r.items, r.shipping, r.codFee, r.orderDiscount, r.total, r.vatCollected, c,
              if counted then t.gateway.value.exVat else 0, if counted then t.gateway.value.vat else 0,
              if counted then t.cod.value.exVat else 0, if counted then t.cod.value.vat else 0,
              if counted then t.reversal.value.revenue else 0, if counted then t.reversal.value.restocked else 0,
              ImpactOf(t), margin, bps, covered))
  }

  // -------------------------------------------------------------- confidence

  function AllDiagnostics(t: Terms): seq<Diagnostic> {
    t.revenue.diagnostics + t.cogs.diagnostics + t.outbound.diagnostics + t.returned.diagnostics
    + t.gateway.diagnostics + t.cod.diagnostics + t.reversal.diagnostics
  }

  function CogsBasis(t: Terms, empty: bool): TermBasis {
    if t.recognition.Excluded? || empty then NoTerm
    else if t.cogs.value.anyMissing then Missing
    else if t.cogs.value.anyEstimated || t.reversal.value.inferredRestock then Estimated
    else Actual
  }

  function ReversalTrustOf(t: Terms, noReversals: bool): ReversalTrust {
    if noReversals then NoReversal else if t.reversal.value.isAllocated then AllocatedReversal else ReportedReversal
  }

  function TermBasesOf(t: Terms, noItems: bool, noReversals: bool): TermBases {
    var counted := !t.recognition.Excluded?;
    TermBases(t.revenue.value.reconciles, CogsBasis(t, noItems),
              if counted then t.outbound.value.basis else NoTerm, if counted then t.returned.value.basis else NoTerm,
              if counted then t.gateway.value.basis else NoTerm, if counted then t.cod.value.basis else NoTerm,
              ReversalTrustOf(t, noReversals))
  }

  function ConfidenceOf(t: Terms, noItems: bool, noReversals: bool): ProfitConfidence {
    DeriveConfidence(TermBasesOf(t, noItems, noReversals), AllDiagnostics(t))
  }

  // ------------------------------------------------------------------ result

  datatype Report = Report(
    currency: string, businessDate: string, feeRuleSetId: string, recognition: Recognition,
    totals: Totals, lines: seq<ProfitLine>, confidence: ProfitConfidence, diagnostics: seq<Diagnostic>)

  datatype OrderProfit =
    | ComputedOrder(orderId: string, storeId: string, report: Report)
    | RejectedOrder(orderId: string, storeId: string, diagnostics: seq<Diagnostic>)

  function ReportOf(input: ProfitInput, date: string, n: Normalize.Normalized, t: Terms, lines: seq<ProfitLine>,
        totals: Totals): Report {
    Report(input.store.currency, date, input.feeRuleSet.id, t.recognition, totals, lines,
           ConfidenceOf(t, n.items == [], n.reversals == []), SortDiagnostics(AllDiagnostics(t)))
  }

  function ComputeReport(input: ProfitInput, n: Normalize.Normalized): Result<Report> {
    var date :- if input.localDate.Some? then Ok(input.localDate.value) else Err(BadTimezone);
    var t :- ComputeTerms(input, n);
    var lines :- ComputeLines(n.items, t);
    var totals :- TotalsOf(t, lines);
    Ok(ReportOf(input, date, n, t, lines, totals))
  }

  /** The code an escaped failure is reported under. */
  function CodeOf(error: Failure): Code {
    match error
    case BadInstant => MalformedTimestamp
    case BadTimezone => InvalidTimezone
    case _ => InternalInvariantViolated
  }

  /** Total: whatever is wrong with an order comes back as a rejection. */
  function Compute(input: ProfitInput): OrderProfit {
    match Normalize.NormalizeAndValidate(input)
    case Rejected(fatal) => RejectedOrder(input.order.id, input.store.storeId, SortDiagnostics(fatal))
    case Accepted(n) =>
      match ComputeReport(input, n)
      case Ok(report) => ComputedOrder(input.order.id, input.store.storeId, report)
      case Err(error) => RejectedOrder(input.order.id, input.store.storeId, [OnOrder(CodeOf(error))])
  }

  // -------------------------------------------------------------- as it runs

  method ComputeTermsLoop(input: ProfitInput, n: Normalize.Normalized) returns (r: Result<Terms>)
    ensures r == ComputeTerms(input, n)
  {
    hide OrderRecognition.ComputeRecognition, Revenue.ComputeRevenue, ComputeCogs, Shipping.ComputeShippingCost,
      Gateway.ComputeGatewayFees, CashOnDelivery.ComputeCodCost, Reversals.ComputeReversalImpact, LedgerFor;
    var rules, registered := input.feeRuleSet, input.store.vatRegistered;
    var recognition := OrderRecognition.ComputeRecognition(n.order, n.shipments);
    var revenue := Revenue.ComputeRevenue(n.order, n.items, recognition);
    if revenue.Err? { return Err(revenue.error); }
    var cogs := ComputeCogsLoop(n.items, n.costs);
    if cogs.Err? { return Err(cogs.error); }
    var outbound := Shipping.ComputeShippingCostLoop(n.order, n.shipments, rules.shippingFallback, Outbound);
    if outbound.Err? { return Err(outbound.error); }
    var returned := Shipping.ComputeShippingCostLoop(n.order, n.shipments, rules.shippingFallback, Return);
    if returned.Err? { return Err(returned.error); }
    var gateway := Gateway.ComputeGatewayFeesLoop(n.order, rules.gateway, registered);
    if gateway.Err? { return Err(gateway.error); }
    var cod := CashOnDelivery.ComputeCodCostLoop(n.order, n.shipments, rules.cod, registered);
    if cod.Err? { return Err(cod.error); }
    var reversal := ReversalLoop.ComputeReversalImpactLoop(
      n.reversals, revenue.value.value.lines, LedgerFor(n.items, revenue.value.value, cogs.value.value),
      recognition, n.shipments, Dispatched(n.order.fulfillmentState));
    if reversal.Err? { return Err(reversal.error); }
    return Ok(Terms(recognition, revenue.value, cogs.value, outbound.value, returned.value, gateway.value,
        cod.value, reversal.value));
  }

  method ComputeLinesLoop(items: seq<Item>, t: Terms) returns (r: Result<seq<ProfitLine>>)
    ensures r == ComputeLines(items, t)
  {
    hide AllocateOrderCostsToLines, AmountsOf;
    if t.recognition.Excluded? { return Ok([]); }
    var shippingRevenue := SubMinor(t.revenue.value.shipping, t.revenue.value.shippingDiscount);
    if shippingRevenue.Err? { return Err(shippingRevenue.error); }
    var codFeeRevenue := SubMinor(t.revenue.value.codFee, t.revenue.value.codFeeDiscount);
    if codFeeRevenue.Err? { return Err(codFeeRevenue.error); }
    r := AllocateOrderCostsToLinesLoop(items, t.revenue.value.lines, t.cogs.value.lines, t.reversal.value.lines,
                                       AmountsOf(t, shippingRevenue.value, codFeeRevenue.value));
  }

  method ComputeOrderProfit(input: ProfitInput) returns (p: OrderProfit)
    ensures p == Compute(input)
  {
    hide ComputeTerms, ComputeLines, TotalsOf, ReportOf, Normalize.NormalizeAndValidate, SortDiagnostics;
    var orderId, storeId := input.order.id, input.store.storeId;
    var verdict := Normalize.NormalizeAndValidateLoop(input);
    if verdict.Rejected? { return RejectedOrder(orderId, storeId, SortDiagnostics(verdict.fatal)); }
    var n := verdict.normalized;
    if input.localDate.None? { return RejectedOrder(orderId, storeId, [OnOrder(InvalidTimezone)]); }
    var t := ComputeTermsLoop(input, n);
    if t.Err? { return RejectedOrder(orderId, storeId, [OnOrder(CodeOf(t.error))]); }
    var lines := ComputeLinesLoop(n.items, t.value);
    if lines.Err? { return RejectedOrder(orderId, storeId, [OnOrder(CodeOf(lines.error))]); }
    var totals := TotalsOf(t.value, lines.value);
    if totals.Err? { return RejectedOrder(orderId, storeId, [OnOrder(CodeOf(totals.error))]); }
    return ComputedOrder(orderId, storeId, ReportOf(input, input.localDate.value, n, t.value, lines.value, totals.value));
  }
}
