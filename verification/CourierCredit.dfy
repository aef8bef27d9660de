/** Couriers' credits, recorded as negative charges, are the only way an order without revenue makes a profit. */
module CourierCredit {
  import opened Prelude
  import opened Sums
  import opened Money
  import opened Domain
  import opened AllocateLines
  import opened Profit
  import opened ProfitLaws
  import opened ReturnLaws
  import opened TermLaws
  import BareOrders
  import Choice
  import Cogs
  import Decimal
  import Fee
  import Instants
  import Normalize
  import NormalizeLaws
  import OrderRecognition
  import PlainOrders
  import Revenue
  import Rules
  import Sequences
  import Sorting
  import Gateway
  import Shipping
  import Cod = CashOnDelivery

  // -------------------------------------------- a cancelled order of shipments

  function TheLeg(): Payment { Payment(Card, Some(Visa), None, LegCaptured, 0) }

  function TheOrder(): Order {
    Order("order", "2024-01-01T00:00:00.000Z", Cancelled, Paid, Delivered, false, Digital, None, "SAR", 0, 0, 0, 0,
        0, [], [TheLeg()])
  }

  /** A row that charges so much on every leg. */
  function TheRule(fee: int): GatewayRule {
    GatewayRule(FeeFormula(0, fee, None, None, 0, false, MerchantEntered), None, None, None)
  }

  function Credited(shipments: seq<Shipment>, fee: int): ProfitInput {
    ProfitInput(Store("store", "SAR", "Asia/Riyadh", true), TheOrder(), [], shipments, [], [],
                FeeRuleSet("rules", "SAR", [TheRule(fee)], [], []), Some("2024-01-01"))
  }

  /** The shipments as the gate puts them. */
  function InOrder(shipments: seq<Shipment>): seq<Shipment> { Sorting.Sort(Normalize.ByShipmentId, shipments) }

  function TheForm(shipments: seq<Shipment>): Normalize.Normalized {
    Normalize.Normalized(TheOrder(), [], InOrder(shipments), [], Cogs.CostIndex(map[], map[]))
  }

  lemma TwoDigits(raw: string, i: nat)
    requires i + 2 <= |raw| && Decimal.IsDigit(raw[i]) && Decimal.IsDigit(raw[i+1])
    ensures Instants.DigitsAt(raw, i, i + 2)
        && Instants.Field(raw, i, i + 2) == 10 * Decimal.Digit(raw[i]) + Decimal.Digit(raw[i+1])
  {
    var s := raw[i..i+2];
    assert s == [raw[i], raw[i+1]] && s[..1] == [raw[i]] && s[..1][..0] == "";
    assert Decimal.Value(s[..1]) == Decimal.Digit(raw[i]);
  }

  lemma Joined(raw: string, i: nat, k: nat, j: nat)
    requires i <= k < j && j == k + 2 <= |raw| && Instants.DigitsAt(raw, i, k) && Instants.DigitsAt(raw, k, j)
    ensures Instants.DigitsAt(raw, i, j)
  {
    assert raw[i..j] == raw[i..k] + raw[k..j];
  }

  /** The midnight that a first of January begins with, whatever the year. */
  ghost predicate FirstOfJanuary(raw: string) {
    && |raw| == 24 && (forall i :: 0 <= i < 4 ==> Decimal.IsDigit(raw[i]))
    && raw[4] == raw[7] == '-' && raw[10] == 'T' && raw[13] == raw[16] == ':' && raw[19] == '.' && raw[23] == 'Z'
    && raw[5] == raw[8] == '0' && raw[6] == raw[9] == '1'
    && raw[11] == raw[12] == raw[14] == raw[15] == raw[17] == raw[18] == raw[20] == raw[21] == raw[22] == '0'
  }

  lemma FirstIsAnInstant(raw: string)
    requires FirstOfJanuary(raw)
    ensures Instants.IsInstant(raw)
  {
    hide Decimal.Value, Instants.DigitsAt, Instants.Field, Decimal.AllDigits;
    TwoDigits(raw, 0);
    TwoDigits(raw, 2);
    Joined(raw, 0, 2, 4);
    TwoDigits(raw, 5);
    TwoDigits(raw, 8);
    TwoDigits(raw, 11);
    TwoDigits(raw, 14);
    TwoDigits(raw, 17);
    LastThree(raw);
  }

  lemma NewYear()
    ensures Instants.IsInstant(TheOrder().placedAt)
  {
    hide Instants.IsInstant;
    FirstIsAnInstant(TheOrder().placedAt);
  }

  lemma LastThree(raw: string)
    requires FirstOfJanuary(raw)
    ensures Instants.DigitsAt(raw, 20, 23)
  {
  }

  // ---------------------------------------------------------------- the gate

  lemma TheCardIsGood(fee: int)
    requires 0 <= fee <= MAX_MINOR
    ensures NormalizeLaws.GoodRules(Credited([], fee).feeRuleSet)
  {
    hide Rules.GatewayKey;
    var rules := Credited([], fee).feeRuleSet;
    assert forall f :: f in Normalize.Formulas(rules) ==> f == TheRule(fee).formula;
    assert |Rules.GatewayKeys(rules.gateway)| == 1;
  }

  lemma HeaderIsGood(shipments: seq<Shipment>, fee: int)
    ensures NormalizeLaws.GoodHeader(Credited(shipments, fee))
  {
    hide Instants.IsInstant;
    NewYear();
    assert forall v :: v in Normalize.OrderMoney(TheOrder()) ==> v == 0;
  }

  lemma NoCosts()
    ensures NormalizeLaws.GoodCosts([])
  {
    assert NormalizeLaws.Skus([]) == [];
  }

  lemma CreditedForm(shipments: seq<Shipment>, fee: int)
    requires NormalizeLaws.GoodShipments(shipments) && 0 <= fee <= MAX_MINOR
    ensures Normalize.NormalizeAndValidate(Credited(shipments, fee)) == Normalize.Accepted(TheForm(shipments))
  {
    hide Normalize.Fatals, NormalizeLaws.GoodHeader, NormalizeLaws.GoodRules, NormalizeLaws.GoodShipments,
      NormalizeLaws.GoodCosts, Normalize.ByLineId, Normalize.ByShipmentId, Normalize.ByReversalId;
    HeaderIsGood(shipments, fee);
    TheCardIsGood(fee);
    NoCosts();
    NormalizeLaws.AcceptedIffAcceptable(Credited(shipments, fee));
    assert Sorting.Sort(Normalize.ByLineId, []) == [] && Sorting.Sort(Normalize.ByReversalId, []) == [];
  }

  // --------------------------------------------------------------- the terms

  function NothingEarned(): Revenue.OrderRevenue { Revenue.OrderRevenue([], 0, 0, 0, 0, 0, 0, 0, 0, true) }

  lemma NoRevenue()
    ensures Revenue.ComputeRevenue(TheOrder(), [], CostOnly(CancelledAfterCapture))
      == Ok(Computed(NothingEarned(), [OnOrder(OrderHasNoItems), OnOrder(RecognitionCostOnly)]))
  {
    hide AddMinor;
    var order := TheOrder();
    assert Revenue.LineTotals([]) == [];
    AddMinorFits([]);
    BareOrders.NothingUnreflected(order, OnItems);
    BareOrders.NothingUnreflected(order, OnShipping);
    BareOrders.NothingUnreflected(order, OnCodFee);
    SumOf3(0, 0, 0);
    AddMinorFits([0, 0, 0]);
    SumOf5(0, 0, 0, 0, 0);
    AddMinorFits([0, 0, 0, 0, 0]);
    assert Revenue.ZeroLines([]) == [];
    assert Revenue.RevenueDiagnostics(true, true, CostOnly(CancelledAfterCapture))
        == [OnOrder(OrderHasNoItems), OnOrder(RecognitionCostOnly)];
  }

  lemma TheRuleIsChosen(fee: int)
    ensures Gateway.ChooseRule([TheRule(fee)], TheLeg(), true) == Ok(Some(TheRule(fee)))
  {
    var accepts := Gateway.Accepts(TheLeg(), Some(Visa));
    assert Choice.PickUpTo([TheRule(fee)], accepts, Gateway.Specificity, 0) == None;
    assert Choice.PickUpTo([TheRule(fee)], accepts, Gateway.Specificity, 1) == Some(TheRule(fee));
  }

  lemma TheFee(fee: int)
    requires 0 <= fee <= MAX_MINOR
    ensures Gateway.ComputeGatewayFees(TheOrder(), [TheRule(fee)], true)
        == Ok(Computed(Gateway.GatewayFees(fee, 0, fee, Estimated), []))
  {
    hide Gateway.ChooseRule, Fee.ApplyFee, AddMinor;
    var order, rules := TheOrder(), [TheRule(fee)];
    TheRuleIsChosen(fee);
    Rules.FixedFee(0, fee, true);
    var captured := (p: Payment) => p.state.LegCaptured?;
    assert Sequences.Filter(captured, []) == [] && order.payments[1..] == [];
    assert Gateway.Captured(order.payments) == [0];
    AddMinorOfOne(0);
    AddMinorOfOne(fee);
    var start := Gateway.Gathered([], false, Actual, []);
    assert Gateway.PriceLegs(start, rules, order.payments, true, 0) == Ok(start);
    assert Gateway.Chargeable(order.payments[0]) && Gateway.LegDiagnostics(TheLeg(), 0) == [];
    var g := Gateway.PriceLegs(start, rules, order.payments, true, 1).value;
    assert g.applied == [Fee.AppliedFee(fee, 0, fee)] && g.diagnostics == [];
    assert Gateway.ExVats(g.applied) == [fee] && Gateway.Vats(g.applied) == [0] && Gateway.Costs(g.applied) == [fee];
  }

  lemma NoCash(shipments: seq<Shipment>)
    ensures Cod.ComputeCodCost(TheOrder(), shipments, [], true) == Ok(Computed(Cod.CodCost(0, 0, 0, NoTerm), []))
  {
  }

  /** The recorded charges of one direction add up, in the order of the ids, within the exact range. */
  ghost predicate ChargesAddUp(shipments: seq<Shipment>, direction: Direction) {
    var legs := Shipping.LegsOf(InOrder(shipments), direction);
    AddMinor(Recorded(legs, |legs|)).Ok?
  }

  lemma TheCharges(shipments: seq<Shipment>, direction: Direction)
    requires ChargesAddUp(shipments, direction)
    ensures var r := Shipping.ComputeShippingCost(TheOrder(), InOrder(shipments), [], direction);
      r.Ok? && r.value.value.cost == Charged(shipments, direction) && InRange(Charged(shipments, direction))
  {
    hide Shipping.ComputeShippingCost, Charged, AddMinor, Normalize.ByShipmentId, Sum, Recorded, ChargesOf;
    ShippingIsRecorded(TheOrder(), InOrder(shipments), [], direction);
    Sorting.SortPermutes(Normalize.ByShipmentId, shipments);
    ChargedForgetsOrder(InOrder(shipments), shipments, direction);
    var legs := Shipping.LegsOf(InOrder(shipments), direction);
    RecordedSum(legs, |legs|);
    AddMinorIsSum(Recorded(legs, |legs|));
    ChargedIs(InOrder(shipments), direction);
  }

  lemma ChargedIs(shipments: seq<Shipment>, direction: Direction)
    ensures var charges := ChargesOf(Shipping.LegsOf(shipments, direction));
    Charged(shipments, direction) == Sum(charges[..|charges|])
  {
    var charges := ChargesOf(Shipping.LegsOf(shipments, direction));
    assert charges[..|charges|] == charges;
  }

  lemma CreditedTerms(shipments: seq<Shipment>, fee: int) returns (t: Terms)
    requires ChargesAddUp(shipments, Outbound) && ChargesAddUp(shipments, Return) && 0 <= fee <= MAX_MINOR
    ensures ComputeTerms(Credited(shipments, fee), TheForm(shipments)) == Ok(t)
        && t.recognition == CostOnly(CancelledAfterCapture)
    ensures t.revenue.value == NothingEarned() && ImpactOf(t) == 0
    ensures CostsOf(t) == Costs(0, Charged(shipments, Outbound), Charged(shipments, Return), fee, 0)
  {
    hide Revenue.ComputeRevenue, Shipping.ComputeShippingCost, Gateway.ComputeGatewayFees, Cod.ComputeCodCost,
      LedgerFor, AddMinor, InOrder, Charged, ChargesAddUp, OrderRecognition.LiveOutbound;
    var order, form := TheOrder(), TheForm(shipments);
    assert OrderRecognition.ComputeRecognition(order, form.shipments) == CostOnly(CancelledAfterCapture);
    NoRevenue();
    assert Cogs.LineCosts([]) == [];
    AddMinorFits([]);
    TheCharges(shipments, Outbound);
    TheCharges(shipments, Return);
    TheFee(fee);
    NoCash(form.shipments);
    t := ComputeTerms(Credited(shipments, fee), form).value;
  }

  // ------------------------------------------------------------- the outcome

  /** A fee that brings what was credited back into range, if it was past it. */
  function Counterfee(shipments: seq<Shipment>): int { Max(0, -MAX_MINOR - LiveCharges(shipments)) }

  /** Whatever the shipments were credited beyond what they were charged, up to the range of money, is the order's profit. */
  lemma CreditsAreProfit(shipments: seq<Shipment>) returns (report: Report)
    requires NormalizeLaws.GoodShipments(shipments) && ChargesAddUp(shipments, Outbound) && ChargesAddUp(shipments, Return)
    requires LiveCharges(shipments) < 0
    ensures Reports(Credited(shipments, Counterfee(shipments)), report) && report.recognition.CostOnly?
    ensures report.totals.margin == Min(MAX_MINOR, -LiveCharges(shipments))
  {
    hide ComputeTerms, Normalize.NormalizeAndValidate, ConfidenceOf, AddMinor, AllSpreads, TheOrder, InOrder,
      ChargesAddUp, Charged, NormalizeLaws.GoodShipments, Shipping.ComputeShippingCost;
    var fee, out, back := Counterfee(shipments), Charged(shipments, Outbound), Charged(shipments, Return);
    TheCharges(shipments, Outbound);
    TheCharges(shipments, Return);
    CreditedForm(shipments, fee);
    var t := CreditedTerms(shipments, fee);
    assert ComputeLines([], t) == Ok([]);
    SumOf2(0, 0);
    AddMinorFits([0, 0]);
    SumOf5(0, out, back, fee, 0);
    AddMinorFits([0, out, back, fee, 0]);
    assert CoveredRevenues([]) == [];
    AddMinorFits([]);
    report := ReportOf(Credited(shipments, fee), "2024-01-01", TheForm(shipments), t, [], TotalsOf(t, []).value);
  }

  /** An order without revenue, on these shipments, whose unit costs and payments are not negative. */
  ghost predicate CostOnlyRun(input: ProfitInput, report: Report, shipments: seq<Shipment>) {
    && Reports(input, report) && report.recognition.CostOnly? && input.shipments == shipments
    && UnitCostsCount(input) && PaymentsCount(input)
  }

  ghost predicate NeverProfits(shipments: seq<Shipment>) {
    forall input, report :: CostOnlyRun(input, report, shipments) ==> report.totals.margin <= 0
  }

  /**
   * Whatever its items, costs, refunds and rate card, no order without revenue on these shipments
   * makes a profit if and only if the recorded charges of their live legs sum to at least zero.
   */
  lemma NoProfitIff(shipments: seq<Shipment>)
    requires NormalizeLaws.GoodShipments(shipments) && ChargesAddUp(shipments, Outbound) && ChargesAddUp(shipments, Return)
    ensures NeverProfits(shipments) <==> LiveCharges(shipments) >= 0
  {
    hide NormalizeLaws.GoodShipments, ChargesAddUp, LiveCharges, Reports, UnitCostsCount, PaymentsCount, Credited;
    if LiveCharges(shipments) >= 0 {
      forall input, report | CostOnlyRun(input, report, shipments) ensures report.totals.margin <= 0 {
        NoProfitWithoutRevenue(input, report);
      }
    } else {
      var report := CreditsAreProfit(shipments);
      CreditedCounts(shipments, Counterfee(shipments));
      assert CostOnlyRun(Credited(shipments, Counterfee(shipments)), report, shipments);
    }
  }

  lemma CreditedCounts(shipments: seq<Shipment>, fee: int)
    ensures var input := Credited(shipments, fee); input.shipments == shipments && UnitCostsCount(input) && PaymentsCount(input)
  {
  }

  // -------------------------------------------------------------- one parcel

  function TheParcel(): Shipment { Shipment("parcel", Outbound, DeliveredParcel, "courier", Some(-5), []) }

  lemma LegsOfOne(s: Shipment, direction: Direction)
    ensures Shipping.LegsOf([s], direction) == if s.direction == direction && Live(s.status) then [s] else []
  {
    var p := (x: Shipment) => x.direction == direction && Live(x.status);
    NormalizeLaws.FilterOne(p, s);
    assert Shipping.LegsOf([s], direction) == Sequences.Filter(p, [s]);
  }

  lemma OneParcel()
    ensures var shipments := [TheParcel()];
      && NormalizeLaws.GoodShipments(shipments) && ChargesAddUp(shipments, Outbound) && ChargesAddUp(shipments, Return)
      && LiveCharges(shipments) == -5
  {
    hide AddMinor, Normalize.ByShipmentId;
    var p := TheParcel();
    PlainOrders.SortedOne(Normalize.ByShipmentId, p);
    LegsOfOne(p, Outbound);
    LegsOfOne(p, Return);
    assert Recorded([p], 0) == [] && Recorded([p], 1) == [-5] && Recorded([], 0) == [];
    AddMinorOfOne(-5);
    AddMinorFits([]);
    assert ChargesOf([p]) == [-5] && Sum([-5]) == -5 + Sum([]) && ChargesOf([]) == [];
  }

  /** The gate accepts a negative courier charge, and then an order without revenue shows a profit. */
  lemma CreditedCourierProfits() returns (report: Report)
    ensures Reports(Credited([TheParcel()], 0), report) && report.recognition.CostOnly? && report.totals.margin == 5
  {
    hide NormalizeLaws.GoodShipments, ChargesAddUp, LiveCharges, Reports, Credited;
    OneParcel();
    report := CreditsAreProfit([TheParcel()]);
  }
}
