/** The canonical order the profit engine reads, its rules, and what it reports. */
module Domain {
  import opened Prelude

  // ----------------------------------------------------------------- orders

  datatype Lifecycle = Draft | Open | Completed | Cancelled

  datatype PaymentState = Unpaid | Authorized | Paid | PartiallyRefunded | Refunded | Voided | Failed

  datatype FulfillmentState =
    Unfulfilled | PartiallyFulfilled | InTransit | Delivered | Returned | Rto | NotApplicable

  datatype FulfillmentMethod = ByCarrier | Pickup | SelfDelivery | Digital | OtherMethod

  datatype Instrument = Card | Bnpl | Wallet | Cod | BankTransfer | Free | UnknownInstrument | OtherInstrument

  datatype Scheme = Mada | Visa | Mastercard | Amex | Unionpay | OtherScheme | UnknownScheme

  datatype LegState = LegPending | LegAuthorized | LegCaptured | LegFailed | LegRefunded

  datatype Payment = Payment(
    instrument: Instrument, scheme: Option<Scheme>, provider: Option<string>, state: LegState, amountGross: int)

  datatype DiscountTarget = OnItems | OnShipping | OnCodFee

  datatype Discount = Discount(target: DiscountTarget, reflected: bool, amountExVat: int)

  datatype Destination = Destination(countryCode: string, region: Option<string>)

  datatype Order = Order(
    id: string, placedAt: string,
    lifecycle: Lifecycle, paymentState: PaymentState, fulfillmentState: FulfillmentState, isTest: bool,
    fulfillmentMethod: FulfillmentMethod, destination: Option<Destination>, currency: string,
    subtotalExVat: int, vatAmount: int, shippingChargedExVat: int, codFeeChargedExVat: int, totalIncVat: int,
    discounts: seq<Discount>, payments: seq<Payment>)

  datatype Item = Item(
    id: string, orderId: string, platformLineId: string,
    productId: string, variantId: Option<string>, sku: Option<string>, quantity: int,
    unitPriceExVat: int, grossLineExVat: int, lineDiscountExVat: int, lineTotalExVat: int)

  datatype Direction = Outbound | Return

  datatype ShipmentStatus =
    Created | Moving | OutForDelivery | DeliveredParcel | FailedAttempt | ReturnedToOrigin | CancelledLabel | Lost | UnknownStatus

  datatype Shipment = Shipment(
    id: string, direction: Direction, status: ShipmentStatus, carrier: string,
    carrierCost: Option<int>, lineIds: seq<string>)

  datatype RestockOutcome =
    RestockedSellable | RestockedDamaged | NotRestocked | PendingReceipt | RestockNotApplicable | RestockUnknown

  datatype ReversalLine = ReversalLine(itemId: string, quantity: int, amountExVat: int, restockOutcome: RestockOutcome)

  datatype Reversal = Reversal(
    id: string, orderId: string, amountExVat: int, shippingRefundExVat: int, codFeeRefundExVat: int,
    adjustmentExVat: int, lines: Option<seq<ReversalLine>>, restockOutcome: RestockOutcome)

  datatype CostSource = MerchantManual | MerchantBulkImport | PlatformCost | CategoryDefault | NoSource

  datatype ResolvedCost = ResolvedCost(
    productId: string, variantId: Option<string>, sku: Option<string>, unitCost: int, source: CostSource, historyId: string)

  // ------------------------------------------------------------------ rules

  datatype FeeSource = MerchantEntered | GatewayStatement | DefaultTable

  datatype FeeFormula = FeeFormula(
    percentBps: int, fixed: int, minFee: Option<int>, maxFee: Option<int>, feeVatBps: int,
    ratesIncludeVat: bool, source: FeeSource)

  datatype GatewayRule = GatewayRule(
    formula: FeeFormula, instrument: Option<Instrument>, scheme: Option<Scheme>, provider: Option<string>)

  datatype CodRule = CodRule(formula: FeeFormula, carrier: Option<string>)

  datatype RuleDirection = ForOutbound | ForReturn | ForAny

  datatype ShippingRule = ShippingRule(
    countryCode: Option<string>, region: Option<string>, carrier: Option<string>, direction: RuleDirection, cost: int)

  datatype FeeRuleSet = FeeRuleSet(
    id: string, currency: string, gateway: seq<GatewayRule>, cod: seq<CodRule>, shippingFallback: seq<ShippingRule>)

  datatype Store = Store(storeId: string, currency: string, timezone: string, vatRegistered: bool)

  /** `localDate` stands for the zone conversion: absent when the zone is unknown. */
  datatype ProfitInput = ProfitInput(
    store: Store, order: Order, items: seq<Item>, shipments: seq<Shipment>, reversals: seq<Reversal>,
    costs: seq<ResolvedCost>, feeRuleSet: FeeRuleSet, localDate: Option<string>)

  // ------------------------------------------------------------- provenance

  datatype TermBasis = Actual | Estimated | Missing | NoTerm

  datatype Code =
    // in alphabetical order of the names they are reported under
    | CardSchemeUnknown
    | CarrierCostMissing
    | CodFeeRuleMissing
    | CostEstimated
    | CostMissing
    | CurrencyMismatch
    | DuplicateCostKey
    | DuplicateItemId
    | DuplicateRuleKey
    | FeeRuleDefaultUsed
    | FeeRuleInvalid
    | FeeRuleMissing
    | InternalInvariantViolated
    | InvalidTimezone
    | ItemOrderIdMismatch
    | MalformedInput
    | MalformedTimestamp
    | NegativeQuantity
    | NonIntegerMinorUnits
    | NonIntegerQuantity
    | NoOutboundShipment
    | OrderExcluded
    | OrderHasNoItems
    | PaymentLegsUnderTotal
    | RecognitionCostOnly
    | RestockUnconfirmed
    | ReversalLinesAllocated
    | ReversalLineUnmatched
    | ReversalOrderIdMismatch
    | ReversalTotalMismatch
    | ShippingFallbackMissing
    | ShippingFallbackUsed
    | TotalsDoNotReconcile
    | UnknownPaymentInstrument

  datatype Subject =
    | OfOrder
    | OfLine(itemId: string)
    | OfShipment(shipmentId: string)
    | OfPayment(index: nat)
    | OfReversal(reversalId: string)

  datatype Diagnostic = Diagnostic(code: Code, subject: Subject)

  /** A value together with the diagnostics its computation raised. */
  datatype Computed<+T> = Computed(value: T, diagnostics: seq<Diagnostic>)

  function OnOrder(code: Code): Diagnostic { Diagnostic(code, OfOrder) }

  datatype RecognitionReason =
    RtoUncollected | CancelledAfterDispatch | CancelledAfterCapture | PaymentNotSettled | GoodsLost

  datatype ExclusionReason = TestOrder | DraftOrder | CancelledBeforeEffect

  datatype Recognition = Recognized | CostOnly(reason: RecognitionReason) | Excluded(why: ExclusionReason)

  predicate Dispatched(state: FulfillmentState) {
    state.PartiallyFulfilled? || state.InTransit? || state.Delivered? || state.Returned? || state.Rto?
  }

  /** Every leg counts unless its label was cancelled. */
  predicate Live(status: ShipmentStatus) { !status.CancelledLabel? }

  /** Sources that know the cost, rather than guess it. */
  predicate IsExact(source: CostSource) {
    source.MerchantManual? || source.MerchantBulkImport? || source.PlatformCost?
  }
}
