# Ghalla profit engine, ingestion queue, cost history and billing: a verified model

This project models five parts of the Ghalla repository in Dafny and proves what each of them promises.

- **The profit engine** (`packages/core`). One order, with its items, shipments, reversals, costs and rate card, becomes exact
  integer totals, a per-line breakdown, and a statement of how far to trust them. Money is an `int` bounded by `MAX_MINOR`;
  every place the code throws is an `Err`, so most engine theorems speak of an order that computes.
  `Profit.ComputeOrderProfit` is the whole pipeline as it runs, loop by loop; `Profit.Compute` is the function it is proved
  equal to, and the theorems about whole orders are about that function.
- **The ingestion queue** (`WebhookEventRepository`). A table of deliveries on which enqueue, claim, finish, skip, fail, reap and
  requeue are atomic steps, taken by any workers in any interleaving; a crash is a step that is never taken.
- **Cost history** (`CostHistoryRepository`). Windows that are closed and opened but never rewritten, read as of a moment.
- **Subscription events** (`packages/billing`). An ordering guard, deferred downgrades and reconciliation over one row per store.
- **The kernels they rest on.** Largest-remainder allocation, half-away-from-zero rounding, the money printer and parser, and
  civil-date arithmetic. Instants follow the profile of RFC 3339 section 5.6 the code accepts, with the month lengths of section
  5.7 (second 60 is rejected); comparing them as text, as section 5.1 describes, is proved to compare the moments.

The files follow the source: `Money`, `Allocation`/`Allocator`, `Fee`, `Gateway`, `Shipping`, `Cod`, `Recognition`, `Revenue`,
`Cogs`, `CappedSpread`, `Reversal`/`ReversalLoop`, `AllocateLines`, `Normalize`, `Confidence`, `Profit`, `Queue`, `CostHistory`,
`Plans`, `Subscription`, `BillingHandler`. A file named `…Laws` holds the theorems about the file it is named for. `TermLaws`,
`ProfitLaws`, `ReturnLaws`, `ReportLaws`, `TrustLaws`, `RejectionLaws` and `RuleOrderLaws` (with `RuleTies`) hold those about whole
orders. `BareOrders` and `PlainOrders` are families of orders they apply to, `ShortReturns` holds single orders of note, and
`CourierCredit` what negative courier charges do. `Doubles` is the one expression of the engine that divides in double precision.

What each operation does is also stated in words of its own, apart from the functions that compute it, and proved of them:
`Splits` (an allocation), `Fee.IsFee` (a fee), `ChargeLaws` and `CashLaws` (the fee terms leg by leg), `ParcelLaws` (freight),
`LineShareLaws` (what a line carries), `TakeBackLaws`, `StockBackLaws` and `RestockLaws` (what comes back), `FigureLaws` (revenue and
cost of goods), `GateLaws` (what is rejected), `RetryLaws` (the queue's writes and delays), `BillingLaws` (the subscription row), and
`OrderLegLaws` and `OrderFigureLaws` for whole reports. Those words name the order's own fields; where they leave a choice open, a
lemma shows that they do not (`Splits.OneSplit`, `Fee.OneFee`, `CostHistoryLaws.OneAnswer`).

Properties the code does not have are stated as such, each with an input that shows it and the exact condition under which it holds:

- a whole, saleable refund returns the whole cost of goods: `ShortReturns.WholeRefundShort` returns one unit less;
  `ReturnLaws.FullRefundReturnsEveryCost` and `ReturnLaws.RefundCoversIff` say when it does return all of it.
- a refund credits what its lines can take: `ShortReturns.DroppedCredit`; `ReversalLaws.LumpReversalPlaces`.
- an unnamed card scheme costs at least what any scheme would: `Rules.UnknownSchemeCanCostLess`; `Rules.UnknownSchemeCostsMost` for
  one card, `Rules.PromiseNeedsTheTopTier` over all prices of its rows.
- the order of a rate card's rows shows nowhere: `RuleTies.TieSplitsDiffer`; `RuleTies.RowOrderShowsOnTies`.
- the order of arrival shows nowhere: `RejectionLaws.TwoRejections`; `RejectionLaws.OutcomeForgetsOrderIff`.
- an order without revenue makes no profit: `CourierCredit.CreditedCourierProfits`; `CourierCredit.NoProfitIff`, on what its
  couriers recorded.
- a processed event stays processed: `QueueLaws.LateFailureReopens`; `QueueLaws.FinishedStaysIff`.
- a product resolves to its own cost: `CostHistoryLaws.KeyTextsCollide`; `CostHistoryLaws.ResolvesToTheWindow`.
- the tier paid for is kept to the end of the period that was paid: `SubscriptionLaws.ShortenedPeriodLosesTheTier`,
  `SubscriptionLaws.DeferredToAShorterEnd`; `SubscriptionLaws.TierIsSafeIff` from every row the handler reaches by one more event, and
  `SubscriptionLaws.TierIsSafeOverRunsIff` by any number of them.

Where the code and its comments disagree the model follows the code:

- packages/core/src/confidence.ts:39-40 calls the confidence record a projection of the diagnostics; it is computed from the terms
  beside them, so that the two agree is a theorem (`TrustLaws.HonestConfidence`) and not a definition.
- packages/persistence/src/repositories/webhook-event.repository.ts:123 promises exactly-once processing; a failure reported late
  makes a processed event due again (`QueueLaws.LateFailureReopens`).
- packages/persistence/src/repositories/cost-history.repository.ts:126-128 expects two rows under one key to reach the engine as a
  fatal duplicate. The maps answer each wanted key once, so where two products write the same key text an order with one of them
  takes the other's cost without a remark (`CostHistoryLaws.KeyTextsCollide`), exactly when the other's current row sorts first
  (`CostHistoryLaws.ResolvesToTheWindow`).
- packages/core/src/engine/reversal.ts:304-308 says a full refund of every item returns the stock; in doubles it can return one unit
  less (`ShortReturns.WholeRefundShort`).

## Model

| member | source | states |
|---|---|---|
| Money.AddMinorLoop | packages/core/src/money.ts:27-36 | the guarded left-to-right sum, partial sums checked, equals its specification |
| Money.AddMinorIsSum | packages/core/src/money.ts:27-36 | a guarded sum that returns at all returns the mathematical sum, in range |
| Money.AddMinorSucceeds | packages/core/src/money.ts:27-36 | without negative addends only the final sum can fail it |
| Money.DivisionRounds | packages/core/src/money.ts:55-75 | division fails exactly on an unsafe numerator or a divisor that is not a positive safe integer, and otherwise rounds half away from zero |
| Money.RoundingIsUnique | packages/core/src/money.ts:55-75 | rounding half away from zero has one answer, so the specification pins the result |
| Money.DivisionIsOdd | packages/core/src/money.ts:55-75 | negating the numerator negates the quotient: a reversal undoes a charge exactly |
| Money.DivisionIsMonotone | packages/core/src/money.ts:55-75 | rounding never reverses an order |
| Money.RateMultiplicationIsSafe | packages/core/src/money.ts:82-90 | for every amount in range and every rate up to 100% no intermediate leaves the exact range and the result is the rounded product |
| Money.MulBpsIsOdd | packages/core/src/money.ts:82-90 | a rate of a negated amount is the negated rate |
| Money.MulBpsIsMonotone | packages/core/src/money.ts:82-90 | a larger amount never yields a smaller rate of it |
| Money.VatRoundTrip | packages/core/src/money.ts:108-122 | adding VAT at 0 to 100% and splitting it off again returns the net amount to the unit |
| Money.SplitIsMonotone | packages/core/src/money.ts:116-122 | the net part of a VAT-inclusive amount grows with it |
| AllocationLaws.PortionsAreOptimal | packages/core/src/money.ts:130-222 | no other integer split with the same sum has a smaller total distance from the exact proportional shares |
| AllocationLaws.ShortfallBounds | packages/core/src/money.ts:190-213 | the shortfall is at least zero and less than the number of rows, so the top-up loop always uses it up |
| Allocator.AllocateMinor | packages/core/src/money.ts:149-222 | the allocation with its sorts, maps and top-up loop equals the specified shares, or fails as specified |
| Allocator.TopUp | packages/core/src/money.ts:206-213 | the counting loop gives one extra unit to exactly the first rows of the ranking |
| Allocator.SharesContract | packages/core/src/money.ts:130-222 | shares sum to the total, each is less than one unit from its quota and has the total's sign, and a zero weight gets nothing when any weight is positive |
| Allocator.SharesFollowWeights | packages/core/src/money.ts:149-222 | a strictly larger positive weight never takes the smaller part of the total, of either sign |
| Allocator.SharesAreOdd | packages/core/src/money.ts:149-222 | negating the total negates every share |
| Allocator.SharesAreOptimal | packages/core/src/money.ts:130-222 | optimality for totals of either sign |
| Allocator.AllocateFails | packages/core/src/money.ts:149-170 | allocation succeeds exactly on distinct keys with in-range shares, or on nothing to allocate over nothing |
| Allocator.AllocateHolds | packages/core/src/money.ts:149-222 | a successful allocation has one entry per key, its share, and the exact total |
| Allocator.AllocateForgetsOrder | packages/core/src/money.ts:141-143 | the result, success or failure, is a function of the set of buckets and not of their order |
| Splits.SharesSplit | packages/core/src/money.ts:130-222 | what is handed out adds up to the total with its sign, each share is its exact part rounded up or down, and rows are rounded up in the order of larger remainder, larger weight, smaller key |
| Splits.OneSplit | packages/core/src/money.ts:130-222 | over distinct keys no other shares satisfy that, so these words pin every share of every allocation |
| Fee.FeeIsMonotone | packages/core/src/engine/fee.ts:33-49 | a validated card never charges less for a larger base, through rate, clamp and VAT |
| Fee.FeeIsNonNegative | packages/core/src/engine/fee.ts:33-49 | nothing charged on a non-negative base under a validated card is negative |
| Fee.QuoteBounds | packages/core/src/engine/fee.ts:33-40 | the quote respects the merchant's floor and cap |
| Fee.WithVatFacts | packages/core/src/engine/fee.ts:40-49 | an inclusive quote is conserved by its split, an exclusive one is added to, and only an unregistered merchant bears the VAT |
| Fee.FeeIsTheCards | packages/core/src/engine/fee.ts:33-49 | whatever is charged is the rounded percentage plus the fixed part, raised to the floor, then lowered to the cap, with its VAT taken out or put on, rounded half away from zero, and borne only outside VAT |
| Fee.OneFee | packages/core/src/engine/fee.ts:33-49 | no other fee satisfies these words |
| Gateway.BestRuleLoop | packages/core/src/engine/gateway.ts:35-50 | the scan keeping the best rule equals the first rule of highest specificity |
| Gateway.ChooseRuleLoop | packages/core/src/engine/gateway.ts:136-153 | known schemes by best rule, unknown ones by the dearest candidate, errors included |
| Gateway.PriceLegStep | packages/core/src/engine/gateway.ts:129-169 | one leg's step over the pushed lists and flags equals its specification |
| Gateway.ComputeGatewayFeesLoop | packages/core/src/engine/gateway.ts:93-182 | the whole walk with its flags and pushed lists equals its specification |
| Rules.BestRuleForgetsOrder | packages/core/src/engine/gateway.ts:25-50 | with no duplicate key the choice is the one matching rule more specific than every other, whatever the row order |
| Rules.CandidatesAreTopTier | packages/core/src/engine/gateway.ts:61-80 | the candidates for an unnamed scheme are exactly the eligible rules of the highest specificity |
| Rules.UnknownSchemeCostsMost | packages/core/src/engine/gateway.ts:138-151 | where the rows price the amount, an unnamed scheme costs at least what a given scheme would exactly when some eligible row of the highest specificity costs at least that much |
| Rules.PromiseNeedsTheTopTier | packages/core/src/engine/gateway.ts:61-80 | whatever the rows charge, the promise holds if and only if the scheme's own row is among the most specific that apply |
| Rules.UnknownSchemeCanCostLess | packages/core/src/engine/gateway.ts:138-151 | outside that tier the promise fails, on a two-row card |
| Rules.ShippingRuleForgetsOrder | packages/core/src/engine/shipping.ts:55-85 | the rule found applies, a rule for the direction beats any for either, the most specific wins within a class, none is found exactly when none applies, and row order is no matter |
| Rules.CodRuleForgetsOrder | packages/core/src/engine/cod.ts:65-77 | a carrier's own rule beats the general one, none is found exactly when none serves the carrier, and row order is no matter |
| RuleTies.RowOrderShowsOnTies | packages/core/src/engine/gateway.ts:136-153 | every order of the rows prices a leg by the same row if and only if the scheme is named or no two rows tie as the dearest of the top tier |
| RuleTies.TieSplitsDiffer | packages/core/src/engine/gateway.ts:138-178 | on a card the gate accepts in either order, a tie in cost makes the VAT and the remarks of the gateway term depend on row order |
| Shipping.MatchShippingRuleLoop | packages/core/src/engine/shipping.ts:55-85 | both scans equal their specification |
| Shipping.ComputeShippingCostLoop | packages/core/src/engine/shipping.ts:99-171 | the walk over live legs with its flags and parcels equals its specification |
| CashOnDelivery.RuleForLoop | packages/core/src/engine/cod.ts:65-77 | the scan equals the first rule of highest score for the carrier |
| CashOnDelivery.ComputeCodCostLoop | packages/core/src/engine/cod.ts:44-128 | legs, the split between carriers and their charges equal their specification |
| TermLaws.GatewayIsSound | packages/core/src/engine/gateway.ts:93-182 | the term's cost is its net part plus irrecoverable VAT, and never negative on non-negative captures |
| TermLaws.LegsAreAccountedFor | packages/core/src/engine/gateway.ts:129-169 | the fees are those of the captured legs with a gateway, each by its own rule and in order of the legs; exactly the legs no rule matches are remarked on, each under its position |
| TermLaws.GatewayIsHonest | packages/core/src/engine/gateway.ts:107-171 | a settled gateway term raised nothing but an unknown instrument |
| ChargeLaws.ChoiceIsRight | packages/core/src/engine/gateway.ts:25-80 | the chosen row agrees with the leg in every column it fills in and none that does is finer; of equals it is the first or, where the scheme is untold, the dearest and the first of those; and the fee is the one it asks |
| ChargeLaws.GatewayIsItsLegs | packages/core/src/engine/gateway.ts:93-182 | every captured leg that is neither cash nor free is charged once, in order, by its right row, or no row covers it; the three totals are the sums of those fees; the basis is missing, absent, estimated or actual each by its exact condition; and exactly what is so is remarked on |
| TermLaws.PortionsSplit | packages/core/src/engine/cod.ts:81-91 | splitting a cash leg between carriers conserves it and leaves no part negative |
| TermLaws.CodIsSound | packages/core/src/engine/cod.ts:93-128 | the term's cost is its net part plus irrecoverable VAT, and never negative on non-negative cash |
| TermLaws.CodIsHonest | packages/core/src/engine/cod.ts:93-128 | a settled cash-on-delivery term raised nothing |
| CashLaws.CarriersTravelled | packages/core/src/engine/cod.ts:61-63 | the carriers are exactly those of outbound legs whose label was not cancelled, each once and in text order |
| CashLaws.CashIsItsLegs | packages/core/src/engine/cod.ts:44-128 | every leg captured in cash is split evenly between those carriers by largest remainder, each part is charged by the first row for its carrier, else the first general one, at the fee that row asks, or at nothing where no row serves it; totals, basis and remarks follow exactly |
| TermLaws.ShippingTies | packages/core/src/engine/shipping.ts:132-171 | a term with parcels costs exactly their sum |
| TermLaws.ShippingIsNonNegative | packages/core/src/engine/shipping.ts:99-171 | neither the term nor a parcel is negative when no courier charge is |
| TermLaws.ShippingIsHonest | packages/core/src/engine/shipping.ts:99-171 | a settled shipping term raised nothing |
| ParcelLaws.MatchIsRight | packages/core/src/engine/shipping.ts:55-85 | the rate found suits order, carrier and direction, a rate for one way comes before any for either, none that suits is finer, of equals it is the first, and none is found only where none suits |
| ParcelLaws.ShippingIsItsLegs | packages/core/src/engine/shipping.ts:99-171 | every live leg counts for what its courier recorded, else for its right rate where a carrier delivers, else for nothing; the parcels are the legs that count and the cost is their sum; without a leg one parcel is estimated or nothing is; basis and remarks follow exactly |
| OrderRecognition.RevenueCountsIff | packages/core/src/engine/recognition.ts:35-78 | revenue counts exactly on real orders whose money was neither refused, nor uncollected on goods gone, nor given back by a cancellation |
| OrderRecognition.NothingCountsIff | packages/core/src/engine/recognition.ts:35-78 | costs are dropped exactly on test and draft orders and on orders that ended before anything moved |
| OrderRecognition.RecognizedAsItIs | packages/core/src/engine/recognition.ts:35-78 | each of the nine readings holds under its own exact condition on states and shipments |
| Revenue.LineRevenueTies | packages/core/src/engine/revenue.ts:55-73 | after the item discount is spread the lines' nets sum to gross less the discount |
| Revenue.RevenueTies | packages/core/src/engine/revenue.ts:83-161 | however recognized, revenue is the lines' nets plus net shipping and cash-fee revenue, and gross less all discounts |
| FigureLaws.RevenueInWords | packages/core/src/engine/revenue.ts:55-161 | the figures reconcile exactly when lines, subtotal, unreflected discounts, charges, VAT and total agree; each line earns its total less its part, by largest remainder, of the item discounts; and exactly what is so is remarked on |
| Cogs.ComputeCogsLoop | packages/core/src/engine/cogs.ts:44-93 | the loop over items with its flags equals its specification |
| Cogs.CogsTies | packages/core/src/engine/cogs.ts:44-93 | the order's cost of goods is the sum of its lines', which follow the items |
| Cogs.CostLinesFacts | packages/core/src/engine/cogs.ts:44-93 | every line costs unit cost times quantity, and a missing or estimated cost always leaves a flag |
| FigureLaws.CostsInWords | packages/core/src/engine/cogs.ts:44-93 | a cost is flagged missing exactly when some item has no row, estimated exactly when some row is from a source that guesses, and exactly those items are remarked on |
| FigureLaws.CostOfInWords | packages/core/src/engine/cogs.ts:44-60 | an item costs what the row of its written product and variant says, else that of its non-empty SKU, else nothing |
| CappedSpread.SpreadLoop | packages/core/src/engine/reversal.ts:165-170 | adding the shares into the tally equals its specification |
| CappedSpread.SpreadConserves | packages/core/src/engine/reversal.ts:165-170 | the tally's total moves by exactly the amount spread |
| CappedSpread.SpreadCappedLoop | packages/core/src/engine/reversal.ts:181-213 | the while loop shrinking `open` and `remaining` terminates and equals its specification |
| CappedSpreadLaws.RoundsPlaceEverything | packages/core/src/engine/reversal.ts:193-212 | with headroom on every open line it takes at most as many rounds as there are open lines, places the smaller of the amount and the room, and overfills no line |
| CappedSpreadLaws.SpreadCappedPlaces | packages/core/src/engine/reversal.ts:190-212 | from any tallies, the smaller of amount and room is placed if and only if the first allocation offers something to a line with headroom, or there is nothing to place |
| CappedSpreadLaws.WholeReturn | packages/core/src/engine/reversal.ts:181-213 | from empty tallies a share credits no line more than its cost, and every line all of it exactly when the share covers the cost of all the goods |
| Doubles.ProrateIsFloor | packages/core/src/engine/reversal.ts:301 | while cost times refund is a safe integer, the proration in doubles is the floor of the true quotient, for costs of either sign |
| Doubles.WholeProrationIff | packages/core/src/engine/reversal.ts:301 | prorating by the whole revenue gives the whole cost back exactly when what the product lost to rounding, scaled like the quotient, is at most half of that revenue |
| Doubles.ProratedShort | packages/core/src/engine/reversal.ts:301 | a cost of 95433703 and a whole refund of 97554855, whose product is no safe integer, prorate to one unit less than the cost |
| ReversalLoop.ApplyLinesLoop | packages/core/src/engine/reversal.ts:239-270 | the three maps updated line by line equal their specification |
| ReversalLoop.ComputeReversalImpactLoop | packages/core/src/engine/reversal.ts:69-347 | the whole computation over its mutable tallies equals its specification |
| ReversalLaws.RefundConservation | packages/core/src/engine/reversal.ts:215-341 | reversed revenue over the lines sums to the larger of stated and line amounts plus shipping, COD and adjustment refunds; unmatched lines lose nothing |
| ReversalLaws.ReversalsBoundQuantity | packages/core/src/engine/reversal.ts:254-261 | however many reversals claim a line, the units credited never exceed those ordered |
| ReversalLaws.ReturnsAreBounded | packages/core/src/engine/reversal.ts:314-341 | each line's returned units and cost are bounded by what it had, and the order's figures are the lines' sums |
| ReversalLaws.FullRefundReturnsEverything | packages/core/src/engine/reversal.ts:292-310 | a line-less saleable refund of the whole item revenue credits each line its whole cost if and only if the proration in doubles is not short of the cost of all the goods, which it is not while cost times refund is a safe integer |
| ReversalLaws.LumpReversalPlaces | packages/core/src/engine/reversal.ts:292-310 | among other reversals, a line-less saleable refund credits the smaller of its share and the room left exactly when there is nothing to credit, no room, or its first allocation reaches a line with room; otherwise it credits nothing |
| ReversalLaws.ImpactHonest | packages/core/src/engine/reversal.ts:222-288 | unless flagged as allocated, an impact raised nothing but unconfirmed restocks |
| TakeBackLaws.ReversalsTake | packages/core/src/engine/reversal.ts:165-309 | line by line, the money taken back is what each reversal names there, plus the split by the items' totals of what its lines leave over, name elsewhere, or belongs to no line; a reversal without lines is split whole |
| TakeBackLaws.ReversalsNote | packages/core/src/engine/reversal.ts:221-309 | exactly the mismatched, unmatched, unconfirmed and allocated reversals are remarked on, and the result is flagged as allocated exactly when some share is a split |
| StockBackLaws.SpreadFills | packages/core/src/engine/reversal.ts:181-213 | a lump of goods goes to the lines with a cost: none past its cost, none less than its first share or its room, and together the smaller of lump and room, or nothing when no first share lands |
| StockBackLaws.ReversalsPutBack | packages/core/src/engine/reversal.ts:215-309 | reversal by reversal, the shelf grows by unit cost times the units that count, were ordered and came back saleable, or by the prorated lump |
| RestockLaws.LineLeavesShelf | packages/core/src/engine/reversal.ts:266-269 | a reversal line whose goods are not restocked as sellable leaves the restock tally as it was |
| RestockLaws.LumpLeavesShelf | packages/core/src/engine/reversal.ts:292-310 | so does a reversal without lines |
| RestockLaws.WhatComesBack | packages/core/src/engine/reversal.ts:69-347 | on a reported order: all goods at cost where it never left or a return leg says they are back; nothing, with a remark, where it was returned to origin without one; otherwise, line by line, the units claimed up to those ordered, the goods put back up to their cost, and the money taken |
| RestockLaws.OriginReturns | packages/core/src/engine/reversal.ts:136-141 | an order returned to origin uncollected has every line's quantity and cost back when a return shipment is returned or delivered, and otherwise nothing back and an unconfirmed restock in its remarks |
| RestockLaws.NeverLeftComesBack | packages/core/src/engine/reversal.ts:83-134 | an order cancelled or unsettled that was never sent has every line's quantity and cost back |
| RestockLaws.OnlySellableGoodsCount | packages/core/src/engine/reversal.ts:32-33 | where no outcome is restocked as sellable, no line has any cost back |
| AllocateLines.SpreadParcelsLoop | packages/core/src/engine/allocate-lines.ts:84-101 | the nested accumulation with its early fall-back equals its specification |
| AllocateLines.AllocateOrderCostsToLinesLoop | packages/core/src/engine/allocate-lines.ts:37-183 | the breakdown as assembled line by line equals its specification |
| AllocateLinesLaws.SpreadParcelsTies | packages/core/src/engine/allocate-lines.ts:84-101 | through every path freight over the lines sums to what the parcels cost |
| AllocateLinesLaws.SpreadReturnTies | packages/core/src/engine/allocate-lines.ts:111-122 | return freight sums to its cost, by returned weights or by parcels |
| AllocateLinesLaws.LinesTie | packages/core/src/engine/allocate-lines.ts:117-182 | every column of the breakdown sums exactly to the figure it was spread from, and the margins to the margin of the sums |
| LineShareLaws.FreightShares | packages/core/src/engine/allocate-lines.ts:84-102 | with every parcel placed, each parcel's cost is split by largest remainder over the lines it holds and a line carries its parts, none of parcels that do not hold it; otherwise the whole is split over all lines |
| LineShareLaws.ReturnShares | packages/core/src/engine/allocate-lines.ts:111-122 | return freight is split by reversed revenue when any line has some, and as outbound freight is otherwise |
| OrderLegLaws.LinesShareTheOrder | packages/core/src/engine/allocate-lines.ts:37-182 | on a reported order the columns of shipping and cash-fee revenue, gateway and cash-on-delivery cost are each the split of their total by the items' own line totals; outbound freight follows the parcels that hold a line and return freight what was reversed |
| Normalize.ValidateFeeRuleSet | packages/core/src/engine/normalize.ts:64-99 | the validator's pushes over its growing key sets equal the specified fatals |
| Normalize.NormalizeAndValidateLoop | packages/core/src/engine/normalize.ts:111-276 | the whole gate, with its sets and maps, equals its specification |
| NormalizeLaws.AcceptedIffAcceptable | packages/core/src/engine/normalize.ts:111-264 | an input is accepted exactly when its header, rules, items, reversals, shipments and costs are each well-formed and duplicate-free |
| GateLaws.FatalsAreTheDefects | packages/core/src/engine/normalize.ts:64-276 | a fatal diagnostic is raised, under its code and subject, exactly when the input has that defect |
| GateLaws.AcceptedIffSound | packages/core/src/engine/normalize.ts:111-276 | an input is accepted exactly when it has no defect, and rejected with exactly its defects |
| NormalizeLaws.CostIsTheRightRow | packages/core/src/engine/normalize.ts:251-262 | an item's cost is its product's row, its SKU's row only when no row names the product, and nothing otherwise |
| NormalizeLaws.NormalizationForgetsOrder | packages/core/src/engine/normalize.ts:172-275 | acceptance and the canonical form do not depend on order of arrival; what a rejection says is `RejectionLaws.OutcomeForgetsOrderIff` |
| Diagnostics.SortedReportForgetsOrder | packages/core/src/engine/diagnostics-builder.ts:42-64 | the report's order depends on which diagnostics were raised, not on when: ties in the sort are the same diagnostic |
| Confidence.LevelsPartition | packages/core/src/engine/confidence.ts:30-59 | exact and incomplete each hold under an exact condition on terms and diagnostics; estimated is the rest |
| OrderFigureLaws.ConfidenceIsEarned | packages/core/src/compute-order-profit.ts:232-256 | the confidence of a report, part by part: revenue by its figures agreeing, cost of goods by its cost rows and what came back, reversals by what they name, and the level by all of them |
| Profit.ComputeOrderProfit | packages/core/src/compute-order-profit.ts:84-272 | the pipeline as it runs equals the function the theorems are about, rejections included |
| ProfitLaws.ReingestionInvariance | packages/core/src/compute-order-profit.ts:112-272 | permuting items, shipments, reversals and cost rows gives the identical result, or a rejection on both sides |
| RejectionLaws.OutcomeForgetsOrderIff | packages/core/src/compute-order-profit.ts:84-126 | every order of arrival comes to the same outcome, remarks of a rejection included, if and only if items that share a platform line share an id |
| RejectionLaws.TwoRejections | packages/core/src/engine/normalize.ts:177-191 | any order with one platform line under two ids has two arrival orders whose rejections differ |
| ProfitLaws.TotalsTie | packages/core/src/compute-order-profit.ts:56-82 | on every computed order revenue and margin obey their formulas, impact is restocked less reversed, and the rate is the rounded ratio or absent |
| ProfitLaws.RateIsRounded | packages/core/src/compute-order-profit.ts:280-283 | the margin rate is the exact ratio in basis points rounded half away from zero, and absent without revenue |
| ProfitLaws.ExactTie | packages/core/src/compute-order-profit.ts:69-82 | on every counted order with items, line margins and every cost, revenue and reversal column sum to their totals exactly |
| ReportLaws.FiguresAreTheOrders | packages/core/src/compute-order-profit.ts:204-230 | the revenue figures of a recognized order are what it charged and every unreflected discount, of any other order zero; covered revenue is what the lines cover |
| ReportLaws.LinesDescribeTheirItems | packages/core/src/engine/allocate-lines.ts:129-182 | each reported line names one of the order's items, its quantity, and the cost, source and history row resolved for it |
| ReportLaws.LineMarginsAddUp | packages/core/src/engine/allocate-lines.ts:144-147 | each line's margin is its own revenue and impact less its own five costs |
| OrderLegLaws.OrderGateway | packages/core/src/compute-order-profit.ts:140-141 | a report's three gateway figures and its gateway confidence are those of the captured legs and their right rows, and what is so of them is remarked on |
| OrderLegLaws.OrderCash | packages/core/src/compute-order-profit.ts:143-144 | the same of its cash-on-delivery figures, leg by leg and carrier by carrier |
| OrderLegLaws.OrderFreight | packages/core/src/compute-order-profit.ts:134-138 | the same of its freight, out and back |
| OrderFigureLaws.LinesEarnTheirs | packages/core/src/compute-order-profit.ts:180-196 | each reported line earns its item's total less its split part of the item discounts, and the lines together the shipping and cash fees charged less their discounts; a cost-only order's earn nothing |
| OrderFigureLaws.RemarksAreSo | packages/core/src/compute-order-profit.ts:125-167 | whatever a report remarks on is so, by some term, and what is so of revenue, costs and returns it remarks on |
| OrderFigureLaws.OutcomeInWords | packages/core/src/compute-order-profit.ts:84-125 | an order with a defect is rejected for exactly its defects, one without a local date for its time zone, and any other is reported under its store, day, card and right reading, or rejected with one remark on the order |
| ProfitLaws.ExcludedCountsNothing | packages/core/src/compute-order-profit.ts:167-184 | an excluded order has no revenue, cost, margin or line |
| ReturnLaws.ReturnsNeverExceedTheLine | packages/core/src/engine/reversal.ts:314-334 | in every computed order no line returns more units than ordered, nor more cost than its goods had |
| ReturnLaws.ReturnsNeverExceedTheOrder | packages/core/src/engine/reversal.ts:314-341 | in every computed order whose unit costs are not negative the restocked cost is between zero and the cost of goods |
| ReturnLaws.RefundsAreConserved | packages/core/src/engine/reversal.ts:215-341 | the reversed revenue of a computed order is exactly what its reversals took back |
| ReturnLaws.FullRefundReturnsEveryCost | packages/core/src/engine/reversal.ts:292-310 | a whole saleable refund of a recognized order gives every line its cost of goods back, and the order all of it, if and only if the proration in doubles is not short of it, which it is not while cost times refund is a safe integer |
| ShortReturns.WholeRefundShort | packages/core/src/engine/reversal.ts:292-310 | an accepted one-item order whose whole saleable refund returns one unit less than its goods cost |
| ShortReturns.DroppedCredit | packages/core/src/engine/reversal.ts:211 | an accepted two-line order whose second refund, worth a share of 5, credits nothing although 10 would fit |
| ReturnLaws.RefundCoversIff | packages/core/src/engine/reversal.ts:301 | that proration is not short exactly when what the product of cost and refund lost to rounding, scaled like the quotient, is at most half of the refund |
| ReturnLaws.NoProfitWithoutRevenue | packages/core/src/compute-order-profit.ts:169-202 | a cost-only order has no revenue, and no profit where unit costs and payments are not negative and the recorded charges of its live legs sum to at least zero; nor has a line of it where no single charge is negative |
| CourierCredit.NoProfitIff | packages/core/src/compute-order-profit.ts:169-202 | for accepted shipments whose charges add up in each direction: no cost-only order on them with unit costs and payments not negative makes a profit, whatever else it holds, if and only if the recorded charges of their live legs sum to at least zero |
| CourierCredit.CreditedCourierProfits | packages/core/src/compute-order-profit.ts:169-202 | one parcel recorded at -5, which the gate accepts, gives a cost-only order a profit of 5 |
| TermLaws.ShippingCovers | packages/core/src/engine/shipping.ts:99-171 | with no negative rate on the card, a shipping term costs at least what its live legs recorded |
| TrustLaws.HonestConfidence | packages/core/src/compute-order-profit.ts:232-256 | an order badged exact carries only the cost-only and unknown-instrument remarks, across all computations |
| TrustLaws.FeeTotalsTie | packages/core/src/compute-order-profit.ts:216-221 | both fee terms cost their net part plus the VAT only when it cannot be reclaimed |
| RuleOrderLaws.RuleOrderMovesNoMargin | packages/core/src/compute-order-profit.ts:112-272 | of an order one order of a card's rows computes, another computes the same lines, totals, margin and confidence exactly when the legs' VAT still adds up in range; only the gateway fee's split and remarks may differ |
| RuleOrderLaws.RuleOrderIsInvisible | packages/core/src/compute-order-profit.ts:112-272 | where no leg of an unnamed scheme has a tie, reordering the rows of an accepted card changes nothing of the outcome, VAT and remarks included |
| RuleOrderLaws.GatewayCostForgetsRuleOrder | packages/core/src/engine/gateway.ts:138-178 | where one order of the rows computes the term, another does exactly when the legs' split still adds up in range, and then cost and basis are the same, ties included |
| BareOrders.BareOrdersCompute | packages/core/src/compute-order-profit.ts:112-272 | an accepted order that only has items and refunds computes whenever its figures are in range, and reports line by line what its refunds brought back |
| BareOrders.BareTermsCompute | packages/core/src/compute-order-profit.ts:126-165 | what every term of such an order is, computation by computation |
| PlainOrders.PlainOrdersCompute | packages/core/src/compute-order-profit.ts:112-272 | for every price and cost in range, an order of one costed digital item computes with margin price less cost and is badged exact, so the theorems about computed orders have orders to speak of |
| Instants.NextDayIsOneMore | packages/core/src/engine/business-date.ts:40-47 | the calendar's next day has a day number exactly one larger, for every real date |
| Instants.EpochIsDayZero | packages/core/src/engine/business-date.ts:40-47 | the first of January 1970 is day zero |
| Instants.DaysFollowDates | packages/core/src/engine/business-date.ts:40-47 | earlier dates have smaller day numbers |
| Instants.TextOrderIsTimeOrder | packages/contracts/src/time.ts:37-68 | for calendar-valid instants comparing the text compares the moments |
| MoneyText.ReadsExactly | packages/contracts/src/money.ts:127-150 | text is read exactly when it denotes an in-range whole number of minor units, and then as that number |
| MoneyText.ReadFailures | packages/contracts/src/money.ts:127-150 | text is refused as no decimal exactly when it has no such shape, as too precise exactly when it denotes no whole number of minor units, and as out of range exactly when it denotes one out of range |
| MoneyText.MoneyRoundTrip | packages/persistence/src/db/money.ts:46-57 | what is printed for a money column is read back as the same amount |
| Queue.StepKeepsSound | packages/persistence/src/db/schema.ts:190-217 | every step keeps one row per id and per (store, event), processing iff locked, and attempts within the limit |
| Queue.WebhookEventRepository.Enqueue | packages/persistence/src/repositories/webhook-event.repository.ts:129-151 | a known event is a duplicate and changes nothing; a new one is appended pending |
| Queue.WebhookEventRepository.Claim | packages/persistence/src/repositories/webhook-event.repository.ts:163-207 | exactly the selected due rows are marked in flight and returned |
| Queue.WebhookEventRepository.MarkProcessed | packages/persistence/src/repositories/webhook-event.repository.ts:210-220 | the row is finished and unlocked, every other row unchanged |
| Queue.WebhookEventRepository.MarkSkipped | packages/persistence/src/repositories/webhook-event.repository.ts:230-240 | the row is skipped with its reason and unlocked, every other row unchanged |
| Queue.WebhookEventRepository.MarkFailed | packages/persistence/src/repositories/webhook-event.repository.ts:248-270 | read-then-write equals one step; with attempts left the row is pending and due after its delay, which is spelled out apart from the code's; retrying is answered exactly then |
| Queue.WebhookEventRepository.ReapStale | packages/persistence/src/repositories/webhook-event.repository.ts:284-321 | one statement for the exhausted and one update per other stale row equal one step over the table; a row whose lease has run out is given up or due after its delay, and every other row stays |
| Queue.WebhookEventRepository.Requeue | packages/persistence/src/repositories/webhook-event.repository.ts:331-344 | only a dead letter is put back, and the answer says whether one was |
| Queue.WebhookEventRepository.CountByStatus | packages/persistence/src/repositories/webhook-event.repository.ts:347-368 | every status is present with the number of its rows |
| QueueLaws.RunKeepsSound | packages/persistence/src/db/schema.ts:190-217 | the invariant holds after any interleaving of calls |
| QueueLaws.AttemptsCountClaims | packages/persistence/src/repositories/webhook-event.repository.ts:182-192 | a row's attempts are exactly the claims since its last requeue |
| QueueLaws.ClaimsAreBounded | packages/persistence/src/repositories/webhook-event.repository.ts:248-321 | in every run no row is claimed more than the limit between two requeues |
| QueueLaws.WorkIsFinite | packages/persistence/src/repositories/webhook-event.repository.ts:129-344 | all claims of a run are at most the attempts to spare plus the limit times new events and requeues |
| QueueLaws.UntouchedStays | packages/persistence/src/repositories/webhook-event.repository.ts:163-344 | a row no call touches stays as it is through any run: fresh locks, waiting retries and finished rows |
| QueueLaws.NoDoubleClaim | packages/persistence/src/repositories/webhook-event.repository.ts:163-207 | a row in flight is never in a batch, and a row in a batch is pending and due |
| QueueLaws.FinishedStaysIff | packages/persistence/src/repositories/webhook-event.repository.ts:230-270 | a processed row stays processed exactly unless it is marked failed or skipped |
| QueueLaws.LateFailureReopens | packages/persistence/src/repositories/webhook-event.repository.ts:248-270 | a six-call run in which a processed row becomes due again |
| QueueLaws.ClaimTakesOldest | packages/persistence/src/repositories/webhook-event.repository.ts:167-178 | a claim fills its limit from the due rows and passes nothing over for something younger |
| QueueLaws.BackoffGrows | packages/persistence/src/repositories/webhook-event.repository.ts:96-104 | delays start at the base, never shrink with attempts and never pass the ceiling |
| QueueLaws.BackoffDoubles | packages/persistence/src/repositories/webhook-event.repository.ts:96-104 | until the exponent is clamped each delay is twice the last, up to the ceiling |
| RetryLaws.MarksWrite | packages/persistence/src/repositories/webhook-event.repository.ts:210-344 | finishing, skipping, failing and putting back write exactly their columns of exactly their row |
| RetryLaws.ReapingWrites | packages/persistence/src/repositories/webhook-event.repository.ts:284-321 | exactly the rows locked longer than the lease go back after their delay or are given up |
| RetryLaws.ClaimWrites | packages/persistence/src/repositories/webhook-event.repository.ts:163-207 | a claimed row was pending, due and not held elsewhere, and is locked from the claim on with one more attempt; the others stay |
| RetryLaws.EnqueueWrites | packages/persistence/src/repositories/webhook-event.repository.ts:129-151 | a delivery enters once per store and platform event, pending from the moment it was received |
| RetryLaws.RetriesWaitTheirDelay | packages/persistence/src/repositories/webhook-event.repository.ts:96-104 | over every run, the next claim of a row given back for a retry comes no sooner than its delay after that, unless somebody marks the row in between |
| RetryLaws.ClaimsHoldTheirLease | packages/persistence/src/repositories/webhook-event.repository.ts:163-321 | over every run, a claimed row stays as its worker holds it until somebody marks it or the reaper runs past its lease |
| CostHistory.CostHistoryRepository.Record | packages/persistence/src/repositories/cost-history.repository.ts:130-181 | closes the open window and opens the new one, or changes nothing when backdated or refused |
| CostHistory.CostHistoryRepository.ResolveAsOf | packages/persistence/src/repositories/cost-history.repository.ts:70-120 | the first-write-wins maps and the walk over the keys equal lookup by exact key, product key, then SKU |
| CostHistory.RecordKeepsSound | packages/persistence/src/repositories/cost-history.repository.ts:130-181 | windows of a key stay contiguous, disjoint and strictly ordered, with only the last open |
| CostHistoryLaws.PastCannotChange | packages/persistence/src/repositories/cost-history.repository.ts:70-181 | a recording leaves every answer about an earlier instant the same, for every list of keys |
| CostHistoryLaws.PastNeverChanges | packages/persistence/src/repositories/cost-history.repository.ts:70-181 | so does any run of recordings effective after that instant |
| CostHistoryLaws.PresentIsNew | packages/persistence/src/repositories/cost-history.repository.ts:70-181 | from its start on, the recorded cost is what its key resolves to if and only if no current row of the store with the same key text sorts before it |
| CostHistoryLaws.ResolvesToTheWindow | packages/persistence/src/repositories/cost-history.repository.ts:75-107 | an exact key resolves to its product's row whose window holds the instant if and only if no current row with the same key text sorts before it; the product's own rows never do |
| CostHistoryLaws.KeyTextsCollide | packages/persistence/src/repositories/cost-history.repository.ts:85-118 | two recorded products that write the same key text: asking for the one answers with the cost of the other |
| CostHistoryLaws.AtMostOneWindow | packages/persistence/src/repositories/cost-history.repository.ts:123-129 | no instant lies in two windows of one key |
| CostHistoryLaws.NoGaps | packages/persistence/src/repositories/cost-history.repository.ts:123-181 | from a key's first window on, every instant lies in one of its windows |
| CostHistoryLaws.BackdatedIff | packages/persistence/src/repositories/cost-history.repository.ts:136-152 | a correction is refused as backdated exactly when the open window does not start before it, and then changes nothing |
| CostHistoryLaws.RecordWrites | packages/persistence/src/repositories/cost-history.repository.ts:130-181 | a recording writes exactly when the open window starts before it, the id is new and the cost is not negative; then it ends that window at its own start, leaves every other row, and appends what it was given |
| CostHistoryLaws.ResolvesByTiers | packages/persistence/src/repositories/cost-history.repository.ts:75-118 | every wanted key is answered in its turn by the newest current row of its product and variant, where there is none of its product without one, where there is none of either of its non-empty SKU, and is left out otherwise |
| CostHistoryLaws.OneAnswer | packages/persistence/src/repositories/cost-history.repository.ts:75-118 | in a sound table these words have one answer |
| Plans.DowngradeLosesSomething | packages/billing/src/plans.ts:271-280 | a move is a downgrade exactly when a feature or part of the monthly allowance is lost |
| Plans.NotDowngradeIsAPreorder | packages/billing/src/plans.ts:254-280 | moves that are not downgrades compose, on all plans |
| Plans.BillingTermIsNotADowngrade | packages/billing/src/plans.ts:132-211 | a monthly plan and its annual twin are interchangeable |
| BillingHandler.BillingEventHandler.Handle | apps/ghalla-salla/src/billing/billing-event.handler.ts:56-93 | seeds, applies, drops or ignores, saves the one row and bumps one counter |
| BillingLaws.HandlingWrites | apps/ghalla-salla/src/billing/billing-event.handler.ts:56-93 | an unknown event is ignored; a first one seeds the row, on the trial plan and for thirty days where it does not say; one no newer than the last applied changes nothing; any other sets what it says, keeps the rest, and holds a lesser plan back to the end of the paid period |
| BillingLaws.DowngradesAreLesser | packages/billing/src/plans.ts:132-280 | among the plans sold a downgrade is the loss of the reports or of orders a year |
| BillingLaws.ReconcilingWrites | packages/billing/src/subscription.ts:253-302 | a pass changes nothing exactly when the row says what the platform does, and otherwise takes over what it says and nothing else |
| SubscriptionLaws.NewestEventDecides | packages/billing/src/subscription.ts:126-211 | whatever the delivery order, the row has the status and time of the newest event |
| SubscriptionLaws.FoldForgetsOrder | packages/billing/src/subscription.ts:126-211 | two deliveries of the same events, with repeats, agree on status and last event |
| SubscriptionLaws.ActivePlanOnlyClimbs | packages/billing/src/subscription.ts:148-211 | over any run of the handler whose applied events occur before the period end the row then holds, the active plan loses nothing |
| SubscriptionLaws.StepTakesAwayIff | packages/billing/src/subscription.ts:148-211 | an applied event takes something from the active plan exactly when it names a lesser plan and does not occur before the paid period ends |
| SubscriptionLaws.InForceTakesAwayIff | packages/billing/src/subscription.ts:148-242 | after an applied event the plan in force allows less exactly when the event names a lesser plan and it, or the moment asked about, does not lie before the period end the row had |
| SubscriptionLaws.PaidTierIsKept | packages/billing/src/subscription.ts:148-242 | over any run of the handler, at a moment that lies, like its applied events, before every period end the row came to hold, the plan in force allows all the first one did |
| SubscriptionLaws.TierIsSafeIff | packages/billing/src/subscription.ts:126-242 | from any row the handler reaches that still gives the first tier, no one event that occurs by a moment takes the tier away at it if and only if the moment lies before the period end the row holds, nothing sold allows less, or the row has seen an event as late |
| SubscriptionLaws.TierIsSafeOverRunsIff | packages/billing/src/subscription.ts:126-242 | no run of further events does if and only if nothing sold allows less, the row has seen an event as late, or the moment lies before the period end and leaves time for one event only |
| SubscriptionLaws.ShortenedPeriodLosesTheTier | packages/billing/src/subscription.ts:148-242 | an event that brings the period end forward, and then a lesser plan, leave the lesser one in force before the first period has ended |
| SubscriptionLaws.DeferredToAShorterEnd | packages/billing/src/subscription.ts:148-242 | so they do when the lesser plan is named in paid time: it is deferred only to the end that was brought forward |
| SubscriptionLaws.DeferredTakesEffect | packages/billing/src/subscription.ts:235-242 | a deferred downgrade is in force from the end of the paid period and not before |
| SubscriptionLaws.ReconcileSettles | packages/billing/src/subscription.ts:253-302 | after a pass nothing differs, a second pass is unchanged, and guard and pending plan did not move |
| SubscriptionLaws.ReconcilingSilencesNothing | packages/billing/src/subscription.ts:277-302 | in any mix of passes and webhooks the stale events are those of the run without the passes |
| SubscriptionLaws.StaleAfterRun | packages/billing/src/subscription.ts:126-128 | after any mix an event is stale exactly when the row's guard, or some webhook of the run, was at least as late |

## Left out

- CourierCredit.NoProfitIff: supposes that what couriers recorded adds up, in the order of the shipment ids, within the range the guarded sum accepts in each direction; past it an order that only bears those charges is an internal error.
- Reversals.ApplyLine: intermediate tallies are unbounded integers; the code adds doubles and checks the range at the end.
- CostHistory.Current: rows of different products starting at the same instant are ordered by id, where the query leaves their order open.
- Queue.Selected: rows due and received at the same instants are taken in table order, where the query leaves their order open.
- Queue.WebhookEventRepository.MarkFailed: the read and the write are one step here; so are those of `ReapStale`.
- Plans.MonthlyCapOf: the annual cap over twelve is an exact real, not a double.
- Text order is by character, where the code compares UTF-16 units; the two agree on the Basic Multilingual Plane.
- Values that are not integers, and the gate's null and structural checks: the model's types rule them out.
- `Intl` time-zone conversion: the local date is an input, absent for an unknown zone.
- Instants of the queue, the cost history and billing are milliseconds; that their text order is time order is `Instants.TextOrderIsTimeOrder`.
- Diagnostic severities, log reasons, per-label metrics, `calcVersion`, prices of plans and `updatedAt` columns: carried along, decide nothing.
- SQL, transactions and SKIP LOCKED: only their effect as atomic steps, with the rows other transactions hold as an argument of a claim.
- `toMinorFromFloat` and the float detour when a cost is stored: the stored cost is the given integer.
- `order-profit.repository.ts`: column copying, with no theorem to state.
- `countKeysWithCost`, `isRankableForLossMaker`, `UsageCache`, `usageStatus`, `decideAccess`, `comparePlanCatalog`: one-branch facts or finite tables.
- The operator console, HTTP wiring, configuration, schemas and ports.
