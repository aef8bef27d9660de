/** What couriers charge for collecting cash, leg by leg and, on split deliveries, carrier by carrier. */
module CashOnDelivery {
  import opened Prelude
  import opened Sequences
  import opened Sums
  import opened Money
  import opened Domain
  import opened Choice
  import opened Sorting
  import opened Fee
  import opened Allocation
  import Allocator
  import Text

  predicate IsCashLeg(p: Payment) { p.instrument.Cod? && p.state.LegCaptured? }

  predicate TextNotAfter(a: string, b: string) { !Text.Lt(b, a) }

  /** Each value once, where it first occurs. */
  function Dedupe(xs: seq<string>): (r: seq<string>) {
    if xs == [] then []
    else
      var n := |xs| - 1;
      var before := Dedupe(xs[..n]);
      if xs[n] in before then before else before + [xs[n]]
  }

  /** The carriers of the live outbound legs, without repeats, in text order. */
  function Carriers(shipments: seq<Shipment>): seq<string> {
    Sort(TextNotAfter, Dedupe(Map((s: Shipment) => s.carrier,
      Filter((s: Shipment) => s.direction.Outbound? && Live(s.status), shipments))))
  }

  function Serves(carrier: Option<string>): CodRule -> bool {
    (r: CodRule) => r.carrier.None? || r.carrier == carrier
  }

  function CarrierScore(rule: CodRule): int { if rule.carrier.Some? then 1 else 0 }

  function RuleFor(rules: seq<CodRule>, carrier: Option<string>): Option<CodRule> {
    Pick(rules, Serves(carrier), CarrierScore)
  }

  method RuleForLoop(rules: seq<CodRule>, carrier: Option<string>) returns (best: Option<CodRule>)
    ensures best == RuleFor(rules, carrier)
  {
    best := None;
    var bestScore := -1;
    for i := 0 to |rules|
      invariant best == PickUpTo(rules, Serves(carrier), CarrierScore, i)
      invariant bestScore == if best.Some? then CarrierScore(best.value) else -1
    {
      if rules[i].carrier.Some? && rules[i].carrier != carrier { continue; }
      var score := if rules[i].carrier.Some? then 1 else 0;
      if score > bestScore {
        best := Some(rules[i]);
        bestScore := score;
      }
    }
  }

  /** One leg's cash per carrier: all of it, or an even split when several carried parcels. */
  datatype Portion = Portion(carrier: string, amount: int)

  function EvenBuckets(carriers: seq<string>): (r: seq<Bucket>)
    ensures |r| == |carriers|
  {
    Map((c: string) => Bucket(c, 0), carriers)
  }

  function PortionsOf(amount: int, carriers: seq<string>): Result<seq<Portion>> {
    if |carriers| > 1 then
      var shares :- Allocate(amount, EvenBuckets(carriers));
      Ok(Map((c: string) => Portion(c, Get(shares, c)), carriers))
    else Ok([Portion(if carriers == [] then "" else carriers[0], amount)])
  }

  datatype Charge = Charge(fee: AppliedFee, basis: TermBasis)

  datatype Charged = Charged(applied: seq<Charge>, diagnostics: seq<Diagnostic>)

  function ChargePortion(c: Charged, rules: seq<CodRule>, carriers: seq<string>, portion: Portion, index: nat,
        vatRegistered: bool)
    : Result<Charged>
  {
    match RuleFor(rules, if carriers == [] then None else Some(portion.carrier))
    case None =>
      Ok(Charged(c.applied + [Charge(AppliedFee(0, 0, 0), Missing)],
                 c.diagnostics + [Diagnostic(CodFeeRuleMissing, OfPayment(index))]))
    case Some(rule) =>
      var fee :- ApplyFee(portion.amount, rule.formula, vatRegistered);
      Ok(Charged(c.applied + [Charge(fee, BasisOf(rule.formula.source))],
                 if rule.formula.source.DefaultTable?
                 then c.diagnostics + [Diagnostic(FeeRuleDefaultUsed, OfPayment(index))] else c.diagnostics))
  }

  function ChargePortions(c: Charged, rules: seq<CodRule>, carriers: seq<string>, portions: seq<Portion>, index: nat,
        vatRegistered: bool, n: nat)
    : Result<Charged>
    requires n <= |portions|
  {
    if n == 0 then Ok(c)
    else
      var before :- ChargePortions(c, rules, carriers, portions, index, vatRegistered, n - 1);
      ChargePortion(before, rules, carriers, portions[n-1], index, vatRegistered)
  }

  function ChargeLeg(c: Charged, rules: seq<CodRule>, carriers: seq<string>, payment: Payment, index: nat,
        vatRegistered: bool)
    : Result<Charged>
  {
    if !IsCashLeg(payment) then Ok(c)
    else
      var portions :- PortionsOf(payment.amountGross, carriers);
      ChargePortions(c, rules, carriers, portions, index, vatRegistered, |portions|)
  }

  function ChargeLegs(rules: seq<CodRule>, carriers: seq<string>, payments: seq<Payment>, vatRegistered: bool,
        n: nat): Result<Charged>
    requires n <= |payments|
  {
    if n == 0 then Ok(Charged([], []))
    else
      var before :- ChargeLegs(rules, carriers, payments, vatRegistered, n - 1);
      ChargeLeg(before, rules, carriers, payments[n-1], n - 1, vatRegistered)
  }

  function ExVats(cs: seq<Charge>): (r: seq<int>) ensures |r| == |cs| { Map((c: Charge) => c.fee.exVat, cs) }
  function Vats(cs: seq<Charge>): (r: seq<int>) ensures |r| == |cs| { Map((c: Charge) => c.fee.vat, cs) }
  function Costs(cs: seq<Charge>): (r: seq<int>) ensures |r| == |cs| { Map((c: Charge) => c.fee.cost, cs) }

  datatype CodCost = CodCost(exVat: int, vat: int, cost: int, basis: TermBasis)

  function WorstBasis(applied: seq<Charge>): TermBasis {
    if exists i :: 0 <= i < |applied| && applied[i].basis.Missing? then Missing
    else if exists i :: 0 <= i < |applied| && applied[i].basis.Estimated? then Estimated
    else Actual
  }

  function ComputeCodCost(order: Order, shipments: seq<Shipment>, rules: seq<CodRule>,
        vatRegistered: bool): Result<Computed<CodCost>> {
    if forall i :: 0 <= i < |order.payments| ==> !IsCashLeg(order.payments[i]) then
      Ok(Computed(CodCost(0, 0, 0, NoTerm), []))
    else
      var charged :- ChargeLegs(rules, Carriers(shipments), order.payments, vatRegistered, |order.payments|);
      var exVat :- AddMinor(ExVats(charged.applied));
      var vat :- AddMinor(Vats(charged.applied));
      var cost :- AddMinor(Costs(charged.applied));
      Ok(Computed(CodCost(exVat, vat, cost, WorstBasis(charged.applied)), charged.diagnostics))
  }

  // --------------------------------------------------------------- the loops

  method ChargePortionsLoop(start: Charged, rules: seq<CodRule>, carriers: seq<string>, portions: seq<Portion>,
        index: nat, vatRegistered: bool)
    returns (r: Result<Charged>)
    ensures r == ChargePortions(start, rules, carriers, portions, index, vatRegistered, |portions|)
  {
    hide RuleFor, ApplyFee;
    var applied, diagnostics := start.applied, start.diagnostics;
    for i := 0 to |portions|
      invariant ChargePortions(start, rules, carriers, portions, index, vatRegistered, i) == Ok(Charged(applied, diagnostics))
    {
      var rule := RuleForLoop(rules, if carriers == [] then None else Some(portions[i].carrier));
      if rule.None? {
        diagnostics := diagnostics + [Diagnostic(CodFeeRuleMissing, OfPayment(index))];
        applied := applied + [Charge(AppliedFee(0, 0, 0), Missing)];
        continue;
      }
      if rule.value.formula.source.DefaultTable? {
        diagnostics := diagnostics + [Diagnostic(FeeRuleDefaultUsed, OfPayment(index))];
      }
      var fee := ApplyFee(portions[i].amount, rule.value.formula, vatRegistered);
      if fee.Err? {
        ChargePortionsFails(start, rules, carriers, portions, index, vatRegistered, i + 1, |portions|);
        return Err(fee.error);
      }
      applied := applied + [Charge(fee.value, BasisOf(rule.value.formula.source))];
    }
    return Ok(Charged(applied, diagnostics));
  }

  lemma {:induction false} ChargePortionsFails(c: Charged, rules: seq<CodRule>, carriers: seq<string>,
        portions: seq<Portion>, index: nat, vatRegistered: bool, i: nat, n: nat)
    requires i <= n <= |portions| && ChargePortions(c, rules, carriers, portions, index, vatRegistered, i).Err?
    ensures ChargePortions(c, rules, carriers, portions, index, vatRegistered, n)
         == ChargePortions(c, rules, carriers, portions, index, vatRegistered, i)
  {
    hide ChargePortion;
    if i < n { ChargePortionsFails(c, rules, carriers, portions, index, vatRegistered, i, n - 1); }
  }

  lemma {:induction false} ChargeLegsFails(rules: seq<CodRule>, carriers: seq<string>, payments: seq<Payment>,
        vatRegistered: bool, i: nat, n: nat)
    requires i <= n <= |payments| && ChargeLegs(rules, carriers, payments, vatRegistered, i).Err?
    ensures ChargeLegs(rules, carriers, payments, vatRegistered, n) == ChargeLegs(rules, carriers, payments, vatRegistered, i)
  {
    hide ChargeLeg;
    if i < n { ChargeLegsFails(rules, carriers, payments, vatRegistered, i, n - 1); }
  }

  method PortionsOfLoop(amount: int, carriers: seq<string>) returns (r: Result<seq<Portion>>)
    ensures r == PortionsOf(amount, carriers)
  {
    if |carriers| > 1 {
      var shares := Allocator.AllocateMinor(amount, EvenBuckets(carriers));
      if shares.Err? { return Err(shares.error); }
      return Ok(Map((c: string) => Portion(c, Get(shares.value, c)), carriers));
    }
    return Ok([Portion(if carriers == [] then "" else carriers[0], amount)]);
  }

  method ChargeLegsLoop(rules: seq<CodRule>, carriers: seq<string>, payments: seq<Payment>, vatRegistered: bool)
    returns (r: Result<Charged>)
    ensures r == ChargeLegs(rules, carriers, payments, vatRegistered, |payments|)
  {
    hide ChargePortions, PortionsOf, IsCashLeg;
    var c := Charged([], []);
    for index := 0 to |payments|
      invariant ChargeLegs(rules, carriers, payments, vatRegistered, index) == Ok(c)
    {
      if !IsCashLeg(payments[index]) { continue; }
      var portions := PortionsOfLoop(payments[index].amountGross, carriers);
      if portions.Err? {
        ChargeLegsFails(rules, carriers, payments, vatRegistered, index + 1, |payments|);
        return Err(portions.error);
      }
      var next := ChargePortionsLoop(c, rules, carriers, portions.value, index, vatRegistered);
      if next.Err? {
        ChargeLegsFails(rules, carriers, payments, vatRegistered, index + 1, |payments|);
        return next;
      }
      c := next.value;
    }
    return Ok(c);
  }

  method ComputeCodCostLoop(order: Order, shipments: seq<Shipment>, rules: seq<CodRule>, vatRegistered: bool)
    returns (r: Result<Computed<CodCost>>)
    ensures r == ComputeCodCost(order, shipments, rules, vatRegistered)
  {
    if forall i :: 0 <= i < |order.payments| ==> !IsCashLeg(order.payments[i]) {
      return Ok(Computed(CodCost(0, 0, 0, NoTerm), []));
    }
    var charged := ChargeLegsLoop(rules, Carriers(shipments), order.payments, vatRegistered);
    if charged.Err? { return Err(charged.error); }
    var exVat := AddMinorLoop(ExVats(charged.value.applied));
    if exVat.Err? { return Err(exVat.error); }
    var vat := AddMinorLoop(Vats(charged.value.applied));
    if vat.Err? { return Err(vat.error); }
    var cost := AddMinorLoop(Costs(charged.value.applied));
    if cost.Err? { return Err(cost.error); }
    return Ok(Computed(CodCost(exVat.value, vat.value, cost.value, WorstBasis(charged.value.applied)),
        charged.value.diagnostics));
  }
}
