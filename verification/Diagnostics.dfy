/** A stable order of diagnostics, so that a report is comparable between runs. */
module Diagnostics {
  import opened Sorting
  import opened Domain
  import opened Decimal
  import Text

  /** Position of the subject kinds in the order of their names. */
  function KindRank(s: Subject): nat {
    match s
    case OfLine(_) => 0
    case OfOrder => 1
    case OfPayment(_) => 2
    case OfReversal(_) => 3
    case OfShipment(_) => 4
  }

  function SubjectKey(s: Subject): string {
    match s
    case OfLine(id) => id
    case OfOrder => ""
    case OfPayment(index) => PadStart(Print(index), 4)
    case OfReversal(id) => id
    case OfShipment(id) => id
  }

  /** Position of a code in the order of the names. */
  function CodeRank(c: Code): nat {
    match c
    case CardSchemeUnknown => 0
    case CarrierCostMissing => 1
    case CodFeeRuleMissing => 2
    case CostEstimated => 3
    case CostMissing => 4
    case CurrencyMismatch => 5
    case DuplicateCostKey => 6
    case DuplicateItemId => 7
    case DuplicateRuleKey => 8
    case FeeRuleDefaultUsed => 9
    case FeeRuleInvalid => 10
    case FeeRuleMissing => 11
    case InternalInvariantViolated => 12
    case InvalidTimezone => 13
    case ItemOrderIdMismatch => 14
    case MalformedInput => 15
    case MalformedTimestamp => 16
    case NegativeQuantity => 17
    case NonIntegerMinorUnits => 18
    case NonIntegerQuantity => 19
    case NoOutboundShipment => 20
    case OrderExcluded => 21
    case OrderHasNoItems => 22
    case PaymentLegsUnderTotal => 23
    case RecognitionCostOnly => 24
    case RestockUnconfirmed => 25
    case ReversalLinesAllocated => 26
    case ReversalLineUnmatched => 27
    case ReversalOrderIdMismatch => 28
    case ReversalTotalMismatch => 29
    case ShippingFallbackMissing => 30
    case ShippingFallbackUsed => 31
    case TotalsDoNotReconcile => 32
    case UnknownPaymentInstrument => 33
  }

  predicate Precedes(a: Diagnostic, b: Diagnostic) {
    if KindRank(a.subject) != KindRank(b.subject) then KindRank(a.subject) < KindRank(b.subject)
    else if SubjectKey(a.subject) != SubjectKey(b.subject) then Text.Lt(SubjectKey(a.subject), SubjectKey(b.subject))
    else CodeRank(a.code) < CodeRank(b.code)
  }

  predicate NotAfter(a: Diagnostic, b: Diagnostic) { !Precedes(b, a) }

  function SortDiagnostics(ds: seq<Diagnostic>): seq<Diagnostic> { Sort(NotAfter, ds) }

  // -------------------------------------------------------------------- laws

  lemma PrecedenceIsAnOrder()
    ensures TotalPreorder(NotAfter)
  {
    hide KindRank, SubjectKey, CodeRank;
    Text.Order();
  }

  lemma CodeRankInjective(a: Code, b: Code)
    requires CodeRank(a) == CodeRank(b)
    ensures a == b
  {
  }

  /** Padding to four places keeps payment positions apart, however many there are. */
  lemma PaymentKeyInjective(i: nat, j: nat)
    requires PadStart(Print(i), 4) == PadStart(Print(j), 4)
    ensures i == j
  {
    PadValue(Print(i), 4);
    PadValue(Print(j), 4);
    PrintValue(i);
    PrintValue(j);
  }

  lemma SubjectInjective(s: Subject, t: Subject)
    requires KindRank(s) == KindRank(t) && SubjectKey(s) == SubjectKey(t)
    ensures s == t
  {
    if s.OfPayment? { PaymentKeyInjective(s.index, t.index); }
  }

  /** Two diagnostics the order cannot tell apart are the same diagnostic. */
  lemma TiesAreTheSame(a: Diagnostic, b: Diagnostic)
    requires NotAfter(a, b) && NotAfter(b, a)
    ensures a == b
  {
    hide KindRank, SubjectKey, CodeRank;
    Text.Trichotomy(SubjectKey(a.subject), SubjectKey(b.subject));
    SubjectInjective(a.subject, b.subject);
    CodeRankInjective(a.code, b.code);
  }

  /** The reported order depends on which diagnostics were raised, not on when. */
  lemma SortedReportForgetsOrder(ds: seq<Diagnostic>, es: seq<Diagnostic>)
    requires multiset(ds) == multiset(es)
    ensures SortDiagnostics(ds) == SortDiagnostics(es)
  {
    hide NotAfter;
    PrecedenceIsAnOrder();
    forall a, b | a in ds && b in ds && NotAfter(a, b) && NotAfter(b, a) ensures a == b { TiesAreTheSame(a, b); }
    SortForgetsOrder(NotAfter, ds, es);
  }
}
