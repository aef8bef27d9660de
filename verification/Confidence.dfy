/** How far a computed margin can be trusted, term by term and overall. */
module Confidence {
  import opened Domain

  datatype ReversalTrust = ReportedReversal | AllocatedReversal | NoReversal

  datatype RevenueTrust = ReportedRevenue | Unreconciled

  datatype Level = Exact | EstimatedLevel | Incomplete

  /** The facts the sub-computations established. */
  datatype TermBases = TermBases(
    reconciles: bool, cogs: TermBasis, outbound: TermBasis, returned: TermBasis, gateway: TermBasis, cod: TermBasis,
    reversal: ReversalTrust)

  datatype ProfitConfidence = ProfitConfidence(
    revenue: RevenueTrust, cogs: TermBasis, outbound: TermBasis, returned: TermBasis, gateway: TermBasis, cod: TermBasis,
    reversal: ReversalTrust, level: Level)

  predicate Has(diagnostics: seq<Diagnostic>, code: Code) {
    exists i :: 0 <= i < |diagnostics| && diagnostics[i].code == code
  }

  predicate Settled(basis: TermBasis) { basis.Actual? || basis.NoTerm? }

  predicate AllSettled(bases: seq<TermBasis>) { forall b :: b in bases ==> Settled(b) }

  function Floor(basis: TermBasis, floor: TermBasis): TermBasis { if Settled(basis) then floor else basis }

  function DeriveConfidence(terms: TermBases, diagnostics: seq<Diagnostic>): ProfitConfidence {
    var cogs := if Has(diagnostics, RestockUnconfirmed) then Floor(terms.cogs, Estimated) else terms.cogs;
    var reversal :=
      if Has(diagnostics, ReversalLineUnmatched) || Has(diagnostics, ReversalTotalMismatch) then AllocatedReversal
      else terms.reversal;
    var revenue := if terms.reconciles && !Has(diagnostics, OrderHasNoItems) then ReportedRevenue else Unreconciled;
    var bases := [cogs, terms.outbound, terms.returned, terms.gateway, terms.cod];
    var level :=
      if Missing in bases || revenue.Unreconciled? then Incomplete
      else if AllSettled(bases) && !reversal.AllocatedReversal? then Exact
      else EstimatedLevel;
    ProfitConfidence(revenue, cogs, terms.outbound, terms.returned, terms.gateway, terms.cod, reversal, level)
  }

  /** What an order must satisfy to be badged exact, term by term and diagnostic by diagnostic. */
  ghost predicate FullyKnown(terms: TermBases, diagnostics: seq<Diagnostic>) {
    && terms.reconciles && !Has(diagnostics, OrderHasNoItems)
    && Settled(terms.cogs) && !Has(diagnostics, RestockUnconfirmed)
    && Settled(terms.outbound) && Settled(terms.returned) && Settled(terms.gateway) && Settled(terms.cod)
    && !terms.reversal.AllocatedReversal?
    && !Has(diagnostics, ReversalLineUnmatched) && !Has(diagnostics, ReversalTotalMismatch)
  }

  /** The three levels, each by an exact condition: something missing, nothing in doubt, and the rest. */
  lemma LevelsPartition(terms: TermBases, diagnostics: seq<Diagnostic>)
    ensures var c := DeriveConfidence(terms, diagnostics);
      && (c.level.Exact? <==> FullyKnown(terms, diagnostics))
      && (c.level.Incomplete? <==>
            !terms.reconciles || Has(diagnostics, OrderHasNoItems) || terms.cogs.Missing? || terms.outbound.Missing?
            || terms.returned.Missing? || terms.gateway.Missing? || terms.cod.Missing?)
  {
    hide Has, AllSettled;
    var cogs := DeriveConfidence(terms, diagnostics).cogs;
    FiveBases(cogs, terms.outbound, terms.returned, terms.gateway, terms.cod);
  }

  lemma FiveBases(a: TermBasis, b: TermBasis, c: TermBasis, d: TermBasis, e: TermBasis)
    ensures Missing in [a, b, c, d, e] <==> a.Missing? || b.Missing? || c.Missing? || d.Missing? || e.Missing?
    ensures AllSettled([a, b, c, d, e]) <==> Settled(a) && Settled(b) && Settled(c) && Settled(d) && Settled(e)
  {
    assert forall x :: x in [a, b, c, d, e] <==> x == a || x == b || x == c || x == d || x == e;
  }
}
