/** The plan table and what it means to lose something by moving between plans. */
module Plans {
  import opened Prelude

  datatype Interval = Month | Year

  datatype Feature = Core | Attribution | Ltv | ReportsFeature

  /** The entitlements of a plan; no cap means unlimited. */
  datatype Plan = Plan(interval: Interval, orderCap: Option<int>, features: set<Feature>)

  const FULL: set<Feature> := {Core, Attribution, Ltv, ReportsFeature}

  const TRIAL_PLAN := "growth"

  function PlanOf(code: string): Option<Plan> {
    if code == "starter" then Some(Plan(Month, Some(300), {Core}))
    else if code == "growth" then Some(Plan(Month, Some(1_500), {Core}))
    else if code == "scale" then Some(Plan(Month, None, {Core}))
    else if code == "ads" then Some(Plan(Month, None, FULL))
    else if code == "starter_annual" then Some(Plan(Year, Some(3_600), {Core}))
    else if code == "growth_annual" then Some(Plan(Year, Some(18_000), {Core}))
    else if code == "scale_annual" then Some(Plan(Year, None, {Core}))
    else if code == "ads_annual" then Some(Plan(Year, None, FULL))
    else None
  }

  predicate IsPlanCode(code: string) { PlanOf(code).Some? }

  /** The cap as a monthly rate, which need not be whole. */
  function MonthlyCapOf(plan: Plan): Option<real> {
    match plan.orderCap
    case None => None
    case Some(cap) => Some(if plan.interval.Year? then cap as real / 12.0 else cap as real)
  }

  predicate IsDowngrade(from: Plan, to: Plan) {
    if exists f :: f in from.features && f !in to.features then true
    else
      var fromCap, toCap := MonthlyCapOf(from), MonthlyCapOf(to);
      if fromCap.None? then toCap.Some?
      else if toCap.None? then false
      else toCap.value < fromCap.value
  }

  // -------------------------------------------------------------------- laws

  /** Everything one plan allows, the other allows too. */
  ghost predicate AllowsAtLeast(more: Plan, less: Plan) {
    && less.features <= more.features
    && (MonthlyCapOf(more).None? || (MonthlyCapOf(less).Some? && MonthlyCapOf(less).value <= MonthlyCapOf(more).value))
  }

  /** A move is a downgrade exactly when something the old plan allowed is lost. */
  lemma DowngradeLosesSomething(from: Plan, to: Plan)
    ensures IsDowngrade(from, to) <==> !AllowsAtLeast(to, from)
  {
    hide MonthlyCapOf;
    assert from.features <= to.features <==> !(exists f :: f in from.features && f !in to.features);
  }

  /** Not being a downgrade is a preorder on all plans, so a sequence of such moves loses nothing. */
  lemma NotDowngradeIsAPreorder(a: Plan, b: Plan, c: Plan)
    ensures !IsDowngrade(a, a)
    ensures !IsDowngrade(a, b) && !IsDowngrade(b, c) ==> !IsDowngrade(a, c)
  {
    hide IsDowngrade, MonthlyCapOf;
    DowngradeLosesSomething(a, a);
    DowngradeLosesSomething(a, b);
    DowngradeLosesSomething(b, c);
    DowngradeLosesSomething(a, c);
  }

  /** An annual plan and its monthly twin are interchangeable: neither direction is a downgrade. */
  lemma BillingTermIsNotADowngrade(code: string)
    requires code in {"starter", "growth", "scale", "ads"}
    ensures PlanOf(code).Some? && PlanOf(code + "_annual").Some?
    ensures !IsDowngrade(PlanOf(code).value, PlanOf(code + "_annual").value)
    ensures !IsDowngrade(PlanOf(code + "_annual").value, PlanOf(code).value)
  {
    assert "starter" + "_annual" == "starter_annual" && "growth" + "_annual" == "growth_annual";
    assert "scale" + "_annual" == "scale_annual" && "ads" + "_annual" == "ads_annual";
  }
}
