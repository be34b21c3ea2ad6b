/** The plan chooser: which plan is highlighted, what choosing one does (Pro goes
    to an external checkout, the others are reported to the page), and the
    buttons' labels and disabled state. */
module PricingPlans {
  import opened Records

  /** The checkout the Pro button opens; the payment itself is outside the app. */
  const ProPaymentLink: string := "https://pay.kirvano.com/60a70fd0-4eb2-46ba-bf0d-bbec1be208ee"

  /** The monthly limit the free plan's description advertises. */
  const AdvertisedFreeLimit: nat := 2

  /** What choosing a plan does outside the panel. */
  datatype Effect = OpenPaymentLink(url: string) | ReportPlan(plan: Plan)

  /** Pro opens the checkout; any other plan is reported to the page. */
  function EffectOf(plan: Plan): (r: Effect)
    ensures r.ReportPlan? <==> plan != Pro
    ensures r.ReportPlan? ==> r.plan == plan
    ensures r.OpenPaymentLink? ==> r.url == ProPaymentLink
  {
    if plan == Pro then OpenPaymentLink(ProPaymentLink) else ReportPlan(plan)
  }

  class PricingPanel {
    const currentPlan: Plan
    var selectedPlan: Plan

    /** The highlighted plan starts as the account's current plan. */
    constructor (currentPlan: Plan)
      ensures this.currentPlan == currentPlan && selectedPlan == currentPlan
    {
      this.currentPlan := currentPlan;
      selectedPlan := currentPlan;
    }

    /** Choosing a plan highlights it and has exactly one outside effect. */
    method SelectPlan(plan: Plan) returns (effect: Effect)
      modifies this
      ensures selectedPlan == plan
      ensures effect == EffectOf(plan)
    {
      selectedPlan := plan;
      effect := EffectOf(plan);
    }
  }

  /** The button of the account's current plan cannot be pressed. */
  predicate ButtonDisabled(plan: Plan, current: Plan)
  {
    plan == current
  }

  /** Label priority: current plan, then the Pro call to action, then the
      highlighted plan, then the default. */
  function ButtonLabel(plan: Plan, current: Plan, selected: Plan): (r: string)
  {
    if plan == current then "Plano Atual"
    else if plan == Pro then "Assinar Pro"
    else if plan == selected then "Selecionado"
    else "Selecionar Plano"
  }

  /** A button is disabled exactly when it reads "Plano Atual". */
  lemma DisabledIffCurrentLabel(plan: Plan, current: Plan, selected: Plan)
    ensures ButtonDisabled(plan, current) <==> ButtonLabel(plan, current, selected) == "Plano Atual"
  {
    assert "Assinar Pro"[0] != "Plano Atual"[0];
    assert "Selecionado"[0] != "Plano Atual"[0];
    assert "Selecionar Plano"[0] != "Plano Atual"[0];
  }

  /** The highlighted plan reads "Selecionado" unless it is the current plan or Pro. */
  lemma SelectedLabel(plan: Plan, current: Plan)
    ensures ButtonLabel(plan, current, plan) == "Selecionado" <==> plan != current && plan != Pro
  {
    assert "Plano Atual"[0] != "Selecionado"[0];
    assert "Assinar Pro"[0] != "Selecionado"[0];
  }
}
