/** The checkout page's plan selection: the `plan` query parameter,
    lower-cased, looked up in a fixed catalogue; an unknown plan selects
    nothing and disables the checkout button. */
module Checkout {
  import opened Wrappers
  import opened JsValues
  import Usage

  datatype Plan = Plan(name: string, uses: nat, price: string, code: string)

  /** The plans that can be bought, by code. */
  const CATALOGUE: map<string, Plan> := map[
    "starter" := Plan("Starter", 20, "$12.99/mo", "starter"),
    "professional" := Plan("Professional", 60, "$22.99/mo", "professional"),
    "pro" := Plan("Pro", 150, "$39.99/mo", "pro")]

  /** `catalogue[(params.get('plan') || '').toLowerCase()]`; the parameter
      is `None` when absent from the query string. */
  function SelectPlan(param: Option<string>): (selected: Option<Plan>)
    ensures selected.Some? <==> Lower(param.GetOr("")) in {"starter", "professional", "pro"}
    ensures selected.Some? ==> selected.value.code == Lower(param.GetOr(""))
  {
    var plan := Lower(param.GetOr(""));
    if plan in CATALOGUE then Some(CATALOGUE[plan]) else None
  }

  /** The checkout button is disabled exactly when no plan was selected. */
  function CheckoutDisabled(param: Option<string>): (disabled: bool)
    ensures disabled <==> Lower(param.GetOr("")) !in {"starter", "professional", "pro"}
  {
    SelectPlan(param).None?
  }

  /** Case does not matter in the query parameter. */
  lemma SelectPlanCaseInsensitive(s: string)
    ensures SelectPlan(Some(s)) == SelectPlan(Some(Lower(s)))
  {
    LowerIdempotent(s);
  }

  /** No plan, an empty plan and the free tier cannot be checked out. */
  lemma NothingToBuy()
    ensures CheckoutDisabled(None) && CheckoutDisabled(Some("")) && CheckoutDisabled(Some("free"))
    ensures !CheckoutDisabled(Some("Pro"))
  {
    assert Lower("free") == "free";
    assert Lower("Pro") == "pro";
  }

  /** Every plan on sale promises as many analyses as the usage meter
      assumes for that tier when the server cannot be reached. */
  lemma CatalogueMatchesTierLimits(param: Option<string>)
    requires SelectPlan(param).Some?
    ensures SelectPlan(param).value.uses == Usage.TierLimit(SelectPlan(param).value.code)
  {
  }
}
