/** The subscription plan table of src/config/stripe.ts. */
module StripePlans {
  import opened Wrappers

  datatype PriceIds = PriceIds(test: string, production: string)
  datatype Price = Price(amount: nat, priceIds: PriceIds)
  datatype Plan = Plan(name: string, slug: string, quota: nat, pagesPerPDF: nat, price: Price)

  /** `PLANS`, in the order the source lists them. */
  const PLANS: seq<Plan> := [
    Plan("Free", "free", 10, 5, Price(0, PriceIds("", ""))),
    Plan("Pro", "pro", 50, 25, Price(100, PriceIds("price_1PSGEKSDJMxo6tEq42lfB5JP", "")))
  ]

  /** No two plans share a name. */
  ghost predicate DistinctNames(plans: seq<Plan>) {
    forall i, j :: 0 <= i < j < |plans| ==> plans[i].name != plans[j].name
  }

  /** `plans.find((plan) => plan.name === name)`: the first plan with that name, if any. */
  function FindPlan(plans: seq<Plan>, name: string): (r: Option<Plan>)
    ensures r.Some? ==> r.value in plans && r.value.name == name
    ensures r.None? <==> forall p :: p in plans ==> p.name != name
  {
    if |plans| == 0 then None
    else if plans[0].name == name then Some(plans[0])
    else FindPlan(plans[1..], name)
  }

  /** With distinct names, looking a plan up by its own name finds exactly that plan. */
  lemma FindPlanByOwnName(plans: seq<Plan>, p: Plan)
    requires DistinctNames(plans)
    requires p in plans
    ensures FindPlan(plans, p.name) == Some(p)
  {
    var r := FindPlan(plans, p.name);
    var i :| 0 <= i < |plans| && plans[i] == p;
    var j :| 0 <= j < |plans| && plans[j] == r.value;
    if i != j {
      if i < j { assert plans[i].name != plans[j].name; }
      else { assert plans[j].name != plans[i].name; }
    }
  }

  /** The table: two plans, Free then Pro, with these limits and prices. */
  lemma PlanTable()
    ensures |PLANS| == 2 && DistinctNames(PLANS)
    ensures FindPlan(PLANS, "Free") == Some(PLANS[0])
    ensures FindPlan(PLANS, "Pro") == Some(PLANS[1])
    ensures PLANS[0].pagesPerPDF == 5 && PLANS[0].quota == 10 && PLANS[0].price.amount == 0
    ensures PLANS[1].pagesPerPDF == 25 && PLANS[1].quota == 50 && PLANS[1].price.amount == 100
  {
    assert PLANS[0].name == "Free" && PLANS[1].name == "Pro";
    assert PLANS[0].name != PLANS[1].name;
    FindPlanByOwnName(PLANS, PLANS[0]);
    FindPlanByOwnName(PLANS, PLANS[1]);
  }

  /** Pro is strictly more generous than Free on both limits. */
  lemma ProExceedsFree()
    ensures FindPlan(PLANS, "Pro").Some? && FindPlan(PLANS, "Free").Some?
    ensures FindPlan(PLANS, "Pro").value.pagesPerPDF > FindPlan(PLANS, "Free").value.pagesPerPDF
    ensures FindPlan(PLANS, "Pro").value.quota > FindPlan(PLANS, "Free").value.quota
  {
    PlanTable();
  }
}
