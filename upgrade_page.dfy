/** The upgrade page: a fixed table of paid plans, the plan the visitor
    selects, and the amount and plan name handed to the payment component,
    which sends them to the create-order endpoint. */
module UpgradePage {
  import opened Wrappers
  import opened JsString
  import opened JsNumber
  import JsArray
  import CreateOrderRoute

  /** One row of the plans table (the features, badges and descriptions are
      display text and not modelled). */
  datatype Plan = Plan(id: string, name: string, price: string, duration: string)

  const Rupee: char := '₹'

  /** `plans`, in display order. */
  const Plans: seq<Plan> := [
    Plan("1week", "1 Week Trial", "₹99", "7 days"),
    Plan("1month", "Monthly Plan", "₹300", "30 days"),
    Plan("3months", "Quarterly Plan", "₹500", "90 days"),
    Plan("6months", "Semi-Annual Plan", "₹900", "180 days")
  ]

  /** The plan ids are pairwise distinct, so an id names at most one plan. */
  lemma PlanIdsDistinct()
    ensures forall i, j :: 0 <= i < j < |Plans| ==> Plans[i].id != Plans[j].id
  {
    assert Plans[0].id[1] == 'w' && Plans[1].id[1] == 'm' && Plans[2].id[0] == '3' && Plans[3].id[0] == '6';
  }

  /** `plans.find(p => p.id === id)` */
  function FindPlan(id: string): (r: Option<Plan>)
    ensures r.Some? ==> r.value in Plans && r.value.id == id
    ensures r.None? <==> forall i :: 0 <= i < |Plans| ==> Plans[i].id != id
  {
    JsArray.Find(Plans, (p: Plan) => p.id == id)
  }

  /** Each plan is found by its own id. */
  lemma FindPlanById(i: nat)
    requires i < |Plans|
    ensures FindPlan(Plans[i].id) == Some(Plans[i])
  {
    PlanIdsDistinct();
    JsArray.FindIsFirst(Plans, (p: Plan) => p.id == Plans[i].id, i);
  }

  /** What the page hands to the payment component. */
  datatype PaymentProps = PaymentProps(amount: Option<int>, planName: string, planId: string)

  /** `parseInt(price?.replace('₹', '') || '0')` for the price of the plan
      found, if any; `None` is `NaN`. */
  function PriceAmount(price: Option<string>): (amount: Option<int>)
    ensures price.None? ==> amount == Some(0)
  {
    var digits := if price.Some? then ReplaceFirst(price.value, Rupee, "") else "";
    ParseIntOfZero();
    ParseInt(if digits != "" then digits else "0")
  }

  lemma ParseIntOfZero()
    ensures ParseInt("0") == Some(0)
  {
    assert NatToString(0) + [] == "0";
    ParseIntIgnoresSuffix(0, []);
  }

  /** The amount charged for the selected plan id. */
  function PlanAmount(selected: string): (amount: Option<int>)
    ensures FindPlan(selected).None? ==> amount == Some(0)
  {
    PriceAmount(if FindPlan(selected).Some? then Some(FindPlan(selected).value.price) else None)
  }

  /** `plans.find(...)?.name || ''` */
  function PlanName(selected: string): (name: string)
    ensures FindPlan(selected).Some? ==> name == FindPlan(selected).value.name
    ensures FindPlan(selected).None? ==> name == ""
  {
    match FindPlan(selected)
    case Some(p) => p.name
    case None => ""
  }

  /** A price written as the rupee sign followed by the decimal digits of `n`
      is charged as `n`. */
  lemma {:induction false} AmountOfPrice(n: nat)
    ensures PriceAmount(Some([Rupee] + NatToString(n))) == Some(n)
  {
    var digits := NatToString(n);
    var price := [Rupee] + digits;
    assert price[..0] == [] && price[1..] == digits;
    ReplaceFirstAt(price, Rupee, "", 0);
    assert ReplaceFirst(price, Rupee, "") == digits;
    assert digits + [] == digits;
    ParseIntIgnoresSuffix(n, []);
    assert ParseInt(digits) == Some(n);
  }

  /** The price of each plan is its rupee amount in decimal. */
  lemma PlanPrices()
    ensures Plans[0].price == [Rupee] + NatToString(99)
    ensures Plans[1].price == [Rupee] + NatToString(300)
    ensures Plans[2].price == [Rupee] + NatToString(500)
    ensures Plans[3].price == [Rupee] + NatToString(900)
  {
  }

  /** The four plans are charged 99, 300, 500 and 900 rupees. */
  lemma PlanAmounts()
    ensures PlanAmount(Plans[0].id) == Some(99)
    ensures PlanAmount(Plans[1].id) == Some(300)
    ensures PlanAmount(Plans[2].id) == Some(500)
    ensures PlanAmount(Plans[3].id) == Some(900)
  {
    PlanPrices();
    FindPlanById(0);
    FindPlanById(1);
    FindPlanById(2);
    FindPlanById(3);
    AmountOfPrice(99);
    AmountOfPrice(300);
    AmountOfPrice(500);
    AmountOfPrice(900);
  }

  /** An id outside the table is charged 0 under an empty plan name. */
  lemma UnknownPlan(selected: string)
    requires forall i :: 0 <= i < |Plans| ==> Plans[i].id != selected
    ensures PlanAmount(selected) == Some(0) && PlanName(selected) == ""
  {
  }

  /** The upgrade page's state. */
  class UpgradeView {
    var selectedPlan: Option<string>
    var showPricingTable: bool

    /** Nothing selected, the pricing table hidden. */
    constructor ()
      ensures selectedPlan == None && !showPricingTable
    {
      selectedPlan := None;
      showPricingTable := false;
    }

    /** `handlePlanSelect(planId)`: selects the plan and changes nothing else. */
    method HandlePlanSelect(planId: string)
      modifies this
      ensures selectedPlan == Some(planId) && showPricingTable == old(showPricingTable)
    {
      selectedPlan := Some(planId);
    }

    /** The show/hide button of the pricing table. */
    method TogglePricingTable()
      modifies this
      ensures showPricingTable == !old(showPricingTable) && selectedPlan == old(selectedPlan)
    {
      showPricingTable := !showPricingTable;
    }

    /** The payment component's properties, when it is rendered: only while
        a (truthy) plan id is selected. */
    function Payment(): (r: Option<PaymentProps>)
      reads this
      ensures r.Some? <==> selectedPlan.Some? && selectedPlan.value != ""
      ensures r.Some? ==> r.value.planId == selectedPlan.value && r.value.planName == PlanName(selectedPlan.value)
      ensures r.Some? ==> r.value.amount == PlanAmount(selectedPlan.value)
    {
      if selectedPlan.Some? && selectedPlan.value != "" then
        var id := selectedPlan.value;
        Some(PaymentProps(PlanAmount(id), PlanName(id), id))
      else None
    }
  }

  /** Whatever plan of the table is clicked, the payment component receives a
      whole number of rupees that the create-order endpoint accepts. */
  lemma EveryPlanPassesAmountCheck(i: nat)
    requires i < |Plans|
    ensures PlanAmount(Plans[i].id).Some? && PlanAmount(Plans[i].id).value >= 1
    ensures !CreateOrderRoute.AmountInvalid(CreateOrderRoute.AmountNumber(PlanAmount(Plans[i].id).value as real))
    ensures PlanName(Plans[i].id) == Plans[i].name
  {
    FindPlanById(i);
    PlanAmountAtLeastOne(i);
    var v := PlanAmount(Plans[i].id).value;
    assert v as real >= 1.0;
    CreateOrderRoute.AmountValidIff(CreateOrderRoute.AmountNumber(v as real));
  }

  /** The rupee amounts of the four plans, in table order. */
  const PlanRupees: seq<nat> := [99, 300, 500, 900]

  /** Each plan's price is the rupee sign followed by its amount in decimal. */
  lemma PlanPriceOf(i: nat)
    requires i < |Plans|
    ensures Plans[i].price == [Rupee] + NatToString(PlanRupees[i])
  {
    PlanPrices();
    if i == 0 {
    } else if i == 1 {
    } else if i == 2 {
    } else {
      assert i == 3;
    }
  }

  /** Every plan of the table is charged at least one rupee. */
  lemma PlanAmountAtLeastOne(i: nat)
    requires i < |Plans|
    ensures PlanAmount(Plans[i].id).Some? && PlanAmount(Plans[i].id).value >= 1
  {
    var plan, n := Plans[i], PlanRupees[i];
    FindPlanById(i);
    assert PlanAmount(plan.id) == PriceAmount(Some(plan.price));
    PlanPriceOf(i);
    AmountOfPrice(n);
    assert n >= 1;
  }
}
