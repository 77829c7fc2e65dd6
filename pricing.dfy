/** The pricing section (`Pricing`): the three-plan catalog, the monthly/yearly billing
    toggle, the cards built from the catalog, and the checkout dialog the cards open. */
module Pricing {
  import opened Wrappers
  import Paywall

  /** A catalog entry (`monthlyPlans`); `popular` is absent, hence false, on all but one. */
  datatype Plan = Plan(title: string, price: int, features: seq<string>, popular: bool)

  /** A card's props (`currentPlans`): the catalog entry with its displayed price and period. */
  datatype CardPlan = CardPlan(title: string, price: int, features: seq<string>, popular: bool,
                               period: string)

  const Starter := Plan("Starter", 29,
    ["Up to 5 team members", "Basic AI insights", "10 active campaigns", "Email support",
     "Standard integrations", "Monthly reports"], false)

  const Professional := Plan("Professional", 79,
    ["Up to 25 team members", "Advanced AI analytics", "Unlimited campaigns",
     "Priority support", "Advanced integrations", "Real-time reporting", "A/B testing",
     "Custom dashboards"], true)

  const Enterprise := Plan("Enterprise", 199,
    ["Unlimited team members", "Full AI suite access", "White-label options",
     "Dedicated support", "Custom integrations", "Advanced security", "API access",
     "Training sessions"], false)

  /** The monthly catalog, in display order. */
  const MonthlyPlans: seq<Plan> := [Starter, Professional, Enterprise]

  /** The billing period the toggle selects. */
  function Period(isYearly: bool): (r: string)
    ensures r == "year" <==> isYearly
    ensures r == "month" <==> !isYearly
  {
    if isYearly then "year" else "month"
  }

  /** The card props of one catalog entry under the current billing period. */
  function CardOf(plan: Plan, isYearly: bool): (r: CardPlan)
    ensures r.title == plan.title && r.features == plan.features && r.popular == plan.popular
    ensures r.price == (if isYearly then 10 * plan.price else plan.price)
    ensures r.period == Period(isYearly)
  {
    CardPlan(plan.title, if isYearly then plan.price * 10 else plan.price,
             plan.features, plan.popular, Period(isYearly))
  }

  /** `currentPlans`: every catalog entry mapped to its card, in catalog order. */
  function CurrentPlans(isYearly: bool): (r: seq<CardPlan>)
    ensures |r| == |MonthlyPlans|
    ensures forall i :: 0 <= i < |r| ==> r[i] == CardOf(MonthlyPlans[i], isYearly)
  {
    seq(|MonthlyPlans|, i requires 0 <= i < |MonthlyPlans| => CardOf(MonthlyPlans[i], isYearly))
  }

  /** The catalog's titles, prices and popularity, in order: only Professional is popular. */
  lemma CatalogShape()
    ensures |MonthlyPlans| == 3
    ensures MonthlyPlans[0].title == "Starter" && MonthlyPlans[0].price == 29
    ensures MonthlyPlans[1].title == "Professional" && MonthlyPlans[1].price == 79
    ensures MonthlyPlans[2].title == "Enterprise" && MonthlyPlans[2].price == 199
    ensures forall i :: 0 <= i < |MonthlyPlans| ==> (MonthlyPlans[i].popular <==> i == 1)
  {
  }

  /** Monthly cards show the catalog unchanged apart from the `month` period. */
  lemma MonthlyCardsShowCatalog(i: int)
    requires 0 <= i < |MonthlyPlans|
    ensures CurrentPlans(false)[i].price == MonthlyPlans[i].price
    ensures CurrentPlans(false)[i].period == "month"
  {
  }

  /** The plan `handlePlanSelect` stores for a card's `{title, price}`: the price is
      multiplied by ten again when billing is yearly. */
  function Selection(title: string, price: int, isYearly: bool): (r: Paywall.SelectedPlan)
    ensures r.name == title
    ensures r.price == (if isYearly then 10 * price else price)
    ensures r.period == Some(Period(isYearly))
  {
    Paywall.SelectedPlan(title, if isYearly then price * 10 else price,
                         Some(Period(isYearly)))
  }

  /** The plan stored when card `i` is clicked: the card passes its own (already converted)
      entry to `handlePlanSelect`. */
  function CardSelection(i: int, isYearly: bool): (r: Paywall.SelectedPlan)
    requires 0 <= i < |MonthlyPlans|
    ensures r.name == MonthlyPlans[i].title
    ensures r.period == Some(Period(isYearly))
  {
    var card := CurrentPlans(isYearly)[i];
    Selection(card.title, card.price, isYearly)
  }

  /** The two conversions compose: a yearly click charges a hundred times the monthly price,
      a monthly click the monthly price itself. */
  lemma CardSelectionPrice(i: int, isYearly: bool)
    requires 0 <= i < |MonthlyPlans|
    ensures CardSelection(i, isYearly).name == MonthlyPlans[i].title
    ensures CardSelection(i, isYearly).price
         == (if isYearly then 100 * MonthlyPlans[i].price else MonthlyPlans[i].price)
  {
    assert CurrentPlans(isYearly)[i] == CardOf(MonthlyPlans[i], isYearly);
  }

  /** Concretely, the yearly Starter checkout asks for 2900 rather than the 290 its card
      shows. */
  lemma YearlyStarterCheckout()
    ensures CurrentPlans(true)[0].price == 290
    ensures CardSelection(0, true).price == 2900
  {
    CardSelectionPrice(0, true);
  }

  /** The checkout dialog's summary for a card click: the annual subtitle exactly when
      billing is yearly, never the free-trial block, and the stored price per the period. */
  lemma CardSelectionSummary(i: int, isYearly: bool)
    requires 0 <= i < |MonthlyPlans|
    ensures Paywall.Summary(CardSelection(i, isYearly)).0 == Paywall.AnnualSubtitle <==> isYearly
    ensures Paywall.Summary(CardSelection(i, isYearly)).1
         == Paywall.Priced(CardSelection(i, isYearly).price, Period(isYearly))
  {
    var p := CardSelection(i, isYearly);
    assert p.period == Some(Period(isYearly));
    assert !Paywall.IsTrial(p);
  }

  /** The section's state: whether the checkout dialog is open, the plan it shows, and the
      billing period. */
  class PricingSection {
    var isPaywallOpen: bool
    var selectedPlan: Paywall.SelectedPlan
    var isYearly: bool

    /** Dialog closed, monthly billing, and an empty monthly plan. */
    constructor ()
      ensures !isPaywallOpen && !isYearly
      ensures selectedPlan == Paywall.SelectedPlan("", 0, Some("month"))
    {
      isPaywallOpen := false;
      selectedPlan := Paywall.SelectedPlan("", 0, Some("month"));
      isYearly := false;
    }

    /** The billing toggle flips the period and nothing else. */
    method ToggleBilling()
      modifies this
      ensures isYearly == !old(isYearly)
      ensures isPaywallOpen == old(isPaywallOpen) && selectedPlan == old(selectedPlan)
    {
      isYearly := !isYearly;
    }

    /** `handlePlanSelect`: stores the plan for the current period and opens the dialog. */
    method HandlePlanSelect(title: string, price: int)
      modifies this
      ensures selectedPlan == Selection(title, price, old(isYearly))
      ensures isPaywallOpen && isYearly == old(isYearly)
    {
      var period := if isYearly then "year" else "month";
      var charged := if isYearly then price * 10 else price;
      selectedPlan := Paywall.SelectedPlan(title, charged, Some(period));
      isPaywallOpen := true;
    }

    /** Clicking card `i`: its `onSelect` passes the card's own entry to `handlePlanSelect`. */
    method SelectCard(i: int)
      requires 0 <= i < |MonthlyPlans|
      modifies this
      ensures selectedPlan == CardSelection(i, old(isYearly))
      ensures isPaywallOpen && isYearly == old(isYearly)
    {
      var card := CurrentPlans(isYearly)[i];
      HandlePlanSelect(card.title, card.price);
    }

    /** The dialog's `onClose`: closes it and keeps the plan and the period. */
    method ClosePaywall()
      modifies this
      ensures !isPaywallOpen
      ensures selectedPlan == old(selectedPlan) && isYearly == old(isYearly)
    {
      isPaywallOpen := false;
    }
  }

  /** Toggling the billing period twice restores it. */
  method ToggleTwice(s: PricingSection)
    modifies s
    ensures s.isYearly == old(s.isYearly)
    ensures s.isPaywallOpen == old(s.isPaywallOpen) && s.selectedPlan == old(s.selectedPlan)
  {
    s.ToggleBilling();
    s.ToggleBilling();
  }
}
