/**
  The plan selector on the subscriptions page (`SubscriptionModule`): a
  monthly/yearly billing toggle, the plan chosen from the plan cards, the
  summary shown beside them, and the payment form that refuses to submit
  until a plan is chosen.
 */
module Subscription {
  import opened Wrappers

  /** A plan card: its name and its per-month prices under monthly and under yearly billing. */
  datatype PlanCard = PlanCard(plan: string, monthly: real, yearly: real)

  datatype Cadence = Monthly | Yearly

  function CadenceOf(yearly: bool): Cadence
  {
    if yearly then Yearly else Monthly
  }

  /** The price a card shows under the current billing choice (`updateCards`). */
  function CardPrice(card: PlanCard, yearly: bool): (price: real)
    ensures CadenceOf(yearly) == Yearly ==> price == card.yearly
    ensures CadenceOf(yearly) == Monthly ==> price == card.monthly
  {
    if yearly then card.yearly else card.monthly
  }

  /** The summary beside the cards: "None" at $0, or the plan, its cadence and its per-month price. */
  datatype SummaryView = NoPlan | PlanSummary(plan: string, cadence: Cadence, price: real)

  /** What the alert reports when the payment form is submitted. */
  datatype PaymentSummary = PaymentSummary(plan: string, cadence: Cadence, paymentRail: string, company: string, contact: string)

  // ----- The selection as the page keeps it -----

  /** `selectedPlan` as written: the plan name and the price read off the card at the moment of the click. */
  datatype Selection = Selection(plan: string, price: real)

  function SelectAsWritten(card: PlanCard, yearly: bool): (s: Selection)
    ensures s.plan == card.plan && s.price == CardPrice(card, yearly)
  {
    Selection(card.plan, if yearly then card.yearly else card.monthly)
  }

  /** `updateSummary` as written: the cadence is read now, the price is the one captured at selection. */
  function SummaryAsWritten(yearly: bool, selected: Option<Selection>): (v: SummaryView)
    ensures selected.None? <==> v == NoPlan
    ensures selected.Some? ==> v.plan == selected.value.plan && v.cadence == CadenceOf(yearly) && v.price == selected.value.price
  {
    match selected
    case None => NoPlan
    case Some(s) => PlanSummary(s.plan, CadenceOf(yearly), s.price)
  }

  /**
    Choosing a plan under monthly billing and then switching the toggle to
    yearly leaves a summary that says "Yearly" but shows the monthly price,
    for any card whose two prices differ.
   */
  lemma StaleSummaryAfterToggle(card: PlanCard)
    requires card.monthly != card.yearly
    ensures var v := SummaryAsWritten(true, Some(SelectAsWritten(card, false)));
      v.cadence == Yearly && v.price == card.monthly && v.price != CardPrice(card, true)
  {
  }

  /**
    The summary as evidently intended: the selection remembers the card, and
    the price follows the billing choice shown next to it.
   */
  function Summary(yearly: bool, selected: Option<PlanCard>): (v: SummaryView)
    ensures selected.None? <==> v == NoPlan
    ensures selected.Some? ==> v.plan == selected.value.plan && v.cadence == CadenceOf(yearly)
    ensures selected.Some? ==> v.price == CardPrice(selected.value, yearly)
  {
    match selected
    case None => NoPlan
    case Some(card) => PlanSummary(card.plan, CadenceOf(yearly), CardPrice(card, yearly))
  }

  /** The intended summary agrees with the written one whenever the toggle has not moved since the selection. */
  lemma SummaryMatchesWhenToggleUnchanged(card: PlanCard, yearly: bool)
    ensures Summary(yearly, Some(card)) == SummaryAsWritten(yearly, Some(SelectAsWritten(card, yearly)))
  {
  }

  /**
    The page's `yearly` flag and selected plan, with the summary corrected:
    the selection keeps the whole card, so the summary's price follows the
    billing toggle (`Summary`), where the page as written keeps the price
    captured at the click (`SummaryAsWritten`).
   */
  class PlanSelector {
    var yearly: bool
    var selected: Option<PlanCard>

    constructor()
      ensures !yearly && selected == None
    {
      yearly := false;
      selected := None;
    }

    /** The corrected summary for the current state. */
    function CurrentSummary(): SummaryView
      reads this
    {
      Summary(yearly, selected)
    }

    /** The billing toggle's change event. */
    method Toggle(checked: bool)
      modifies this
      ensures yearly == checked && selected == old(selected)
      ensures selected.Some? ==>
        CurrentSummary() == PlanSummary(selected.value.plan, CadenceOf(checked), CardPrice(selected.value, checked))
    {
      yearly := checked;
    }

    /** A plan card's select button. */
    method Select(card: PlanCard)
      modifies this
      ensures selected == Some(card) && yearly == old(yearly)
      ensures CurrentSummary() == PlanSummary(card.plan, CadenceOf(yearly), CardPrice(card, yearly))
    {
      selected := Some(card);
    }

    /**
      The payment form's submit: refused while no plan is chosen; otherwise
      it reports the plan, the cadence and the form's fields, and clears the
      selection. The billing toggle is left as it was.
     */
    method SubmitPayment(paymentRail: string, company: string, contact: string) returns (r: Option<PaymentSummary>)
      modifies this
      ensures old(selected).None? ==> r == None && selected == None && yearly == old(yearly)
      ensures old(selected).Some? ==>
        r == Some(PaymentSummary(old(selected).value.plan, CadenceOf(old(yearly)), paymentRail, company, contact))
      ensures old(selected).Some? ==> selected == None && yearly == old(yearly)
      ensures CurrentSummary() == NoPlan
    {
      if selected.None? {
        return None;
      }
      r := Some(PaymentSummary(selected.value.plan, CadenceOf(yearly), paymentRail, company, contact));
      selected := None;
    }
  }
}
