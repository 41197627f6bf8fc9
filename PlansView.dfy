/** The plans page (components/PlansView.tsx): one card per tier whose
    button text and disabled flag depend on the learner's current tier, and
    a click that asks for an upgrade only on an enabled card. */
module PlansView {
  import opened Types

  /** What the page shows of a card besides its fixed texts and feature list. */
  datatype PlanCard = PlanCard(id: SubscriptionTier, price: string, buttonText: string, disabled: bool)

  /** The three cards, FREE, PREMIUM, PRO, for a learner on `current`. */
  function Cards(current: SubscriptionTier): (cards: seq<PlanCard>)
    ensures |cards| == 3
    ensures cards[0].id == Free && cards[1].id == Premium && cards[2].id == Pro
    ensures cards[0].price == "R0" && cards[1].price == "R99" && cards[2].price == "R199"
    ensures cards[0].disabled <==> current == Free
    ensures cards[0].buttonText == (if current == Free then "Current Plan" else "Downgrade")
    ensures cards[1].disabled <==> current == Premium || current == Pro
    ensures cards[1].buttonText ==
      (if current == Premium then "Current Plan" else if current == Pro then "Included" else "Go Elite")
    ensures cards[2].disabled <==> current == Pro
    ensures cards[2].buttonText == (if current == Pro then "Current Plan" else "Go Pro")
  {
    [ PlanCard(Free, "R0", if current == Free then "Current Plan" else "Downgrade", current == Free),
      PlanCard(Premium, "R99",
        if current == Premium then "Current Plan" else if current == Pro then "Included" else "Go Elite",
        current == Premium || current == Pro),
      PlanCard(Pro, "R199", if current == Pro then "Current Plan" else "Go Pro", current == Pro) ]
  }

  /** The card's button: the upgrade dialog is asked for its tier only when it is enabled. */
  function Click(card: PlanCard): (request: Option<SubscriptionTier>)
    ensures request.Some? <==> !card.disabled
    ensures request.Some? ==> request.value == card.id
  {
    if card.disabled then None else Some(card.id)
  }

  /** The card of the current tier reads "Current Plan" and no other card does. */
  lemma ExactlyOneCurrentPlan(current: SubscriptionTier, k: nat)
    requires k < 3
    ensures Cards(current)[k].buttonText == "Current Plan" <==> Cards(current)[k].id == current
  {
    var cards := Cards(current);
    assert "Downgrade" != "Current Plan" by { assert "Downgrade"[0] != "Current Plan"[0]; }
    assert "Included" != "Current Plan" by { assert "Included"[0] != "Current Plan"[0]; }
    assert "Go Elite" != "Current Plan" by { assert "Go Elite"[0] != "Current Plan"[0]; }
    assert "Go Pro" != "Current Plan" by { assert "Go Pro"[0] != "Current Plan"[0]; }
  }

  /** No click on the page ever asks for the tier the learner already has,
      and a click for a tier below it is possible only on the FREE card. */
  lemma ClickNeverCurrent(current: SubscriptionTier, k: nat)
    requires k < 3
    ensures Click(Cards(current)[k]).Some? ==> Click(Cards(current)[k]).value != current
    ensures Click(Cards(current)[k]).Some? && Rank(Click(Cards(current)[k]).value) < Rank(current) ==>
      Click(Cards(current)[k]).value == Free
  {
  }
}
