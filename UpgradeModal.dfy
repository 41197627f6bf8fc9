/** The upgrade dialog (components/UpgradeModal.tsx): the price table and the
    payment link keys for the tier asked for, and the two flags that step the
    dialog from choosing a billing cycle to confirming the payment. */
module UpgradeModal {
  import opened Types
  import PlansView

  datatype BillingCycle = Monthly | Yearly

  /** The keys of the payment-link table. */
  datatype TierKey = PremiumKey | ProKey

  datatype CycleKey = MonthlyKey | YearlyKey

  datatype PaymentLink = PaymentLink(tier: TierKey, cycle: CycleKey)

  /** Only a PRO request is sold as PRO; every other tier, FREE included, is sold as PREMIUM. */
  function LinkTierKey(target: SubscriptionTier): (k: TierKey)
    ensures k == ProKey <==> target == Pro
  {
    if target == Pro then ProKey else PremiumKey
  }

  function LinkCycleKey(cycle: BillingCycle): (k: CycleKey)
    ensures k == MonthlyKey <==> cycle == Monthly
  {
    if cycle == Monthly then MonthlyKey else YearlyKey
  }

  /** The heading of the dialog. */
  function TierName(target: SubscriptionTier): (name: string)
    ensures name == (if LinkTierKey(target) == ProKey then "PRO ACCESS" else "PREMIUM ACCESS")
  {
    if target == Pro then "PRO ACCESS" else "PREMIUM ACCESS"
  }

  /** The price in rand of the plan sold for `target`, as the labels read. */
  function PriceRand(target: SubscriptionTier, cycle: BillingCycle): (r: nat)
    ensures LinkTierKey(target) == ProKey ==> r == (if cycle == Monthly then 199 else 1990)
    ensures LinkTierKey(target) == PremiumKey ==> r == (if cycle == Monthly then 99 else 990)
  {
    var monthly := if target == Pro then 199 else 99;
    if cycle == Monthly then monthly else 10 * monthly
  }

  /** The price as the dialog prints it. */
  function PriceLabel(target: SubscriptionTier, cycle: BillingCycle): (shown: string)
    ensures LinkTierKey(target) == ProKey ==> shown == (if cycle == Monthly then "R199" else "R1,990")
    ensures LinkTierKey(target) == PremiumKey ==> shown == (if cycle == Monthly then "R99" else "R990")
  {
    if target == Pro then (if cycle == Monthly then "R199" else "R1,990")
    else (if cycle == Monthly then "R99" else "R990")
  }

  /** The yearly card's "Save 20%" badge: against twelve monthly payments a
      year saves exactly one sixth on both plans, which is less than a fifth. */
  lemma YearlySavesOneSixth(target: SubscriptionTier)
    ensures var twelve := 12 * PriceRand(target, Monthly);
      PriceRand(target, Yearly) < twelve &&
      6 * (twelve - PriceRand(target, Yearly)) == twelve &&
      5 * (twelve - PriceRand(target, Yearly)) < twelve
  {
  }

  /** For the paid tiers the monthly price agrees with the plans page. */
  lemma MonthlyPriceMatchesPlanCard(target: SubscriptionTier)
    requires target != Free
    ensures PriceLabel(target, Monthly) == PlansView.Cards(Free)[Rank(target)].price
  {
  }

  class Modal {
    const targetTier: SubscriptionTier
    var hasSelected: bool
    var verifying: bool

    constructor (targetTier: SubscriptionTier)
      ensures this.targetTier == targetTier && !hasSelected && !verifying
    {
      this.targetTier := targetTier;
      hasSelected := false;
      verifying := false;
    }

    /** The confirm button is disabled while the payment is being verified. */
    predicate VerifyEnabled(): (b: bool)
      reads this
      ensures b <==> !verifying
    {
      !verifying
    }

    /** Choosing a billing cycle opens the payment link for the tier sold and
        moves on to the confirmation. */
    method HandlePlanSelection(cycle: BillingCycle) returns (link: PaymentLink)
      modifies this`hasSelected
      ensures link == PaymentLink(LinkTierKey(targetTier), LinkCycleKey(cycle))
      ensures hasSelected
    {
      link := PaymentLink(LinkTierKey(targetTier), LinkCycleKey(cycle));
      hasSelected := true;
    }

    /** "Return to Selection" goes back to the billing choice; a verification
        already under way stays under way. */
    method ReturnToSelection()
      modifies this`hasSelected
      ensures !hasSelected
    {
      hasSelected := false;
    }

    /** "Confirm": ignored while verifying (the button is disabled); otherwise
        verification starts and the upgrade to the tier asked for follows. */
    method ConfirmPayment() returns (upgrade: Option<SubscriptionTier>)
      modifies this`verifying
      ensures !old(VerifyEnabled()) ==> upgrade == None
      ensures old(VerifyEnabled()) ==> upgrade == Some(targetTier)
      ensures !VerifyEnabled()
    {
      if !VerifyEnabled() {
        return None;
      }
      verifying := true;
      upgrade := Some(targetTier);
    }
  }

  /** The one upgrade a dialog can ask for is the tier it was opened with,
      and only once. */
  method ConfirmTwice(target: SubscriptionTier) returns (first: Option<SubscriptionTier>, second: Option<SubscriptionTier>)
    ensures first == Some(target) && second == None
  {
    var modal := new Modal(target);
    var link := modal.HandlePlanSelection(Yearly);
    first := modal.ConfirmPayment();
    modal.ReturnToSelection();
    link := modal.HandlePlanSelection(Monthly);
    second := modal.ConfirmPayment();
  }

  /** The FREE card's "Downgrade" opens the dialog for FREE: it is sold as the
      PREMIUM plan at R99 a month, and confirming it asks for FREE
      (`App.DowngradeThroughDialogSetsFree` takes the request to the app). */
  method DowngradeThroughDialog() returns (link: PaymentLink, shown: string, upgrade: Option<SubscriptionTier>)
    ensures link == PaymentLink(PremiumKey, MonthlyKey) && shown == "R99"
    ensures upgrade == Some(Free)
  {
    var request := PlansView.Click(PlansView.Cards(Premium)[0]);
    var modal := new Modal(request.value);
    link := modal.HandlePlanSelection(Monthly);
    shown := PriceLabel(modal.targetTier, Monthly);
    upgrade := modal.ConfirmPayment();
  }
}
