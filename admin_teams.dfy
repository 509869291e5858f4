/**
 * The teams admin page: loyalty tiers by total spending, and the "create
 * campaign" form with its modal.
 */
module TeamsAdmin {
  import opened Wrappers
  import opened Strings

  datatype Tier = Tier(name: string, minSpent: int, benefits: string, color: string)

  /** `loyaltyTiers`, lowest first. */
  const LoyaltyTiers: seq<Tier> := [
    Tier("Bronze", 0, "5% discount, 1x points", "bg-orange-100 text-orange-800"),
    Tier("Silver", 25000, "10% discount, 1.5x points", "bg-gray-100 text-gray-800"),
    Tier("Gold", 50000, "15% discount, 2x points", "bg-yellow-100 text-yellow-800"),
    Tier("Platinum", 100000, "20% discount, 3x points", "bg-purple-100 text-purple-800")
  ]

  /** The index into `loyaltyTiers` that `getTeamTier` picks: Platinum, Gold, Silver, else Bronze. */
  function TeamTierIndex(totalSpent: int): (k: nat)
    ensures k < |LoyaltyTiers|
    ensures k == 3 <==> totalSpent >= 100000
    ensures k == 2 <==> 50000 <= totalSpent < 100000
    ensures k == 1 <==> 25000 <= totalSpent < 50000
    ensures k == 0 <==> totalSpent < 25000
    ensures totalSpent >= 0 ==> LoyaltyTiers[k].minSpent <= totalSpent
    ensures k + 1 < |LoyaltyTiers| ==> LoyaltyTiers[k + 1].minSpent > totalSpent
  {
    if totalSpent >= 100000 then 3
    else if totalSpent >= 50000 then 2
    else if totalSpent >= 25000 then 1
    else 0
  }

  /** `getTeamTier`. */
  function GetTeamTier(totalSpent: int): (t: Tier)
    ensures t in LoyaltyTiers
    ensures totalSpent >= 0 ==> t.minSpent <= totalSpent
    ensures forall k :: 0 <= k < |LoyaltyTiers| && LoyaltyTiers[k].minSpent <= totalSpent ==> LoyaltyTiers[k].minSpent <= t.minSpent
  {
    LoyaltyTiers[TeamTierIndex(totalSpent)]
  }

  /** Spending more never moves a team to a lower tier. */
  lemma TierMonotone(a: int, b: int)
    requires a <= b
    ensures TeamTierIndex(a) <= TeamTierIndex(b)
    ensures GetTeamTier(a).minSpent <= GetTeamTier(b).minSpent
  {
  }

  /** The campaign form. `None` in a numeric field is the NaN that parsing an empty or non-numeric input gives. */
  datatype Campaign = Campaign(
    name: string, description: string,
    discountPercentage: Option<int>, minBookings: Option<int>,
    validUntil: string, pointsMultiplier: Option<real>)

  /** The form's initial contents, to which it is also reset. */
  const InitialCampaign: Campaign := Campaign("", "", Some(10), Some(5), "", Some(2.0))

  /**
   * One `onChange` of the form. The numeric inputs pass their text through
   * `parseInt`; the points multiplier passes the result of `parseFloat`.
   */
  datatype CampaignEdit =
    | EditName(text: string)
    | EditDescription(text: string)
    | EditDiscount(text: string)
    | EditMinBookings(text: string)
    | EditValidUntil(text: string)
    | EditPointsMultiplier(parsed: Option<real>)

  datatype CampaignField = NameField | DescriptionField | DiscountField | MinBookingsField | ValidUntilField | MultiplierField

  function FieldOf(e: CampaignEdit): CampaignField {
    match e
    case EditName(_) => NameField
    case EditDescription(_) => DescriptionField
    case EditDiscount(_) => DiscountField
    case EditMinBookings(_) => MinBookingsField
    case EditValidUntil(_) => ValidUntilField
    case EditPointsMultiplier(_) => MultiplierField
  }

  /** `c` and `d` agree on every field except possibly `f`. */
  predicate SameExcept(c: Campaign, d: Campaign, f: CampaignField) {
    && (f == NameField || c.name == d.name)
    && (f == DescriptionField || c.description == d.description)
    && (f == DiscountField || c.discountPercentage == d.discountPercentage)
    && (f == MinBookingsField || c.minBookings == d.minBookings)
    && (f == ValidUntilField || c.validUntil == d.validUntil)
    && (f == MultiplierField || c.pointsMultiplier == d.pointsMultiplier)
  }

  /** `setCampaign({...campaign, field: value})`: the edited field takes the new value, the rest are kept. */
  function ApplyEdit(c: Campaign, e: CampaignEdit): (r: Campaign)
    ensures SameExcept(c, r, FieldOf(e))
    ensures e.EditName? ==> r.name == e.text
    ensures e.EditDescription? ==> r.description == e.text
    ensures e.EditDiscount? ==> r.discountPercentage == ParseInt(e.text)
    ensures e.EditMinBookings? ==> r.minBookings == ParseInt(e.text)
    ensures e.EditValidUntil? ==> r.validUntil == e.text
    ensures e.EditPointsMultiplier? ==> r.pointsMultiplier == e.parsed
  {
    match e
    case EditName(t) => c.(name := t)
    case EditDescription(t) => c.(description := t)
    case EditDiscount(t) => c.(discountPercentage := ParseInt(t))
    case EditMinBookings(t) => c.(minBookings := ParseInt(t))
    case EditValidUntil(t) => c.(validUntil := t)
    case EditPointsMultiplier(v) => c.(pointsMultiplier := v)
  }

  /** Entering a whole number in a numeric field stores that number. */
  lemma EditDiscountNumber(c: Campaign, n: int)
    ensures ApplyEdit(c, EditDiscount(IntToString(n))).discountPercentage == Some(n)
    ensures ApplyEdit(c, EditMinBookings(IntToString(n))).minBookings == Some(n)
  {
    ParseIntToString(n);
  }

  /** The page's `campaign` and `showCampaignModal` state. */
  class AdminTeams {
    var campaign: Campaign
    var showCampaignModal: bool

    constructor ()
      ensures campaign == InitialCampaign && !showCampaignModal
    {
      campaign, showCampaignModal := InitialCampaign, false;
    }

    /** The "Create Campaign" button of the page. */
    method OpenCampaignModal()
      modifies this
      ensures showCampaignModal && campaign == old(campaign)
    {
      showCampaignModal := true;
    }

    /** The modal's "Cancel": close it, keeping what was typed. */
    method CancelCampaign()
      modifies this
      ensures !showCampaignModal && campaign == old(campaign)
    {
      showCampaignModal := false;
    }

    /** A change of one of the form's inputs, which are rendered only while the modal is open. */
    method Edit(e: CampaignEdit)
      modifies this
      ensures old(showCampaignModal) ==> campaign == ApplyEdit(old(campaign), e)
      ensures !old(showCampaignModal) ==> campaign == old(campaign)
      ensures showCampaignModal == old(showCampaignModal)
    {
      if showCampaignModal {
        var edited := ApplyEdit(campaign, e);
        campaign := edited;
      }
    }

    /**
     * `handleCreateCampaign`, behind the modal's "Create Campaign" button: close the modal
     * and reset the form (the campaign is only logged). With the modal closed there is no button.
     */
    method CreateCampaign()
      modifies this
      ensures !showCampaignModal
      ensures campaign == if old(showCampaignModal) then InitialCampaign else old(campaign)
    {
      if showCampaignModal {
        showCampaignModal := false;
        campaign := InitialCampaign;
      }
    }
  }
}
