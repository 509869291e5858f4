/**
 * The booking modal: the duration catalogue, the price computation with loyalty
 * points, the three-step wizard and the guarded submission of the booking.
 */
module Checkout {
  import opened Wrappers
  import opened Strings
  import opened Seqs
  import opened Domain

  /** A catalogue entry; `title` is the option's `label` (a reserved word in Dafny). */
  datatype DurationOption = DurationOption(value: string, title: string, multiplier: nat)

  /** The four durations offered, in display order. */
  const DurationOptions: seq<DurationOption> := [
    DurationOption("1", "1 Hour", 1),
    DurationOption("2", "2 Hours", 2),
    DurationOption("4", "Half Day (4 hours)", 4),
    DurationOption("8", "Full Day (8 hours)", 8)
  ]

  /** Discount in PKR per redeemed loyalty point. */
  const PointValue: int := 10

  /** `durationOptions.find(d => d.value === duration)`. */
  function FindDuration(value: string): (r: Option<DurationOption>)
    ensures r.Some? <==> exists k :: 0 <= k < |DurationOptions| && DurationOptions[k].value == value
    ensures r.Some? ==> r.value in DurationOptions && r.value.value == value
  {
    match FindFirst(DurationOptions, (d: DurationOption) => d.value == value)
    case None => None
    case Some(k) => Some(DurationOptions[k])
  }

  /** Each option's value is the decimal form of its multiplier, so the catalogue values are distinct. */
  lemma CatalogueValues(k: nat)
    requires k < |DurationOptions|
    ensures DurationOptions[k].value == NatToString(DurationOptions[k].multiplier)
    ensures FindDuration(DurationOptions[k].value) == Some(DurationOptions[k])
  {
  }

  /** The three derived prices of the modal. */
  datatype Quote = Quote(basePrice: int, loyaltyDiscount: int, finalPrice: int)

  /**
   * `basePrice`, `loyaltyDiscount` and `finalPrice`: the slot price times the
   * duration's multiplier, 10 PKR per point, and their difference floored at 0.
   */
  function ComputePrice(slotPrice: int, option: DurationOption, points: int): (q: Quote)
    ensures q.basePrice == slotPrice * option.multiplier
    ensures q.loyaltyDiscount == points * PointValue
    ensures q.finalPrice >= 0
    ensures q.finalPrice >= q.basePrice - q.loyaltyDiscount
    ensures q.finalPrice == 0 || q.finalPrice == q.basePrice - q.loyaltyDiscount
    ensures points >= 0 && q.basePrice >= 0 ==> q.finalPrice <= q.basePrice
  {
    var base := slotPrice * option.multiplier;
    var discount := points * PointValue;
    Quote(base, discount, if base - discount > 0 then base - discount else 0)
  }

  /** The "max" shown beside the points input: `min(balance, floor(basePrice / 10))`. */
  function PointsCap(balance: int, basePrice: int): (cap: int)
    ensures cap <= balance && cap * PointValue <= basePrice
    ensures cap == balance || cap == basePrice / PointValue
  {
    var byPrice := basePrice / PointValue;
    if balance < byPrice then balance else byPrice
  }

  /**
   * Redeeming no more than the displayed cap never needs the floor at 0: the discount
   * fits in the base price and the final price is their exact difference.
   */
  lemma WithinCap(slotPrice: int, option: DurationOption, points: int, balance: int)
    requires var q := ComputePrice(slotPrice, option, points);
      0 <= points <= PointsCap(balance, q.basePrice)
    ensures var q := ComputePrice(slotPrice, option, points);
      q.loyaltyDiscount <= q.basePrice && q.finalPrice == q.basePrice - q.loyaltyDiscount
  {
    var q := ComputePrice(slotPrice, option, points);
    var cap := PointsCap(balance, q.basePrice);
    assert points * PointValue <= cap * PointValue;
  }

  /** The points input handler: `Math.max(0, parseInt(value) || 0)`. */
  function SanitisePoints(input: string): (points: int)
    ensures points >= 0
    ensures ParseInt(input).Some? && ParseInt(input).value > 0 ==> points == ParseInt(input).value
    ensures ParseInt(input).None? || ParseInt(input).value <= 0 ==> points == 0
  {
    var parsed := ParseInt(input).GetOr(0);
    if parsed > 0 then parsed else 0
  }

  /** A typed non-negative number is taken as it is; a typed negative one becomes 0. */
  lemma SanitiseNumber(n: int)
    ensures SanitisePoints(IntToString(n)) == if n > 0 then n else 0
  {
    ParseIntToString(n);
  }

  // ---------------------------------------------------------------- the wizard

  /** The content rendered for each step. */
  datatype StepView = DurationView | LoyaltyView | ReviewView

  /** The step views rendered for `currentStep`: the three `currentStep === k &&` guards. */
  function Views(step: int): (r: set<StepView>)
    ensures |r| <= 1
    ensures r != {} <==> step in {1, 2, 3}
    ensures DurationView in r <==> step == 1
    ensures LoyaltyView in r <==> step == 2
    ensures ReviewView in r <==> step == 3
  {
    (if step == 1 then {DurationView} else {})
    + (if step == 2 then {LoyaltyView} else {})
    + (if step == 3 then {ReviewView} else {})
  }

  /** The navigation buttons: "Next: Loyalty Points", "Back", "Review Booking", "Back". */
  datatype StepButton = NextToLoyalty | BackToDuration | ToReview | BackToLoyalty

  /** The view each button is rendered in. */
  function ViewOf(b: StepButton): StepView {
    match b
    case NextToLoyalty => DurationView
    case BackToDuration => LoyaltyView
    case ToReview => LoyaltyView
    case BackToLoyalty => ReviewView
  }

  /** The step each button's handler sets. */
  function Target(b: StepButton): int {
    match b
    case NextToLoyalty => 2
    case BackToDuration => 1
    case ToReview => 3
    case BackToLoyalty => 2
  }

  /** The step after pressing `b`: a button can be pressed only while its view is rendered. */
  function StepAfter(step: int, b: StepButton): (r: int)
    ensures step in {1, 2, 3} ==> r in {1, 2, 3}
    ensures r == step || (step, r) in {(1, 2), (2, 1), (2, 3), (3, 2)}
    ensures step !in {1, 2, 3} ==> r == step
  {
    if ViewOf(b) in Views(step) then Target(b) else step
  }

  /** Every step transition the wizard allows is made by some button. */
  lemma EveryTransitionHasButton(step: int, next: int)
    requires (step, next) in {(1, 2), (2, 1), (2, 3), (3, 2)}
    ensures exists b :: StepAfter(step, b) == next
  {
    if step == 1 {
      assert StepAfter(1, NextToLoyalty) == 2;
    } else if step == 3 {
      assert StepAfter(3, BackToLoyalty) == 2;
    } else if next == 1 {
      assert StepAfter(2, BackToDuration) == 1;
    } else {
      assert StepAfter(2, ToReview) == 3;
    }
  }

  /** One open booking modal: its props and its four pieces of state. */
  class BookingModal {
    const ground: Ground
    const slot: Slot
    /** The signed-in user's balance, `user?.loyalty_points`; `None` when no user is signed in. */
    const balance: Option<int>
    var currentStep: int
    var duration: string
    var loyaltyPointsUsed: int
    var isBooking: bool

    /** The step is one of the three, the duration is in the catalogue, and the points are non-negative. */
    ghost predicate Valid()
      reads this
    {
      currentStep in {1, 2, 3} && FindDuration(duration).Some? && loyaltyPointsUsed >= 0
    }

    constructor (ground: Ground, slot: Slot, balance: Option<int>)
      ensures Valid()
      ensures this.ground == ground && this.slot == slot && this.balance == balance
      ensures currentStep == 1 && duration == "1" && loyaltyPointsUsed == 0 && !isBooking
    {
      this.ground, this.slot, this.balance := ground, slot, balance;
      currentStep, duration, loyaltyPointsUsed, isBooking := 1, "1", 0, false;
    }

    /** `selectedDuration`: the catalogue entry for `duration`. */
    function SelectedDuration(): (d: DurationOption)
      reads this
      requires Valid()
      ensures d in DurationOptions && d.value == duration
    {
      FindDuration(duration).value
    }

    function Price(): (q: Quote)
      reads this
      requires Valid()
      ensures q == ComputePrice(slot.price, SelectedDuration(), loyaltyPointsUsed)
      ensures q.finalPrice >= 0
      ensures slot.price >= 0 ==> q.finalPrice <= q.basePrice
    {
      ComputePrice(slot.price, SelectedDuration(), loyaltyPointsUsed)
    }

    /** The cap shown in step 2; `user?.loyalty_points || 0` counts a missing user as 0 points. */
    function DisplayedCap(): (cap: int)
      reads this
      requires Valid()
      ensures cap <= balance.GetOr(0) && cap * PointValue <= Price().basePrice
      ensures cap == balance.GetOr(0) || cap == Price().basePrice / PointValue
    {
      PointsCap(balance.GetOr(0), Price().basePrice)
    }

    /** Redeeming no more than the displayed cap, the final price is the exact difference. */
    lemma WithinDisplayedCap()
      requires Valid() && 0 <= loyaltyPointsUsed <= DisplayedCap()
      ensures Price().loyaltyDiscount <= Price().basePrice
      ensures Price().finalPrice == Price().basePrice - Price().loyaltyDiscount
    {
      WithinCap(slot.price, SelectedDuration(), loyaltyPointsUsed, balance.GetOr(0));
    }

    /** The price shown on the card of option `k` in step 1 is the base price once `k` is chosen. */
    lemma CardPriceIsBasePrice(k: nat)
      requires Valid() && k < |DurationOptions| && duration == DurationOptions[k].value
      ensures slot.price * DurationOptions[k].multiplier == Price().basePrice
    {
      CatalogueValues(k);
    }

    /** The body `handleConfirmBooking` posts. */
    function RequestBody(): (body: BookingRequest)
      reads this
      requires Valid()
      ensures body.groundId == ground.id && body.date == slot.date && body.time == slot.time
      ensures body.duration == SelectedDuration().title
      ensures body.loyaltyPointsUsed == loyaltyPointsUsed
      ensures body.totalPrice == Price().finalPrice && body.totalPrice >= 0
    {
      BookingRequest(ground.id, slot.date, slot.time, SelectedDuration().title,
                     loyaltyPointsUsed, Price().finalPrice)
    }

    /** A click on a navigation button. */
    method Press(b: StepButton)
      requires Valid()
      modifies this
      ensures Valid()
      ensures currentStep == StepAfter(old(currentStep), b)
      ensures duration == old(duration) && loyaltyPointsUsed == old(loyaltyPointsUsed)
      ensures isBooking == old(isBooking)
    {
      if ViewOf(b) in Views(currentStep) {
        currentStep := Target(b);
      }
    }

    /** A click on the card of duration option `k`, which is rendered in step 1 only. */
    method ChooseDuration(k: nat)
      requires Valid() && k < |DurationOptions|
      modifies this
      ensures Valid()
      ensures duration == if old(currentStep) == 1 then DurationOptions[k].value else old(duration)
      ensures currentStep == old(currentStep) && loyaltyPointsUsed == old(loyaltyPointsUsed)
      ensures isBooking == old(isBooking)
    {
      if DurationView in Views(currentStep) {
        CatalogueValues(k);
        duration := DurationOptions[k].value;
      }
    }

    /**
     * A change of the points input, rendered in step 2 only. Wrong input is
     * corrected to 0 but no upper limit is enforced: the cap is only displayed.
     */
    method EnterPoints(input: string)
      requires Valid()
      modifies this
      ensures Valid()
      ensures loyaltyPointsUsed == if old(currentStep) == 2 then SanitisePoints(input) else old(loyaltyPointsUsed)
      ensures currentStep == old(currentStep) && duration == old(duration)
      ensures isBooking == old(isBooking)
    {
      if LoyaltyView in Views(currentStep) {
        loyaltyPointsUsed := SanitisePoints(input);
      }
    }

    /**
     * A click on "Confirm Booking" (step 3; disabled while a request is in flight):
     * raise the flag and return the body to post.
     */
    method PressConfirm() returns (body: Option<BookingRequest>)
      requires Valid()
      modifies this
      ensures Valid()
      ensures old(currentStep) == 3 && !old(isBooking) ==> isBooking && body == Some(RequestBody())
      ensures !(old(currentStep) == 3 && !old(isBooking)) ==> !body.Some? && isBooking == old(isBooking)
      ensures currentStep == old(currentStep) && duration == old(duration)
      ensures loyaltyPointsUsed == old(loyaltyPointsUsed)
    {
      if ReviewView in Views(currentStep) && !isBooking {
        isBooking := true;
        body := Some(RequestBody());
      } else {
        body := None;
      }
    }

    /**
     * The awaited request settles: the flag drops whatever the outcome, and the
     * parent's `onConfirm` is called (`confirmed`) only for an ok response.
     */
    method RequestSettled(outcome: FetchOutcome) returns (confirmed: bool)
      requires Valid() && isBooking
      modifies this
      ensures Valid() && !isBooking
      ensures confirmed <==> outcome == Ok
      ensures currentStep == old(currentStep) && duration == old(duration)
      ensures loyaltyPointsUsed == old(loyaltyPointsUsed)
    {
      confirmed := outcome == Ok;
      isBooking := false;
    }
  }
}
