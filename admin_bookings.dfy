/**
 * The bookings admin page: the walk-in booking form and its request, and the
 * status badge and ground name shown for each booking.
 */
module BookingsAdmin {
  import opened Wrappers
  import opened Strings
  import opened Domain
  import Server

  /** The walk-in form; every field holds the text of its input or select. */
  datatype WalkInForm = WalkInForm(
    customerName: string, customerPhone: string, groundId: string,
    date: string, time: string, duration: string)

  /** The form's initial contents, to which it is reset after a successful booking. */
  const DefaultWalkInForm: WalkInForm := WalkInForm("", "", "1", "", "", "1")

  /** The flat walk-in rate in PKR per hour. */
  const WalkInRate: int := 2000

  /** The values of the duration select (1, 2, 4 and 8 hours). */
  const OfferedHours: seq<nat> := [1, 2, 4, 8]

  /**
   * The JSON body of the walk-in request. `None` is a NaN from `parseInt`, which
   * `JSON.stringify` sends as `null`.
   */
  datatype WalkInBody = WalkInBody(
    groundId: Option<int>, date: string, time: string, duration: string,
    loyaltyPointsUsed: int, totalPrice: Option<int>)

  /** The body `handleWalkInBooking` posts: no points, 2000 PKR per hour, duration "<n> Hour". */
  function WalkInPayload(f: WalkInForm): (b: WalkInBody)
    ensures b.groundId == ParseInt(f.groundId) && b.date == f.date && b.time == f.time
    ensures b.duration == f.duration + " Hour" && b.loyaltyPointsUsed == 0
    ensures b.totalPrice.Some? <==> ParseInt(f.duration).Some?
    ensures b.totalPrice.Some? ==> b.totalPrice.value == WalkInRate * ParseInt(f.duration).value
  {
    var hours := ParseInt(f.duration);
    WalkInBody(ParseInt(f.groundId), f.date, f.time, f.duration + " Hour", 0,
               if hours.Some? then Some(WalkInRate * hours.value) else None)
  }

  /** The offered hours, rendered as the duration select's option values, read back as themselves. */
  lemma ParseOfferedHours(k: nat)
    requires k < |OfferedHours|
    ensures ParseInt(NatToString(OfferedHours[k])) == Some(OfferedHours[k] as int)
  {
    ParseNatToString(OfferedHours[k]);
  }

  /** The walk-in rate times each offered duration. */
  lemma OfferedHourRates(k: nat)
    requires k < |OfferedHours|
    ensures WalkInRate * OfferedHours[k] == [2000, 4000, 8000, 16000][k]
  {
    if k == 0 {
      assert OfferedHours[k] == 1;
    } else if k == 1 {
      assert OfferedHours[k] == 2;
    } else if k == 2 {
      assert OfferedHours[k] == 4;
    } else {
      assert OfferedHours[k] == 8;
    }
  }

  /** For the four offered durations the walk-in prices are 2000, 4000, 8000 and 16000 PKR. */
  lemma OfferedDurationPrices(f: WalkInForm, k: nat)
    requires k < |OfferedHours| && f.duration == NatToString(OfferedHours[k])
    ensures WalkInPayload(f).totalPrice == Some([2000, 4000, 8000, 16000][k])
    ensures WalkInPayload(f).duration == NatToString(OfferedHours[k]) + " Hour"
  {
    ParseOfferedHours(k);
    OfferedHourRates(k);
    assert ParseInt(f.duration) == Some(OfferedHours[k] as int);
  }

  /** The default form's ground id and duration, both "1", read back as 1. */
  lemma ParseOne()
    ensures ParseInt("1") == Some(1)
  {
    ParseNatToString(1);
    assert NatToString(1) == "1";
  }

  /** The duration label of one hour. */
  lemma OneHourLabel()
    ensures "1" + " Hour" == "1 Hour"
  {
  }

  /** The default form books ground 1 for one hour at 2000 PKR. */
  lemma DefaultFormPayload()
    ensures WalkInPayload(DefaultWalkInForm) == WalkInBody(Some(1), "", "", "1 Hour", 0, Some(2000))
  {
    ParseOne();
    OneHourLabel();
    var f := DefaultWalkInForm;
    assert f.groundId == "1" && f.duration == "1";
    var b := WalkInPayload(f);
    assert b.groundId == Some(1) && b.totalPrice == Some(2000);
  }

  /** `getStatusColor`: green, yellow and red for confirmed, pending and cancelled in any case; gray otherwise. */
  function StatusColor(status: string): (c: string)
    ensures Lower(status) == "confirmed" ==> c == "bg-green-100 text-green-800"
    ensures Lower(status) == "pending" ==> c == "bg-yellow-100 text-yellow-800"
    ensures Lower(status) == "cancelled" ==> c == "bg-red-100 text-red-800"
    ensures c == "bg-gray-100 text-gray-800" <==> Lower(status) !in {"confirmed", "pending", "cancelled"}
  {
    match Lower(status)
    case "confirmed" => "bg-green-100 text-green-800"
    case "pending" => "bg-yellow-100 text-yellow-800"
    case "cancelled" => "bg-red-100 text-red-800"
    case _ => "bg-gray-100 text-gray-800"
  }

  /** The badge does not depend on letter case; the backend's "Confirmed" is green. */
  lemma StatusColorIgnoresCase(status: string)
    ensures StatusColor(Lower(status)) == StatusColor(status)
    ensures StatusColor("Confirmed") == "bg-green-100 text-green-800"
  {
    LowerIdempotent(status);
    assert Lower("Confirmed") == "confirmed";
  }

  const GroundNames: map<int, string> := map[
    1 := "Finova Stadium", 2 := "Champions Ground", 3 := "Victory Field", 4 := "Elite Sports Complex"
  ]

  /** `getGroundName`: the fixed name of grounds 1 to 4, otherwise "Ground <id>". */
  function GroundName(id: int): (name: string)
    ensures 1 <= id <= 4 ==> name == GroundNames[id]
    ensures !(1 <= id <= 4) ==> name == "Ground " + IntToString(id)
  {
    if id in GroundNames && GroundNames[id] != "" then GroundNames[id] else "Ground " + IntToString(id)
  }

  /** The fixed names agree with the backend's ground table. */
  lemma GroundNamesMatchBackend(k: nat)
    requires k < |Server.InitialGrounds|
    ensures GroundName(Server.InitialGrounds[k].id) == Server.InitialGrounds[k].name
  {
  }

  datatype WalkInField = CustomerName | CustomerPhone | GroundField | DateField | TimeField | DurationField

  function FieldValue(f: WalkInForm, field: WalkInField): string {
    match field
    case CustomerName => f.customerName
    case CustomerPhone => f.customerPhone
    case GroundField => f.groundId
    case DateField => f.date
    case TimeField => f.time
    case DurationField => f.duration
  }

  /** `setWalkInForm({...walkInForm, field: value})`. */
  function SetField(f: WalkInForm, field: WalkInField, value: string): (r: WalkInForm)
    ensures FieldValue(r, field) == value
    ensures forall other :: other != field ==> FieldValue(r, other) == FieldValue(f, other)
  {
    match field
    case CustomerName => f.(customerName := value)
    case CustomerPhone => f.(customerPhone := value)
    case GroundField => f.(groundId := value)
    case DateField => f.(date := value)
    case TimeField => f.(time := value)
    case DurationField => f.(duration := value)
  }

  /** The page's `walkInForm` and `showWalkInModal` state. */
  class AdminBookings {
    var walkInForm: WalkInForm
    var showWalkInModal: bool

    constructor ()
      ensures walkInForm == DefaultWalkInForm && !showWalkInModal
    {
      walkInForm, showWalkInModal := DefaultWalkInForm, false;
    }

    /** The "Walk-in Booking" button. */
    method OpenWalkIn()
      modifies this
      ensures showWalkInModal && walkInForm == old(walkInForm)
    {
      showWalkInModal := true;
    }

    /** The modal's "Cancel". */
    method CancelWalkIn()
      modifies this
      ensures !showWalkInModal && walkInForm == old(walkInForm)
    {
      showWalkInModal := false;
    }

    /** A change of one of the form's inputs, which are rendered only while the modal is open. */
    method EditField(field: WalkInField, value: string)
      modifies this
      ensures walkInForm == if old(showWalkInModal) then SetField(old(walkInForm), field, value) else old(walkInForm)
      ensures showWalkInModal == old(showWalkInModal)
    {
      if showWalkInModal {
        walkInForm := SetField(walkInForm, field, value);
      }
    }

    /**
     * `handleWalkInBooking`, behind the modal's "Create Booking" button: post the payload
     * of the current form; only an ok response closes the modal and resets the form, a
     * failure or thrown error changes nothing. With the modal closed there is no button.
     */
    method SubmitWalkIn(outcome: FetchOutcome) returns (body: Option<WalkInBody>)
      modifies this
      ensures body == if old(showWalkInModal) then Some(WalkInPayload(old(walkInForm))) else None
      ensures old(showWalkInModal) && outcome == Ok ==> !showWalkInModal && walkInForm == DefaultWalkInForm
      ensures !(old(showWalkInModal) && outcome == Ok) ==>
        showWalkInModal == old(showWalkInModal) && walkInForm == old(walkInForm)
    {
      if showWalkInModal {
        body := Some(WalkInPayload(walkInForm));
        if outcome == Ok {
          showWalkInModal := false;
          walkInForm := DefaultWalkInForm;
        }
      } else {
        body := None;
      }
    }
  }
}
