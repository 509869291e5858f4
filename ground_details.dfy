/**
 * The ground details page: which ground the route names, how a slot's demand is
 * shown, and when the booking modal is open and for which slot.
 */
module GroundDetailsPage {
  import opened Wrappers
  import opened Strings
  import opened Seqs
  import opened Domain

  /** `grounds[k]` is the first ground with this id. */
  ghost predicate FirstWithId(grounds: seq<Ground>, id: int, k: int) {
    0 <= k < |grounds| && grounds[k].id == id && forall j :: 0 <= j < k ==> grounds[j].id != id
  }

  /** `grounds.find(g => g.id === parseInt(id))`; a route id that is not a number finds nothing. */
  function LookupGround(grounds: seq<Ground>, routeId: string): (r: Option<Ground>)
    ensures ParseInt(routeId).None? ==> r.None?
    ensures r.Some? ==> ParseInt(routeId).Some?
    ensures r.Some? ==> exists k :: FirstWithId(grounds, ParseInt(routeId).value, k) && grounds[k] == r.value
    ensures r.None? && ParseInt(routeId).Some? ==> forall k :: 0 <= k < |grounds| ==> grounds[k].id != ParseInt(routeId).value
  {
    match ParseInt(routeId)
    case None => None
    case Some(id) =>
      match FindFirst(grounds, (g: Ground) => g.id == id)
      case None => None
      case Some(k) => Some(grounds[k])
  }

  /** The route `/ground/<n>` shows the first ground with id `n`. */
  lemma RouteShowsGround(grounds: seq<Ground>, n: nat, k: nat)
    requires k < |grounds| && grounds[k].id == n
    requires forall j :: 0 <= j < k ==> grounds[j].id != n
    ensures LookupGround(grounds, NatToString(n)) == Some(grounds[k])
  {
    ParseNatToString(n);
    var r := LookupGround(grounds, NatToString(n));
    if r.Some? {
      var k' :| FirstWithId(grounds, n, k') && grounds[k'] == r.value;
      assert k' == k;
    }
  }

  /** `getDemandText`. */
  function DemandText(demand: string): (t: string)
    ensures demand == "high" ==> t == "High Demand"
    ensures demand == "medium" ==> t == "Medium Demand"
    ensures demand == "low" ==> t == "Low Demand"
    ensures t == "Available" <==> demand !in {"high", "medium", "low"}
  {
    match demand
    case "high" => "High Demand"
    case "medium" => "Medium Demand"
    case "low" => "Low Demand"
    case _ => "Available"
  }

  /** `getDemandColor`: red, yellow and green badges, gray for anything else. */
  function DemandColor(demand: string): (c: string)
    ensures demand == "high" ==> c == "bg-red-100 text-red-800"
    ensures demand == "medium" ==> c == "bg-yellow-100 text-yellow-800"
    ensures demand == "low" ==> c == "bg-green-100 text-green-800"
    ensures c == "bg-gray-100 text-gray-800" <==> demand !in {"high", "medium", "low"}
  {
    match demand
    case "high" => "bg-red-100 text-red-800"
    case "medium" => "bg-yellow-100 text-yellow-800"
    case "low" => "bg-green-100 text-green-800"
    case _ => "bg-gray-100 text-gray-800"
  }

  /** A slot's badge is gray exactly when its text is the fallback "Available"; known tiers differ in both. */
  lemma DemandBadgeConsistent(d1: string, d2: string)
    ensures DemandText(d1) == "Available" <==> DemandColor(d1) == "bg-gray-100 text-gray-800"
    ensures DemandText(d1) == DemandText(d2) <==> DemandColor(d1) == DemandColor(d2)
  {
  }

  /** The page's `ground`, `selectedSlot` and `showBookingModal` state. */
  class GroundDetails {
    var ground: Option<Ground>
    var selectedSlot: Option<Slot>
    var showBookingModal: bool

    constructor ()
      ensures ground.None? && selectedSlot.None? && !showBookingModal
    {
      ground, selectedSlot, showBookingModal := None, None, false;
    }

    /** `{showBookingModal && selectedSlot && ground && <BookingModal .../>}`: the modal's props when it is rendered. */
    function ModalProps(): (props: Option<(Ground, Slot)>)
      reads this
      ensures props.Some? <==> showBookingModal && selectedSlot.Some? && ground.Some?
      ensures props.Some? ==> props.value == (ground.value, selectedSlot.value)
    {
      if showBookingModal && selectedSlot.Some? && ground.Some? then Some((ground.value, selectedSlot.value))
      else None
    }

    /** `fetchGroundDetails`, given the ground list the request returned. */
    method LoadGround(grounds: seq<Ground>, routeId: string)
      modifies this
      ensures ground == LookupGround(grounds, routeId)
      ensures selectedSlot == old(selectedSlot) && showBookingModal == old(showBookingModal)
    {
      ground := LookupGround(grounds, routeId);
    }

    /** `handleSlotClick`: select the slot and open the modal, which renders once the ground is loaded. */
    method SlotClick(s: Slot)
      modifies this
      ensures selectedSlot == Some(s) && showBookingModal && ground == old(ground)
      ensures ModalProps().Some? <==> ground.Some?
    {
      selectedSlot := Some(s);
      showBookingModal := true;
    }

    /** `handleBookingComplete`, the modal's `onConfirm`: close the modal and forget the slot. */
    method BookingComplete()
      modifies this
      ensures !showBookingModal && selectedSlot.None? && ground == old(ground)
      ensures ModalProps().None?
    {
      showBookingModal := false;
      selectedSlot := None;
    }

    /** The modal's `onClose`: close it, keeping the selected slot. */
    method CloseModal()
      modifies this
      ensures !showBookingModal && selectedSlot == old(selectedSlot) && ground == old(ground)
      ensures ModalProps().None?
    {
      showBookingModal := false;
    }
  }
}
