/**
 * The records exchanged between the backend and the pages: grounds, hour slots,
 * booking requests and stored bookings, users, and the outcome of a `fetch`.
 */
module Domain {

  /** A venue. Its image URL is kept; its floating-point rating is not modelled. */
  datatype Ground = Ground(id: int, name: string, city: string, sport: string, image: string, price: int)

  /** One bookable hour at a ground. `demand` is "low", "medium" or "high" in the backend's data. */
  datatype Slot = Slot(groundId: int, date: string, time: string, demand: string, available: bool, price: int)

  /** The body of `POST /api/book`. */
  datatype BookingRequest = BookingRequest(
    groundId: int, date: string, time: string, duration: string,
    loyaltyPointsUsed: int, totalPrice: int)

  /** A stored booking: the request plus an id and a status. */
  datatype Booking = Booking(
    id: int, groundId: int, date: string, time: string, duration: string,
    loyaltyPointsUsed: int, totalPrice: int, status: string)

  datatype User = User(id: int, email: string, password: string, name: string, loyaltyPoints: int, role: string)

  /** How an awaited `fetch` ends: a response with `ok` set, one without, or a thrown error. */
  datatype FetchOutcome = Ok | NotOk | Thrown
}
