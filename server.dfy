/**
 * The mock backend: module-level tables of grounds, slots, users and bookings,
 * and the endpoints over them. `bookings` and `users` grow only by appending;
 * the other tables are never written after start-up.
 */
module Server {
  import opened Wrappers
  import opened Strings
  import opened Seqs
  import opened Domain

  datatype HttpError = HttpError(status: int, detail: string)
  datatype UserView = UserView(id: int, name: string, email: string, loyaltyPoints: int, role: string)
  datatype AuthResponse = AuthResponse(token: string, user: UserView)
  datatype Forecast = Forecast(day: string, high: int, low: int, icon: string)

  /** The fields of `get_analytics` that depend on the stored bookings, and its fixed lists. */
  datatype Analytics = Analytics(
    totalBookings: int, totalRevenue: int,
    popularSlots: seq<string>, revenueByDay: seq<(string, int)>)

  const InitialGrounds: seq<Ground> := [
    Ground(1, "Finova Stadium", "Lahore", "Cricket", "https://images.pexels.com/photos/163452/baseball-stadium-ballpark-green-163452.jpeg", 2000),
    Ground(2, "Champions Ground", "Karachi", "Football", "https://images.pexels.com/photos/399187/pexels-photo-399187.jpeg", 1800),
    Ground(3, "Victory Field", "Islamabad", "Cricket", "https://images.pexels.com/photos/1618200/pexels-photo-1618200.jpeg", 2200),
    Ground(4, "Elite Sports Complex", "Lahore", "Football", "https://images.pexels.com/photos/209977/pexels-photo-209977.jpeg", 1900)
  ]

  const InitialSlots: seq<Slot> := [
    Slot(1, "2025-01-21", "08:00", "high", true, 2400),
    Slot(1, "2025-01-21", "10:00", "medium", true, 2000),
    Slot(1, "2025-01-21", "14:00", "low", true, 1800),
    Slot(1, "2025-01-21", "18:00", "high", true, 2600),
    Slot(2, "2025-01-21", "09:00", "medium", true, 1980),
    Slot(2, "2025-01-21", "16:00", "high", true, 2340)
  ]

  const WeatherData: map<string, seq<Forecast>> := map[
    "2025-01-21" := [Forecast("Sunny", 28, 18, "sun")],
    "2025-01-22" := [Forecast("Partly Cloudy", 25, 16, "cloud")],
    "2025-01-23" := [Forecast("Rainy", 22, 15, "cloud-rain")]
  ]

  /** The forecast `get_weather` returns for a date it has no entry for. */
  const DefaultForecast: seq<Forecast> := [Forecast("Sunny", 25, 18, "sun")]

  const InitialUsers: seq<User> := [
    User(1, "user@test.com", "password", "John Doe", 50, "user"),
    User(2, "admin@test.com", "admin", "Admin User", 0, "admin")
  ]

  // ---------------------------------------------------------------- users

  /** Ids are 1..n in table order and no two users share an email. */
  ghost predicate UsersValid(users: seq<User>) {
    && (forall i :: 0 <= i < |users| ==> users[i].id == i + 1)
    && (forall i, j :: 0 <= i < j < |users| ==> users[i].email != users[j].email)
  }

  function Token(id: int): string {
    "mock-jwt-" + IntToString(id)
  }

  /** The response body `login` and `signup` return for a user. */
  function AuthFor(u: User): (a: AuthResponse)
    ensures a.user.id == u.id && a.user.email == u.email && a.user.name == u.name
    ensures a.user.loyaltyPoints == u.loyaltyPoints && a.user.role == u.role
    ensures a.token == "mock-jwt-" + IntToString(u.id)
  {
    AuthResponse(Token(u.id), UserView(u.id, u.name, u.email, u.loyaltyPoints, u.role))
  }

  predicate Credentials(u: User, email: string, password: string) {
    u.email == email && u.password == password
  }

  /** `login`: the first user with this email and password, or 401. */
  function Login(users: seq<User>, email: string, password: string): (r: Result<AuthResponse, HttpError>)
    ensures r.Success? <==> exists i :: 0 <= i < |users| && Credentials(users[i], email, password)
    ensures r.Failure? ==> r.error == HttpError(401, "Invalid credentials")
    ensures r.Success? ==> exists i :: (0 <= i < |users| && Credentials(users[i], email, password)
      && (forall j :: 0 <= j < i ==> !Credentials(users[j], email, password)) && r.value == AuthFor(users[i]))
  {
    match FindFirst(users, u => Credentials(u, email, password))
    case None => Failure(HttpError(401, "Invalid credentials"))
    case Some(i) => Success(AuthFor(users[i]))
  }

  /** With unique emails, logging in as a user with their own password returns that user. */
  lemma LoginFindsUser(users: seq<User>, k: nat)
    requires UsersValid(users) && k < |users|
    ensures Login(users, users[k].email, users[k].password) == Success(AuthFor(users[k]))
  {
    var u := users[k];
    var r := Login(users, u.email, u.password);
    var i :| 0 <= i < |users| && Credentials(users[i], u.email, u.password) && r.value == AuthFor(users[i]);
    assert i == k;
  }

  predicate EmailTaken(users: seq<User>, email: string) {
    exists i :: 0 <= i < |users| && users[i].email == email
  }

  /** The user `signup` appends, or the 400 it raises when the email is taken. */
  function SignUp(users: seq<User>, email: string, password: string): (r: Result<User, HttpError>)
    ensures r.Failure? <==> EmailTaken(users, email)
    ensures r.Failure? ==> r.error == HttpError(400, "Email already exists")
    ensures r.Success? ==> r.value == User(|users| + 1, email, password, BeforeAt(email), 0, "user")
  {
    if EmailTaken(users, email) then Failure(HttpError(400, "Email already exists"))
    else Success(User(|users| + 1, email, password, BeforeAt(email), 0, "user"))
  }

  /** Appending the user `signup` creates keeps ids 1..n and emails unique. */
  lemma SignUpKeepsUsersValid(users: seq<User>, email: string, password: string)
    requires UsersValid(users) && SignUp(users, email, password).Success?
    ensures UsersValid(users + [SignUp(users, email, password).value])
  {
    var users' := users + [SignUp(users, email, password).value];
    forall i, j | 0 <= i < j < |users'| ensures users'[i].email != users'[j].email {
      if j == |users| {
        assert users[i].email != email;
      }
    }
  }

  /** A user who has just signed up can log in with the same credentials and gets the same response. */
  lemma SignUpThenLogin(users: seq<User>, email: string, password: string)
    requires UsersValid(users) && SignUp(users, email, password).Success?
    ensures var u := SignUp(users, email, password).value;
      Login(users + [u], email, password) == Success(AuthFor(u))
  {
    SignUpKeepsUsersValid(users, email, password);
    var u := SignUp(users, email, password).value;
    LoginFindsUser(users + [u], |users|);
  }

  // ---------------------------------------------------------------- grounds and slots

  /** A query parameter takes part in filtering when it is given and non-empty (Python truthiness). */
  predicate Given(param: Option<string>) {
    param.Some? && param.value != ""
  }

  predicate GroundMatches(g: Ground, city: Option<string>, sport: Option<string>) {
    && (!Given(city) || Lower(g.city) == Lower(city.value))
    && (!Given(sport) || Lower(g.sport) == Lower(sport.value))
  }

  function GroundMatcher(city: Option<string>, sport: Option<string>): Ground -> bool {
    g => GroundMatches(g, city, sport)
  }

  /** `list_grounds`: the grounds whose city and sport equal the given ones, ignoring case. */
  function ListGrounds(grounds: seq<Ground>, city: Option<string>, sport: Option<string>): (r: seq<Ground>)
    ensures r == Filter(grounds, GroundMatcher(city, sport))
    ensures IsSubseq(r, grounds)
    ensures forall i :: 0 <= i < |r| ==> GroundMatches(r[i], city, sport)
    ensures forall i :: 0 <= i < |grounds| && GroundMatches(grounds[i], city, sport) ==> grounds[i] in r
    ensures !Given(city) && !Given(sport) ==> r == grounds
  {
    var cityOk := (g: Ground) => Lower(g.city) == Lower(city.GetOr(""));
    var sportOk := (g: Ground) => Lower(g.sport) == Lower(sport.GetOr(""));
    var byCity := FilterIf(Given(city), grounds, cityOk);
    FilterIfIsFilter(Given(city), grounds, cityOk, g => !Given(city) || cityOk(g));
    FilterIfAfterFilter(Given(sport), grounds, g => !Given(city) || cityOk(g), sportOk, GroundMatcher(city, sport));
    FilterIf(Given(sport), byCity, sportOk)
  }

  predicate SlotMatches(s: Slot, groundId: int, date: Option<string>) {
    s.groundId == groundId && (!Given(date) || s.date == date.value)
  }

  function SlotMatcher(groundId: int, date: Option<string>): Slot -> bool {
    s => SlotMatches(s, groundId, date)
  }

  /** `list_slots`: the slots of one ground, on the given date when there is one, in table order. */
  function ListSlots(slots: seq<Slot>, groundId: int, date: Option<string>): (r: seq<Slot>)
    ensures r == Filter(slots, SlotMatcher(groundId, date))
    ensures IsSubseq(r, slots)
    ensures forall i :: 0 <= i < |r| ==> r[i].groundId == groundId
    ensures Given(date) ==> forall i :: 0 <= i < |r| ==> r[i].date == date.value
    ensures forall i :: 0 <= i < |slots| && SlotMatches(slots[i], groundId, date) ==> slots[i] in r
  {
    var ofGround := Filter(slots, (s: Slot) => s.groundId == groundId);
    var onDate := (s: Slot) => s.date == date.GetOr("");
    FilterIfAfterFilter(Given(date), slots, (s: Slot) => s.groundId == groundId, onDate, SlotMatcher(groundId, date));
    FilterIf(Given(date), ofGround, onDate)
  }

  /** `get_weather`: the stored forecast for the date, or the fixed sunny default. */
  function GetWeather(weather: map<string, seq<Forecast>>, date: string): (r: seq<Forecast>)
    ensures date in weather ==> r == weather[date]
    ensures date !in weather ==> r == [Forecast("Sunny", 25, 18, "sun")]
    ensures (forall d :: d in weather ==> weather[d] != []) ==> r != []
  {
    if date in weather then weather[date] else DefaultForecast
  }

  // ---------------------------------------------------------------- bookings

  /** Booking ids are 1..n in table order. */
  ghost predicate BookingIdsSequential(bookings: seq<Booking>) {
    forall i :: 0 <= i < |bookings| ==> bookings[i].id == i + 1
  }

  /** The booking `book_slot` appends for a request (its `created_at` time stamp is not modelled). */
  function NewBooking(bookings: seq<Booking>, req: BookingRequest): (b: Booking)
    ensures b.id == |bookings| + 1 && b.status == "Confirmed"
    ensures b.groundId == req.groundId && b.date == req.date && b.time == req.time
    ensures b.duration == req.duration && b.loyaltyPointsUsed == req.loyaltyPointsUsed
    ensures b.totalPrice == req.totalPrice
    ensures BookingIdsSequential(bookings) ==> BookingIdsSequential(bookings + [b])
  {
    Booking(|bookings| + 1, req.groundId, req.date, req.time, req.duration,
            req.loyaltyPointsUsed, req.totalPrice, "Confirmed")
  }

  /** `sum(b["total_price"] for b in bookings)`. */
  function TotalRevenue(bookings: seq<Booking>): (r: int)
    ensures (forall i :: 0 <= i < |bookings| ==> bookings[i].totalPrice >= 0) ==> r >= 0
    decreases |bookings|
  {
    if bookings == [] then 0
    else TotalRevenue(bookings[..|bookings| - 1]) + bookings[|bookings| - 1].totalPrice
  }

  /** Revenue adds up over a split of the booking list. */
  lemma {:induction false} TotalRevenueConcat(a: seq<Booking>, b: seq<Booking>)
    ensures TotalRevenue(a + b) == TotalRevenue(a) + TotalRevenue(b)
    decreases |b|
  {
    if b == [] {
      assert a + b == a;
    } else {
      var b' := b[..|b| - 1];
      assert (a + b)[..|a + b| - 1] == a + b';
      TotalRevenueConcat(a, b');
    }
  }

  /** When no booking has a negative price, revenue is at least the price of each booking. */
  lemma {:induction false} TotalRevenueBounds(bookings: seq<Booking>, k: nat)
    requires forall i :: 0 <= i < |bookings| ==> bookings[i].totalPrice >= 0
    requires k < |bookings|
    ensures TotalRevenue(bookings) >= bookings[k].totalPrice >= 0
    decreases |bookings|
  {
    var n := |bookings| - 1;
    if k < n {
      TotalRevenueBounds(bookings[..n], k);
    }
  }

  /** `get_analytics`: the count and revenue of the stored bookings, and its fixed figures. */
  function GetAnalytics(bookings: seq<Booking>): (a: Analytics)
    ensures a.totalBookings == |bookings|
    ensures a.totalRevenue == TotalRevenue(bookings)
  {
    Analytics(|bookings|, TotalRevenue(bookings),
      ["18:00", "19:00", "20:00"],
      [("Monday", 25000), ("Tuesday", 18000), ("Wednesday", 22000), ("Thursday", 20000),
       ("Friday", 35000), ("Saturday", 45000), ("Sunday", 40000)])
  }

  // ---------------------------------------------------------------- AI assistant

  /** The canned replies, in the dictionary's insertion order (which is its iteration order). */
  const AssistantReplies: seq<(string, string)> := [
    ("best time", "Tomorrow at 5 PM looks clear and lightly booked — perfect for your team!"),
    ("weather", "The weather looks great for the next 3 days. Tuesday might have some rain, so Monday or Wednesday would be ideal."),
    ("price", "Off-peak hours (10 AM - 2 PM) typically offer 20% lower rates. I'd recommend booking between 11 AM - 1 PM for the best value."),
    ("demand", "Based on current trends, weekday mornings have low demand while weekend evenings are in high demand. Consider booking Tuesday-Thursday for better availability."),
    ("default", "I can help you find the best time to play based on weather, demand, and pricing. What would you like to know?")
  ]

  const DefaultReply: string := AssistantReplies[4].1

  /** Entry `k` is the first whose key occurs in the query `q`. */
  ghost predicate FirstKeyIn(q: string, k: int) {
    && 0 <= k < |AssistantReplies|
    && Contains(q, AssistantReplies[k].0)
    && forall j :: 0 <= j < k ==> !Contains(q, AssistantReplies[j].0)
  }

  /** `ai_assistant`: the reply of the first key, in table order, found in the lower-cased query. */
  method AiAssistant(query: string) returns (reply: string)
    ensures var q := Lower(query);
      || (exists k :: FirstKeyIn(q, k) && reply == AssistantReplies[k].1)
      || ((forall k :: 0 <= k < |AssistantReplies| ==> !Contains(q, AssistantReplies[k].0)) && reply == DefaultReply)
  {
    var q := Lower(query);
    reply := DefaultReply;
    var k := 0;
    while k < |AssistantReplies|
      invariant 0 <= k <= |AssistantReplies|
      invariant forall j :: 0 <= j < k ==> !Contains(q, AssistantReplies[j].0)
      invariant reply == DefaultReply
    {
      if Contains(q, AssistantReplies[k].0) {
        reply := AssistantReplies[k].1;
        assert FirstKeyIn(q, k);
        break;
      }
      k := k + 1;
    }
  }

  // ---------------------------------------------------------------- the running server

  /** The module-level state of the backend process. */
  class Backend {
    const grounds: seq<Ground>
    const slots: seq<Slot>
    const weather: map<string, seq<Forecast>>
    var bookings: seq<Booking>
    var users: seq<User>

    ghost predicate Valid()
      reads this
    {
      BookingIdsSequential(bookings) && UsersValid(users)
    }

    /** The tables as the module defines them at start-up. */
    constructor ()
      ensures Valid()
      ensures grounds == InitialGrounds && slots == InitialSlots && weather == WeatherData
      ensures bookings == [] && users == InitialUsers
    {
      grounds, slots, weather := InitialGrounds, InitialSlots, WeatherData;
      bookings, users := [], InitialUsers;
    }

    /** `signup`: append a new user unless the email is taken; the new user can then log in. */
    method Signup(email: string, password: string) returns (r: Result<AuthResponse, HttpError>)
      requires Valid()
      modifies this
      ensures Valid() && bookings == old(bookings)
      ensures match SignUp(old(users), email, password)
        case Failure(e) => r == Failure(e) && users == old(users)
        case Success(u) => r == Success(AuthFor(u)) && users == old(users) + [u]
      ensures r.Success? ==> Login(users, email, password) == r
    {
      var created := SignUp(users, email, password);
      match created {
        case Failure(e) =>
          r := Failure(e);
        case Success(u) =>
          SignUpKeepsUsersValid(users, email, password);
          SignUpThenLogin(users, email, password);
          users := users + [u];
          r := Success(AuthFor(u));
      }
    }

    /** `book_slot`: append a confirmed booking with the next id; revenue grows by its price. */
    method BookSlot(req: BookingRequest) returns (b: Booking)
      requires Valid()
      modifies this
      ensures Valid() && users == old(users)
      ensures b == NewBooking(old(bookings), req) && bookings == old(bookings) + [b]
      ensures GetAnalytics(bookings).totalBookings == GetAnalytics(old(bookings)).totalBookings + 1
      ensures GetAnalytics(bookings).totalRevenue == GetAnalytics(old(bookings)).totalRevenue + req.totalPrice
    {
      b := NewBooking(bookings, req);
      bookings := bookings + [b];
      assert bookings[..|bookings| - 1] == old(bookings);
    }
  }
}
