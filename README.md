# Turf booking: a Dafny model of the booking rules

This project models the rules of a sports-ground booking system: a React front-end
over a mock FastAPI backend. It is written in Dafny and its properties are proved.
The model covers:

- **Checkout** (`BookingModal.tsx`). The duration catalogue (1, 2, 4 and 8 hours). The base
  price, the loyalty discount of 10 PKR per point, and the final price floored at 0. The
  sanitiser on the points input. The three-step wizard. The in-flight flag that guards
  "Confirm Booking".
- **Server** (`server.py`). The module-level tables. `login`, `signup`, `list_grounds`,
  `list_slots`, `get_weather`, `book_slot`, `ai_assistant` and the booking totals of
  `get_analytics`.
- **GroundsPage** (`Grounds.tsx`). The search, city and sport filters, the city and sport
  drop-down lists, and "Clear filters".
- **GroundDetailsPage** (`GroundDetails.tsx`). Looking up the ground named by the route, the
  demand badge, and when the booking modal is open.
- **TeamsAdmin** (`AdminTeams.tsx`). Loyalty tiers by spending, and the campaign form.
- **BookingsAdmin** (`AdminBookings.tsx`). The walk-in booking request, its form reset, the
  status badge and the ground names.
- **PricingAdmin** (`AdminPricing.tsx`). Updates of the pricing record that replace one field.

State that handlers change step by step is modelled as classes whose methods change
fields:
- `Server.Backend` holds the backend's `bookings` and `users` lists.
- `Checkout.BookingModal`, `GroundDetailsPage.GroundDetails`, `TeamsAdmin.AdminTeams` and
  `BookingsAdmin.AdminBookings` hold those components' React state.

Two pieces of page state are values instead, updated by pure functions. The grounds page's
search term, city and sport are the value `GroundsPage.Criteria`, and `ClearFilters` resets
them. The pricing page's record is an `Option<PricingData>`, passed through
`UpdateBasePrice`, `UpdateMultiplier` and `OnBasePriceInput`.

Each class method states its whole new state. The pure functions carry the contracts and
lemmas that state the rules.

Shared code lives in three helper modules. `Strings` has ASCII lower-casing, substring
search, decimal rendering, JavaScript's `parseInt`, and Python's `split("@")[0]`. `Seqs` has
filtering, first match and de-duplication in first-occurrence order. `Wrappers` has
Option and Result. A `fetch` is not modelled. Its result is an input, `FetchOutcome`:
an ok response, a response that is not ok, or a thrown error.

The points handler (`BookingModal.tsx:147`) only raises negative and non-numeric input
to 0. The cap `min(balance, floor(basePrice/10))` is shown in the label and set as the
input's `max` attribute (`:140`, `:145`), but nothing enforces it. So `EnterPoints` does not
clamp from above, and `WithinCap` and `WithinDisplayedCap` state what holds within the
cap.

## Model

| member | source | states |
|---|---|---|
| `Checkout.FindDuration` | project/src/components/BookingModal.tsx:46 | the lookup succeeds exactly when some catalogue entry has the value, and then returns an entry with that value |
| `Checkout.CatalogueValues` | project/src/components/BookingModal.tsx:39-46 | each option's value is the decimal form of its multiplier, and looking up an option's value returns that option |
| `Checkout.ComputePrice` | project/src/components/BookingModal.tsx:47-49 | base price is slot price × multiplier; discount is 10 per point; final price is never negative, is at least base − discount, is either 0 or exactly base − discount, and is at most the base price when points ≥ 0 |
| `Checkout.PointsCap` | project/src/components/BookingModal.tsx:140 | the displayed cap is at most the balance, is worth at most the base price, and equals one of the two bounds |
| `Checkout.WithinCap` | project/src/components/BookingModal.tsx:140-145 | for 0 ≤ points ≤ cap, the discount fits in the base price and the final price is exactly base − discount, with no flooring |
| `Checkout.SanitisePoints` | project/src/components/BookingModal.tsx:147 | the stored points are never negative; a positive parsed number is kept; NaN, 0 or a negative number becomes 0 |
| `Checkout.SanitiseNumber` | project/src/components/BookingModal.tsx:147 | typing the decimal form of n stores n when n > 0 and 0 otherwise |
| `Strings.ParseInt` | project/src/components/BookingModal.tsx:147 | `parseInt` of a non-empty string of digits is the number those digits write |
| `Strings.ParseIntReadsNumber` | project/src/components/BookingModal.tsx:147 | `parseInt` returns a number exactly when white space, at most one sign, and a run of digits not followed by another digit form a prefix of the input; it then returns that signed number, and NaN otherwise |
| `Strings.ParseIntToString` | project/src/components/BookingModal.tsx:147 | `parseInt` reads back any integer written in decimal, negative numbers included |
| `Checkout.Views` | project/src/components/BookingModal.tsx:298-300 | at most one step view renders; one renders exactly when the step is 1, 2 or 3; each view renders only at its own step |
| `Checkout.StepAfter` | project/src/components/BookingModal.tsx:112-244 | pressing a button keeps the step in {1,2,3}; the only changes are 1→2, 2→1, 2→3 and 3→2 |
| `Checkout.EveryTransitionHasButton` | project/src/components/BookingModal.tsx:112-244 | each of the four allowed transitions is made by some button |
| `Checkout.BookingModal.constructor` | project/src/components/BookingModal.tsx:32-37 | the modal opens at step 1 with duration "1", 0 points and no request in flight, and its invariant holds |
| `Checkout.BookingModal.SelectedDuration` | project/src/components/BookingModal.tsx:46 | under the invariant, the selected duration is a catalogue entry whose value is the current `duration` (the `!` never fails) |
| `Checkout.BookingModal.Price` | project/src/components/BookingModal.tsx:46-49 | the modal's prices come from the selected option and points; the final price is ≥ 0 and, for a non-negative slot price, ≤ the base price |
| `Checkout.BookingModal.DisplayedCap` | project/src/components/BookingModal.tsx:140 | the cap the label shows is the smaller of the balance (0 when no user is signed in) and `floor(basePrice/10)`: it is at most both and equal to one of them |
| `Checkout.BookingModal.WithinDisplayedCap` | project/src/components/BookingModal.tsx:140-145 | redeeming no more than the displayed cap, the discount fits in the base price and the final price is their exact difference |
| `Checkout.BookingModal.CardPriceIsBasePrice` | project/src/components/BookingModal.tsx:103 | the price on the card of the selected option equals `basePrice` |
| `Checkout.BookingModal.RequestBody` | project/src/components/BookingModal.tsx:60-67 | the posted body carries the ground id, the slot's date and time, the selected duration's label, the points used, and the final price (≥ 0) |
| `Checkout.BookingModal.Press` | project/src/components/BookingModal.tsx:112-244 | a navigation click moves the step as `StepAfter` says and keeps the invariant; nothing else changes |
| `Checkout.BookingModal.ChooseDuration` | project/src/components/BookingModal.tsx:93 | in step 1 a card click selects that option's value; otherwise nothing changes; the duration stays in the catalogue |
| `Checkout.BookingModal.EnterPoints` | project/src/components/BookingModal.tsx:146-147 | in step 2 the points become the sanitised input; there is no upper clamp; the points stay ≥ 0 |
| `Checkout.BookingModal.PressConfirm` | project/src/components/BookingModal.tsx:51-68 | in step 3 with no request in flight, the flag is raised and the body is produced; otherwise no request is made and nothing changes |
| `Checkout.BookingModal.RequestSettled` | project/src/components/BookingModal.tsx:70-77 | whatever the outcome, the flag drops; `onConfirm` is signalled exactly for an ok response; step and draft are unchanged |
| `Server.Backend.constructor` | project/server.py:17-43 | the tables start as the mock data, with no bookings, and the invariant (sequential ids, unique emails) holds |
| `Server.AuthFor` | project/server.py:74-83 | the response copies the user's public fields and the token is "mock-jwt-" followed by the id |
| `Server.Login` | project/server.py:68-83 | login succeeds exactly when some user has this email and password, and then answers for the first such user in the table; otherwise it raises 401 "Invalid credentials" |
| `Server.LoginFindsUser` | project/server.py:69-75 | with unique emails, logging in with a user's own credentials answers for exactly that user |
| `Strings.BeforeAt` | project/server.py:94 | the new user's name is the longest prefix of the email that holds no '@' |
| `Server.SignUp` | project/server.py:86-98 | signup fails with 400 exactly when the email is taken; otherwise the new user has id = length + 1, the given email and password, 0 points and role "user" |
| `Server.SignUpKeepsUsersValid` | project/server.py:86-98 | appending the new user keeps ids 1..n and emails unique |
| `Server.SignUpThenLogin` | project/server.py:85-109 | after a successful signup, login with the same credentials returns the signup's response |
| `Server.Backend.Signup` | project/server.py:85-109 | a taken email leaves `users` unchanged; otherwise exactly one user is appended, and logging in with the same credentials then returns the signup's response; bookings are untouched; the invariant is kept |
| `Strings.Lower` | project/server.py:116 | lower-casing keeps the length, maps every character through the ASCII lower-case mapping, and leaves no upper-case letter |
| `Server.ListGrounds` | project/server.py:112-119 | the result is one filter by "city and sport equal, ignoring case". It keeps order, every element matches, every matching ground is included, and without filters it is all grounds |
| `Server.ListSlots` | project/server.py:121-126 | the result keeps order and holds exactly the slots of the ground, and of the given date when one is given |
| `Server.GetWeather` | project/server.py:128-130 | a stored date gives its forecast; any other date gives the sunny 25/18 default; the result is never empty when no stored entry is |
| `Server.NewBooking` | project/server.py:134-145 | the new booking has id = length + 1 and status "Confirmed", copies every request field, and keeps booking ids 1..n |
| `Server.Backend.BookSlot` | project/server.py:133-147 | exactly one booking is appended; earlier bookings and users are unchanged; the count grows by 1 and revenue by the request's price |
| `Server.TotalRevenueConcat` | project/server.py:179 | revenue of two booking lists joined is the sum of their revenues |
| `Server.TotalRevenue` | project/server.py:179 | the sum of the bookings' prices; when no price is negative, it is ≥ 0 |
| `Server.TotalRevenueBounds` | project/server.py:179 | when no price is negative, revenue is at least the price of any one booking |
| `Server.GetAnalytics` | project/server.py:175-191 | `total_bookings` is the number of bookings and `total_revenue` is the sum of their prices |
| `Server.AiAssistant` | project/server.py:154-172 | the reply is that of the first key, in table order, found in the lower-cased query; if no key is found it is the default reply |
| `GroundsPage.FilterGrounds` | project/src/pages/Grounds.tsx:46-65 | the three conditional filter stages together equal one filter by all active criteria |
| `GroundsPage.FilterGroundsSound` | project/src/pages/Grounds.tsx:46-64 | the result keeps order, every result meets every active criterion, and every ground that meets them all is included |
| `GroundsPage.SearchResultsContainTerm` | project/src/pages/Grounds.tsx:49-54 | with a search term set, every result has the lower-cased term in its lower-cased name or city |
| `GroundsPage.ClearFilters` | project/src/pages/Grounds.tsx:219-224 | "Clear filters" empties the search term, the city and the sport |
| `GroundsPage.ClearedShowsAll` | project/src/pages/Grounds.tsx:219-224 | after clearing, the filtered list equals the full list |
| `Seqs.Distinct` | project/src/pages/Grounds.tsx:67-68 | `[...new Set(xs)]` has no duplicates, holds exactly the elements of `xs`, and keeps them in order of first occurrence |
| `GroundsPage.Cities` | project/src/pages/Grounds.tsx:67 | the city list has no duplicates and holds exactly the cities that occur, in order of first occurrence |
| `GroundsPage.Sports` | project/src/pages/Grounds.tsx:68 | the sport list has no duplicates and holds exactly the sports that occur, in order of first occurrence |
| `GroundDetailsPage.LookupGround` | project/src/pages/GroundDetails.tsx:57 | the page shows the first ground whose id is the parsed route id; nothing when the id has no number or no ground has it |
| `GroundDetailsPage.RouteShowsGround` | project/src/pages/GroundDetails.tsx:57 | route `/ground/n` shows the first ground with id n |
| `GroundDetailsPage.DemandText` | project/src/pages/GroundDetails.tsx:106-113 | high, medium and low get their labels; the text is "Available" exactly for any other demand |
| `GroundDetailsPage.DemandColor` | project/src/pages/GroundDetails.tsx:97-104 | high, medium and low get red, yellow and green; gray is used exactly for any other demand |
| `GroundDetailsPage.DemandBadgeConsistent` | project/src/pages/GroundDetails.tsx:97-113 | the badge is gray exactly when its text is "Available"; two demands share a text exactly when they share a colour |
| `GroundDetailsPage.GroundDetails.constructor` | project/src/pages/GroundDetails.tsx:37-42 | no ground, no slot, modal closed |
| `GroundDetailsPage.GroundDetails.ModalProps` | project/src/pages/GroundDetails.tsx:250-256 | the modal renders exactly when it is open, a slot is selected and the ground is loaded, and it gets that ground and slot |
| `GroundDetailsPage.GroundDetails.LoadGround` | project/src/pages/GroundDetails.tsx:53-62 | the stored ground is the lookup of the route id in the fetched list; the modal state is untouched |
| `GroundDetailsPage.GroundDetails.SlotClick` | project/src/pages/GroundDetails.tsx:86-89 | the clicked slot is selected and the modal opens; it renders exactly when the ground is loaded |
| `GroundDetailsPage.GroundDetails.BookingComplete` | project/src/pages/GroundDetails.tsx:91-95 | the modal closes and the selected slot is cleared |
| `GroundDetailsPage.GroundDetails.CloseModal` | project/src/pages/GroundDetails.tsx:254 | the modal closes and the selected slot is kept |
| `TeamsAdmin.TeamTierIndex` | project/src/pages/admin/AdminTeams.tsx:63-68 | Platinum at ≥100000, Gold at ≥50000, Silver at ≥25000, Bronze below. For spending ≥ 0 the chosen tier's minimum is reached and the next tier's is not |
| `TeamsAdmin.GetTeamTier` | project/src/pages/admin/AdminTeams.tsx:56-68 | the tier is from the table and is the highest one whose minimum the spending reaches |
| `TeamsAdmin.TierMonotone` | project/src/pages/admin/AdminTeams.tsx:63-68 | spending more never gives a lower tier |
| `TeamsAdmin.ApplyEdit` | project/src/pages/admin/AdminTeams.tsx:231-296 | an edit sets its own field (the numeric fields through `parseInt`) and leaves every other field unchanged |
| `TeamsAdmin.EditDiscountNumber` | project/src/pages/admin/AdminTeams.tsx:258-270 | typing an integer into the discount or minimum-bookings field stores that integer |
| `TeamsAdmin.AdminTeams.constructor` | project/src/pages/admin/AdminTeams.tsx:16-24 | the form starts at its defaults and the modal is closed |
| `TeamsAdmin.AdminTeams.OpenCampaignModal` | project/src/pages/admin/AdminTeams.tsx:97 | the modal opens; the form is kept |
| `TeamsAdmin.AdminTeams.CancelCampaign` | project/src/pages/admin/AdminTeams.tsx:304 | the modal closes; the form is kept |
| `TeamsAdmin.AdminTeams.Edit` | project/src/pages/admin/AdminTeams.tsx:231-296 | while the modal is open the form becomes the edited form, and otherwise it is unchanged (its inputs render only in the modal); the modal flag is kept |
| `TeamsAdmin.AdminTeams.CreateCampaign` | project/src/pages/admin/AdminTeams.tsx:42-54 | while the modal is open it closes and the form is reset to its defaults: empty texts, discount 10, min bookings 5, multiplier 2; with the modal closed nothing changes |
| `BookingsAdmin.WalkInPayload` | project/src/pages/admin/AdminBookings.tsx:54-61 | the body has the parsed ground id, the date and time, "n Hour", no points, and price 2000 × parsed hours; a NaN stays NaN |
| `BookingsAdmin.OfferedDurationPrices` | project/src/pages/admin/AdminBookings.tsx:302-310 | for the offered 1, 2, 4 and 8 hours the prices are 2000, 4000, 8000 and 16000 |
| `BookingsAdmin.DefaultFormPayload` | project/src/pages/admin/AdminBookings.tsx:22-29 | the untouched form books ground 1 for "1 Hour" at 2000 |
| `BookingsAdmin.StatusColor` | project/src/pages/admin/AdminBookings.tsx:81-88 | confirmed, pending and cancelled (in any case) are green, yellow and red; gray is used exactly for anything else |
| `BookingsAdmin.StatusColorIgnoresCase` | project/src/pages/admin/AdminBookings.tsx:81-88 | the colour does not depend on letter case; the backend's "Confirmed" is green |
| `BookingsAdmin.GroundName` | project/src/pages/admin/AdminBookings.tsx:90-98 | ids 1 to 4 give the fixed names; any other id gives "Ground <id>" |
| `BookingsAdmin.GroundNamesMatchBackend` | project/src/pages/admin/AdminBookings.tsx:90-98 | every ground in the backend's table is named as the backend names it |
| `BookingsAdmin.SetField` | project/src/pages/admin/AdminBookings.tsx:236-303 | a form edit sets its field and leaves every other field unchanged |
| `BookingsAdmin.AdminBookings.constructor` | project/src/pages/admin/AdminBookings.tsx:21-29 | the form starts at its defaults and the modal is closed |
| `BookingsAdmin.AdminBookings.OpenWalkIn` | project/src/pages/admin/AdminBookings.tsx:127 | the modal opens; the form is kept |
| `BookingsAdmin.AdminBookings.CancelWalkIn` | project/src/pages/admin/AdminBookings.tsx:316 | the modal closes; the form is kept |
| `BookingsAdmin.AdminBookings.EditField` | project/src/pages/admin/AdminBookings.tsx:236-303 | while the modal is open the form becomes the edited form, and otherwise it is unchanged (its inputs render only in the modal); the modal flag is kept |
| `BookingsAdmin.AdminBookings.SubmitWalkIn` | project/src/pages/admin/AdminBookings.tsx:47-79 | while the modal is open the body is built from the current form, an ok response closes the modal and resets the form, and a failure or thrown error changes nothing; with the modal closed no request is made |
| `PricingAdmin.UpdateBasePrice` | project/src/pages/admin/AdminPricing.tsx:48-58 | with nothing loaded it does nothing; otherwise only that sport's base price takes the value, and the other base price and all multipliers are unchanged |
| `PricingAdmin.UpdateMultiplier` | project/src/pages/admin/AdminPricing.tsx:60-70 | with nothing loaded it does nothing; otherwise only that multiplier takes the value, and the other multipliers and both base prices are unchanged |
| `PricingAdmin.OnBasePriceInput` | project/src/pages/admin/AdminPricing.tsx:130 | with nothing loaded it does nothing; otherwise that sport's base price becomes `parseInt` of the text (NaN included), and the other base price and all multipliers are unchanged |
| `PricingAdmin.TypedBasePrice` | project/src/pages/admin/AdminPricing.tsx:128-131 | typing an integer into a loaded base-price field stores that integer for that sport |
| `PricingAdmin.BasePriceEditsCompose` | project/src/pages/admin/AdminPricing.tsx:48-58 | of two edits of one base price the later wins; edits of different sports commute |
| `PricingAdmin.MultiplierEditsCompose` | project/src/pages/admin/AdminPricing.tsx:60-70 | of two edits of one multiplier the later wins; edits of different multipliers commute |

## Left out

- Network calls, JSON, logging and toasts are not modelled. A request's result is the input `FetchOutcome`.
- After a network call, the model keeps only the state change. It does not model the refreshes that follow: `fetchBookings` after a walk-in, and `fetchSlots`/`fetchWeather` on the details page.
- React rendering, animations and CSS classes are not modelled, apart from the colour strings the badges return. Neither are `Layout.tsx` and the `App.tsx` routes.
- React applies state updates at the next render, so two very fast clicks could both start a request before `isBooking` is set. The model treats each handler as atomic, with its state update done at once.
- Lower-casing is ASCII only. JavaScript's `toLowerCase` and Python's `lower` also fold non-ASCII letters, which the model does not.
- `parseInt` is modelled in base 10, with spaces, tabs and line breaks as the only leading white space. Called without a radix, JavaScript reads a leading "0x" or "0X" as hexadecimal. The model does not: route `/ground/0x1` shows ground 1 in the page, but `LookupGround` reads the id as 0 and finds no ground. JavaScript numbers are doubles; the model's integers are unbounded. `parseFloat` is not modelled: the points-multiplier edits take the already-parsed value.
- Ground ratings, multiplier arithmetic and the `occupancy_rate` of 75.5 are floating point, so they are not modelled. Multipliers are opaque values that the updates only copy. The rounded example prices on the pricing page (`AdminPricing.tsx:272`, `:292`) are left out.
- The request model's default `loyalty_points_used = 0` (`server.py:60`) is not modelled. `BookingRequest` always carries the field, because both clients always send it: the booking modal sends the points used, and the walk-in form sends 0.
- `total_price` is an integer, not a float. `created_at` comes from the clock and is not modelled.
- `get_bookings`, `get_teams` and `get_pricing` only return a table. `get_pricing`'s record is the constant `PricingAdmin.ServedPricing`; the teams table is not modelled.
- `handleSave` on the pricing page only waits on a timer, so it is not modelled.
- The signed-in user comes from an authentication context that is not part of this model. The modal takes the balance as the constant `balance`.
- `Dashboard.tsx`, `AdminDashboard.tsx`, `AdminSlots.tsx` and `Bookings.tsx` are not part of this model. They pass data through, draw charts, or copy mappings modelled here.
- Page events are modelled as taking effect only while the control that fires them is rendered: the wizard's step buttons in their own step view, and the campaign and walk-in form controls only while their modal is open.
- Checkout.BookingModal.EnterPoints: no upper clamp to `min(balance, floor(basePrice/10))`, because the code enforces none; `WithinCap` states what holds under that bound.
- Checkout.BookingModal.RequestSettled: the outcome of the request is an input; the model does not tie it to the backend actually storing the booking.
