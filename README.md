# Restaurant bookings and offers: a verified model

RestaurantHub is a browser demo. Users browse restaurants, redeem offers and book
tables. An admin adds and deletes offers, changes seat prices and reads aggregate
statistics. All of its state is in memory, in the top-level application component.
This project models three parts of it in Dafny and proves what each promises:

- **The application state and its handlers** (`application.dfy`, module
  `Application`). Five collections are held: restaurants, offers, redeemed offer
  ids, redemption records and bookings. Five handlers change them: redeem an
  offer, book a table, add an offer, delete an offer, update a seat price. Each
  handler is a pure transition on a `State` value (`AfterRedeem`, `AfterBook`, …).
  The class `App` keeps the collections as `seq` fields. Each of its methods is
  proved to perform exactly its transition, and to keep the invariant: no offer id
  is redeemed twice, and there is one redemption record per redeemed id. Over any
  sequence of actions (`Run`), the invariant holds and the two ledgers only grow at
  the end. A booking's stored total therefore never changes, whatever seat-price
  changes follow. Once an offer is redeemed, any later attempt reports "already
  redeemed" and changes nothing.
- **The admin statistics** (`dashboard.dfy`, module `Dashboard`). These are the
  totals, the per-restaurant booking counts and revenue, the offer distribution
  with empty restaurants dropped, the five newest bookings by date, the five latest
  redemptions (newest first) and the per-restaurant performance table. The main
  result is that per-restaurant revenues add up to the total revenue, and counts to
  the number of bookings. This holds when restaurant ids are distinct and every
  booking names a restaurant.
- **The booking form** (`booking_form.dfy`, module `Forms`). The total is
  `guests × seatPrice`. A submit hands on a record with the current date, time,
  guest count and that total, then resets the form to its initial state.

`seqs.dfy` holds the array operations the code relies on (`filter`, `find`, a
summing `reduce`, `reverse`), each with its meaning proved. `domain.dfy` holds the
records. `integration.dfy` relates the statistics to the handlers and states and
proves two end-to-end scenarios: a booking keeps its total across a price change, and a
second redemption of the same offer is refused.

Money is an integer number of cents. A date is `Unset` (the form's empty string)
or `On(day)`, with days ordered as integers. Ids and the redemption timestamp,
which the code takes from the clock, are parameters of the handlers.

The handlers are looser than a validating store, and the model follows the code:

- Adding an offer does not check that its restaurant exists.
- Booking checks neither the guest count nor the restaurant, and does not re-read
  the seat price. It stores the total the form computed.
- Redeeming an unknown offer, or an offer whose restaurant is gone, is silently
  ignored. Deleting an absent offer, or updating the price of an unknown
  restaurant, is a no-op. None of these returns an error.
- `find` takes the first match, so with repeated offer ids the first offer decides
  a redemption.

## Model

| member | source | states |
|---|---|---|
| `Domain.OffersOf` | src/app/App.tsx:205 | the result holds exactly the offers naming the restaurant: each kept offer matches, every matching offer is kept, and each matching offer occurs as often as in the input |
| `Domain.OffersOfKeepsOrder` | src/app/App.tsx:205 | a restaurant's offers appear in their original relative order |
| `Domain.BookingsOf` | src/app/components/AdminDashboard.tsx:58 | the result holds exactly the bookings naming the restaurant, each as often as in the input |
| `Application.RedeemOutcomeOf` | src/app/App.tsx:144-166 | "already redeemed" exactly when the id is in the redeemed list; a redemption exactly when it is not and the first offer with that id names an existing restaurant; otherwise the silent case |
| `Application.AfterRedeem` | src/app/App.tsx:144-167 | restaurants, offers and bookings never change; outside the redemption case nothing changes; in it the id is appended once and one record is appended after the unchanged old records, copying the first matching restaurant's name and the first matching offer's title and discount |
| `Application.AfterBook` | src/app/App.tsx:169-178 | exactly one booking is appended, carrying the fresh id and every submitted field unchanged; earlier bookings and all other collections stay as they were |
| `Application.AfterAddOffer` | src/app/App.tsx:180-189 | exactly one offer is appended with the fresh id and the submitted fields, its restaurant unchecked; the earlier offers and all other collections are unchanged |
| `Application.WithoutOffer` | src/app/App.tsx:192 | every kept offer has another id and comes from the list; every offer with another id is kept, as often as it occurs in the list |
| `Application.AfterDeleteOffer` | src/app/App.tsx:191-194 | an offer survives exactly when it had another id, with its multiplicity; survivors keep their relative order; an absent id changes nothing; redemption lists and other collections are untouched |
| `Application.AfterDeleteOfferIdempotent` | src/app/App.tsx:191-192 | deleting the same id twice is the same as deleting it once |
| `Application.WithSeatPrice` | src/app/App.tsx:197-199 | same length and order; each restaurant with the id gets the new price, every other one is unchanged |
| `Application.AfterUpdateSeatPrice` | src/app/App.tsx:196-201 | only the matching restaurants' seat prices change, every other field and restaurant stays; an unknown id changes nothing; bookings are untouched |
| `Application.StepPreservesInvariant` | src/app/App.tsx:144-201 | every handler keeps the redeemed ids free of duplicates and as many as the redemption records |
| `Application.RunPreservesInvariant` | src/app/App.tsx:133-201 | the invariant holds after any sequence of handler calls |
| `Application.RunOnlyAppends` | src/app/App.tsx:154-176 | after any sequence of handler calls, the old bookings, redemption records and redeemed ids are a prefix of the new ones |
| `Application.RedeemAgainIsRejected` | src/app/App.tsx:144-148 | once an offer is redeemed, redeeming it again after any further actions reports "already redeemed" and changes nothing |
| `Application.BookedTotalIsFixed` | src/app/App.tsx:169-199 | a booking keeps the total it was submitted with through any later actions, seat-price changes included |
| `Application.App.constructor` | src/app/App.tsx:133-137 | the component starts with the seeded restaurants and offers, empty ledgers, and the invariant |
| `Application.App.RedeemOffer` | src/app/App.tsx:144-167 | the fields become `AfterRedeem` of the old ones, the invariant is kept, and the result says which branch ran |
| `Application.App.Book` | src/app/App.tsx:169-178 | the fields become `AfterBook` of the old ones and the invariant is kept |
| `Application.App.AddOffer` | src/app/App.tsx:180-189 | the fields become `AfterAddOffer` of the old ones and the invariant is kept |
| `Application.App.DeleteOffer` | src/app/App.tsx:191-194 | the fields become `AfterDeleteOffer` of the old ones and the invariant is kept |
| `Application.App.UpdateSeatPrice` | src/app/App.tsx:196-201 | the fields become `AfterUpdateSeatPrice` of the old ones and the invariant is kept |
| `Application.App.RestaurantWithOffersOf` | src/app/App.tsx:203-206 | the restaurant paired with exactly the offers naming it, each as often as in the offer list, in their original order |
| `Dashboard.ComputeTotals` | src/app/components/AdminDashboard.tsx:50-53 | revenue is the sum of the booking totals and guests the sum of the guest counts; offer and booking totals are the list lengths; revenue and guests are 0 with no bookings, revenue is non-negative when every total is, and guests are at least the booking count when every booking has a guest |
| `Dashboard.GuestsAtLeastBookings` | src/app/components/AdminDashboard.tsx:51 | with at least one guest per booking, the guest total is at least the number of bookings |
| `Dashboard.TotalRevenueAppend` | src/app/components/AdminDashboard.tsx:50 | appending a booking adds its total to the revenue |
| `Dashboard.TotalGuestsAppend` | src/app/components/AdminDashboard.tsx:51 | appending a booking adds its guest count to the guest total |
| `Dashboard.BookingsByRestaurant` | src/app/components/AdminDashboard.tsx:56-62 | one row per restaurant in restaurant order, with its name, the number of its bookings and their summed totals |
| `Dashboard.BookingsByRestaurantAddsUp` | src/app/components/AdminDashboard.tsx:50-62 | with distinct restaurant ids and every booking naming a restaurant, the rows' revenues sum to the total revenue and their counts to the number of bookings |
| `Dashboard.Shares` | src/app/components/AdminDashboard.tsx:65-67 | one entry per restaurant, in order, with its name and offer count |
| `Dashboard.OffersByRestaurant` | src/app/components/AdminDashboard.tsx:65-68 | only entries with a positive count; an entry appears exactly when it is some restaurant's name and offer count and that count is positive; entries keep restaurant order |
| `Dashboard.OfferDistributionSize` | src/app/components/AdminDashboard.tsx:65-68 | there are as many entries as restaurants with at least one offer |
| `Dashboard.InsertByDate` | src/app/components/AdminDashboard.tsx:71-72 | inserting into a newest-first list keeps it newest-first and adds exactly that booking |
| `Dashboard.SortByDate` | src/app/components/AdminDashboard.tsx:71-72 | the sorted copy is newest-first, a permutation of the bookings and as long as them |
| `Dashboard.SortByDateIsStable` | src/app/components/AdminDashboard.tsx:71-72 | bookings with the same date keep their original relative order |
| `Dashboard.RecentBookings` | src/app/components/AdminDashboard.tsx:71-73 | length min(5, n), newest first, drawn from the bookings, every booking left out is no newer than any booking shown, and for each date the bookings shown are the earliest inserted of that date, in insertion order (the stable sort's tie-break) |
| `Dashboard.RecentRedemptions` | src/app/components/AdminDashboard.tsx:76 | length min(5, n); entry i is the i-th record counted back from the most recent |
| `Dashboard.Performance` | src/app/components/AdminDashboard.tsx:265-268 | one row per restaurant, in order, joining its bookings, offers, seat price and revenue |
| `Dashboard.PerformanceAgreesWithCharts` | src/app/components/AdminDashboard.tsx:265-268 | each table row's booking count and revenue equal the restaurant's chart bar, and its offer count equals the restaurant's offer count |
| `Forms.TotalPrice` | src/app/components/BookingForm.tsx:25 | with 1 to 20 guests and a non-negative seat price, the total lies between one seat and twenty seats; it is zero with no guests or a zero price |
| `Forms.BookingForm.constructor` | src/app/components/BookingForm.tsx:20-23 | the form holds its restaurant and seat price, no date, no time and two guests |
| `Forms.BookingForm.CurrentTotal` | src/app/components/BookingForm.tsx:25 | within the declared guest range and at a non-negative price, the displayed total lies between zero and twenty seats |
| `Forms.BookingForm.SetDate` | src/app/components/BookingForm.tsx:55 | the date becomes the chosen one |
| `Forms.BookingForm.SetTime` | src/app/components/BookingForm.tsx:69 | the time becomes the chosen one |
| `Forms.BookingForm.SetGuests` | src/app/components/BookingForm.tsx:95 | the guest count becomes the entered one |
| `Forms.BookingForm.Submit` | src/app/components/BookingForm.tsx:27-40 | the record carries the form's restaurant, the current date, time and guests, and the total for that many seats at the form's price; the form is then back in its initial state |
| `Integration.RevenueAfterBook` | src/app/App.tsx:169-176 | a new booking adds exactly its stored total to the dashboard revenue |
| `Integration.SeatPriceChangeKeepsBookingStatistics` | src/app/App.tsx:196-199 | a seat-price change leaves the total revenue and every per-restaurant count and revenue as they were |
| `Integration.NewestRedemptionListedFirst` | src/app/components/AdminDashboard.tsx:76 | after a redemption, the first of the recent redemptions is the new record |
| `Integration.PriceChangeScenario` | src/app/components/BookingForm.tsx:25-40 | four guests at 25.00 cost 100.00, and still do after the price rises to 30.00; two guests then cost 60.00 |
| `Integration.RedeemTwiceScenario` | src/app/App.tsx:144-166 | a newly added offer is redeemed once; the second attempt is refused and one record exists |

## Left out

- Notifications (`toast` calls in App.tsx) are not modelled. `App.RedeemOffer` returns which branch ran, in place of the error or success message.
- Id generation from `Date.now()` and the `toLocaleDateString()` timestamp are method parameters. Uniqueness of ids is not claimed: two calls in the same millisecond collide.
- The seeded restaurant and offer lists (App.tsx:48-128) are the `App` constructor's parameters, not constants.
- View switching, the selected restaurant (App.tsx:131-132, 139-142) and all rendering, layout and chart drawing are not modelled.
- The presentation components (UserDashboard, RestaurantDetail, OfferCard, RestaurantCard) are not modelled. Neither is the admin form component RestaurantAdmin: it only forwards to the handlers modelled here, and its offer filter is `Domain.OffersOf`.
- Floating point is not modelled. Prices and guest counts are integers, so `parseFloat`/`parseInt` results, NaN and `toFixed(2)` formatting are outside the model.
- React's `useState` scheduling is not modelled; each handler is one atomic transition.
- Dashboard.RecentBookings: requires every booking to carry a date. An empty date parses to NaN, which makes the comparator inconsistent and the order implementation-defined. Dates are integer keys, not parsed calendar strings.
- Forms.BookingForm.Submit: the browser's constraint validation (`required`, guests 1 to 20) is not modelled. Submit accepts any state, and its bounds on the total are stated only for guest counts in the declared range.
