/** The admin dashboard's statistics (src/app/components/AdminDashboard.tsx):
    pure folds, filters, sorts and slices over the restaurants, offers, bookings and
    redemption records, recomputed from the current collections on every render. */
module Dashboard {
  import opened Seqs
  import opened Domain

  function TotalPriceOf(b: Booking): int { b.totalPrice }
  function GuestsOf(b: Booking): int { b.guests }

  /** `bookings.reduce((sum, b) => sum + b.totalPrice, 0)` */
  function TotalRevenue(bookings: seq<Booking>): int {
    Sum(bookings, TotalPriceOf)
  }

  // ---------------------------------------------------------------- totals

  /** The four headline figures. */
  datatype Totals = Totals(revenue: int, guests: int, offers: int, bookings: int)

  /** `bookings.reduce((sum, b) => sum + b.guests, 0)` */
  function TotalGuests(bookings: seq<Booking>): int {
    Sum(bookings, GuestsOf)
  }

  function ComputeTotals(offers: seq<Offer>, bookings: seq<Booking>): (t: Totals)
    ensures t.revenue == TotalRevenue(bookings) && t.guests == TotalGuests(bookings)
    ensures t.offers == |offers| && t.bookings == |bookings|
    ensures bookings == [] ==> t.revenue == 0 && t.guests == 0
    ensures (forall b :: b in bookings ==> 0 <= b.totalPrice) ==> 0 <= t.revenue
    ensures (forall b :: b in bookings ==> 1 <= b.guests) ==> |bookings| <= t.guests
  {
    assert (forall b :: b in bookings ==> 0 <= b.totalPrice) ==> 0 <= TotalRevenue(bookings) by {
      if forall b :: b in bookings ==> 0 <= b.totalPrice {
        SumNonNegative(bookings, TotalPriceOf);
      }
    }
    GuestsAtLeastBookings(bookings);
    Totals(TotalRevenue(bookings), TotalGuests(bookings), |offers|, |bookings|)
  }

  lemma {:induction false} GuestsAtLeastBookings(bookings: seq<Booking>)
    ensures (forall b :: b in bookings ==> 1 <= b.guests) ==> |bookings| <= Sum(bookings, GuestsOf)
  {
    if bookings != [] {
      var init := bookings[..|bookings| - 1];
      assert forall b :: b in init ==> b in bookings;
      assert bookings[|bookings| - 1] in bookings;
      GuestsAtLeastBookings(init);
    }
  }

  /** Appending a booking adds its stored total to the revenue. */
  lemma TotalRevenueAppend(bookings: seq<Booking>, b: Booking)
    ensures TotalRevenue(bookings + [b]) == TotalRevenue(bookings) + b.totalPrice
  {
    SumConcat(bookings, [b], TotalPriceOf);
  }

  /** Appending a booking adds its guest count to the guest total. */
  lemma TotalGuestsAppend(bookings: seq<Booking>, b: Booking)
    ensures TotalGuests(bookings + [b]) == TotalGuests(bookings) + b.guests
  {
    SumConcat(bookings, [b], GuestsOf);
  }

  // ---------------------------------------------------------------- per restaurant

  /** One bar of the "bookings by restaurant" chart. */
  datatype RestaurantBookings = RestaurantBookings(name: string, bookings: int, revenue: int)

  function RestaurantRow(r: Restaurant, bookings: seq<Booking>): RestaurantBookings {
    var mine := BookingsOf(bookings, r.id);
    RestaurantBookings(r.name, |mine|, TotalRevenue(mine))
  }

  /** `restaurants.map(restaurant => ({ name, bookings: count, revenue }))` */
  function BookingsByRestaurant(restaurants: seq<Restaurant>, bookings: seq<Booking>): (rows: seq<RestaurantBookings>)
    ensures |rows| == |restaurants|
    ensures forall i :: 0 <= i < |rows| ==>
      && rows[i].name == restaurants[i].name
      && rows[i].bookings == |BookingsOf(bookings, restaurants[i].id)|
      && rows[i].revenue == TotalRevenue(BookingsOf(bookings, restaurants[i].id))
  {
    if restaurants == [] then []
    else
      BookingsByRestaurant(restaurants[..|restaurants| - 1], bookings) +
      [RestaurantRow(restaurants[|restaurants| - 1], bookings)]
  }

  function RowRevenue(row: RestaurantBookings): int { row.revenue }
  function RowBookings(row: RestaurantBookings): int { row.bookings }

  ghost predicate DistinctIds(restaurants: seq<Restaurant>) {
    forall i, j :: 0 <= i < j < |restaurants| ==> restaurants[i].id != restaurants[j].id
  }

  /** Every booking names one of the restaurants. */
  ghost predicate BookingsReferToRestaurants(restaurants: seq<Restaurant>, bookings: seq<Booking>) {
    forall b :: b in bookings ==> exists r :: r in restaurants && r.id == b.restaurantId
  }

  /** The sum over restaurants of the weight `w` of each restaurant's bookings. */
  ghost function SplitSum(restaurants: seq<Restaurant>, bookings: seq<Booking>, w: Booking -> int): int {
    if restaurants == [] then 0
    else SplitSum(restaurants[..|restaurants| - 1], bookings, w) +
         Sum(BookingsOf(bookings, restaurants[|restaurants| - 1].id), w)
  }

  /** `v` counted once for each restaurant carrying the id `id`. */
  ghost function PerMatch(restaurants: seq<Restaurant>, id: string, v: int): int {
    if restaurants == [] then 0
    else PerMatch(restaurants[..|restaurants| - 1], id, v) +
         (if restaurants[|restaurants| - 1].id == id then v else 0)
  }

  lemma {:induction false} PerMatchOfAbsent(restaurants: seq<Restaurant>, id: string, v: int)
    requires forall r :: r in restaurants ==> r.id != id
    ensures PerMatch(restaurants, id, v) == 0
  {
    if restaurants != [] {
      var init := restaurants[..|restaurants| - 1];
      assert forall r :: r in init ==> r in restaurants;
      assert restaurants[|restaurants| - 1] in restaurants;
      PerMatchOfAbsent(init, id, v);
    }
  }

  lemma {:induction false} PerMatchOfPresent(restaurants: seq<Restaurant>, id: string, v: int)
    requires DistinctIds(restaurants)
    requires exists r :: r in restaurants && r.id == id
    ensures PerMatch(restaurants, id, v) == v
  {
    var n := |restaurants|;
    var init := restaurants[..n - 1];
    if restaurants[n - 1].id == id {
      forall r | r in init ensures r.id != id {
        var i :| 0 <= i < n - 1 && init[i] == r;
      }
      PerMatchOfAbsent(init, id, v);
    } else {
      var r :| r in restaurants && r.id == id;
      var i :| 0 <= i < n && restaurants[i] == r;
      assert init[i] == r;
      PerMatchOfPresent(init, id, v);
    }
  }

  lemma {:induction false} SplitSumOfNoBookings(restaurants: seq<Restaurant>, w: Booking -> int)
    ensures SplitSum(restaurants, [], w) == 0
  {
    if restaurants != [] {
      SplitSumOfNoBookings(restaurants[..|restaurants| - 1], w);
    }
  }

  /** A new booking adds its weight once for each restaurant carrying its id. */
  lemma {:induction false} SplitSumAppend(restaurants: seq<Restaurant>, bookings: seq<Booking>, b: Booking, w: Booking -> int)
    ensures SplitSum(restaurants, bookings + [b], w) ==
            SplitSum(restaurants, bookings, w) + PerMatch(restaurants, b.restaurantId, w(b))
  {
    if restaurants != [] {
      var last := restaurants[|restaurants| - 1];
      SplitSumAppend(restaurants[..|restaurants| - 1], bookings, b, w);
      BookingsOfAppend(bookings, b, last.id);
      SumConcat(BookingsOf(bookings, last.id), if b.restaurantId == last.id then [b] else [], w);
      assert Sum([b], w) == w(b) by {
        assert [b][..0] == [];
      }
    }
  }

  /** Splitting by restaurant loses and duplicates nothing when restaurant ids are
      distinct and every booking names a restaurant. */
  lemma {:induction false} SplitSumIsTotal(restaurants: seq<Restaurant>, bookings: seq<Booking>, w: Booking -> int)
    requires DistinctIds(restaurants)
    requires BookingsReferToRestaurants(restaurants, bookings)
    ensures SplitSum(restaurants, bookings, w) == Sum(bookings, w)
  {
    if bookings == [] {
      SplitSumOfNoBookings(restaurants, w);
    } else {
      var init := bookings[..|bookings| - 1];
      var b := bookings[|bookings| - 1];
      assert bookings == init + [b];
      assert b in bookings;
      assert forall x :: x in init ==> x in bookings;
      SplitSumIsTotal(restaurants, init, w);
      SplitSumAppend(restaurants, init, b, w);
      PerMatchOfPresent(restaurants, b.restaurantId, w(b));
    }
  }

  lemma {:induction false} RowRevenuesAreSplitSum(restaurants: seq<Restaurant>, bookings: seq<Booking>)
    ensures Sum(BookingsByRestaurant(restaurants, bookings), RowRevenue) == SplitSum(restaurants, bookings, TotalPriceOf)
  {
    if restaurants != [] {
      var rows := BookingsByRestaurant(restaurants, bookings);
      assert rows[..|rows| - 1] == BookingsByRestaurant(restaurants[..|restaurants| - 1], bookings);
      RowRevenuesAreSplitSum(restaurants[..|restaurants| - 1], bookings);
    }
  }

  lemma {:induction false} RowBookingsAreSplitSum(restaurants: seq<Restaurant>, bookings: seq<Booking>)
    ensures Sum(BookingsByRestaurant(restaurants, bookings), RowBookings) == SplitSum(restaurants, bookings, One)
  {
    if restaurants != [] {
      var rows := BookingsByRestaurant(restaurants, bookings);
      assert rows[..|rows| - 1] == BookingsByRestaurant(restaurants[..|restaurants| - 1], bookings);
      RowBookingsAreSplitSum(restaurants[..|restaurants| - 1], bookings);
      SumOfOnesIsLength(BookingsOf(bookings, restaurants[|restaurants| - 1].id));
    }
  }

  /** The per-restaurant revenues add up to the total revenue, and the
      per-restaurant counts to the number of bookings, when restaurant ids are
      distinct and every booking names a restaurant. */
  lemma BookingsByRestaurantAddsUp(restaurants: seq<Restaurant>, bookings: seq<Booking>)
    requires DistinctIds(restaurants)
    requires BookingsReferToRestaurants(restaurants, bookings)
    ensures Sum(BookingsByRestaurant(restaurants, bookings), RowRevenue) == TotalRevenue(bookings)
    ensures Sum(BookingsByRestaurant(restaurants, bookings), RowBookings) == |bookings|
  {
    RowRevenuesAreSplitSum(restaurants, bookings);
    SplitSumIsTotal(restaurants, bookings, TotalPriceOf);
    RowBookingsAreSplitSum(restaurants, bookings);
    SplitSumIsTotal(restaurants, bookings, One);
    SumOfOnesIsLength(bookings);
  }

  // ---------------------------------------------------------------- offer distribution

  /** One slice of the "offers by restaurant" pie chart. */
  datatype OfferShare = OfferShare(name: string, value: int)

  function ShareOf(r: Restaurant, offers: seq<Offer>): OfferShare {
    OfferShare(r.name, |OffersOf(offers, r.id)|)
  }

  /** `restaurants.map(restaurant => ({ name, value: count }))` */
  function Shares(restaurants: seq<Restaurant>, offers: seq<Offer>): (r: seq<OfferShare>)
    ensures |r| == |restaurants|
    ensures forall i :: 0 <= i < |r| ==>
      r[i].name == restaurants[i].name && r[i].value == |OffersOf(offers, restaurants[i].id)|
  {
    if restaurants == [] then []
    else [ShareOf(restaurants[0], offers)] + Shares(restaurants[1..], offers)
  }

  function HasOffers(share: OfferShare): bool { share.value > 0 }

  /** `....filter(item => item.value > 0)`: the restaurants with at least one
      offer, in restaurant order, each with its offer count. */
  function OffersByRestaurant(restaurants: seq<Restaurant>, offers: seq<Offer>): (r: seq<OfferShare>)
    ensures forall i :: 0 <= i < |r| ==> r[i].value > 0
    ensures forall e :: e in r <==>
      e.value > 0 && exists i :: 0 <= i < |restaurants| && e == ShareOf(restaurants[i], offers)
    ensures Subsequence(r, Shares(restaurants, offers))
  {
    var all := Shares(restaurants, offers);
    FilterIsSubsequence(all, HasOffers);
    SharesMembers(restaurants, offers);
    Filter(all, HasOffers)
  }

  lemma SharesMembers(restaurants: seq<Restaurant>, offers: seq<Offer>)
    ensures forall e :: e in Shares(restaurants, offers) <==>
      exists i :: 0 <= i < |restaurants| && e == ShareOf(restaurants[i], offers)
  {
    var all := Shares(restaurants, offers);
    assert forall i :: 0 <= i < |restaurants| ==> all[i] == ShareOf(restaurants[i], offers);
  }

  /** The restaurants that have at least one offer. */
  function RestaurantsWithOffers(restaurants: seq<Restaurant>, offers: seq<Offer>): seq<Restaurant> {
    Filter(restaurants, (r: Restaurant) => |OffersOf(offers, r.id)| > 0)
  }

  /** A restaurant is left out of the distribution exactly when it has no offers:
      there is one slice per restaurant that has some. */
  lemma {:induction false} OfferDistributionSize(restaurants: seq<Restaurant>, offers: seq<Offer>)
    ensures |OffersByRestaurant(restaurants, offers)| == |RestaurantsWithOffers(restaurants, offers)|
  {
    if restaurants != [] {
      var all := Shares(restaurants, offers);
      assert all[1..] == Shares(restaurants[1..], offers);
      OfferDistributionSize(restaurants[1..], offers);
    }
  }

  // ---------------------------------------------------------------- recent bookings

  /** The sort key, standing for `new Date(date).getTime()` on a dated booking.
      An undated booking gets 0 as an arbitrary stand-in: JavaScript gives NaN there,
      and only dated bookings are shown sorted (`RecentBookings`). */
  function DateKey(b: Booking): int {
    match b.date
    case On(day) => day
    case Unset => 0
  }

  ghost predicate NewestFirst(bookings: seq<Booking>) {
    forall i, j :: 0 <= i < j < |bookings| ==> DateKey(bookings[i]) >= DateKey(bookings[j])
  }

  /** Insert `b` before the first booking that is not newer, so it precedes the
      bookings of the same date that came after it. */
  function InsertByDate(b: Booking, sorted: seq<Booking>): (r: seq<Booking>)
    requires NewestFirst(sorted)
    ensures NewestFirst(r)
    ensures multiset(r) == multiset(sorted) + multiset{b}
  {
    if sorted == [] || DateKey(b) >= DateKey(sorted[0]) then [b] + sorted
    else
      var rest := InsertByDate(b, sorted[1..]);
      assert sorted == [sorted[0]] + sorted[1..];
      NoNewerThanHead(sorted, b, rest);
      [sorted[0]] + rest
  }

  lemma NoNewerThanHead(sorted: seq<Booking>, b: Booking, rest: seq<Booking>)
    requires NewestFirst(sorted) && sorted != [] && DateKey(b) < DateKey(sorted[0])
    requires NewestFirst(rest) && multiset(rest) == multiset(sorted[1..]) + multiset{b}
    ensures NewestFirst([sorted[0]] + rest)
  {
    forall x | x in rest ensures DateKey(x) <= DateKey(sorted[0]) {
      assert x in multiset(rest);
      if x != b {
        assert x in multiset(sorted[1..]);
        var j :| 0 <= j < |sorted[1..]| && sorted[1..][j] == x;
        assert sorted[j + 1] == x;
      }
    }
    var r := [sorted[0]] + rest;
    forall i, j | 0 <= i < j < |r| ensures DateKey(r[i]) >= DateKey(r[j]) {
      if i == 0 {
        assert r[j] == rest[j - 1];
        assert rest[j - 1] in rest;
      } else {
        assert r[i] == rest[i - 1] && r[j] == rest[j - 1];
      }
    }
  }

  /** A stable sort of a copy, newest date first (the comparator `b - a`). */
  function SortByDate(bookings: seq<Booking>): (r: seq<Booking>)
    ensures NewestFirst(r)
    ensures multiset(r) == multiset(bookings)
    ensures |r| == |bookings|
  {
    if bookings == [] then []
    else
      assert bookings == [bookings[0]] + bookings[1..];
      var r := InsertByDate(bookings[0], SortByDate(bookings[1..]));
      assert |r| == |multiset(r)|;
      r
  }

  function SameDate(bookings: seq<Booking>, key: int): seq<Booking> {
    Filter(bookings, (b: Booking) => DateKey(b) == key)
  }

  lemma {:induction false} InsertByDateSameDate(b: Booking, sorted: seq<Booking>, key: int)
    requires NewestFirst(sorted)
    ensures SameDate(InsertByDate(b, sorted), key) ==
            (if DateKey(b) == key then [b] else []) + SameDate(sorted, key)
  {
    if sorted == [] || DateKey(b) >= DateKey(sorted[0]) {
      assert ([b] + sorted)[1..] == sorted;
    } else {
      var rest := InsertByDate(b, sorted[1..]);
      assert ([sorted[0]] + rest)[1..] == rest;
      InsertByDateSameDate(b, sorted[1..], key);
    }
  }

  /** The sort is stable: bookings on the same date keep their original order. */
  lemma {:induction false} SortByDateIsStable(bookings: seq<Booking>, key: int)
    ensures SameDate(SortByDate(bookings), key) == SameDate(bookings, key)
  {
    if bookings != [] {
      SortByDateIsStable(bookings[1..], key);
      InsertByDateSameDate(bookings[0], SortByDate(bookings[1..]), key);
    }
  }

  lemma NewestPrefix(sorted: seq<Booking>, k: nat)
    requires NewestFirst(sorted) && k <= |sorted|
    ensures forall x, y :: x in multiset(sorted) - multiset(sorted[..k]) && y in sorted[..k] ==> DateKey(x) <= DateKey(y)
  {
    assert sorted == sorted[..k] + sorted[k..];
    assert multiset(sorted) - multiset(sorted[..k]) == multiset(sorted[k..]);
    forall x, y | x in multiset(sorted[k..]) && y in sorted[..k] ensures DateKey(x) <= DateKey(y) {
      var j :| 0 <= j < |sorted[k..]| && sorted[k..][j] == x;
      var i :| 0 <= i < k && sorted[..k][i] == y;
      assert sorted[k + j] == x && sorted[i] == y;
    }
  }

  /** Cutting a stably sorted list keeps, for each date, the earliest-inserted
      bookings of that date, in insertion order. */
  lemma SortedPrefixSameDate(bookings: seq<Booking>, k: nat)
    requires k <= |bookings|
    ensures forall key :: var shown := SameDate(SortByDate(bookings)[..k], key); var all := SameDate(bookings, key);
      |shown| <= |all| && all[..|shown|] == shown
  {
    var sorted := SortByDate(bookings);
    assert |sorted| == |multiset(sorted)| == |multiset(bookings)| == |bookings|;
    assert sorted == sorted[..k] + sorted[k..];
    forall key
      ensures var shown := SameDate(sorted[..k], key); var all := SameDate(bookings, key);
        |shown| <= |all| && all[..|shown|] == shown
    {
      FilterConcat(sorted[..k], sorted[k..], (b: Booking) => DateKey(b) == key);
      SortByDateIsStable(bookings, key);
    }
  }

  /** `[...bookings].sort(newest first).slice(0, 5)`: the five newest bookings
      (all of them when there are fewer), newest first. Every booking left out is
      no newer than every booking shown, and among bookings of one date the shown
      ones are the earliest inserted, in insertion order (the sort is stable). The
      date key is meaningful only when every booking carries a date. */
  function RecentBookings(bookings: seq<Booking>): (r: seq<Booking>)
    requires forall b :: b in bookings ==> b.date.On?
    ensures |r| == Min(5, |bookings|)
    ensures NewestFirst(r)
    ensures multiset(r) <= multiset(bookings)
    ensures forall x, y :: x in multiset(bookings) - multiset(r) && y in r ==> DateKey(x) <= DateKey(y)
    ensures forall key :: var shown := SameDate(r, key); var all := SameDate(bookings, key);
      |shown| <= |all| && all[..|shown|] == shown
  {
    var sorted := SortByDate(bookings);
    var k := Min(5, |bookings|);
    SortedPrefixSameDate(bookings, k);
    assert |sorted| == |multiset(sorted)| == |multiset(bookings)| == |bookings|;
    NewestPrefix(sorted, k);
    assert sorted == sorted[..k] + sorted[k..];
    sorted[..k]
  }

  // ---------------------------------------------------------------- recent redemptions

  /** `[...redeemedOffers].slice(-5).reverse()`: the last five redemptions (all of
      them when there are fewer), the most recent first. */
  function RecentRedemptions(redeemed: seq<RedeemedOffer>): (r: seq<RedeemedOffer>)
    ensures |r| == Min(5, |redeemed|)
    ensures forall i :: 0 <= i < |r| ==> r[i] == redeemed[|redeemed| - 1 - i]
  {
    Reverse(redeemed[|redeemed| - Min(5, |redeemed|)..])
  }

  // ---------------------------------------------------------------- performance table

  /** One row of the restaurant performance table. */
  datatype PerformanceRow = PerformanceRow(name: string, bookings: int, offers: int, seatPrice: int, revenue: int)

  function PerformanceOf(r: Restaurant, offers: seq<Offer>, bookings: seq<Booking>): PerformanceRow {
    var restaurantBookings := BookingsOf(bookings, r.id);
    var restaurantOffers := OffersOf(offers, r.id);
    PerformanceRow(r.name, |restaurantBookings|, |restaurantOffers|, r.seatPrice, TotalRevenue(restaurantBookings))
  }

  function Performance(restaurants: seq<Restaurant>, offers: seq<Offer>, bookings: seq<Booking>): (rows: seq<PerformanceRow>)
    ensures |rows| == |restaurants|
    ensures forall i :: 0 <= i < |rows| ==> rows[i] == PerformanceOf(restaurants[i], offers, bookings)
  {
    if restaurants == [] then []
    else [PerformanceOf(restaurants[0], offers, bookings)] + Performance(restaurants[1..], offers, bookings)
  }

  /** The table agrees with the charts: each row's booking count and revenue are
      those of the same restaurant's bar, its offer count that restaurant's offer
      count, and its seat price the restaurant's current one. */
  lemma PerformanceAgreesWithCharts(restaurants: seq<Restaurant>, offers: seq<Offer>, bookings: seq<Booking>)
    ensures var rows := Performance(restaurants, offers, bookings);
      var bars := BookingsByRestaurant(restaurants, bookings);
      var shares := Shares(restaurants, offers);
      forall i :: 0 <= i < |restaurants| ==>
        && rows[i].name == bars[i].name && rows[i].bookings == bars[i].bookings && rows[i].revenue == bars[i].revenue
        && rows[i].offers == shares[i].value && rows[i].seatPrice == restaurants[i].seatPrice
  {
  }
}
