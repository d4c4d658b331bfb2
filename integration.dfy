/** How the statistics and the booking form relate to the application's handlers,
    and two end-to-end scenarios of the components together, stated and proved. */
module Integration {
  import opened Domain
  import opened Application
  import opened Dashboard
  import opened Forms

  /** A new booking adds exactly its stored total to the dashboard's revenue. */
  lemma RevenueAfterBook(s: State, data: BookingData, bookingId: string)
    ensures TotalRevenue(AfterBook(s, data, bookingId).bookings) == TotalRevenue(s.bookings) + data.totalPrice
  {
    var r := AfterBook(s, data, bookingId);
    assert r.bookings == s.bookings + [r.bookings[|s.bookings|]];
    TotalRevenueAppend(s.bookings, r.bookings[|s.bookings|]);
  }

  /** A seat-price change leaves every booking statistic as it was. */
  lemma SeatPriceChangeKeepsBookingStatistics(s: State, restaurantId: string, price: int)
    ensures var r := AfterUpdateSeatPrice(s, restaurantId, price);
      && TotalRevenue(r.bookings) == TotalRevenue(s.bookings)
      && BookingsByRestaurant(r.restaurants, r.bookings) == BookingsByRestaurant(s.restaurants, s.bookings)
  {
    var r := AfterUpdateSeatPrice(s, restaurantId, price);
    var a := BookingsByRestaurant(r.restaurants, r.bookings);
    var b := BookingsByRestaurant(s.restaurants, s.bookings);
    forall i | 0 <= i < |a| ensures a[i] == b[i] {
      assert r.restaurants[i].id == s.restaurants[i].id && r.restaurants[i].name == s.restaurants[i].name;
    }
  }

  /** After a redemption the dashboard lists the new record first. */
  lemma NewestRedemptionListedFirst(s: State, offerId: string, recordId: string, redeemedAt: string)
    requires RedeemOutcomeOf(s, offerId) == Redeemed
    ensures var r := AfterRedeem(s, offerId, recordId, redeemedAt);
      var recent := RecentRedemptions(r.redeemedOffers);
      recent != [] && IsRedemptionOf(recent[0], s, offerId, recordId, redeemedAt)
  {
  }

  /** Book four guests at 25.00 a seat, raise the price to 30.00, book two guests:
      the first booking keeps its total of 100.00 and the second costs 60.00. */
  method PriceChangeScenario() returns (first: int, kept: int, second: int)
    ensures first == 10000 && kept == 10000 && second == 6000
  {
    var r1 := Restaurant("1", "La Bella Italia", "Italian Cuisine", "", "", "", 2500);
    var app := new App([r1], []);
    var form := new BookingForm(r1.id, r1.name, r1.seatPrice);
    form.SetDate(On(20250105));
    form.SetTime("7:00 PM");
    form.SetGuests(4);
    var data := form.Submit();
    app.Book(data, "b-1");
    first := app.bookings[0].totalPrice;

    app.UpdateSeatPrice("1", 3000);
    kept := app.bookings[0].totalPrice;

    var r1' := app.restaurants[0];
    var form' := new BookingForm(r1'.id, r1'.name, r1'.seatPrice);
    form'.SetDate(On(20250106));
    form'.SetTime("8:00 PM");
    form'.SetGuests(2);
    var data' := form'.Submit();
    app.Book(data', "b-2");
    second := app.bookings[1].totalPrice;
  }

  /** Add an offer, redeem it, redeem it again: the second attempt is refused and
      only one redemption is recorded. */
  method RedeemTwiceScenario() returns (first: RedeemOutcome, second: RedeemOutcome, records: nat)
    ensures first == Redeemed && second == AlreadyRedeemed && records == 1
  {
    var r1 := Restaurant("1", "La Bella Italia", "Italian Cuisine", "", "", "", 2500);
    var app := new App([r1], []);
    app.AddOffer(OfferDraft("1", "X", "", "10% OFF", "2025-01-31"), "o-1");
    assert FirstOfferWithId(app.Snapshot(), "o-1", 0);
    first := app.RedeemOffer("o-1", "r-1", "1/1/2025");
    second := app.RedeemOffer("o-1", "r-2", "1/2/2025");
    records := |app.redeemedOffers|;
  }
}
