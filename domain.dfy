/** The records the booking and offers application keeps in memory.
    Money (seat prices, booking totals) is an integer number of cents; a date is
    an abstract ordered key. */
module Domain {
  import opened Seqs

  /** A booking date as the date input yields it: `Unset` is the empty string the
      form starts with, `On(day)` a day, ordered by `day`. */
  datatype Date = Unset | On(day: int)

  datatype Restaurant = Restaurant(
    id: string,
    name: string,
    cuisine: string,
    location: string,
    image: string,
    description: string,
    seatPrice: int)

  datatype Offer = Offer(
    id: string,
    restaurantId: string,
    title: string,
    description: string,
    discount: string,
    validUntil: string)

  /** An offer as the admin form submits it, before it is given an id. */
  datatype OfferDraft = OfferDraft(
    restaurantId: string,
    title: string,
    description: string,
    discount: string,
    validUntil: string)

  /** A snapshot of a redemption: restaurant name, offer title and discount are copied. */
  datatype RedeemedOffer = RedeemedOffer(
    id: string,
    restaurantName: string,
    offerTitle: string,
    discount: string,
    redeemedAt: string)

  /** What the booking form submits. */
  datatype BookingData = BookingData(
    restaurantId: string,
    restaurantName: string,
    date: Date,
    time: string,
    guests: int,
    totalPrice: int)

  datatype Booking = Booking(
    id: string,
    restaurantId: string,
    restaurantName: string,
    date: Date,
    time: string,
    guests: int,
    totalPrice: int)

  /** `{ id, ...draft }` */
  function OfferWithId(id: string, d: OfferDraft): Offer {
    Offer(id, d.restaurantId, d.title, d.description, d.discount, d.validUntil)
  }

  /** `{ id, ...data }` */
  function BookingWithId(id: string, d: BookingData): Booking {
    Booking(id, d.restaurantId, d.restaurantName, d.date, d.time, d.guests, d.totalPrice)
  }

  /** The offers of one restaurant: `offers.filter(o => o.restaurantId === id)`. */
  function OffersOf(offers: seq<Offer>, restaurantId: string): (r: seq<Offer>)
    ensures forall i :: 0 <= i < |r| ==> r[i] in offers && r[i].restaurantId == restaurantId
    ensures forall i :: 0 <= i < |offers| && offers[i].restaurantId == restaurantId ==> offers[i] in r
    ensures forall o :: multiset(r)[o] == if o.restaurantId == restaurantId then multiset(offers)[o] else 0
  {
    FilterMultiset(offers, (o: Offer) => o.restaurantId == restaurantId);
    Filter(offers, (o: Offer) => o.restaurantId == restaurantId)
  }

  lemma OffersOfKeepsOrder(offers: seq<Offer>, restaurantId: string)
    ensures Subsequence(OffersOf(offers, restaurantId), offers)
  {
    FilterIsSubsequence(offers, (o: Offer) => o.restaurantId == restaurantId);
  }

  /** The bookings of one restaurant: `bookings.filter(b => b.restaurantId === id)`. */
  function BookingsOf(bookings: seq<Booking>, restaurantId: string): (r: seq<Booking>)
    ensures forall i :: 0 <= i < |r| ==> r[i] in bookings && r[i].restaurantId == restaurantId
    ensures forall i :: 0 <= i < |bookings| && bookings[i].restaurantId == restaurantId ==> bookings[i] in r
    ensures forall b :: multiset(r)[b] == if b.restaurantId == restaurantId then multiset(bookings)[b] else 0
  {
    FilterMultiset(bookings, (b: Booking) => b.restaurantId == restaurantId);
    Filter(bookings, (b: Booking) => b.restaurantId == restaurantId)
  }

  /** Bookings of a restaurant after one more booking is appended. */
  lemma BookingsOfAppend(bookings: seq<Booking>, b: Booking, restaurantId: string)
    ensures BookingsOf(bookings + [b], restaurantId) ==
            BookingsOf(bookings, restaurantId) + (if b.restaurantId == restaurantId then [b] else [])
  {
    FilterConcat(bookings, [b], (x: Booking) => x.restaurantId == restaurantId);
    assert [b][1..] == [];
  }
}
