/** The application component: five collections held as state and the five
    handlers that replace them (src/app/App.tsx).

    Each handler is one atomic transition. The pure functions `AfterRedeem`,
    `AfterBook`, `AfterAddOffer`, `AfterDeleteOffer` and `AfterUpdateSeatPrice` say
    what the collections become; the class `App` holds the collections as fields
    and its methods are proved to perform exactly those transitions. Fresh ids and
    the redemption timestamp, which the source takes from the clock, are parameters. */
module Application {
  import opened Seqs
  import opened Domain

  /** The five state collections. */
  datatype State = State(
    restaurants: seq<Restaurant>,
    offers: seq<Offer>,
    redeemedOfferIds: seq<string>,
    redeemedOffers: seq<RedeemedOffer>,
    bookings: seq<Booking>)

  /** What the state keeps true across every handler: an offer id is recorded as
      redeemed at most once, and there is one redemption record per redeemed id. */
  ghost predicate Invariant(s: State) {
    NoDuplicates(s.redeemedOfferIds) && |s.redeemedOfferIds| == |s.redeemedOffers|
  }

  // ---------------------------------------------------------------- redeem

  /** The offer `find` picks: the first with that id. */
  function FindOffer(offers: seq<Offer>, offerId: string): Option<Offer> {
    Find(offers, (o: Offer) => o.id == offerId)
  }

  /** The restaurant `find` picks for the offer; with no offer the comparison is
      against `undefined` and never holds. */
  function FindOwner(restaurants: seq<Restaurant>, offer: Option<Offer>): Option<Restaurant> {
    match offer
    case None => None
    case Some(o) => Find(restaurants, (r: Restaurant) => r.id == o.restaurantId)
  }

  /** Offer `offers[i]` is the first with id `offerId`. */
  ghost predicate FirstOfferWithId(s: State, offerId: string, i: int) {
    0 <= i < |s.offers| && s.offers[i].id == offerId &&
    forall j :: 0 <= j < i ==> s.offers[j].id != offerId
  }

  /** Restaurant `restaurants[k]` is the first whose id is `restaurantId`. */
  ghost predicate FirstRestaurantWithId(s: State, restaurantId: string, k: int) {
    0 <= k < |s.restaurants| && s.restaurants[k].id == restaurantId &&
    forall j :: 0 <= j < k ==> s.restaurants[j].id != restaurantId
  }

  /** The first offer with this id exists and names an existing restaurant. */
  ghost predicate Redeemable(s: State, offerId: string) {
    exists i :: FirstOfferWithId(s, offerId, i) &&
      exists k :: 0 <= k < |s.restaurants| && s.restaurants[k].id == s.offers[i].restaurantId
  }

  /** The record a successful redemption appends: a copy of the restaurant's name
      and the offer's title and discount. */
  ghost predicate IsRedemptionOf(rec: RedeemedOffer, s: State, offerId: string, recordId: string, redeemedAt: string) {
    exists i, k :: FirstOfferWithId(s, offerId, i) &&
      FirstRestaurantWithId(s, s.offers[i].restaurantId, k) &&
      rec == RedeemedOffer(recordId, s.restaurants[k].name, s.offers[i].title, s.offers[i].discount, redeemedAt)
  }

  /** Which branch of the redeem handler runs: the "already redeemed" error, a
      redemption, or the silent case where the offer or its restaurant is missing. */
  datatype RedeemOutcome = AlreadyRedeemed | Redeemed | Ignored

  function RedeemOutcomeOf(s: State, offerId: string): (o: RedeemOutcome)
    ensures o == AlreadyRedeemed <==> offerId in s.redeemedOfferIds
    ensures o == Redeemed <==> offerId !in s.redeemedOfferIds && Redeemable(s, offerId)
  {
    if offerId in s.redeemedOfferIds then AlreadyRedeemed
    else
      var offer := FindOffer(s.offers, offerId);
      var restaurant := FindOwner(s.restaurants, offer);
      if offer.Some? && restaurant.Some? then Redeemed else Ignored
  }

  /** handleRedeemOffer */
  function AfterRedeem(s: State, offerId: string, recordId: string, redeemedAt: string): (r: State)
    ensures r.restaurants == s.restaurants && r.offers == s.offers && r.bookings == s.bookings
    ensures RedeemOutcomeOf(s, offerId) != Redeemed ==> r == s
    ensures RedeemOutcomeOf(s, offerId) == Redeemed ==>
      && r.redeemedOfferIds == s.redeemedOfferIds + [offerId]
      && |r.redeemedOffers| == |s.redeemedOffers| + 1
      && r.redeemedOffers[..|s.redeemedOffers|] == s.redeemedOffers
      && IsRedemptionOf(r.redeemedOffers[|s.redeemedOffers|], s, offerId, recordId, redeemedAt)
  {
    if offerId in s.redeemedOfferIds then s
    else
      var offer := FindOffer(s.offers, offerId);
      var restaurant := FindOwner(s.restaurants, offer);
      if offer.Some? && restaurant.Some? then
        var rec := RedeemedOffer(recordId, restaurant.value.name, offer.value.title, offer.value.discount, redeemedAt);
        assert (s.redeemedOffers + [rec])[..|s.redeemedOffers|] == s.redeemedOffers;
        s.(redeemedOfferIds := s.redeemedOfferIds + [offerId],
           redeemedOffers := s.redeemedOffers + [rec])
      else s
  }

  // ---------------------------------------------------------------- book

  /** handleBook: the submitted record, with a fresh id, goes at the end. Nothing
      is checked and the seat price is not read again. */
  function AfterBook(s: State, data: BookingData, bookingId: string): (r: State)
    ensures r.restaurants == s.restaurants && r.offers == s.offers
    ensures r.redeemedOfferIds == s.redeemedOfferIds && r.redeemedOffers == s.redeemedOffers
    ensures |r.bookings| == |s.bookings| + 1 && r.bookings[..|s.bookings|] == s.bookings
    ensures var b := r.bookings[|s.bookings|];
      b.id == bookingId && b.restaurantId == data.restaurantId && b.restaurantName == data.restaurantName &&
      b.date == data.date && b.time == data.time && b.guests == data.guests && b.totalPrice == data.totalPrice
  {
    var bookings := s.bookings + [BookingWithId(bookingId, data)];
    assert bookings[..|s.bookings|] == s.bookings;
    s.(bookings := bookings)
  }

  // ---------------------------------------------------------------- offers

  /** handleAddOffer: the draft, with a fresh id, goes at the end; the restaurant id
      is not checked. */
  function AfterAddOffer(s: State, draft: OfferDraft, offerId: string): (r: State)
    ensures r.restaurants == s.restaurants && r.bookings == s.bookings
    ensures r.redeemedOfferIds == s.redeemedOfferIds && r.redeemedOffers == s.redeemedOffers
    ensures |r.offers| == |s.offers| + 1 && r.offers[..|s.offers|] == s.offers
    ensures var o := r.offers[|s.offers|];
      o.id == offerId && o.restaurantId == draft.restaurantId && o.title == draft.title &&
      o.description == draft.description && o.discount == draft.discount && o.validUntil == draft.validUntil
  {
    var offers := s.offers + [OfferWithId(offerId, draft)];
    assert offers[..|s.offers|] == s.offers;
    s.(offers := offers)
  }

  /** `offers.filter(o => o.id !== offerId)` */
  function WithoutOffer(offers: seq<Offer>, offerId: string): (r: seq<Offer>)
    ensures forall i :: 0 <= i < |r| ==> r[i] in offers && r[i].id != offerId
    ensures forall i :: 0 <= i < |offers| && offers[i].id != offerId ==> offers[i] in r
    ensures forall o :: multiset(r)[o] == if o.id != offerId then multiset(offers)[o] else 0
  {
    FilterMultiset(offers, (o: Offer) => o.id != offerId);
    Filter(offers, (o: Offer) => o.id != offerId)
  }

  /** handleDeleteOffer: every offer with that id goes, the others stay in order;
      the redemption lists are not touched. */
  function AfterDeleteOffer(s: State, offerId: string): (r: State)
    ensures r.restaurants == s.restaurants && r.bookings == s.bookings
    ensures r.redeemedOfferIds == s.redeemedOfferIds && r.redeemedOffers == s.redeemedOffers
    ensures forall o :: o in r.offers <==> o in s.offers && o.id != offerId
    ensures forall o :: multiset(r.offers)[o] == if o.id != offerId then multiset(s.offers)[o] else 0
    ensures Subsequence(r.offers, s.offers)
    ensures (forall o :: o in s.offers ==> o.id != offerId) ==> r == s
  {
    var offers := WithoutOffer(s.offers, offerId);
    FilterIsSubsequence(s.offers, (o: Offer) => o.id != offerId);
    assert (forall o :: o in s.offers ==> o.id != offerId) ==> offers == s.offers by {
      if forall o :: o in s.offers ==> o.id != offerId {
        FilterKeepsAll(s.offers, (o: Offer) => o.id != offerId);
      }
    }
    s.(offers := offers)
  }

  lemma AfterDeleteOfferIdempotent(s: State, offerId: string)
    ensures AfterDeleteOffer(AfterDeleteOffer(s, offerId), offerId) == AfterDeleteOffer(s, offerId)
  {
    FilterIdempotent(s.offers, (o: Offer) => o.id != offerId);
  }

  // ---------------------------------------------------------------- seat price

  /** `restaurants.map(r => r.id === restaurantId ? { ...r, seatPrice: price } : r)` */
  function WithSeatPrice(restaurants: seq<Restaurant>, restaurantId: string, price: int): (r: seq<Restaurant>)
    ensures |r| == |restaurants|
    ensures forall i :: 0 <= i < |r| ==>
      r[i] == if restaurants[i].id == restaurantId then restaurants[i].(seatPrice := price) else restaurants[i]
  {
    if restaurants == [] then []
    else
      var head := restaurants[0];
      [if head.id == restaurantId then head.(seatPrice := price) else head] +
      WithSeatPrice(restaurants[1..], restaurantId, price)
  }

  /** handleUpdateSeatPrice: the matching restaurants get the new seat price and
      nothing else about them or any other restaurant changes; bookings keep the
      totals they were stored with. */
  function AfterUpdateSeatPrice(s: State, restaurantId: string, price: int): (r: State)
    ensures r.offers == s.offers && r.bookings == s.bookings
    ensures r.redeemedOfferIds == s.redeemedOfferIds && r.redeemedOffers == s.redeemedOffers
    ensures |r.restaurants| == |s.restaurants|
    ensures forall i :: 0 <= i < |s.restaurants| ==>
      && r.restaurants[i].seatPrice == (if s.restaurants[i].id == restaurantId then price else s.restaurants[i].seatPrice)
      && r.restaurants[i] == s.restaurants[i].(seatPrice := r.restaurants[i].seatPrice)
    ensures (forall i :: 0 <= i < |s.restaurants| ==> s.restaurants[i].id != restaurantId) ==> r == s
  {
    var restaurants := WithSeatPrice(s.restaurants, restaurantId, price);
    assert (forall i :: 0 <= i < |s.restaurants| ==> s.restaurants[i].id != restaurantId) ==>
      restaurants == s.restaurants;
    s.(restaurants := restaurants)
  }

  // ---------------------------------------------------------------- runs

  /** One user action, with the fresh ids and timestamp it is given. */
  datatype Action =
    | Redeem(offerId: string, recordId: string, redeemedAt: string)
    | BookTable(booking: BookingData, bookingId: string)
    | NewOffer(draft: OfferDraft, newOfferId: string)
    | RemoveOffer(offerId: string)
    | SetSeatPrice(restaurantId: string, price: int)

  function Step(s: State, a: Action): State {
    match a
    case Redeem(offerId, recordId, redeemedAt) => AfterRedeem(s, offerId, recordId, redeemedAt)
    case BookTable(booking, bookingId) => AfterBook(s, booking, bookingId)
    case NewOffer(draft, newOfferId) => AfterAddOffer(s, draft, newOfferId)
    case RemoveOffer(offerId) => AfterDeleteOffer(s, offerId)
    case SetSeatPrice(restaurantId, price) => AfterUpdateSeatPrice(s, restaurantId, price)
  }

  function Run(s: State, actions: seq<Action>): State
    decreases |actions|
  {
    if actions == [] then s else Run(Step(s, actions[0]), actions[1..])
  }

  lemma StepPreservesInvariant(s: State, a: Action)
    requires Invariant(s)
    ensures Invariant(Step(s, a))
  {
    if a.Redeem? && RedeemOutcomeOf(s, a.offerId) == Redeemed {
      var ids := s.redeemedOfferIds;
      var ids' := Step(s, a).redeemedOfferIds;
      assert ids' == ids + [a.offerId];
      forall i, j | 0 <= i < j < |ids'| ensures ids'[i] != ids'[j] {
        if j == |ids| {
          assert ids[i] in ids;
        }
      }
    }
  }

  lemma {:induction false} RunPreservesInvariant(s: State, actions: seq<Action>)
    requires Invariant(s)
    ensures Invariant(Run(s, actions))
    decreases |actions|
  {
    if actions != [] {
      StepPreservesInvariant(s, actions[0]);
      RunPreservesInvariant(Step(s, actions[0]), actions[1..]);
    }
  }

  /** `a` is a prefix of `b`. */
  ghost predicate Prefix<T>(a: seq<T>, b: seq<T>) {
    |a| <= |b| && b[..|a|] == a
  }

  /** The ledgers are append-only: whatever happens next, every existing booking,
      redemption record and redeemed id stays where it is, unchanged. In particular
      no seat-price change alters a stored booking total. */
  lemma {:induction false} RunOnlyAppends(s: State, actions: seq<Action>)
    ensures Prefix(s.bookings, Run(s, actions).bookings)
    ensures Prefix(s.redeemedOffers, Run(s, actions).redeemedOffers)
    ensures Prefix(s.redeemedOfferIds, Run(s, actions).redeemedOfferIds)
    decreases |actions|
  {
    if actions != [] {
      var s' := Step(s, actions[0]);
      assert Prefix(s.bookings, s'.bookings);
      assert Prefix(s.redeemedOffers, s'.redeemedOffers);
      assert Prefix(s.redeemedOfferIds, s'.redeemedOfferIds);
      RunOnlyAppends(s', actions[1..]);
      var r := Run(s', actions[1..]);
      assert r.bookings[..|s.bookings|] == r.bookings[..|s'.bookings|][..|s.bookings|];
      assert r.redeemedOffers[..|s.redeemedOffers|] == r.redeemedOffers[..|s'.redeemedOffers|][..|s.redeemedOffers|];
      assert r.redeemedOfferIds[..|s.redeemedOfferIds|] == r.redeemedOfferIds[..|s'.redeemedOfferIds|][..|s.redeemedOfferIds|];
    }
  }

  /** At-most-once redemption: once an offer is redeemed, redeeming it again after
      any further actions reports "already redeemed" and changes nothing. */
  lemma RedeemAgainIsRejected(s: State, offerId: string, recordId: string, redeemedAt: string,
                              actions: seq<Action>, recordId': string, redeemedAt': string)
    requires RedeemOutcomeOf(s, offerId) == Redeemed
    ensures var t := Run(AfterRedeem(s, offerId, recordId, redeemedAt), actions);
      RedeemOutcomeOf(t, offerId) == AlreadyRedeemed && AfterRedeem(t, offerId, recordId', redeemedAt') == t
  {
    var s' := AfterRedeem(s, offerId, recordId, redeemedAt);
    RunOnlyAppends(s', actions);
    var t := Run(s', actions);
    assert s'.redeemedOfferIds[|s.redeemedOfferIds|] == offerId;
    assert t.redeemedOfferIds[|s.redeemedOfferIds|] == offerId;
  }

  /** A booking's total is fixed when it is stored: whatever happens afterwards,
      seat-price changes included, the booking keeps the submitted total. */
  lemma BookedTotalIsFixed(s: State, data: BookingData, bookingId: string, actions: seq<Action>)
    ensures var t := Run(AfterBook(s, data, bookingId), actions);
      |s.bookings| < |t.bookings| && t.bookings[|s.bookings|].totalPrice == data.totalPrice
  {
    var s' := AfterBook(s, data, bookingId);
    RunOnlyAppends(s', actions);
    assert Run(s', actions).bookings[|s.bookings|] == Run(s', actions).bookings[..|s'.bookings|][|s.bookings|];
  }

  // ---------------------------------------------------------------- the component

  /** `getRestaurantWithOffers`: a restaurant together with its offers. */
  datatype RestaurantWithOffers = RestaurantWithOffers(restaurant: Restaurant, offers: seq<Offer>)

  class App {
    var restaurants: seq<Restaurant>
    var offers: seq<Offer>
    var redeemedOfferIds: seq<string>
    var redeemedOffers: seq<RedeemedOffer>
    var bookings: seq<Booking>

    function Snapshot(): State
      reads this
    {
      State(restaurants, offers, redeemedOfferIds, redeemedOffers, bookings)
    }

    ghost predicate Valid()
      reads this
    {
      Invariant(Snapshot())
    }

    /** The component starts from the seeded restaurants and offers and empty ledgers. */
    constructor (initialRestaurants: seq<Restaurant>, initialOffers: seq<Offer>)
      ensures Valid()
      ensures Snapshot() == State(initialRestaurants, initialOffers, [], [], [])
    {
      restaurants := initialRestaurants;
      offers := initialOffers;
      redeemedOfferIds := [];
      redeemedOffers := [];
      bookings := [];
    }

    method RedeemOffer(offerId: string, recordId: string, redeemedAt: string) returns (outcome: RedeemOutcome)
      requires Valid()
      modifies this
      ensures Valid()
      ensures outcome == RedeemOutcomeOf(old(Snapshot()), offerId)
      ensures Snapshot() == AfterRedeem(old(Snapshot()), offerId, recordId, redeemedAt)
    {
      StepPreservesInvariant(Snapshot(), Redeem(offerId, recordId, redeemedAt));
      if offerId in redeemedOfferIds {
        return AlreadyRedeemed;
      }
      var offer := FindOffer(offers, offerId);
      var restaurant := FindOwner(restaurants, offer);
      if offer.Some? && restaurant.Some? {
        redeemedOfferIds := redeemedOfferIds + [offerId];
        redeemedOffers := redeemedOffers + [RedeemedOffer(
          recordId, restaurant.value.name, offer.value.title, offer.value.discount, redeemedAt)];
        outcome := Redeemed;
      } else {
        outcome := Ignored;
      }
    }

    method Book(booking: BookingData, bookingId: string)
      requires Valid()
      modifies this
      ensures Valid()
      ensures Snapshot() == AfterBook(old(Snapshot()), booking, bookingId)
    {
      bookings := bookings + [BookingWithId(bookingId, booking)];
    }

    method AddOffer(draft: OfferDraft, offerId: string)
      requires Valid()
      modifies this
      ensures Valid()
      ensures Snapshot() == AfterAddOffer(old(Snapshot()), draft, offerId)
    {
      offers := offers + [OfferWithId(offerId, draft)];
    }

    method DeleteOffer(offerId: string)
      requires Valid()
      modifies this
      ensures Valid()
      ensures Snapshot() == AfterDeleteOffer(old(Snapshot()), offerId)
    {
      offers := WithoutOffer(offers, offerId);
    }

    method UpdateSeatPrice(restaurantId: string, price: int)
      requires Valid()
      modifies this
      ensures Valid()
      ensures Snapshot() == AfterUpdateSeatPrice(old(Snapshot()), restaurantId, price)
    {
      restaurants := WithSeatPrice(restaurants, restaurantId, price);
    }

    /** getRestaurantWithOffers: exactly the offers naming this restaurant, in order. */
    function RestaurantWithOffersOf(restaurant: Restaurant): (r: RestaurantWithOffers)
      reads this
      ensures r.restaurant == restaurant
      ensures forall o :: o in r.offers <==> o in offers && o.restaurantId == restaurant.id
      ensures forall o :: multiset(r.offers)[o] == if o.restaurantId == restaurant.id then multiset(offers)[o] else 0
      ensures Subsequence(r.offers, offers)
    {
      OffersOfKeepsOrder(offers, restaurant.id);
      RestaurantWithOffers(restaurant, OffersOf(offers, restaurant.id))
    }
  }
}
