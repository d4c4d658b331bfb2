/** The booking form (src/app/components/BookingForm.tsx): it holds the chosen
    date, time and guest count, shows the total `guests * seatPrice`, and on submit
    hands a booking record with that total to its caller and resets itself. */
module Forms {
  import opened Domain

  /** The guest count the form starts with and returns to after a submit. */
  const InitialGuests := 2

  /** The bounds the guest input declares; the browser enforces them, the submit
      handler does not check them. */
  const MinGuests := 1
  const MaxGuests := 20

  /** `totalPrice = guests * seatPrice` */
  function TotalPrice(guests: int, seatPrice: int): (t: int)
    ensures MinGuests <= guests && 0 <= seatPrice ==> 0 <= seatPrice <= t
    ensures guests <= MaxGuests && 0 <= seatPrice ==> t <= MaxGuests * seatPrice
    ensures guests == 0 || seatPrice == 0 ==> t == 0
  {
    guests * seatPrice
  }

  class BookingForm {
    const restaurantId: string
    const restaurantName: string
    const seatPrice: int
    var date: Date
    var time: string
    var guests: int

    /** The state the form starts in and returns to after a submit. */
    ghost predicate IsInitial()
      reads this
    {
      date == Unset && time == "" && guests == InitialGuests
    }

    constructor (restaurantId: string, restaurantName: string, seatPrice: int)
      ensures this.restaurantId == restaurantId && this.restaurantName == restaurantName
      ensures this.seatPrice == seatPrice
      ensures IsInitial()
    {
      this.restaurantId := restaurantId;
      this.restaurantName := restaurantName;
      this.seatPrice := seatPrice;
      date := Unset;
      time := "";
      guests := InitialGuests;
    }

    /** The total shown under the inputs, recomputed from the current guest count. */
    function CurrentTotal(): (t: int)
      reads this
      ensures MinGuests <= guests <= MaxGuests && 0 <= seatPrice ==> 0 <= t <= MaxGuests * seatPrice
    {
      TotalPrice(guests, seatPrice)
    }

    method SetDate(d: Date)
      modifies this`date
      ensures date == d
    {
      date := d;
    }

    method SetTime(t: string)
      modifies this`time
      ensures time == t
    {
      time := t;
    }

    method SetGuests(n: int)
      modifies this`guests
      ensures guests == n
    {
      guests := n;
    }

    /** handleSubmit: the record carries this restaurant, the current date, time and
        guest count, and the total for that many seats at this form's seat price;
        then the form is back in its initial state. */
    method Submit() returns (data: BookingData)
      modifies this`date, this`time, this`guests
      ensures data.restaurantId == restaurantId && data.restaurantName == restaurantName
      ensures data.date == old(date) && data.time == old(time) && data.guests == old(guests)
      ensures data.totalPrice == TotalPrice(data.guests, seatPrice)
      ensures IsInitial()
    {
      data := BookingData(restaurantId, restaurantName, date, time, guests, CurrentTotal());
      date := Unset;
      time := "";
      guests := InitialGuests;
    }
  }
}
