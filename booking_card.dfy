/** The price summary of client/src/components/BookingCard.jsx: number of
    nights, the excess-guest surcharge, the estimated total, the guest
    drop-down and the label of the main button. The options modal
    computes its estimate with the same three expressions. */
module BookingCard {
  import opened Wrappers
  import opened LocalTime

  /** `Math.round(x)` is `floor(x + 0.5)`; for `delta / Day` with an exact
      half-day this is `(delta + Day / 2) / Day` with floor division. */
  function RoundDays(delta: int): int {
    (delta + Day / 2) / Day
  }

  /** `numberOfNights`: 0 while a date is missing, otherwise
      `max(1, round((out - in) / day))`. */
  function Nights(checkIn: Option<int>, checkOut: Option<int>): (n: int)
    ensures checkIn.None? || checkOut.None? <==> n == 0
    ensures checkIn.Some? && checkOut.Some? ==> n >= 1
    ensures checkIn.Some? && checkOut.Some? && checkOut.value - checkIn.value >= Day ==>
      n * Day - Day / 2 <= checkOut.value - checkIn.value < n * Day + Day / 2
    ensures checkIn.Some? && checkOut.Some? && checkOut.value - checkIn.value < Day + Day / 2 ==> n == 1
  {
    if checkIn.Some? && checkOut.Some? then
      var rounded := RoundDays(checkOut.value - checkIn.value);
      if rounded < 1 then 1 else rounded
    else 0
  }

  /** A stay of whole local days, stamped at the same hour on both ends,
      is counted as exactly that many nights. */
  lemma NightsOfWholeDays(checkIn: int, days: int)
    requires days >= 1
    ensures Nights(Some(checkIn), Some(checkIn + days * Day)) == days
  {
    assert RoundDays(days * Day) == days by {
      assert days * Day + Day / 2 == days * Day + 43200000;
    }
  }

  /** A stay stamped 12:00 on its check-in day and 11:00 on a later
      check-out day counts one night per calendar day between them; the
      ordinary one-night stay (23 hours) counts one. */
  lemma {:induction false} NightsOfStampedStay(a: int, b: int)
    requires LocalDay(a) < LocalDay(b)
    ensures Nights(Some(NormaliseCheckIn(a)), Some(NormaliseCheckOut(b))) == LocalDay(b) - LocalDay(a)
  {
    var k := LocalDay(b) - LocalDay(a);
    var delta := NormaliseCheckOut(b) - NormaliseCheckIn(a);
    assert delta == k * Day - Hour by {
      assert DayStart(LocalDay(b)) - DayStart(LocalDay(a)) == k * Day;
    }
    assert RoundDays(delta) == k by {
      assert delta + Day / 2 == k * Day + (Day / 2 - Hour);
      assert 0 <= Day / 2 - Hour < Day;
    }
  }

  /** `guestSurcharge`: the fee for each guest over the limit, per night. */
  function Surcharge(guests: int, limit: int, fee: int, nights: int): (s: int)
    ensures guests <= limit ==> s == 0
    ensures fee > 0 && nights > 0 ==> (s == 0 <==> guests <= limit)
    ensures fee >= 0 && nights >= 0 ==> s >= 0
  {
    if guests > limit then (guests - limit) * fee * nights else 0
  }

  /** `totalPrice = pricePerNight * numberOfNights + guestSurcharge`. */
  function Total(pricePerNight: int, guests: int, limit: int, fee: int, nights: int): (t: int)
    ensures nights == 0 ==> t == 0
    ensures fee >= 0 && nights >= 0 ==> t >= pricePerNight * nights
    ensures guests <= limit ==> t == pricePerNight * nights
  {
    pricePerNight * nights + Surcharge(guests, limit, fee, nights)
  }

  /** With a non-negative fee, more guests never cost less. */
  lemma {:induction false} TotalMonotoneInGuests(price: int, g1: int, g2: int, limit: int, fee: int, nights: int)
    requires g1 <= g2 && fee >= 0 && nights >= 0
    ensures Total(price, g1, limit, fee, nights) <= Total(price, g2, limit, fee, nights)
  {
    if g1 > limit {
      assert (g2 - limit) * fee * nights - (g1 - limit) * fee * nights == (g2 - g1) * (fee * nights);
      assert (g2 - g1) * (fee * nights) >= 0 by {
        assert fee * nights >= 0;
      }
    }
  }

  /** Each additional guest over the limit adds exactly one fee per night. */
  lemma ExtraGuestAddsFeePerNight(price: int, g: int, limit: int, fee: int, nights: int)
    requires g >= limit
    ensures Total(price, g + 1, limit, fee, nights) == Total(price, g, limit, fee, nights) + fee * nights
  {
    if g > limit {
      assert (g + 1 - limit) * fee * nights == (g - limit) * fee * nights + fee * nights;
    }
  }

  /** One `<option>` of the guest drop-down: its value and whether its
      label reads "guests" rather than "guest". */
  datatype GuestOption = GuestOption(value: int, plural: bool)

  const MaxGuestsInDropdown := 16

  /** The loop that pushes one option per count. */
  method GuestOptions() returns (options: seq<GuestOption>)
    ensures |options| == MaxGuestsInDropdown
    ensures forall k :: 0 <= k < |options| ==> options[k].value == k + 1
    ensures forall k :: 0 <= k < |options| ==> (options[k].plural <==> options[k].value > 1)
  {
    options := [];
    var i := 1;
    while i <= MaxGuestsInDropdown
      invariant 1 <= i <= MaxGuestsInDropdown + 1
      invariant |options| == i - 1
      invariant forall k :: 0 <= k < |options| ==> options[k] == GuestOption(k + 1, k + 1 > 1)
    {
      options := options + [GuestOption(i, i > 1)];
      i := i + 1;
    }
  }

  /** The main button reads "Reserve" once both dates are chosen. */
  function ButtonLabel(checkIn: Option<int>, checkOut: Option<int>): (caption: string)
    ensures caption == "Reserve" <==> checkIn.Some? && checkOut.Some?
    ensures caption == "Check availability" <==> !(checkIn.Some? && checkOut.Some?)
  {
    if checkIn.Some? && checkOut.Some? then "Reserve" else "Check availability"
  }

  /** The pricing block is shown exactly when a label says "Reserve". */
  lemma PricingShownWithReserve(checkIn: Option<int>, checkOut: Option<int>)
    ensures Nights(checkIn, checkOut) > 0 <==> ButtonLabel(checkIn, checkOut) == "Reserve"
  {
  }
}
