/** The "select options" modal of
    client/src/components/BookingOptionsMenuModal.jsx: the nightly rate
    chosen from the check-in weekday, the guest count, the red/yellow
    warning over the days of the chosen range, the house list fetched for
    Tagpopongan and the payload handed on by "Proceed". */
module BookingOptionsMenu {
  import opened Wrappers
  import opened LocalTime
  import opened CalendarView
  import opened BookingCard
  import BookingSchema

  const WeekdayPriceOverride := 12000
  const WeekendPriceOverride := 10000
  const GuestLimit := 10
  const ExcessGuestFee := 350

  /** `locationData.pricePerNight || WEEKDAY_PRICE_OVERRIDE`: a missing or
      zero price falls back to the weekday rate. */
  function DefaultRate(pricePerNight: Option<int>): (rate: int)
    ensures pricePerNight.Some? && pricePerNight.value != 0 ==> rate == pricePerNight.value
    ensures pricePerNight.None? || pricePerNight.value == 0 ==> rate == WeekdayPriceOverride
  {
    if pricePerNight.Some? && pricePerNight.value != 0 then pricePerNight.value else WeekdayPriceOverride
  }

  /** `getDay()` of the check-in is Friday, Saturday or Sunday. */
  predicate WeekendCheckIn(checkIn: int) {
    Weekday(checkIn) in {5, 6, 0}
  }

  /** The rate effect: the location's default until a check-in is chosen,
      then 10000 for a Friday to Sunday check-in and 12000 otherwise. */
  function RatePerNight(pricePerNight: Option<int>, checkIn: Option<int>): (rate: int)
    ensures checkIn.None? ==> rate == DefaultRate(pricePerNight)
    ensures checkIn.Some? ==> (rate == WeekendPriceOverride <==> WeekendCheckIn(checkIn.value))
    ensures checkIn.Some? ==> (rate == WeekdayPriceOverride <==> !WeekendCheckIn(checkIn.value))
  {
    match checkIn
    case None => DefaultRate(pricePerNight)
    case Some(t) => if WeekendCheckIn(t) then WeekendPriceOverride else WeekdayPriceOverride
  }

  /** Once a check-in is chosen the rate no longer depends on the location,
      and any two check-ins on the same local day get the same rate. */
  lemma RateDependsOnlyOnCheckInDay(p1: Option<int>, p2: Option<int>, t1: int, t2: int)
    requires LocalDay(t1) == LocalDay(t2)
    ensures RatePerNight(p1, Some(t1)) == RatePerNight(p2, Some(t2))
  {
  }

  /** Moving the check-in by `k` whole days moves its weekday by `k`. */
  lemma WeekdayShift(t: int, k: int)
    ensures Weekday(t + k * Day) == (Weekday(t) + k) % 7
  {
    assert LocalDay(t + k * Day) == LocalDay(t) + k by {
      assert t + k * Day + Offset == (t + Offset) + k * Day;
    }
  }

  /** Starting from a Friday check-in, the next three days get the weekend
      rate and the four after them the weekday rate. */
  lemma {:induction false} WeekendRunsFridayToSunday(p: Option<int>, t: int, k: int)
    requires Weekday(t) == 5 && 0 <= k < 7
    ensures RatePerNight(p, Some(t + k * Day)) == if k < 3 then WeekendPriceOverride else WeekdayPriceOverride
  {
    WeekdayShift(t, k);
    assert Weekday(t + k * Day) == (5 + k) % 7;
  }

  /** `handleNumGuestsChange`: `Math.max(1, parseInt(value, 10) || 1)`;
      `parsed` is `None` for NaN. */
  function NumGuestsChange(parsed: Option<int>): (guests: int)
    ensures guests >= 1
    ensures parsed.Some? && parsed.value >= 1 ==> guests == parsed.value
    ensures parsed.None? || parsed.value < 1 ==> guests == 1
  {
    var n := if parsed.Some? && parsed.value != 0 then parsed.value else 1;
    if n < 1 then 1 else n
  }

  // ---------------------------------------------------------------------
  // The warning rule of handleDateChange

  predicate IsRed(c: Option<DayClass>) { c == Some(FullyBooked) }
  predicate IsYellow(c: Option<DayClass>) { c == Some(PartialBooked) }

  predicate AnyRed(days: seq<DayClass>) {
    exists i :: 0 <= i < |days| && days[i] == FullyBooked
  }

  predicate AdjacentYellow(days: seq<DayClass>) {
    exists i :: 0 <= i < |days| - 1 && days[i] == PartialBooked && days[i + 1] == PartialBooked
  }

  /** `shouldShowWarning`. `start` and `end` are the classes of the cells
      found for the two dates (`None` when no cell was found), `days` the
      classes of the cells of the range in calendar order, and `bothDates`
      whether both dates are set. */
  predicate ShouldWarn(start: Option<DayClass>, end: Option<DayClass>, days: seq<DayClass>, bothDates: bool) {
    || (IsRed(start) && IsRed(end))
    || (IsRed(start) && IsYellow(end))
    || (IsYellow(start) && IsRed(end))
    || (bothDates && AnyRed(days))
    || (bothDates && AdjacentYellow(days))
  }

  /** The scan over the range: `some` for a red day, then the loop with
      `break` for two adjacent yellow days. */
  method ScanRange(days: seq<DayClass>) returns (hasRed: bool, hasAdjacentYellow: bool)
    ensures hasRed <==> AnyRed(days)
    ensures hasAdjacentYellow <==> AdjacentYellow(days)
  {
    hasRed := false;
    for i := 0 to |days|
      invariant hasRed <==> exists j :: 0 <= j < i && days[j] == FullyBooked
    {
      if days[i] == FullyBooked {
        hasRed := true;
      }
    }
    hasAdjacentYellow := false;
    var i := 0;
    while i < |days| - 1
      invariant 0 <= i <= if |days| == 0 then 0 else |days| - 1
      invariant !hasAdjacentYellow
      invariant forall j :: 0 <= j < i ==> !(days[j] == PartialBooked && days[j + 1] == PartialBooked)
    {
      if days[i] == PartialBooked && days[i + 1] == PartialBooked {
        hasAdjacentYellow := true;
        break;
      }
      i := i + 1;
    }
  }

  /** When the two end cells are the first and the last day of the range,
      the three end-point clauses add nothing: the warning is "some red
      day or two adjacent yellow days". */
  lemma WarningReduces(days: seq<DayClass>)
    requires |days| >= 1
    ensures ShouldWarn(Some(days[0]), Some(days[|days| - 1]), days, true)
        <==> AnyRed(days) || AdjacentYellow(days)
  {
    if IsRed(Some(days[0])) {
      assert days[0] == FullyBooked;
    }
  }

  /** Yellow at both ends with a plain day between them is not flagged. */
  lemma YellowEndsNotFlagged()
    ensures !ShouldWarn(Some(PartialBooked), Some(PartialBooked), [PartialBooked, Unmarked, PartialBooked], true)
  {
    var days := [PartialBooked, Unmarked, PartialBooked];
    assert !AnyRed(days) by {
      forall i | 0 <= i < |days| ensures days[i] != FullyBooked { }
    }
    assert !AdjacentYellow(days) by {
      forall i | 0 <= i < |days| - 1 ensures !(days[i] == PartialBooked && days[i + 1] == PartialBooked) { }
    }
  }

  /** A range with a red day inside is flagged whatever its ends are. */
  lemma RedInsideFlagged(start: Option<DayClass>, end: Option<DayClass>, days: seq<DayClass>, i: int)
    requires 0 <= i < |days| && days[i] == FullyBooked
    ensures ShouldWarn(start, end, days, true)
  {
  }

  // ---------------------------------------------------------------------
  // Proceed

  /** What `onProceedToPayment` receives. */
  datatype Options = Options(
    locationName: string,
    locationSlug: string,
    checkInDate: int,
    checkOutDate: int,
    numGuests: int,
    calculatedPricePerNight: int,
    calculatedTotalPrice: int,
    numberOfNights: int,
    houseNumber: Option<int>)

  datatype Proceed =
    | AlertDates
    | AlertFullyBooked
    | AlertHouse
    | Passed(options: Options)

  /** The location the modal is opened for. */
  datatype Location = Location(name: string, slug: string, pricePerNight: Option<int>)

  /** `!selectedHouse`: no house, or the falsy house 0. */
  predicate HouseChosen(h: Option<int>) {
    h.Some? && h.value != 0
  }

  /** The houses effect fires for Tagpopongan, both dates set, no warning. */
  predicate FetchesHouses(loc: Location, checkIn: Option<int>, checkOut: Option<int>, warned: bool) {
    loc.slug == BookingSchema.Tagpopongan && checkIn.Some? && checkOut.Some? && !warned
  }

  /** The modal's state. */
  class OptionsMenu {
    const location: Location
    var checkInDate: Option<int>
    var checkOutDate: Option<int>
    var numGuests: int
    var currentPricePerNight: int
    var isFullyBooked: bool
    var availableHouses: seq<int>
    var selectedHouse: Option<int>
    var houseLoading: bool
    var houseError: string

    /** The estimate shown under the calendar. */
    function NumberOfNights(): (n: int)
      reads this
      ensures n >= 0
      ensures n == 0 <==> checkInDate.None? || checkOutDate.None?
    {
      Nights(checkInDate, checkOutDate)
    }

    function EstimatedTotal(): (t: int)
      reads this
      ensures t >= currentPricePerNight * NumberOfNights()
      ensures numGuests <= GuestLimit ==> t == currentPricePerNight * NumberOfNights()
    {
      Total(currentPricePerNight, numGuests, GuestLimit, ExcessGuestFee, NumberOfNights())
    }

    /** The modal mounted and opened: dates cleared, one guest, the default
        rate. */
    constructor (loc: Location)
      ensures location == loc
      ensures checkInDate.None? && checkOutDate.None? && numGuests == 1
      ensures currentPricePerNight == DefaultRate(loc.pricePerNight)
      ensures !isFullyBooked && availableHouses == [] && selectedHouse.None?
    {
      location := loc;
      checkInDate := None;
      checkOutDate := None;
      numGuests := 1;
      currentPricePerNight := DefaultRate(loc.pricePerNight);
      isFullyBooked := false;
      availableHouses := [];
      selectedHouse := None;
      houseLoading := false;
      houseError := "";
    }

    /** Re-opening resets dates and guests but not the warning flag. */
    method Open()
      modifies this
      ensures checkInDate.None? && checkOutDate.None? && numGuests == 1
      ensures currentPricePerNight == DefaultRate(location.pricePerNight)
      ensures isFullyBooked == old(isFullyBooked)
      ensures availableHouses == old(availableHouses) && selectedHouse == old(selectedHouse)
    {
      checkInDate := None;
      checkOutDate := None;
      numGuests := 1;
      currentPricePerNight := DefaultRate(location.pricePerNight);
    }

    /** The rate effect, run after the check-in changes. */
    method UpdateRate()
      modifies this
      ensures currentPricePerNight == RatePerNight(location.pricePerNight, checkInDate)
      ensures checkInDate == old(checkInDate) && checkOutDate == old(checkOutDate)
      ensures numGuests == old(numGuests) && isFullyBooked == old(isFullyBooked)
      ensures availableHouses == old(availableHouses) && selectedHouse == old(selectedHouse)
    {
      var basePriceToSet := DefaultRate(location.pricePerNight);
      if checkInDate.Some? {
        if Weekday(checkInDate.value) in {5, 6, 0} {
          basePriceToSet := WeekendPriceOverride;
        } else {
          basePriceToSet := WeekdayPriceOverride;
        }
      }
      currentPricePerNight := basePriceToSet;
    }

    /** `handleDateChange`, given the classes of the cells it finds. */
    method HandleDateChange(start: Option<int>, end: Option<int>,
                            startCell: Option<DayClass>, endCell: Option<DayClass>, days: seq<DayClass>)
      modifies this
      ensures checkInDate == start && checkOutDate == end
      ensures isFullyBooked == ShouldWarn(startCell, endCell, days, start.Some? && end.Some?)
      ensures numGuests == old(numGuests) && currentPricePerNight == old(currentPricePerNight)
      ensures availableHouses == old(availableHouses) && selectedHouse == old(selectedHouse)
    {
      var hasRed, hasAdjacentYellow := false, false;
      if start.Some? && end.Some? {
        hasRed, hasAdjacentYellow := ScanRange(days);
      }
      var shouldShowWarning :=
        (IsRed(startCell) && IsRed(endCell)) || (IsRed(startCell) && IsYellow(endCell))
        || (IsYellow(startCell) && IsRed(endCell)) || hasRed || hasAdjacentYellow;
      checkInDate := start;
      checkOutDate := end;
      isFullyBooked := shouldShowWarning;
    }

    /** `handleNumGuestsChange`. */
    method HandleNumGuestsChange(parsed: Option<int>)
      modifies this
      ensures numGuests == NumGuestsChange(parsed) && numGuests >= 1
      ensures checkInDate == old(checkInDate) && checkOutDate == old(checkOutDate)
      ensures currentPricePerNight == old(currentPricePerNight) && isFullyBooked == old(isFullyBooked)
      ensures availableHouses == old(availableHouses) && selectedHouse == old(selectedHouse)
    {
      numGuests := NumGuestsChange(parsed);
    }

    /** The houses effect; `fetched` is `None` when the request throws. */
    method FetchHouses(fetched: Option<seq<int>>)
      modifies this
      ensures !houseLoading
      ensures !FetchesHouses(location, checkInDate, checkOutDate, isFullyBooked) ==>
        availableHouses == [] && selectedHouse.None? && houseError == old(houseError)
      ensures FetchesHouses(location, checkInDate, checkOutDate, isFullyBooked) && fetched.Some? ==>
        && availableHouses == fetched.value
        && selectedHouse == (if fetched.value == [] then None else Some(fetched.value[0]))
        && houseError == ""
      ensures FetchesHouses(location, checkInDate, checkOutDate, isFullyBooked) && fetched.None? ==>
        availableHouses == [] && selectedHouse.None? && houseError != ""
      ensures checkInDate == old(checkInDate) && checkOutDate == old(checkOutDate)
      ensures numGuests == old(numGuests) && isFullyBooked == old(isFullyBooked)
      ensures currentPricePerNight == old(currentPricePerNight)
    {
      houseLoading := false;
      if location.slug == BookingSchema.Tagpopongan && checkInDate.Some? && checkOutDate.Some? && !isFullyBooked {
        houseLoading := true;
        houseError := "";
        availableHouses := [];
        selectedHouse := None;
        if fetched.Some? {
          availableHouses := fetched.value;
          selectedHouse := if fetched.value == [] then None else Some(fetched.value[0]);
        } else {
          houseError := "Could not fetch available houses.";
        }
        houseLoading := false;
      } else {
        availableHouses := [];
        selectedHouse := None;
      }
    }

    /** `handleProceedClick`: the three alerts in order, else the payload. */
    function ProceedClick(): (p: Proceed)
      reads this
      ensures p.Passed? <==>
        && checkInDate.Some? && checkOutDate.Some? && !isFullyBooked
        && (location.slug == BookingSchema.Tagpopongan ==> HouseChosen(selectedHouse) && availableHouses != [])
      ensures (checkInDate.None? || checkOutDate.None?) ==> p == AlertDates
      ensures checkInDate.Some? && checkOutDate.Some? && isFullyBooked ==> p == AlertFullyBooked
      ensures checkInDate.Some? && checkOutDate.Some? && !isFullyBooked && !p.Passed? ==> p == AlertHouse
      ensures p.Passed? ==>
        && p.options.checkInDate == checkInDate.value
        && p.options.checkOutDate == checkOutDate.value
        && p.options.numGuests == numGuests
        && p.options.calculatedPricePerNight == currentPricePerNight
        && p.options.calculatedTotalPrice == EstimatedTotal()
        && p.options.numberOfNights == NumberOfNights() >= 1
        && p.options.locationSlug == location.slug
        && (p.options.houseNumber.Some? <==> location.slug == BookingSchema.Tagpopongan)
        && (p.options.houseNumber.Some? ==> p.options.houseNumber == selectedHouse)
    {
      if checkInDate.None? || checkOutDate.None? then AlertDates
      else if isFullyBooked then AlertFullyBooked
      else if location.slug == BookingSchema.Tagpopongan && (!HouseChosen(selectedHouse) || |availableHouses| == 0) then AlertHouse
      else
        Passed(Options(
          location.name, location.slug, checkInDate.value, checkOutDate.value, numGuests,
          currentPricePerNight, EstimatedTotal(), NumberOfNights(),
          if location.slug == BookingSchema.Tagpopongan then selectedHouse else None))
    }

    /** A date change that raises the warning, followed by the houses effect
        it triggers: "Proceed" then answers the fully-booked alert, and the
        house list is left empty whatever the request would have returned. */
    method FlaggedRangeBlocksProceed(start: Option<int>, end: Option<int>,
                                     startCell: Option<DayClass>, endCell: Option<DayClass>,
                                     days: seq<DayClass>, fetched: Option<seq<int>>)
      requires start.Some? && end.Some?
      requires ShouldWarn(startCell, endCell, days, true)
      modifies this
      ensures checkInDate == start && checkOutDate == end && isFullyBooked
      ensures ProceedClick() == AlertFullyBooked
      ensures availableHouses == [] && selectedHouse.None?
    {
      HandleDateChange(start, end, startCell, endCell, days);
      FetchHouses(fetched);
    }
  }
}
