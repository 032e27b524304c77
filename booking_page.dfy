/** The booking page of client/src/pages/BookingPage.jsx: the location
    looked up from the URL slug, the options the modal hands back, and the
    data collected for the payment page once the guest form is submitted
    (stay times stamped at 12:00 and 11:00, a 30% downpayment, a house only
    for Tagpopongan). */
module BookingPage {
  import opened Wrappers
  import opened Text
  import opened LocalTime
  import BookingSchema
  import BookingForm
  import BookingOptionsMenu

  /** The fields of a location entry the booking logic reads. */
  datatype LocationData = LocationData(id: string, slug: string, name: string, pricePerNight: int)

  /** `allLocationsData`, keyed by slug. */
  const AllLocationsData: map<string, LocationData> := map[
    "tagaytay" := LocationData("tagaytay", "tagaytay", "Tagaytay", 6000),
    "calinan" := LocationData("calinan", "calinan", "Calinan", 12000),
    "tagpopongan" := LocationData("tagpopongan", "tagpopongan", "Golden - Tagpopongan", 14000)
  ]

  /** Every entry is filed under its own slug. */
  lemma TableKeyedBySlug()
    ensures forall k :: k in AllLocationsData ==> AllLocationsData[k].slug == k && AllLocationsData[k].id == k
    ensures BookingSchema.Tagpopongan in AllLocationsData
  {
  }

  /** The slug effect's lookup: the URL slug lower-cased, an empty or
      missing slug and an unknown one both failing. */
  function LookupSlug(slug: Option<string>): (r: Option<LocationData>)
    ensures r.Some? <==> slug.Some? && Lower(slug.value) in AllLocationsData
    ensures r.Some? ==> r.value == AllLocationsData[Lower(slug.value)] && r.value.slug == Lower(slug.value)
  {
    match slug
    case None => None
    case Some(s) =>
      var normalizedSlug := Lower(s);
      if normalizedSlug == "" || normalizedSlug !in AllLocationsData then None
      else Some(AllLocationsData[normalizedSlug])
  }

  /** Two slugs differing only in letter case find the same location. */
  lemma LookupIgnoresCase(a: string, b: string)
    requires Lower(a) == Lower(b)
    ensures LookupSlug(Some(a)) == LookupSlug(Some(b))
  {
  }

  /** What the page hands to the payment page through navigation state. */
  datatype PaymentData = PaymentData(
    guestName: string,
    guestEmail: string,
    guestPhone: string,
    specialRequests: string,
    numberOfGuests: int,
    checkInDate: int,
    checkOutDate: int,
    locationName: string,
    locationSlug: string,
    totalPrice: int,
    downpaymentAmount: real,
    numberOfNights: int,
    houseNumber: Option<int>)

  /** The share of the total asked as downpayment. */
  const DownpaymentRate: real := 0.30

  /** `bookingDataForPaymentPage`: the form's fields, then the page's own
      keys written after the spread, which win over the form's
      `numberOfGuests` and `houseNumber`. */
  function PaymentPayload(form: BookingForm.FormData, checkIn: int, checkOut: int, guests: int,
                          loc: LocationData, total: int, nights: int, house: Option<int>): (p: PaymentData)
    ensures p.guestName == form.guestName && p.guestEmail == form.guestEmail
    ensures p.guestPhone == form.guestPhone && p.specialRequests == form.specialRequests
    ensures p.numberOfGuests == guests
    ensures p.checkInDate == DayStart(LocalDay(checkIn)) + CheckInHour * Hour
    ensures p.checkOutDate == DayStart(LocalDay(checkOut)) + CheckOutHour * Hour
    ensures LocalDay(p.checkInDate) == LocalDay(checkIn) && LocalDay(p.checkOutDate) == LocalDay(checkOut)
    ensures p.locationName == loc.name && p.locationSlug == loc.slug
    ensures p.totalPrice == total && p.numberOfNights == nights
    ensures p.downpaymentAmount * 10.0 == 3.0 * total as real
    ensures total >= 0 ==> 0.0 <= p.downpaymentAmount <= total as real
    ensures p.houseNumber.Some? ==> loc.slug == BookingSchema.Tagpopongan && p.houseNumber == house
    ensures loc.slug == BookingSchema.Tagpopongan ==> p.houseNumber == house
  {
    NormaliseFacts(checkIn);
    NormaliseFacts(checkOut);
    PaymentData(
      form.guestName, form.guestEmail, form.guestPhone, form.specialRequests,
      guests, NormaliseCheckIn(checkIn), NormaliseCheckOut(checkOut),
      loc.name, loc.slug, total, total as real * DownpaymentRate, nights,
      if loc.slug == BookingSchema.Tagpopongan then house else None)
  }

  /** The form's own guest count and house never reach the payload. */
  lemma PayloadIgnoresFormCountAndHouse(form: BookingForm.FormData, count: BookingForm.GuestCount, h: Option<int>,
                                        checkIn: int, checkOut: int, guests: int,
                                        loc: LocationData, total: int, nights: int, house: Option<int>)
    ensures PaymentPayload(form.(numberOfGuests := count, houseNumber := h), checkIn, checkOut, guests, loc, total, nights, house)
         == PaymentPayload(form, checkIn, checkOut, guests, loc, total, nights, house)
  {
  }

  /** The stamped stay is non-empty exactly when check-out falls on a later
      calendar day, and stamping an already stamped stay changes nothing. */
  lemma {:induction false} PayloadStayOrder(form: BookingForm.FormData, checkIn: int, checkOut: int, guests: int,
                                            loc: LocationData, total: int, nights: int, house: Option<int>)
    ensures var p := PaymentPayload(form, checkIn, checkOut, guests, loc, total, nights, house);
      && (p.checkInDate < p.checkOutDate <==> LocalDay(checkIn) < LocalDay(checkOut))
      && PaymentPayload(form, p.checkInDate, p.checkOutDate, guests, loc, total, nights, house) == p
  {
    NormalisedStayOrder(checkIn, checkOut);
    NormaliseFacts(checkIn);
    NormaliseFacts(checkOut);
  }

  /** `{ message, type }` of the page's status line. */
  datatype StatusLine = StatusLine(message: string, isError: bool)

  const SessionMissing := "Error: Session details missing. Please try again."

  /** The page's state. */
  class Page {
    var selectedCheckIn: Option<int>
    var selectedCheckOut: Option<int>
    var selectedNumGuests: int
    var calculatedTotalPrice: int
    var selectedNumberOfNights: int
    var selectedHouseNumber: Option<int>
    var bookingStatus: StatusLine
    var optionsModalOpen: bool
    var confirmModalOpen: bool
    var locationData: Option<LocationData>
    var errorLoading: bool

    constructor ()
      ensures selectedCheckIn.None? && selectedCheckOut.None? && selectedHouseNumber.None?
      ensures selectedNumGuests == 1 && calculatedTotalPrice == 0 && selectedNumberOfNights == 0
      ensures locationData.None? && !errorLoading && !optionsModalOpen && !confirmModalOpen
    {
      selectedCheckIn := None;
      selectedCheckOut := None;
      selectedNumGuests := 1;
      calculatedTotalPrice := 0;
      selectedNumberOfNights := 0;
      selectedHouseNumber := None;
      bookingStatus := StatusLine("", false);
      optionsModalOpen := false;
      confirmModalOpen := false;
      locationData := None;
      errorLoading := false;
    }

    /** The slug effect. An unknown slug sets the error flag and keeps the
        selections; a known one loads the location and clears them (the
        selected house excepted). */
    method LoadSlug(slug: Option<string>)
      modifies this
      ensures locationData == LookupSlug(slug)
      ensures errorLoading <==> LookupSlug(slug).None?
      ensures LookupSlug(slug).None? ==>
        && selectedCheckIn == old(selectedCheckIn) && selectedCheckOut == old(selectedCheckOut)
        && selectedNumGuests == old(selectedNumGuests) && bookingStatus == old(bookingStatus)
        && calculatedTotalPrice == old(calculatedTotalPrice) && selectedNumberOfNights == old(selectedNumberOfNights)
        && optionsModalOpen == old(optionsModalOpen) && confirmModalOpen == old(confirmModalOpen)
      ensures LookupSlug(slug).Some? ==>
        && selectedCheckIn.None? && selectedCheckOut.None? && selectedNumGuests == 1
        && calculatedTotalPrice == 0 && selectedNumberOfNights == 0
        && !optionsModalOpen && !confirmModalOpen && bookingStatus == StatusLine("", false)
      ensures selectedHouseNumber == old(selectedHouseNumber)
    {
      var data := LookupSlug(slug);
      if data.None? {
        errorLoading := true;
        locationData := None;
        return;
      }
      locationData := data;
      errorLoading := false;
      selectedCheckIn, selectedCheckOut, selectedNumGuests := None, None, 1;
      calculatedTotalPrice, selectedNumberOfNights := 0, 0;
      optionsModalOpen, confirmModalOpen := false, false;
      bookingStatus := StatusLine("", false);
    }

    /** `handleOptionsSelected`: copies the modal's choices, the house
        through `|| null`, and moves from the options modal to the form. */
    method HandleOptionsSelected(o: BookingOptionsMenu.Options)
      modifies this
      ensures selectedCheckIn == Some(o.checkInDate) && selectedCheckOut == Some(o.checkOutDate)
      ensures selectedNumGuests == o.numGuests && calculatedTotalPrice == o.calculatedTotalPrice
      ensures selectedNumberOfNights == o.numberOfNights
      ensures selectedHouseNumber == if BookingOptionsMenu.HouseChosen(o.houseNumber) then o.houseNumber else None
      ensures !optionsModalOpen && confirmModalOpen
      ensures locationData == old(locationData) && bookingStatus == old(bookingStatus)
    {
      selectedCheckIn := Some(o.checkInDate);
      selectedCheckOut := Some(o.checkOutDate);
      selectedNumGuests := o.numGuests;
      calculatedTotalPrice := o.calculatedTotalPrice;
      selectedNumberOfNights := o.numberOfNights;
      selectedHouseNumber := if BookingOptionsMenu.HouseChosen(o.houseNumber) then o.houseNumber else None;
      optionsModalOpen := false;
      confirmModalOpen := true;
    }

    /** `handleFinalFormSubmit`: records an error and stays when the session
        lost its dates or location, otherwise closes the form and returns
        the data navigated to the payment page. */
    method HandleFinalFormSubmit(form: BookingForm.FormData) returns (navigated: Option<PaymentData>)
      modifies this
      ensures selectedCheckIn == old(selectedCheckIn) && selectedCheckOut == old(selectedCheckOut)
      ensures locationData == old(locationData) && selectedNumGuests == old(selectedNumGuests)
      ensures calculatedTotalPrice == old(calculatedTotalPrice) && selectedNumberOfNights == old(selectedNumberOfNights)
      ensures selectedHouseNumber == old(selectedHouseNumber) && optionsModalOpen == old(optionsModalOpen)
      ensures navigated.None? <==> selectedCheckIn.None? || selectedCheckOut.None? || locationData.None?
      ensures navigated.None? ==> bookingStatus == StatusLine(SessionMissing, true) && confirmModalOpen == old(confirmModalOpen)
      ensures navigated.Some? ==>
        && navigated.value == PaymentPayload(form, selectedCheckIn.value, selectedCheckOut.value, selectedNumGuests,
                                             locationData.value, calculatedTotalPrice, selectedNumberOfNights,
                                             selectedHouseNumber)
        && !confirmModalOpen
        && bookingStatus == (if old(bookingStatus).isError then StatusLine("", false) else old(bookingStatus))
    {
      if selectedCheckIn.None? || selectedCheckOut.None? || locationData.None? {
        bookingStatus := StatusLine(SessionMissing, true);
        return None;
      }
      var payload := PaymentPayload(form, selectedCheckIn.value, selectedCheckOut.value, selectedNumGuests,
                                    locationData.value, calculatedTotalPrice, selectedNumberOfNights,
                                    selectedHouseNumber);
      confirmModalOpen := false;
      if bookingStatus.isError {
        bookingStatus := StatusLine("", false);
      }
      navigated := Some(payload);
    }
  }
}
