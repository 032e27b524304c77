/** The booking endpoints of server/controllers/bookingController.js over a
    store that holds the `bookings` collection as a sequence. */
module BookingController {
  import opened Wrappers
  import opened Seqs
  import opened BookingSchema
  import opened BookingList

  /** Statuses that hold a slot for the server-side check (line 16). */
  predicate Blocking(s: Status) {
    s in {PendingDownpayment, DownpaymentPaid, Confirmed}
  }

  const MaxCapacity: int := 1

  /** `checkInDate < end && checkOutDate > start`: the half-open stays
      [in1, out1) and [in2, out2) share an instant. */
  predicate Overlaps(in1: int, out1: int, in2: int, out2: int) {
    in1 < out2 && out1 > in2
  }

  lemma OverlapsSymmetric(in1: int, out1: int, in2: int, out2: int)
    ensures Overlaps(in1, out1, in2, out2) <==> Overlaps(in2, out2, in1, out1)
  {
  }

  /** A stay that checks in at the very instant another checks out does not
      conflict with it, in either order. */
  lemma TouchingStaysDoNotOverlap(in1: int, out1: int, out2: int)
    ensures !Overlaps(in1, out1, out1, out2)
    ensures !Overlaps(out1, out2, in1, out1)
  {
  }

  /** `b` is one of the documents the query of `checkAvailability` finds. */
  predicate Hit(b: Booking, start: int, end: int, slug: string, exclude: Option<nat>, house: Option<int>) {
    && Blocking(b.status)
    && Overlaps(b.checkIn, b.checkOut, start, end)
    && (slug != "" ==> b.location == slug)
    && (slug != "" && IsTagpopongan(slug) ==> b.houseNumber == house)
    && (exclude.Some? ==> b.id != exclude.value)
  }

  datatype AvailabilityError = HouseNumberMissing

  /** `checkAvailability(start, end, locationSlug, excludeBookingId, houseNumber)`;
      `""` is a missing slug. */
  function CheckAvailability(s: seq<Booking>, start: int, end: int, slug: string,
                             exclude: Option<nat>, house: Option<int>): (r: Result<bool, AvailabilityError>)
    ensures r.Err? <==> slug != "" && IsTagpopongan(slug) && house.None?
    ensures r.Ok? ==> (r.value <==> forall i :: 0 <= i < |s| ==> !Hit(s[i], start, end, slug, exclude, house))
  {
    if slug != "" && IsTagpopongan(slug) && house.None? then Err(HouseNumberMissing)
    else
      var hit := b => Hit(b, start, end, slug, exclude, house);
      FilterEmpty(hit, s);
      Ok(Count(hit, s) < MaxCapacity)
  }

  /** Cancelled, completed, tentative and Airbnb `blocked` records never make
      a slot unavailable, whatever their dates. */
  lemma NonBlockingNeverConflicts(s: seq<Booking>, start: int, end: int, slug: string,
                                  exclude: Option<nat>, house: Option<int>)
    requires forall i :: 0 <= i < |s| ==> !Blocking(s[i].status)
    requires !(slug != "" && IsTagpopongan(slug) && house.None?)
    ensures CheckAvailability(s, start, end, slug, exclude, house) == Ok(true)
  {
  }

  /** Without a slug, a booking at any location counts; with a Tagpopongan
      slug, only the same house counts; the excluded id never counts. */
  lemma LocationAndHouseFilter(b: Booking, start: int, end: int, slug: string, exclude: Option<nat>, house: Option<int>)
    requires Blocking(b.status) && Overlaps(b.checkIn, b.checkOut, start, end)
    ensures slug == "" && exclude.None? ==> Hit(b, start, end, slug, exclude, house)
    ensures slug != "" && IsTagpopongan(slug) && b.houseNumber != house ==> !Hit(b, start, end, slug, exclude, house)
    ensures exclude == Some(b.id) ==> !Hit(b, start, end, slug, exclude, house)
  {
  }

  /** Two stored bookings that the availability rule is meant to keep apart:
      both hold a slot, same location string, overlapping stays, and for
      Tagpopongan the same house. */
  predicate Clash(a: Booking, b: Booking) {
    && Blocking(a.status) && Blocking(b.status)
    && a.location == b.location
    && Overlaps(a.checkIn, a.checkOut, b.checkIn, b.checkOut)
    && (IsTagpopongan(a.location) ==> a.houseNumber == b.houseNumber)
  }

  predicate NoDoubleBooking(s: seq<Booking>) {
    forall i, j :: 0 <= i < j < |s| ==> !Clash(s[i], s[j])
  }

  // ---------------------------------------------------------------------
  // Requests and replies

  /** The body of `POST /api/bookings`: `None` and `""` are absent values,
      `receiptFile` is the uploaded file's name. */
  datatype CreateRequest = CreateRequest(
    guestName: string,
    guestEmail: string,
    guestPhone: string,
    numberOfGuests: Option<int>,
    checkInDate: Option<int>,
    checkOutDate: Option<int>,
    specialRequests: string,
    location: string,
    totalPrice: Option<real>,
    downpaymentAmount: Option<real>,
    status: Option<Status>,
    houseNumber: Option<int>,
    receiptFile: Option<string>)

  datatype Problem =
    | MissingDetails
    | HouseNumberRequired
    | DatesOutOfOrder
    | Invalid(violations: set<Violation>)
    | MissingFields
    | NotTagpopongan

  datatype Reply =
    | Created(booking: Booking)
    | BadRequest(problem: Problem)
    | Conflict
    | Availability(isAvailable: bool)
    | Houses(available: seq<int>)
    | Updated(booking: Booking)
    | Done
    | NotFound
    | ServerError

  function Code(r: Reply): int {
    match r
    case Created(_) => 201
    case BadRequest(_) => 400
    case Conflict => 409
    case NotFound => 404
    case ServerError => 500
    case _ => 200
  }

  /** The falsy/undefined test of lines 144-146 (`0` guests is falsy). */
  predicate Missing(q: CreateRequest) {
    || q.guestName == "" || q.guestEmail == "" || q.guestPhone == ""
    || q.numberOfGuests.None? || q.numberOfGuests == Some(0)
    || q.checkInDate.None? || q.checkOutDate.None? || q.location == ""
    || q.totalPrice.None? || q.downpaymentAmount.None?
  }

  /** The house passed on to the check and stored: only for Tagpopongan. */
  function HouseFor(q: CreateRequest): (house: Option<int>)
    ensures house.Some? <==> IsTagpopongan(q.location) && q.houseNumber.Some?
    ensures house.Some? ==> house == q.houseNumber
  {
    if IsTagpopongan(q.location) then q.houseNumber else None
  }

  /** The document `Booking.create` stores, after the path setters ran. */
  function NewRecord(q: CreateRequest, id: nat): (b: Booking)
    requires !Missing(q)
    ensures b.id == id && b.location == q.location && b.houseNumber == HouseFor(q)
    ensures b.checkIn == q.checkInDate.value && b.checkOut == q.checkOutDate.value
    ensures b.status == q.status.GetOr(PendingDownpayment) && b.source == Website
  {
    ApplySetters(Booking(
      id, q.guestName, q.guestEmail, q.guestPhone, q.numberOfGuests,
      q.checkInDate.value, q.checkOutDate.value, q.location,
      q.totalPrice, q.downpaymentAmount,
      q.status.GetOr(PendingDownpayment), Website, HouseFor(q), q.specialRequests,
      match q.receiptFile case None => None case Some(f) => Some("/uploads/" + f)))
  }

  /** The request passes the handler's three checks before the availability
      query: details present, a house for Tagpopongan, check-out after
      check-in. */
  predicate PassesChecks(q: CreateRequest) {
    && !Missing(q)
    && !(IsTagpopongan(q.location) && q.houseNumber.None?)
    && q.checkInDate.value < q.checkOutDate.value
  }

  /** What `createBooking` answers for the store contents `s`, the new
      document getting id `id`. */
  function CreateOutcome(s: seq<Booking>, q: CreateRequest, id: nat): (r: Reply)
    ensures r.Created? || r.BadRequest? || r.Conflict? || r.ServerError?
    ensures Missing(q) ==> r == BadRequest(MissingDetails)
    ensures r.Created? ==> !Missing(q) && r.booking == NewRecord(q, id) && Valid(r.booking)
    ensures r.Created? ==>
      && q.checkInDate.value < q.checkOutDate.value
      && CheckAvailability(s, q.checkInDate.value, q.checkOutDate.value, q.location, None, HouseFor(q)) == Ok(true)
    ensures PassesChecks(q) ==>
      (r == Conflict <==> exists i :: 0 <= i < |s| && Hit(s[i], q.checkInDate.value, q.checkOutDate.value, q.location, None, HouseFor(q)))
    ensures PassesChecks(q) && Valid(NewRecord(q, id))
            && (forall i :: 0 <= i < |s| ==> !Hit(s[i], q.checkInDate.value, q.checkOutDate.value, q.location, None, HouseFor(q))) ==>
      r == Created(NewRecord(q, id))
    ensures PassesChecks(q) && !Valid(NewRecord(q, id))
            && (forall i :: 0 <= i < |s| ==> !Hit(s[i], q.checkInDate.value, q.checkOutDate.value, q.location, None, HouseFor(q))) ==>
      r == BadRequest(Invalid(Validate(NewRecord(q, id))))
  {
    if Missing(q) then BadRequest(MissingDetails)
    else if IsTagpopongan(q.location) && q.houseNumber.None? then BadRequest(HouseNumberRequired)
    else if q.checkOutDate.value <= q.checkInDate.value then BadRequest(DatesOutOfOrder)
    else
      match CheckAvailability(s, q.checkInDate.value, q.checkOutDate.value, q.location, None, HouseFor(q))
      case Err(_) => ServerError
      case Ok(available) =>
        if !available then Conflict
        else
          var b := NewRecord(q, id);
          if !Valid(b) then BadRequest(Invalid(Validate(b))) else Created(b)
  }

  /** The rejections come in the order of the handler: missing details,
      missing Tagpopongan house, date order, then overlap (409); a request
      past all four is created when the schema accepts it. */
  lemma CreateRejectionOrder(s: seq<Booking>, q: CreateRequest, id: nat)
    ensures !Missing(q) && IsTagpopongan(q.location) && q.houseNumber.None? ==>
      CreateOutcome(s, q, id) == BadRequest(HouseNumberRequired)
    ensures (!Missing(q) && !(IsTagpopongan(q.location) && q.houseNumber.None?)
             && q.checkOutDate.value <= q.checkInDate.value) ==>
      CreateOutcome(s, q, id) == BadRequest(DatesOutOfOrder)
    ensures PassesChecks(q) && (exists i :: 0 <= i < |s| && Hit(s[i], q.checkInDate.value, q.checkOutDate.value, q.location, None, HouseFor(q))) ==>
      CreateOutcome(s, q, id) == Conflict
    ensures PassesChecks(q) && CreateOutcome(s, q, id) != Conflict && Valid(NewRecord(q, id)) ==>
      CreateOutcome(s, q, id) == Created(NewRecord(q, id))
    ensures CreateOutcome(s, q, id) != ServerError
  {
  }

  /** A created booking is a valid document carrying the request's status
      (or `pending_downpayment`), a house only at Tagpopongan, and clashing
      with nothing already stored. */
  lemma CreatedIsSound(s: seq<Booking>, q: CreateRequest, id: nat)
    requires CreateOutcome(s, q, id).Created?
    ensures var b := CreateOutcome(s, q, id).booking;
      && Valid(b)
      && b.checkIn < b.checkOut
      && b.status == q.status.GetOr(PendingDownpayment)
      && (b.houseNumber.Some? <==> IsTagpopongan(q.location))
      && forall i :: 0 <= i < |s| ==> !Clash(s[i], b)
  {
    var b := CreateOutcome(s, q, id).booking;
    forall i | 0 <= i < |s| ensures !Clash(s[i], b) {
      assert !Hit(s[i], b.checkIn, b.checkOut, q.location, None, HouseFor(q));
    }
  }

  /** A request whose stay overlaps a slot-holding booking at the same
      location (same house at Tagpopongan) is never created. */
  lemma OverlapIsRefused(s: seq<Booking>, q: CreateRequest, id: nat, i: int)
    requires !Missing(q) && 0 <= i < |s|
    requires Hit(s[i], q.checkInDate.value, q.checkOutDate.value, q.location, None, HouseFor(q))
    ensures !CreateOutcome(s, q, id).Created?
  {
  }

  /** Creating never introduces a double booking. */
  lemma CreatePreservesNoDoubleBooking(s: seq<Booking>, q: CreateRequest, id: nat)
    requires NoDoubleBooking(s)
    requires CreateOutcome(s, q, id).Created?
    ensures NoDoubleBooking(s + [CreateOutcome(s, q, id).booking])
  {
    CreatedIsSound(s, q, id);
    AppendWithoutClash(s, CreateOutcome(s, q, id).booking);
  }

  lemma AppendWithoutClash(s: seq<Booking>, b: Booking)
    requires NoDoubleBooking(s)
    requires forall i :: 0 <= i < |s| ==> !Clash(s[i], b)
    ensures NoDoubleBooking(s + [b])
  {
    var t := s + [b];
    forall i, j | 0 <= i < j < |t| ensures !Clash(t[i], t[j]) {
      assert t[i] == s[i];
      if j < |s| { assert t[j] == s[j]; } else { assert t[j] == b; }
    }
  }

  /** `checkSpecificAvailability`: it passes no house, so for Tagpopongan the
      check always throws and the endpoint answers 500. */
  function CheckSpecificAvailability(s: seq<Booking>, checkInDate: Option<int>, checkOutDate: Option<int>,
                                     slug: string): (r: Reply)
    ensures checkInDate.None? || checkOutDate.None? || slug == "" ==> r == BadRequest(MissingFields)
    ensures checkInDate.Some? && checkOutDate.Some? && slug != "" && IsTagpopongan(slug) ==> r == ServerError
    ensures checkInDate.Some? && checkOutDate.Some? && slug != "" && !IsTagpopongan(slug) ==> r.Availability?
    ensures r.Availability? ==>
      && !IsTagpopongan(slug)
      && (r.isAvailable <==> forall i :: 0 <= i < |s| ==>
            !(Blocking(s[i].status) && s[i].location == slug
              && Overlaps(s[i].checkIn, s[i].checkOut, checkInDate.value, checkOutDate.value)))
  {
    if checkInDate.None? || checkOutDate.None? || slug == "" then BadRequest(MissingFields)
    else
      match CheckAvailability(s, checkInDate.value, checkOutDate.value, slug, None, None)
      case Err(_) => ServerError
      case Ok(v) => Availability(v)
  }

  /** The query of `getAvailableHouses`: literal location `tagpopongan`. */
  predicate HouseHit(b: Booking, start: int, end: int) {
    b.location == Tagpopongan && Blocking(b.status) && Overlaps(b.checkIn, b.checkOut, start, end)
  }

  /** `bookings.map(b => b.houseNumber)` over the matching documents. */
  function BookedHouses(s: seq<Booking>, start: int, end: int): (r: seq<Option<int>>)
    ensures forall h :: h in r <==> exists i :: 0 <= i < |s| && HouseHit(s[i], start, end) && s[i].houseNumber == h
  {
    if s == [] then []
    else
      var rest := BookedHouses(s[1..], start, end);
      assert forall i :: 0 < i < |s| ==> s[i] == s[1..][i - 1];
      (if HouseHit(s[0], start, end) then [s[0].houseNumber] else []) + rest
  }

  const AllHouses: seq<int> := [1, 2, 3]

  /** `getAvailableHouses`: the houses of [1, 2, 3], in order, held by no
      overlapping slot-holding Tagpopongan booking. */
  function GetAvailableHouses(s: seq<Booking>, location: string, checkInDate: Option<int>,
                              checkOutDate: Option<int>): (r: Reply)
    ensures location == "" || checkInDate.None? || checkOutDate.None? ==> r == BadRequest(MissingFields)
    ensures location != "" && checkInDate.Some? && checkOutDate.Some? && !IsTagpopongan(location) ==>
      r == BadRequest(NotTagpopongan)
    ensures location != "" && checkInDate.Some? && checkOutDate.Some? && IsTagpopongan(location) ==> r.Houses?
    ensures r.Houses? ==> IsSubsequence(r.available, AllHouses)
    ensures r.Houses? ==> forall h :: h in r.available <==>
      (h in AllHouses &&
       forall i :: 0 <= i < |s| ==> !(HouseHit(s[i], checkInDate.value, checkOutDate.value) && s[i].houseNumber == Some(h)))
  {
    if location == "" || checkInDate.None? || checkOutDate.None? then BadRequest(MissingFields)
    else if !IsTagpopongan(location) then BadRequest(NotTagpopongan)
    else
      var booked := BookedHouses(s, checkInDate.value, checkOutDate.value);
      var free := h => Some(h) !in booked;
      FilterIsSubsequence(free, AllHouses);
      Houses(Filter(free, AllHouses))
  }

  // ---------------------------------------------------------------------
  // The store

  /** The `bookings` collection; `nextId` stands for the id generator. */
  class BookingDb {
    var bookings: seq<Booking>
    var nextId: nat

    ghost predicate Valid()
      reads this
    {
      IdsBelow(bookings, nextId)
    }

    constructor ()
      ensures Valid() && bookings == []
    {
      bookings := [];
      nextId := 0;
    }

    /** `createBooking`: on 201 exactly the new document is appended;
        otherwise the store is unchanged. */
    method CreateBooking(q: CreateRequest) returns (r: Reply)
      requires Valid()
      modifies this
      ensures Valid()
      ensures r == CreateOutcome(old(bookings), q, old(nextId))
      ensures r.Created? ==> bookings == old(bookings) + [r.booking]
      ensures !r.Created? ==> bookings == old(bookings)
      ensures nextId == old(nextId) + (if r.Created? then 1 else 0)
    {
      r := CreateOutcome(bookings, q, nextId);
      if r.Created? {
        Insert(r.booking);
      }
    }

    /** `Booking.create` storing a document that carries the next id. */
    method Insert(b: Booking)
      requires Valid() && b.id == nextId
      modifies this
      ensures Valid()
      ensures bookings == old(bookings) + [b] && nextId == old(nextId) + 1
    {
      bookings := bookings + [b];
      nextId := nextId + 1;
    }

    /** `findByIdAndUpdate(id, { status })`: no validation runs. */
    method SetStatusById(id: nat, st: Status) returns (r: Reply)
      requires Valid()
      modifies this
      ensures Valid() && nextId == old(nextId)
      ensures !HasId(old(bookings), id) ==> r == NotFound && bookings == old(bookings)
      ensures HasId(old(bookings), id) ==>
        bookings == WithStatus(old(bookings), id, st)
        && r == Updated(Find(old(bookings), id).value.(status := st))
    {
      var found := Find(bookings, id);
      if found.None? {
        r := NotFound;
      } else {
        FindWithStatus(bookings, id, st, id);
        WithStatusUniqueIds(bookings, id, st);
        bookings := WithStatus(bookings, id, st);
        r := Updated(found.value.(status := st));
      }
    }

    /** `confirmDownpayment` */
    method ConfirmDownpayment(id: nat) returns (r: Reply)
      requires Valid()
      modifies this
      ensures Valid() && nextId == old(nextId)
      ensures !HasId(old(bookings), id) ==> r == NotFound && bookings == old(bookings)
      ensures HasId(old(bookings), id) ==>
        && bookings == WithStatus(old(bookings), id, DownpaymentPaid)
        && r == Updated(Find(old(bookings), id).value.(status := DownpaymentPaid))
    {
      r := SetStatusById(id, DownpaymentPaid);
    }

    /** `cancelBooking` */
    method CancelBooking(id: nat) returns (r: Reply)
      requires Valid()
      modifies this
      ensures Valid() && nextId == old(nextId)
      ensures !HasId(old(bookings), id) ==> r == NotFound && bookings == old(bookings)
      ensures HasId(old(bookings), id) ==>
        && bookings == WithStatus(old(bookings), id, Cancelled)
        && r == Updated(Find(old(bookings), id).value.(status := Cancelled))
    {
      r := SetStatusById(id, Cancelled);
    }

    /** `confirmFullPayment`: `findById`, then `save()`, which validates the
        whole document; a failing validation answers 500 and stores nothing. */
    method ConfirmFullPayment(id: nat) returns (r: Reply)
      requires Valid()
      modifies this
      ensures Valid() && nextId == old(nextId)
      ensures !HasId(old(bookings), id) ==> r == NotFound && bookings == old(bookings)
      ensures HasId(old(bookings), id) && BookingSchema.Valid(Find(old(bookings), id).value.(status := Confirmed)) ==>
        r == Done && bookings == WithStatus(old(bookings), id, Confirmed)
      ensures HasId(old(bookings), id) && !BookingSchema.Valid(Find(old(bookings), id).value.(status := Confirmed)) ==>
        r == ServerError && bookings == old(bookings)
    {
      var found := Find(bookings, id);
      if found.None? {
        r := NotFound;
      } else if !BookingSchema.Valid(found.value.(status := Confirmed)) {
        r := ServerError;
      } else {
        WithStatusUniqueIds(bookings, id, Confirmed);
        bookings := WithStatus(bookings, id, Confirmed);
        r := Done;
      }
    }
  }

  /** An imported Airbnb record cannot be marked fully paid: the `save()`
      validation rejects its status and missing guest details. */
  lemma FullPaymentOnImportedFails(b: Booking)
    requires b.guestEmail == "" && b.source == Airbnb
    ensures !BookingSchema.Valid(b.(status := Confirmed))
  {
  }

  /** Cancelling keeps the store free of double bookings. */
  lemma CancelPreservesNoDoubleBooking(s: seq<Booking>, id: nat)
    requires NoDoubleBooking(s)
    ensures NoDoubleBooking(WithStatus(s, id, Cancelled))
  {
    WithStatusFrame(s, id, Cancelled);
  }

  /** The admin status handlers do not re-check availability: confirming the
      downpayment of a cancelled booking can create a double booking. */
  lemma ReconfirmingCancelledCanDoubleBook()
    ensures var a := Booking(0, "A", "a@b.c", "1", Some(2), 0, 10, "calinan", None, None,
                             Cancelled, Website, None, "", None);
            var b := a.(id := 1, status := Confirmed);
            NoDoubleBooking([a, b]) && !NoDoubleBooking(WithStatus([a, b], 0, DownpaymentPaid))
  {
    var a := Booking(0, "A", "a@b.c", "1", Some(2), 0, 10, "calinan", None, None,
                     Cancelled, Website, None, "", None);
    var b := a.(id := 1, status := Confirmed);
    var t := WithStatus([a, b], 0, DownpaymentPaid);
    assert t[0] == a.(status := DownpaymentPaid) && t[1] == b;
    assert Clash(t[0], t[1]);
  }
}
