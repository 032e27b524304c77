/** The stored booking record and the validators the Mongoose schema runs on
    `create()` and `save()` (server/models/Booking.js). */
module BookingSchema {
  import opened Wrappers
  import opened Text

  /** The `status` strings the code writes. `Blocked` is written by the
      Airbnb import although the schema enum does not list it; `Unlisted`
      stands for any other string a client may send. */
  datatype Status =
    | PendingDownpayment
    | DownpaymentPaid
    | Confirmed
    | Cancelled
    | Completed
    | Tentative
    | Blocked
    | Unlisted

  datatype Source = Website | Airbnb | Facebook

  /** A document of the `bookings` collection. Absent strings are "",
      absent numbers are `None`; instants are milliseconds. */
  datatype Booking = Booking(
    id: nat,
    guestName: string,
    guestEmail: string,
    guestPhone: string,
    numberOfGuests: Option<int>,
    checkIn: int,
    checkOut: int,
    location: string,
    totalPrice: Option<real>,
    downpaymentAmount: Option<real>,
    status: Status,
    source: Source,
    houseNumber: Option<int>,
    specialRequests: string,
    receiptUrl: Option<string>)

  const Tagpopongan: string := "tagpopongan"

  /** `location.toLowerCase() === 'tagpopongan'`, the test every layer uses
      to decide that a location has three houses. */
  predicate IsTagpopongan(location: string) {
    Lower(location) == Tagpopongan
  }

  /** The `enum` of the `status` path: every status except `blocked`. */
  predicate InStatusEnum(s: Status) {
    s in {PendingDownpayment, DownpaymentPaid, Confirmed, Cancelled, Completed, Tentative}
  }

  /** One failing path of a Mongoose `ValidationError`. */
  datatype Violation =
    | NameRequired
    | EmailRequired
    | EmailFormat
    | PhoneRequired
    | GuestsRequired
    | GuestsMin
    | CheckOutNotAfterCheckIn
    | StatusEnum
    | LocationRequired
    | HouseRequired
    | HouseRange

  /** The regular expression `^\S+@\S+\.\S+$` matches `s` with `@` at `i`
      and `.` at `j`. */
  predicate EmailSplitAt(s: string, i: int, j: int) {
    0 < i && i + 1 < j && j + 1 < |s| && s[i] == '@' && s[j] == '.'
  }

  /** `/^\S+@\S+\.\S+$/.test(s)` */
  predicate EmailMatches(s: string) {
    NoSpace(s) && exists i, j | 0 <= i < |s| && 0 <= j < |s| :: EmailSplitAt(s, i, j)
  }

  /** Any three non-empty white-space-free parts joined as `a@b.c` match. */
  lemma EmailFromParts(a: string, b: string, c: string)
    requires a != [] && b != [] && c != []
    requires NoSpace(a) && NoSpace(b) && NoSpace(c)
    ensures EmailMatches(a + "@" + b + "." + c)
  {
    var s := a + "@" + b + "." + c;
    assert EmailSplitAt(s, |a|, |a| + 1 + |b|);
    forall k | 0 <= k < |s| ensures !IsSpace(s[k]) {
      if k < |a| { assert s[k] == a[k]; }
      else if k == |a| { assert s[k] == '@'; }
      else if k < |a| + 1 + |b| { assert s[k] == b[k - |a| - 1]; }
      else if k == |a| + 1 + |b| { assert s[k] == '.'; }
      else { assert s[k] == c[k - |a| - 2 - |b|]; }
    }
  }

  /** Every matching string splits into three such parts. */
  lemma EmailToParts(s: string) returns (a: string, b: string, c: string)
    requires EmailMatches(s)
    ensures s == a + "@" + b + "." + c
    ensures a != [] && b != [] && c != []
    ensures NoSpace(a) && NoSpace(b) && NoSpace(c)
  {
    var i, j :| 0 <= i < |s| && 0 <= j < |s| && EmailSplitAt(s, i, j);
    a, b, c := s[..i], s[i + 1..j], s[j + 1..];
    assert s == a + [s[i]] + b + [s[j]] + c;
  }

  /** The paths that fail validation for a document whose setters have
      already run (`trim`, `lowercase`). */
  function Validate(b: Booking): set<Violation> {
    (if b.guestName == "" then {NameRequired} else {})
    + (if b.guestEmail == "" then {EmailRequired}
       else if !EmailMatches(b.guestEmail) then {EmailFormat} else {})
    + (if b.guestPhone == "" then {PhoneRequired} else {})
    + (match b.numberOfGuests
       case None => {GuestsRequired}
       case Some(n) => if n < 1 then {GuestsMin} else {})
    + (if !(b.checkIn < b.checkOut) then {CheckOutNotAfterCheckIn} else {})
    + (if !InStatusEnum(b.status) then {StatusEnum} else {})
    + (if b.location == "" then {LocationRequired} else {})
    + (match b.houseNumber
       case None => if b.location != "" && IsTagpopongan(b.location) then {HouseRequired} else {}
       case Some(h) => if h < 1 || h > 3 then {HouseRange} else {})
  }

  /** The document passes every validator of the schema: a named,
      reachable guest party of at least one, a stay with check-out strictly
      after check-in, a status from the enum (never `blocked`), and a house
      in 1..3, required exactly for Tagpopongan. */
  predicate Valid(b: Booking) {
    && b.guestName != "" && b.guestPhone != "" && b.location != ""
    && b.guestEmail != "" && EmailMatches(b.guestEmail)
    && b.numberOfGuests.Some? && b.numberOfGuests.value >= 1
    && b.checkIn < b.checkOut
    && InStatusEnum(b.status)
    && (IsTagpopongan(b.location) ==> b.houseNumber.Some?)
    && (b.houseNumber.Some? ==> 1 <= b.houseNumber.value <= 3)
  }

  /** The path setters `trim` and `lowercase` (guestName, guestEmail,
      guestPhone, specialRequests, receiptUrl). */
  function ApplySetters(b: Booking): (r: Booking)
    ensures r.id == b.id && r.checkIn == b.checkIn && r.checkOut == b.checkOut
    ensures r.status == b.status && r.location == b.location && r.houseNumber == b.houseNumber
    ensures r.numberOfGuests == b.numberOfGuests && r.source == b.source
  {
    b.(guestName := Trim(b.guestName),
       guestEmail := Lower(Trim(b.guestEmail)),
       guestPhone := Trim(b.guestPhone),
       specialRequests := Trim(b.specialRequests),
       receiptUrl := match b.receiptUrl case None => None case Some(u) => Some(Trim(u)))
  }

  /** The list of failing paths is empty exactly for a valid document. */
  lemma ValidIffNoViolation(b: Booking)
    ensures Validate(b) == {} <==> Valid(b)
  {
    if Validate(b) == {} {
      assert NameRequired !in Validate(b);
      assert EmailRequired !in Validate(b) && EmailFormat !in Validate(b);
      assert GuestsRequired !in Validate(b) && GuestsMin !in Validate(b);
      assert HouseRequired !in Validate(b) && HouseRange !in Validate(b);
    }
  }

  /** `required` on a trimmed path fails exactly for white-space-only input. */
  lemma NameRequiredAfterTrim(b: Booking)
    ensures NameRequired in Validate(ApplySetters(b)) <==> Blank(b.guestName)
  {
    var r := ApplySetters(b);
    assert r.guestName == Trim(b.guestName);
    TrimEmptyIffBlank(b.guestName);
    NameRequiredIffEmpty(r);
  }

  lemma NameRequiredIffEmpty(b: Booking)
    ensures NameRequired in Validate(b) <==> b.guestName == ""
  {
  }

  /** A record imported from Airbnb with status `blocked` never passes
      validation: the enum has no `blocked`. */
  lemma BlockedNeverValid(b: Booking)
    requires b.status == Blocked
    ensures !Valid(b)
    ensures StatusEnum in Validate(b)
  {
  }
}
