/** The one-off migration of server/updateBookingTimes.js: every stored
    booking gets its check-in moved to 12:00 and its check-out to 11:00
    local time on the same calendar days. A changed document is saved with
    `save()`, which validates it; a failing save is logged and skipped. */
module UpdateBookingTimes {
  import opened Seqs
  import opened LocalTime
  import opened BookingSchema
  import opened BookingList
  import opened BookingController

  /** The document with both times re-stamped (lines 39-53). */
  function Restamp(b: Booking): (r: Booking)
    ensures r == b.(checkIn := r.checkIn, checkOut := r.checkOut)
    ensures LocalDay(r.checkIn) == LocalDay(b.checkIn) && LocalDay(r.checkOut) == LocalDay(b.checkOut)
    ensures r.checkIn == DayStart(LocalDay(b.checkIn)) + CheckInHour * Hour
    ensures r.checkOut == DayStart(LocalDay(b.checkOut)) + CheckOutHour * Hour
  {
    NormaliseFacts(b.checkIn);
    NormaliseFacts(b.checkOut);
    b.(checkIn := NormaliseCheckIn(b.checkIn), checkOut := NormaliseCheckOut(b.checkOut))
  }

  /** `needsUpdate`: at least one of the two instants changes. */
  predicate NeedsUpdate(b: Booking) {
    b.checkIn != NormaliseCheckIn(b.checkIn) || b.checkOut != NormaliseCheckOut(b.checkOut)
  }

  /** The save is attempted and passes validation. */
  predicate Saved(b: Booking) {
    NeedsUpdate(b) && Valid(Restamp(b))
  }

  /** The stored document after its turn in the loop. */
  function Migrated(b: Booking): (r: Booking)
    ensures r != b ==> Saved(b)
  {
    if Saved(b) then Restamp(b) else b
  }

  /** `updateTimes`: the loop over all bookings, returning `updatedCount`. */
  method UpdateTimes(db: BookingDb) returns (updatedCount: nat)
    requires db.Valid()
    modifies db
    ensures db.Valid() && db.nextId == old(db.nextId)
    ensures db.bookings == Map(Migrated, old(db.bookings))
    ensures updatedCount == Count(Saved, old(db.bookings))
  {
    ghost var s := db.bookings;
    updatedCount := 0;
    var i := 0;
    while i < |db.bookings|
      invariant 0 <= i <= |s| == |db.bookings|
      invariant forall j :: 0 <= j < i ==> db.bookings[j] == Migrated(s[j])
      invariant forall j :: i <= j < |s| ==> db.bookings[j] == s[j]
      invariant updatedCount == Count(Saved, s[..i])
      invariant db.Valid() && db.nextId == old(db.nextId)
    {
      var booking := db.bookings[i];
      assert booking == s[i];
      var newCheckIn := NormaliseCheckIn(booking.checkIn);
      var newCheckOut := NormaliseCheckOut(booking.checkOut);
      var needsUpdate := false;
      var updated := booking;
      if booking.checkIn != newCheckIn {
        updated := updated.(checkIn := newCheckIn);
        needsUpdate := true;
      }
      if booking.checkOut != newCheckOut {
        updated := updated.(checkOut := newCheckOut);
        needsUpdate := true;
      }
      assert needsUpdate == NeedsUpdate(booking);
      assert needsUpdate ==> updated == Restamp(booking);
      CountStep(s, i);
      if needsUpdate && Valid(updated) {
        ReplaceKeepsIds(db.bookings, i, updated, db.nextId);
        db.bookings := db.bookings[i := updated];
        updatedCount := updatedCount + 1;
      }
      assert db.bookings[i] == Migrated(s[i]);
      i := i + 1;
    }
    assert s[..i] == s;
  }

  lemma CountStep(s: seq<Booking>, i: int)
    requires 0 <= i < |s|
    ensures Count(Saved, s[..i + 1]) == Count(Saved, s[..i]) + if Saved(s[i]) then 1 else 0
  {
    assert s[..i + 1] == s[..i] + [s[i]];
    FilterAppend(Saved, s[..i], [s[i]]);
  }

  lemma ReplaceKeepsIds(t: seq<Booking>, i: int, b: Booking, next: nat)
    requires IdsBelow(t, next) && 0 <= i < |t| && b.id == t[i].id
    ensures IdsBelow(t[i := b], next)
  {
  }

  /** A document the loop saved now has 12:00 and 11:00 local times on its
      old calendar days. */
  lemma MigratedTimes(b: Booking)
    requires Saved(b)
    ensures Migrated(b).checkIn == DayStart(LocalDay(b.checkIn)) + 12 * Hour
    ensures Migrated(b).checkOut == DayStart(LocalDay(b.checkOut)) + 11 * Hour
    ensures LocalDay(Migrated(b).checkIn) == LocalDay(b.checkIn)
    ensures LocalDay(Migrated(b).checkOut) == LocalDay(b.checkOut)
  {
  }

  /** A second run changes nothing and counts 0. */
  lemma RerunIsNoOp(s: seq<Booking>)
    ensures Map(Migrated, Map(Migrated, s)) == Map(Migrated, s)
    ensures Count(Saved, Map(Migrated, s)) == 0
  {
    var m := Map(Migrated, s);
    forall i | 0 <= i < |m| ensures !Saved(m[i]) {
      var b := s[i];
      if Saved(b) {
        NormaliseFacts(b.checkIn);
        NormaliseFacts(b.checkOut);
        assert !NeedsUpdate(Restamp(b));
      }
    }
    FilterEmpty(Saved, m);
  }

  /** An imported Airbnb block is never re-stamped: `blocked` fails the
      status enum on `save()`. */
  lemma BlockedNeverMigrated(b: Booking)
    requires b.status == Blocked
    ensures Migrated(b) == b
  {
  }

  /** A stay whose check-in and check-out fall on the same calendar day
      cannot be saved: 11:00 comes before 12:00. */
  lemma SameDayStayNotSaved(b: Booking)
    requires LocalDay(b.checkIn) == LocalDay(b.checkOut)
    ensures !Saved(b)
  {
    NormalisedStayOrder(b.checkIn, b.checkOut);
  }
}
