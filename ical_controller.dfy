/** The Airbnb calendar import and the blocked-date feed of
    server/controllers/icalController.js. The download and the iCalendar
    parse are not modelled: the import receives the parsed components. */
module IcalController {
  import opened Wrappers
  import opened Seqs
  import opened BookingSchema
  import opened BookingList
  import opened BookingController

  /** The `type` of a parsed iCalendar component (section 3.6 of RFC 5545). */
  datatype ComponentType = VEvent | VTimezone | OtherComponent

  /** A parsed component; `location` is "" when the property is absent. */
  datatype CalendarEvent = CalendarEvent(kind: ComponentType, start: int, end: int, location: string)

  const AirbnbGuest: string := "Airbnb Guest"
  const DefaultLocation: string := "Airbnb"

  predicate IsVEvent(e: CalendarEvent) {
    e.kind == VEvent
  }

  /** `event.location || 'Airbnb'` */
  function LocationOf(e: CalendarEvent): string {
    if e.location == "" then DefaultLocation else e.location
  }

  /** The stay part of the upsert filter. */
  datatype Key = Key(start: int, end: int)

  function KeyOf(e: CalendarEvent): Key {
    Key(e.start, e.end)
  }

  function RecordKey(b: Booking): Key {
    Key(b.checkIn, b.checkOut)
  }

  /** The filter `{ checkInDate, checkOutDate, status: 'blocked', source: 'airbnb' }`. */
  predicate MatchesKey(b: Booking, k: Key) {
    RecordKey(b) == k && b.status == Blocked && b.source == Airbnb
  }

  /** `updateOne` touches the first document the filter finds. */
  function FirstMatch(t: seq<Booking>, k: Key): (r: Option<nat>)
    ensures r.Some? ==> r.value < |t| && MatchesKey(t[r.value], k)
    ensures r.Some? ==> forall j :: 0 <= j < r.value ==> !MatchesKey(t[j], k)
    ensures r.None? ==> forall j :: 0 <= j < |t| ==> !MatchesKey(t[j], k)
  {
    if t == [] then None
    else if MatchesKey(t[0], k) then Some(0)
    else
      match FirstMatch(t[1..], k)
      case None => None
      case Some(i) => Some(i + 1)
  }

  /** The `$set` applied to a document that matched. */
  function Refresh(b: Booking, e: CalendarEvent): (r: Booking)
    ensures r.id == b.id && MatchesKey(r, KeyOf(e))
    ensures r.guestName == AirbnbGuest && r.location == LocationOf(e)
    ensures r.guestEmail == b.guestEmail && r.guestPhone == b.guestPhone
    ensures r.numberOfGuests == b.numberOfGuests && r.houseNumber == b.houseNumber
  {
    b.(checkIn := e.start, checkOut := e.end, status := Blocked, source := Airbnb,
       guestName := AirbnbGuest, location := LocationOf(e))
  }

  /** The document an upsert inserts when nothing matched. */
  function NewBlocked(e: CalendarEvent, id: nat): (b: Booking)
    ensures MatchesKey(b, KeyOf(e)) && b.id == id
  {
    Booking(id, AirbnbGuest, "", "", None, e.start, e.end, LocationOf(e), None, None,
            Blocked, Airbnb, None, "", None)
  }

  /** One pass of the loop body: VEVENTs are upserted, other components skipped. */
  function Step(t: seq<Booking>, next: nat, e: CalendarEvent): (r: (seq<Booking>, nat))
    ensures !IsVEvent(e) ==> r == (t, next)
    ensures IsVEvent(e) ==> FirstMatch(r.0, KeyOf(e)).Some?
    ensures IsVEvent(e) && FirstMatch(t, KeyOf(e)).Some? ==> |r.0| == |t| && r.1 == next
    ensures IsVEvent(e) && FirstMatch(t, KeyOf(e)).None? ==> r.0 == t + [NewBlocked(e, next)] && r.1 == next + 1
  {
    if !IsVEvent(e) then (t, next)
    else
      match FirstMatch(t, KeyOf(e))
      case Some(i) =>
        var u := t[i := Refresh(t[i], e)];
        assert MatchesKey(u[i], KeyOf(e));
        FirstMatchSome(u, KeyOf(e), i);
        (u, next)
      case None =>
        var u := t + [NewBlocked(e, next)];
        assert MatchesKey(u[|t|], KeyOf(e));
        FirstMatchSome(u, KeyOf(e), |t|);
        (u, next + 1)
  }

  /** A document matching the filter means `updateOne` finds one. */
  lemma FirstMatchSome(t: seq<Booking>, k: Key, i: int)
    requires 0 <= i < |t| && MatchesKey(t[i], k)
    ensures FirstMatch(t, k).Some?
  {
  }

  /** The store after the loop has processed `es`, in order. */
  function ImportAll(t: seq<Booking>, next: nat, es: seq<CalendarEvent>): (r: (seq<Booking>, nat))
    ensures |r.0| >= |t| && r.1 >= next
    decreases |es|
  {
    if es == [] then (t, next)
    else
      var p := ImportAll(t, next, es[..|es| - 1]);
      Step(p.0, p.1, es[|es| - 1])
  }

  // ---------------------------------------------------------------------
  // A closed form of the import

  predicate HasEventKey(es: seq<CalendarEvent>, k: Key) {
    exists i :: 0 <= i < |es| && IsVEvent(es[i]) && KeyOf(es[i]) == k
  }

  /** The location the last VEVENT with key `k` writes. */
  function LastLocation(es: seq<CalendarEvent>, k: Key): string
    decreases |es|
  {
    if es == [] then ""
    else if IsVEvent(es[|es| - 1]) && KeyOf(es[|es| - 1]) == k then LocationOf(es[|es| - 1])
    else LastLocation(es[..|es| - 1], k)
  }

  /** `t[i]` is the document an upsert with its key would touch. */
  predicate IsFirstOfKey(t: seq<Booking>, i: int) {
    0 <= i < |t| && FirstMatch(t, RecordKey(t[i])) == Some(i)
  }

  /** Each existing document that is the first match of an imported key
      ends with the guest name and the location of the last such event;
      every other document is untouched. */
  function Overlay(t: seq<Booking>, es: seq<CalendarEvent>): (r: seq<Booking>)
    ensures |r| == |t|
  {
    seq(|t|, i requires 0 <= i < |t| =>
      if IsFirstOfKey(t, i) && HasEventKey(es, RecordKey(t[i]))
      then t[i].(guestName := AirbnbGuest, location := LastLocation(es, RecordKey(t[i])))
      else t[i])
  }

  /** The filter fields agree position by position. */
  predicate SameKeys(a: seq<Booking>, b: seq<Booking>) {
    |a| == |b| && forall i :: 0 <= i < |a| ==>
      RecordKey(a[i]) == RecordKey(b[i]) && a[i].status == b[i].status && a[i].source == b[i].source
  }

  lemma {:induction false} FirstMatchSameKeys(a: seq<Booking>, b: seq<Booking>, k: Key)
    requires |a| <= |b| && SameKeys(a, b[..|a|])
    ensures FirstMatch(a, k).Some? ==> FirstMatch(b, k) == FirstMatch(a, k)
    ensures FirstMatch(a, k).None? ==> FirstMatch(b, k).None? || FirstMatch(b, k).value >= |a|
  {
    var fa, fb := FirstMatch(a, k), FirstMatch(b, k);
    if fa.Some? {
      assert MatchesKey(b[fa.value], k) by { assert b[..|a|][fa.value] == b[fa.value]; }
      forall j | 0 <= j < fa.value ensures !MatchesKey(b[j], k) {
        assert b[..|a|][j] == b[j];
      }
    }
  }

  lemma OverlaySameKeys(t: seq<Booking>, es: seq<CalendarEvent>)
    ensures SameKeys(Overlay(t, es), t)
  {
  }

  /** Only the key `k` can tell the overlays for `es` and `es + [e]` apart. */
  lemma LastLocationOther(es: seq<CalendarEvent>, e: CalendarEvent, k: Key)
    requires !(IsVEvent(e) && KeyOf(e) == k)
    ensures LastLocation(es + [e], k) == LastLocation(es, k)
    ensures HasEventKey(es + [e], k) <==> HasEventKey(es, k)
  {
    assert (es + [e])[..|es|] == es;
    if HasEventKey(es + [e], k) {
      var i :| 0 <= i < |es| + 1 && IsVEvent((es + [e])[i]) && KeyOf((es + [e])[i]) == k;
      assert i < |es| && (es + [e])[i] == es[i];
    }
    if HasEventKey(es, k) {
      var i :| 0 <= i < |es| && IsVEvent(es[i]) && KeyOf(es[i]) == k;
      assert (es + [e])[i] == es[i];
    }
  }

  lemma LastLocationSame(es: seq<CalendarEvent>, e: CalendarEvent)
    requires IsVEvent(e)
    ensures LastLocation(es + [e], KeyOf(e)) == LocationOf(e)
    ensures HasEventKey(es + [e], KeyOf(e))
  {
    assert (es + [e])[|es|] == e;
  }

  /** The documents that existed before the import end as their overlay;
      new documents are only ever appended after them. */
  lemma {:induction false} ImportPrefix(t: seq<Booking>, next: nat, es: seq<CalendarEvent>)
    ensures ImportAll(t, next, es).0[..|t|] == Overlay(t, es)
    decreases |es|
  {
    if es == [] {
      assert Overlay(t, es) == t;
    } else {
      var es', e := es[..|es| - 1], es[|es| - 1];
      assert es == es' + [e];
      var p := ImportAll(t, next, es');
      ImportPrefix(t, next, es');
      var u := p.0;
      var o', o := Overlay(t, es'), Overlay(t, es);
      OverlaySameKeys(t, es');
      assert SameKeys(t, u[..|t|]);
      var r := ImportAll(t, next, es).0;
      assert r == Step(u, p.1, e).0;
      forall j | 0 <= j < |t| && !(IsVEvent(e) && KeyOf(e) == RecordKey(t[j]))
        ensures o[j] == o'[j]
      {
        LastLocationOther(es', e, RecordKey(t[j]));
      }
      if IsVEvent(e) {
        var k := KeyOf(e);
        FirstMatchSameKeys(t, u, k);
        LastLocationSame(es', e);
        forall j | 0 <= j < |t| ensures r[j] == o[j] {
          match FirstMatch(t, k)
          case Some(i) =>
            if j == i {
              assert IsFirstOfKey(t, i) && RecordKey(t[i]) == k;
            } else if RecordKey(t[j]) == k {
              assert !IsFirstOfKey(t, j);
              assert o[j] == t[j];
              if IsFirstOfKey(t, j) && HasEventKey(es', k) { } else { assert o'[j] == t[j]; }
              assert u[..|t|][j] == u[j];
            } else {
              assert u[..|t|][j] == u[j];
            }
          case None =>
            assert !MatchesKey(t[j], k);
            if RecordKey(t[j]) == k { assert !IsFirstOfKey(t, j); assert !IsFirstOfKey(t, j); }
            assert u[..|t|][j] == u[j];
        }
        assert r[..|t|] == o;
      } else {
        assert r == u;
        assert r[..|t|] == o;
      }
    }
  }

  /** Every imported key has a document the upsert filter finds. */
  ghost predicate AllPresent(t: seq<Booking>, es: seq<CalendarEvent>) {
    forall k :: HasEventKey(es, k) ==> FirstMatch(t, k).Some?
  }

  /** Re-importing events whose keys all exist appends nothing. */
  lemma {:induction false} ImportNoAppend(t: seq<Booking>, next: nat, es: seq<CalendarEvent>)
    requires AllPresent(t, es)
    ensures |ImportAll(t, next, es).0| == |t| && ImportAll(t, next, es).1 == next
    decreases |es|
  {
    if es != [] {
      var es', e := es[..|es| - 1], es[|es| - 1];
      assert es == es' + [e];
      forall k | HasEventKey(es', k) ensures FirstMatch(t, k).Some? {
        var i :| 0 <= i < |es'| && IsVEvent(es'[i]) && KeyOf(es'[i]) == k;
        assert es[i] == es'[i];
      }
      ImportNoAppend(t, next, es');
      var u := ImportAll(t, next, es').0;
      if IsVEvent(e) {
        assert HasEventKey(es, KeyOf(e)) by { assert es[|es| - 1] == e; }
        ImportPrefix(t, next, es');
        OverlaySameKeys(t, es');
        assert u[..|t|] == u;
        FirstMatchSameKeys(t, u, KeyOf(e));
      }
    }
  }

  /** After an import every imported key is present, and its first match
      already carries what a second import would write. */
  ghost predicate Settled(t: seq<Booking>, es: seq<CalendarEvent>) {
    forall i :: IsFirstOfKey(t, i) && HasEventKey(es, RecordKey(t[i])) ==>
      t[i].guestName == AirbnbGuest && t[i].location == LastLocation(es, RecordKey(t[i]))
  }

  lemma SettledOverlay(t: seq<Booking>, es: seq<CalendarEvent>)
    requires Settled(t, es)
    ensures Overlay(t, es) == t
  {
  }

  lemma {:induction false} ImportSettles(t: seq<Booking>, next: nat, es: seq<CalendarEvent>)
    ensures AllPresent(ImportAll(t, next, es).0, es)
    ensures Settled(ImportAll(t, next, es).0, es) || es == []
    decreases |es|
  {
    if es != [] {
      var es', e := es[..|es| - 1], es[|es| - 1];
      assert es == es' + [e];
      var p := ImportAll(t, next, es');
      var u := p.0;
      var r := ImportAll(t, next, es).0;
      ImportSettles(t, next, es');
      assert r == Step(u, p.1, e).0;
      if IsVEvent(e) {
        var k := KeyOf(e);
        LastLocationSame(es', e);
        // positions keep their filter fields; a new document can only be appended
        assert SameKeys(u, r[..|u|]) by {
          match FirstMatch(u, k)
          case Some(i) => assert r[..|u|] == u[i := Refresh(u[i], e)];
          case None => assert r[..|u|] == u;
        }
        forall k' | k' != k ensures FirstMatch(r, k') == FirstMatch(u, k') {
          FirstMatchSameKeys(u, r, k');
        }
        assert FirstMatch(r, k).Some? by {
          match FirstMatch(u, k)
          case Some(i) => assert MatchesKey(r[i], k);
          case None => assert MatchesKey(r[|u|], k);
        }
        forall k' | HasEventKey(es, k') ensures FirstMatch(r, k').Some? {
          if k' != k { LastLocationOther(es', e, k'); }
        }
        forall i | IsFirstOfKey(r, i) && HasEventKey(es, RecordKey(r[i]))
          ensures r[i].guestName == AirbnbGuest && r[i].location == LastLocation(es, RecordKey(r[i]))
        {
          var ki := RecordKey(r[i]);
          if ki == k {
            match FirstMatch(u, k)
            case Some(j) => assert i == j;
            case None => assert i == |u|;
          } else {
            LastLocationOther(es', e, ki);
            assert FirstMatch(r, ki) == FirstMatch(u, ki);
            assert i < |u| && r[i] == u[i];
            assert IsFirstOfKey(u, i);
          }
        }
      } else {
        assert r == u;
        forall k' ensures (HasEventKey(es, k') <==> HasEventKey(es', k'))
          && LastLocation(es, k') == LastLocation(es', k')
        {
          LastLocationOther(es', e, k');
        }
      }
    }
  }

  /** Importing the same events again leaves the same documents and draws
      no new id: the upsert is idempotent. */
  lemma ImportIdempotent(t: seq<Booking>, next: nat, es: seq<CalendarEvent>, next2: nat)
    ensures var once := ImportAll(t, next, es).0;
      ImportAll(once, next2, es) == (once, next2)
  {
    var once := ImportAll(t, next, es).0;
    ImportSettles(t, next, es);
    ImportNoAppend(once, next2, es);
    ImportPrefix(once, next2, es);
    if es == [] {
    } else {
      SettledOverlay(once, es);
    }
    assert ImportAll(once, next2, es).0[..|once|] == ImportAll(once, next2, es).0;
  }

  /** Documents whose key no event carries come out of the import unchanged,
      at the same position. */
  lemma ImportLeavesOthers(t: seq<Booking>, next: nat, es: seq<CalendarEvent>, j: int)
    requires 0 <= j < |t| && !HasEventKey(es, RecordKey(t[j]))
    ensures ImportAll(t, next, es).0[j] == t[j]
  {
    ImportPrefix(t, next, es);
    assert ImportAll(t, next, es).0[..|t|][j] == ImportAll(t, next, es).0[j];
  }

  /** Every VEVENT leaves a document with its stay, status `blocked`, source
      `airbnb`, guest name `Airbnb Guest` and its location (or `Airbnb`),
      when it is the last event with that stay. */
  lemma ImportWritesEvent(t: seq<Booking>, next: nat, es: seq<CalendarEvent>, k: Key)
    requires HasEventKey(es, k)
    ensures var r := ImportAll(t, next, es).0;
      FirstMatch(r, k).Some? &&
      var b := r[FirstMatch(r, k).value];
      MatchesKey(b, k) && b.guestName == AirbnbGuest && b.location == LastLocation(es, k)
  {
    ImportSettles(t, next, es);
    var r := ImportAll(t, next, es).0;
    var i := FirstMatch(r, k).value;
    assert IsFirstOfKey(r, i);
  }

  /** An upsert keeps ids unique and below the generator. */
  lemma StepKeepsIds(t: seq<Booking>, next: nat, e: CalendarEvent)
    requires IdsBelow(t, next)
    ensures IdsBelow(Step(t, next, e).0, Step(t, next, e).1)
  {
    if IsVEvent(e) && FirstMatch(t, KeyOf(e)).None? {
      var r := t + [NewBlocked(e, next)];
      assert forall i :: 0 <= i < |t| ==> r[i] == t[i];
    }
  }

  /** The import never breaks the id discipline of the store. */
  lemma {:induction false} ImportKeepsIds(t: seq<Booking>, next: nat, es: seq<CalendarEvent>)
    requires IdsBelow(t, next)
    ensures IdsBelow(ImportAll(t, next, es).0, ImportAll(t, next, es).1)
    decreases |es|
  {
    if es != [] {
      var p := ImportAll(t, next, es[..|es| - 1]);
      ImportKeepsIds(t, next, es[..|es| - 1]);
      StepKeepsIds(p.0, p.1, es[|es| - 1]);
    }
  }

  // ---------------------------------------------------------------------
  // Handlers

  datatype ImportReply =
    | MissingUrl
    | Imported(blockedCount: nat)
    | ImportFailed

  /** `importAirbnbICal`: `feed` is the parsed download, `None` when the
      fetch or the parse throws. */
  method ImportAirbnbICal(db: BookingDb, icalUrl: string, feed: Option<seq<CalendarEvent>>) returns (r: ImportReply)
    requires db.Valid()
    modifies db
    ensures db.Valid()
    ensures icalUrl == "" ==> r == MissingUrl
    ensures icalUrl != "" && feed.None? ==> r == ImportFailed
    ensures icalUrl == "" || feed.None? ==> db.bookings == old(db.bookings) && db.nextId == old(db.nextId)
    ensures icalUrl != "" && feed.Some? ==>
      && r == Imported(Count(IsVEvent, feed.value))
      && (db.bookings, db.nextId) == ImportAll(old(db.bookings), old(db.nextId), feed.value)
  {
    if icalUrl == "" {
      return MissingUrl;
    }
    if feed.None? {
      return ImportFailed;
    }
    var events := feed.value;
    var blockedCount := 0;
    var i := 0;
    while i < |events|
      invariant 0 <= i <= |events|
      invariant (db.bookings, db.nextId) == ImportAll(old(db.bookings), old(db.nextId), events[..i])
      invariant blockedCount == Count(IsVEvent, events[..i])
      invariant db.Valid()
    {
      var e := events[i];
      assert events[..i + 1] == events[..i] + [e];
      FilterAppend(IsVEvent, events[..i], [e]);
      if e.kind == VEvent {
        Upsert(db, e);
        blockedCount := blockedCount + 1;
      }
      i := i + 1;
    }
    assert events[..i] == events;
    r := Imported(blockedCount);
  }

  /** `Booking.updateOne(filter, { $set }, { upsert: true })` for one VEVENT. */
  method Upsert(db: BookingDb, e: CalendarEvent)
    requires db.Valid() && IsVEvent(e)
    modifies db
    ensures db.Valid()
    ensures (db.bookings, db.nextId) == Step(old(db.bookings), old(db.nextId), e)
  {
    StepKeepsIds(db.bookings, db.nextId, e);
    match FirstMatch(db.bookings, KeyOf(e))
    case Some(j) =>
      db.bookings := db.bookings[j := Refresh(db.bookings[j], e)];
    case None =>
      db.bookings := db.bookings + [NewBlocked(e, db.nextId)];
      db.nextId := db.nextId + 1;
  }

  /** Statuses the calendar feed reports (line 68). */
  predicate InFeed(s: Status) {
    s in {Confirmed, PendingDownpayment, Blocked}
  }

  datatype BlockedRange = BlockedRange(start: int, end: int, status: Status, source: Source, location: string)

  predicate FeedSelects(b: Booking, location: string) {
    InFeed(b.status) && (location != "" ==> b.location == location)
  }

  function RangeOf(b: Booking): BlockedRange {
    BlockedRange(b.checkIn, b.checkOut, b.status, b.source, b.location)
  }

  /** `getBlockedDates`: one range per selected booking, in store order. */
  function GetBlockedDates(s: seq<Booking>, location: string): (r: seq<BlockedRange>)
    ensures |r| <= |s|
    ensures forall x :: x in r ==> exists i :: 0 <= i < |s| && FeedSelects(s[i], location) && x == RangeOf(s[i])
    ensures forall i :: 0 <= i < |s| && FeedSelects(s[i], location) ==> RangeOf(s[i]) in r
    ensures r == Map(RangeOf, Filter(b => FeedSelects(b, location), s))
  {
    if s == [] then []
    else
      var rest := GetBlockedDates(s[1..], location);
      assert forall i :: 1 <= i < |s| ==> s[i] == s[1..][i - 1];
      var head := if FeedSelects(s[0], location) then [s[0]] else [];
      assert Filter(b => FeedSelects(b, location), s) == head + Filter(b => FeedSelects(b, location), s[1..]);
      MapAppend(RangeOf, head, Filter(b => FeedSelects(b, location), s[1..]));
      (if FeedSelects(s[0], location) then [RangeOf(s[0])] else []) + rest
  }

  /** The feed and the server check disagree: a booking whose downpayment is
      paid blocks new bookings but is absent from the feed, and an imported
      Airbnb block is in the feed but never blocks a new booking. */
  lemma FeedDivergesFromCheck(b: Booking, location: string)
    ensures b.status == DownpaymentPaid ==> Blocking(b.status) && !FeedSelects(b, location)
    ensures b.status == Blocked ==> !Blocking(b.status) && InFeed(b.status)
  {
  }
}
