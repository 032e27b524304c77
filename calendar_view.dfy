/** The availability calendar of client/src/components/CalendarView.jsx:
    the booked ranges it fetches, the colour class of each day, the
    intervals handed to the date picker as excluded, and the unused
    morning-availability filter. */
module CalendarView {
  import opened Wrappers
  import opened Seqs
  import opened LocalTime
  import opened IcalController

  /** `{ start: Date, end: Date }` of one booked stay. */
  datatype Range = Range(start: int, end: int)

  /** `rangesFromApi.map(range => ({ start: new Date(range.start), end: new Date(range.end) }))` */
  function MapApiRanges(api: seq<BlockedRange>): (r: seq<Range>)
    ensures |r| == |api|
    ensures forall i :: 0 <= i < |api| ==> r[i].start == api[i].start && r[i].end == api[i].end
  {
    Map((b: BlockedRange) => Range(b.start, b.end), api)
  }

  /** The component state the fetch effect replaces. */
  class Calendar {
    var bookedDateRanges: seq<Range>
    var isLoading: bool
    var error: Option<string>

    constructor ()
      ensures bookedDateRanges == [] && isLoading && error.None?
    {
      bookedDateRanges := [];
      isLoading := true;
      error := None;
    }

    /** `loadAvailability`; `fetched` is `None` when the request throws. */
    method LoadAvailability(fetched: Option<seq<BlockedRange>>)
      modifies this
      ensures !isLoading
      ensures fetched.Some? ==> bookedDateRanges == MapApiRanges(fetched.value) && error.None?
      ensures fetched.None? ==> bookedDateRanges == old(bookedDateRanges) && error.Some?
    {
      isLoading := true;
      error := None;
      if fetched.Some? {
        bookedDateRanges := MapApiRanges(fetched.value);
      } else {
        error := Some("Could not load availability data. Please try again later.");
      }
      isLoading := false;
    }
  }

  /** `handleDateChangeInternal` hands the picker's pair on unchanged. */
  datatype DateSelection = DateSelection(start: Option<int>, end: Option<int>)

  function HandleDateChangeInternal(dates: DateSelection): (forwarded: DateSelection)
    ensures forwarded.start == dates.start && forwarded.end == dates.end
  {
    DateSelection(dates.start, dates.end)
  }

  // ---------------------------------------------------------------------
  // dayClassName

  datatype DayClass = FullyBooked | PartialBooked | Unmarked

  function ClassName(c: DayClass): string {
    match c
    case FullyBooked => "fully-booked"
    case PartialBooked => "partial-booked-checkin"
    case Unmarked => ""
  }

  /** `date.toDateString() === range.start.toDateString()` for some range. */
  predicate IsCheckInDay(ranges: seq<Range>, date: int) {
    exists i :: 0 <= i < |ranges| && LocalDay(ranges[i].start) == LocalDay(date)
  }

  predicate IsCheckOutDay(ranges: seq<Range>, date: int) {
    exists i :: 0 <= i < |ranges| && LocalDay(ranges[i].end) == LocalDay(date)
  }

  /** Red when the day is both some stay's check-in day and some stay's
      check-out day, yellow when it is exactly one of them, plain otherwise. */
  function Classify(ranges: seq<Range>, date: int): DayClass {
    var checkIn, checkOut := IsCheckInDay(ranges, date), IsCheckOutDay(ranges, date);
    if checkIn && checkOut then FullyBooked
    else if checkIn || checkOut then PartialBooked
    else Unmarked
  }

  /** `dayClassName`: the loop that ORs the two flags over the ranges. */
  method DayClassName(ranges: seq<Range>, date: int) returns (c: DayClass)
    ensures c == Classify(ranges, date)
    ensures c == FullyBooked <==> IsCheckInDay(ranges, date) && IsCheckOutDay(ranges, date)
    ensures c == PartialBooked <==> IsCheckInDay(ranges, date) != IsCheckOutDay(ranges, date)
  {
    var day := LocalDay(date);
    var isCheckIn, isCheckOut := false, false;
    for i := 0 to |ranges|
      invariant isCheckIn <==> IsCheckInDay(ranges[..i], date)
      invariant isCheckOut <==> IsCheckOutDay(ranges[..i], date)
    {
      assert forall j :: 0 <= j < i ==> ranges[..i + 1][j] == ranges[..i][j];
      assert ranges[..i + 1][i] == ranges[i];
      if LocalDay(ranges[i].start) == day {
        isCheckIn := true;
      }
      if LocalDay(ranges[i].end) == day {
        isCheckOut := true;
      }
    }
    assert ranges[..|ranges|] == ranges;
    if isCheckIn && isCheckOut {
      c := FullyBooked;
    } else if isCheckIn || isCheckOut {
      c := PartialBooked;
    } else {
      c := Unmarked;
    }
  }

  /** Only which ranges are present matters, not their order or repetition. */
  lemma ClassifyIgnoresOrder(a: seq<Range>, b: seq<Range>, date: int)
    requires forall x :: x in a <==> x in b
    ensures Classify(a, date) == Classify(b, date)
  {
    if IsCheckInDay(a, date) {
      var i :| 0 <= i < |a| && LocalDay(a[i].start) == LocalDay(date);
      assert a[i] in b;
      var j :| 0 <= j < |b| && b[j] == a[i];
    }
    if IsCheckInDay(b, date) {
      var i :| 0 <= i < |b| && LocalDay(b[i].start) == LocalDay(date);
      assert b[i] in a;
      var j :| 0 <= j < |a| && a[j] == b[i];
    }
    if IsCheckOutDay(a, date) {
      var i :| 0 <= i < |a| && LocalDay(a[i].end) == LocalDay(date);
      assert a[i] in b;
      var j :| 0 <= j < |b| && b[j] == a[i];
    }
    if IsCheckOutDay(b, date) {
      var i :| 0 <= i < |b| && LocalDay(b[i].end) == LocalDay(date);
      assert b[i] in a;
      var j :| 0 <= j < |a| && a[j] == b[i];
    }
  }

  /** The nights strictly inside a single stay are not marked: the class
      looks at check-in and check-out days only. */
  lemma InteriorDayUnmarked(r: Range, date: int)
    requires LocalDay(r.start) < LocalDay(date) < LocalDay(r.end)
    ensures Classify([r], date) == Unmarked
  {
  }

  /** A one-night turnover, one guest leaving and the next arriving on the
      same day, is red on that day. */
  lemma TurnoverDayFullyBooked(a: Range, b: Range, date: int)
    requires LocalDay(a.end) == LocalDay(date) == LocalDay(b.start)
    ensures Classify([a, b], date) == FullyBooked
  {
    assert [a, b][0] == a && [a, b][1] == b;
  }

  // ---------------------------------------------------------------------
  // excludeIntervals

  /** `end.setHours(0, 0, 0, 0)` then `setMilliseconds(-1)`. */
  function AdjustedEnd(end: int): (adjusted: int)
    ensures adjusted + 1 == DayStart(LocalDay(end))
    ensures LocalDay(adjusted) == LocalDay(end) - 1
  {
    SetHours(end, 0, 0, 0, 0) - 1
  }

  /** One interval per range, same start, ending 1 ms before the local
      midnight that opens the check-out day: the last instant of the day
      before check-out. */
  function ExcludeIntervals(ranges: seq<Range>): (r: seq<Range>)
    ensures |r| == |ranges|
    ensures forall i :: 0 <= i < |ranges| ==>
      && r[i].start == ranges[i].start
      && r[i].end + 1 == DayStart(LocalDay(ranges[i].end))
      && LocalDay(r[i].end) == LocalDay(ranges[i].end) - 1
  {
    forall i | 0 <= i < |ranges| ensures LocalDay(AdjustedEnd(ranges[i].end)) == LocalDay(ranges[i].end) - 1 {
      LocalDayOfDayStart(LocalDay(ranges[i].end) - 1, Day - 1);
    }
    Map((x: Range) => Range(x.start, AdjustedEnd(x.end)), ranges)
  }

  /** No instant of the check-out day lies inside the excluded interval. */
  lemma CheckOutDayNotExcluded(x: Range, t: int)
    requires LocalDay(t) == LocalDay(x.end)
    ensures t > AdjustedEnd(x.end)
  {
    DayStartBounds(t);
  }

  /** For a stay ending on a later day, the adjusted end lies in
      [start, end). */
  lemma AdjustedEndWithinStay(x: Range)
    requires LocalDay(x.start) < LocalDay(x.end)
    ensures x.start <= AdjustedEnd(x.end) < x.end
  {
    DayStartBounds(x.start);
    DayStartBounds(x.end);
  }

  // ---------------------------------------------------------------------
  // isDayAvailable (not wired to the picker)

  /** The range overlaps [00:00, 11:59:59.999] of the local day of `day`. */
  predicate OverlapsMorning(r: Range, day: int) {
    r.start < SetHours(day, 11, 59, 59, 999) && r.end > SetHours(day, 0, 0, 0, 0)
  }

  /** `isDayAvailable`: the loop returns `false` at the first range that
      overlaps the morning. */
  method IsDayAvailable(ranges: seq<Range>, day: int) returns (available: bool)
    ensures available <==> forall i :: 0 <= i < |ranges| ==> !OverlapsMorning(ranges[i], day)
  {
    var dayStartMs := SetHours(day, 0, 0, 0, 0);
    var dayEndMorningMs := SetHours(day, 11, 59, 59, 999);
    for i := 0 to |ranges|
      invariant forall j :: 0 <= j < i ==> !OverlapsMorning(ranges[j], day)
    {
      if ranges[i].start < dayEndMorningMs && ranges[i].end > dayStartMs {
        return false;
      }
    }
    return true;
  }

  /** With stays stamped 12:00 to 11:00, the morning filter greys out
      check-out days and leaves check-in days selectable. */
  lemma MorningFilterOnStampedStays(r: Range, day: int)
    requires r.start == NormaliseCheckIn(r.start) && r.end == NormaliseCheckOut(r.end)
    requires LocalDay(r.start) < LocalDay(r.end)
    ensures LocalDay(day) == LocalDay(r.end) ==> OverlapsMorning(r, day)
    ensures LocalDay(day) == LocalDay(r.start) ==> !OverlapsMorning(r, day)
  {
    NormaliseFacts(r.start);
    NormaliseFacts(r.end);
  }
}
