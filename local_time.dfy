/** JavaScript `Date` arithmetic on integer milliseconds, for a fixed local
    offset. `LocalDay` is what `toDateString()` compares, `AtHour` is
    `setHours(h, 0, 0, 0)` and `Weekday` is `getDay()`. The stay times the
    booking pages and the migration script stamp (12:00 check-in, 11:00
    check-out) are defined here once. */
module LocalTime {

  const Second: int := 1000
  const Minute: int := 60 * Second
  const Hour: int := 60 * Minute
  const Day: int := 24 * Hour

  /** Local time is UTC+8 (Asia/Manila, no daylight saving). */
  const Offset: int := 8 * Hour

  const CheckInHour: int := 12
  const CheckOutHour: int := 11

  /** Number of the local calendar day holding instant `t` (days since 1970-01-01 local). */
  function LocalDay(t: int): int {
    (t + Offset) / Day
  }

  /** The instant of local midnight that starts local day `d`. */
  function DayStart(d: int): int {
    d * Day - Offset
  }

  /** `new Date(t).setHours(h, m, s, ms)`: same local day, given time of day. */
  function SetHours(t: int, h: int, m: int, s: int, ms: int): int {
    DayStart(LocalDay(t)) + h * Hour + m * Minute + s * Second + ms
  }

  /** `new Date(t).setHours(h, 0, 0, 0)` */
  function AtHour(t: int, h: int): int {
    SetHours(t, h, 0, 0, 0)
  }

  /** `getDay()`: 0 = Sunday ... 6 = Saturday; 1970-01-01 was a Thursday. */
  function Weekday(t: int): (w: int)
    ensures 0 <= w < 7
  {
    (LocalDay(t) + 4) % 7
  }

  /** Check-in normalised to 12:00:00.000 local on its calendar day. */
  function NormaliseCheckIn(t: int): int {
    AtHour(t, CheckInHour)
  }

  /** Check-out normalised to 11:00:00.000 local on its calendar day. */
  function NormaliseCheckOut(t: int): int {
    AtHour(t, CheckOutHour)
  }

  /** Every instant lies in the local day that `LocalDay` names. */
  lemma DayStartBounds(t: int)
    ensures DayStart(LocalDay(t)) <= t < DayStart(LocalDay(t)) + Day
  {
  }

  /** An instant `x` milliseconds after a local midnight belongs to that day. */
  lemma LocalDayOfDayStart(d: int, x: int)
    requires 0 <= x < Day
    ensures LocalDay(DayStart(d) + x) == d
  {
    assert DayStart(d) + x + Offset == d * Day + x;
  }

  /** Setting a time of day inside [00:00, 24:00) keeps the calendar day. */
  lemma SetHoursKeepsDay(t: int, h: int, m: int, s: int, ms: int)
    requires 0 <= h * Hour + m * Minute + s * Second + ms < Day
    ensures LocalDay(SetHours(t, h, m, s, ms)) == LocalDay(t)
  {
    LocalDayOfDayStart(LocalDay(t), h * Hour + m * Minute + s * Second + ms);
  }

  /** Normalisation keeps the calendar day and is idempotent. */
  lemma AtHourIdempotent(t: int, h: int)
    requires 0 <= h < 24
    ensures LocalDay(AtHour(t, h)) == LocalDay(t)
    ensures AtHour(AtHour(t, h), h) == AtHour(t, h)
  {
    SetHoursKeepsDay(t, h, 0, 0, 0);
  }

  /** The normalised times are the stated hours on the same calendar day,
      applying them twice changes nothing, and a stay's check-out on a later
      day always falls after its check-in. */
  lemma NormaliseFacts(t: int)
    ensures LocalDay(NormaliseCheckIn(t)) == LocalDay(t)
    ensures LocalDay(NormaliseCheckOut(t)) == LocalDay(t)
    ensures NormaliseCheckIn(t) == DayStart(LocalDay(t)) + 12 * Hour
    ensures NormaliseCheckOut(t) == DayStart(LocalDay(t)) + 11 * Hour
    ensures NormaliseCheckIn(NormaliseCheckIn(t)) == NormaliseCheckIn(t)
    ensures NormaliseCheckOut(NormaliseCheckOut(t)) == NormaliseCheckOut(t)
  {
    AtHourIdempotent(t, CheckInHour);
    AtHourIdempotent(t, CheckOutHour);
  }

  /** A normalised stay is non-empty exactly when check-out is on a later day. */
  lemma NormalisedStayOrder(a: int, b: int)
    ensures NormaliseCheckIn(a) < NormaliseCheckOut(b) <==> LocalDay(a) < LocalDay(b)
  {
  }

  /** Days are ordered like the instants in them. */
  lemma LocalDayMonotone(a: int, b: int)
    requires a <= b
    ensures LocalDay(a) <= LocalDay(b)
  {
  }
}
