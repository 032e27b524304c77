/** The booking table of client/src/pages/AdminDashboard.jsx: the filtered
    list, the summary counts and revenue taken over the selected location,
    the optimistic status updates after an admin action, which actions a
    booking offers, and how a stored receipt path becomes a link. */
module AdminDashboard {
  import opened Wrappers
  import opened Text
  import opened Seqs
  import opened BookingSchema
  import opened BookingList

  // ---------------------------------------------------------------------
  // Backend address
  // ---------------------------------------------------------------------

  const DefaultApiUrl := "http://localhost:5001/api"

  /** `import.meta.env.VITE_API_URL || 'http://localhost:5001/api'`: an
      unset or empty variable falls back to the local server. */
  function ApiUrl(env: Option<string>): (url: string)
    ensures env.Some? && env.value != "" ==> url == env.value
    ensures env.None? || env.value == "" ==> url == DefaultApiUrl
    ensures url != ""
  {
    if env.Some? && env.value != "" then env.value else DefaultApiUrl
  }

  predicate EndsWith(s: string, suffix: string) {
    |suffix| <= |s| && s[|s| - |suffix|..] == suffix
  }

  /** `API_URL.replace(/\/api$/, '')`: one trailing `/api` is removed. */
  function BackendUrl(api: string): (backend: string)
    ensures EndsWith(api, "/api") ==> backend + "/api" == api
    ensures !EndsWith(api, "/api") ==> backend == api
  {
    if EndsWith(api, "/api") then api[..|api| - 4] else api
  }

  /** `getReceiptUrl`: nothing for a missing or empty path, an absolute
      `http...` address as it is, anything else resolved against the
      backend. */
  function ReceiptUrl(url: Option<string>, backend: string): (link: string)
    ensures url.None? || url.value == "" ==> link == ""
    ensures url.Some? && StartsWith(url.value, "http") ==> link == url.value
    ensures url.Some? && url.value != "" && !StartsWith(url.value, "http") ==> link == backend + url.value
  {
    match url
    case None => ""
    case Some(u) =>
      if u == "" then ""
      else if StartsWith(u, "http") then u
      else backend + u
  }

  /** A receipt stored by the server as `/uploads/<file>` opens from the
      backend's own `/uploads` directory when no address is configured. */
  lemma {:induction false} UploadedReceiptResolves(file: string)
    ensures ReceiptUrl(Some("/uploads/" + file), BackendUrl(ApiUrl(None))) == "http://localhost:5001/uploads/" + file
  {
    var backend := BackendUrl(ApiUrl(None));
    assert EndsWith(DefaultApiUrl, "/api");
    assert backend == "http://localhost:5001";
    var u := "/uploads/" + file;
    assert u[0] == '/';
    assert !StartsWith(u, "http") by {
      assert "http"[0] != u[0];
    }
    assert backend + u == "http://localhost:5001/uploads/" + file;
  }

  /** With an `http` backend every link shown is empty or absolute. */
  lemma {:induction false} ReceiptLinkIsAbsolute(url: Option<string>, backend: string)
    requires StartsWith(backend, "http")
    ensures var link := ReceiptUrl(url, backend); link == "" || StartsWith(link, "http")
  {
    if url.Some? && url.value != "" && !StartsWith(url.value, "http") {
      var link := backend + url.value;
      assert link[..4] == backend[..4];
    }
  }

  // ---------------------------------------------------------------------
  // Filtering and summary statistics
  // ---------------------------------------------------------------------

  /** The location tab the dashboard opens on. */
  const DefaultLocation := "calinan"

  /** An empty selection means every location. */
  predicate AtLocation(selectedLocation: string, b: Booking) {
    selectedLocation == "" || b.location == selectedLocation
  }

  /** An empty search matches everything; otherwise the search text must
      occur, ignoring case, in the guest's name or e-mail. */
  predicate MatchesSearch(search: string, b: Booking) {
    search == ""
    || Contains(Lower(b.guestName), Lower(search))
    || Contains(Lower(b.guestEmail), Lower(search))
  }

  predicate MatchesFilter(selectedLocation: string, status: Option<Status>, search: string, b: Booking) {
    && AtLocation(selectedLocation, b)
    && (status.None? || b.status == status.value)
    && MatchesSearch(search, b)
  }

  /** `filteredBookings`: the bookings passing all three tests, in the
      order they were loaded. */
  function FilteredBookings(bookings: seq<Booking>, selectedLocation: string, status: Option<Status>, search: string)
    : (shown: seq<Booking>)
    ensures IsSubsequence(shown, bookings)
    ensures forall b :: b in shown <==> b in bookings && MatchesFilter(selectedLocation, status, search, b)
  {
    var p := (b: Booking) => MatchesFilter(selectedLocation, status, search, b);
    FilterIsSubsequence(p, bookings);
    Filter(p, bookings)
  }

  /** `locationBookings`: the bookings the summary cards are taken over. */
  function LocationBookings(bookings: seq<Booking>, selectedLocation: string): (r: seq<Booking>)
    ensures IsSubsequence(r, bookings)
    ensures forall b :: b in r <==> b in bookings && AtLocation(selectedLocation, b)
  {
    var p := (b: Booking) => AtLocation(selectedLocation, b);
    FilterIsSubsequence(p, bookings);
    Filter(p, bookings)
  }

  /** `getStatusCount(status)` */
  function StatusCount(bookings: seq<Booking>, selectedLocation: string, st: Status): (n: nat)
    ensures n <= |LocationBookings(bookings, selectedLocation)|
  {
    Count((b: Booking) => b.status == st, LocationBookings(bookings, selectedLocation))
  }

  /** With no status filter and no search the table lists exactly the
      bookings the summary is taken over. */
  lemma UnfilteredTableIsLocationBookings(bookings: seq<Booking>, selectedLocation: string)
    ensures FilteredBookings(bookings, selectedLocation, None, "") == LocationBookings(bookings, selectedLocation)
  {
    FilterCongruent((b: Booking) => MatchesFilter(selectedLocation, None, "", b),
                    (b: Booking) => AtLocation(selectedLocation, b), bookings);
  }

  /** A summary card's count is the number of rows the table shows once
      its status filter is set to that status. */
  lemma CardCountMatchesTable(bookings: seq<Booking>, selectedLocation: string, st: Status)
    ensures |FilteredBookings(bookings, selectedLocation, Some(st), "")| == StatusCount(bookings, selectedLocation, st)
  {
    FilterFilter((b: Booking) => b.status == st, (b: Booking) => AtLocation(selectedLocation, b),
                 (b: Booking) => MatchesFilter(selectedLocation, Some(st), "", b), bookings);
  }

  /** What one booking adds to the revenue card: the total of a confirmed
      booking, the downpayment of a downpayment-paid one, a missing amount
      counting as zero. */
  function Contribution(b: Booking): real {
    if b.status == Confirmed then b.totalPrice.GetOr(0.0)
    else if b.status == DownpaymentPaid then b.downpaymentAmount.GetOr(0.0)
    else 0.0
  }

  /** The `reduce` of `getTotalRevenue`. */
  function RevenueOf(bookings: seq<Booking>): real {
    if bookings == [] then 0.0 else Contribution(bookings[0]) + RevenueOf(bookings[1..])
  }

  /** `getTotalRevenue()` over the selected location. */
  function TotalRevenue(bookings: seq<Booking>, selectedLocation: string): (revenue: real)
    ensures var shown := LocationBookings(bookings, selectedLocation);
      revenue == SumOf(Price, Filter(IsConfirmed, shown)) + SumOf(Downpayment, Filter(IsDownpaymentPaid, shown))
    ensures NonNegativeAmounts(bookings) ==> revenue >= 0.0
  {
    var shown := LocationBookings(bookings, selectedLocation);
    RevenueSplit(shown);
    assert NonNegativeAmounts(bookings) ==> RevenueOf(shown) >= 0.0 by {
      if NonNegativeAmounts(bookings) {
        RevenueNonNegative(shown);
      }
    }
    RevenueOf(shown)
  }

  function SumOf(f: Booking -> real, bookings: seq<Booking>): real {
    if bookings == [] then 0.0 else f(bookings[0]) + SumOf(f, bookings[1..])
  }

  function Price(b: Booking): real { b.totalPrice.GetOr(0.0) }
  function Downpayment(b: Booking): real { b.downpaymentAmount.GetOr(0.0) }
  predicate IsConfirmed(b: Booking) { b.status == Confirmed }
  predicate IsDownpaymentPaid(b: Booking) { b.status == DownpaymentPaid }

  /** Revenue is the sum of the confirmed totals plus the sum of the
      downpayments already paid; every other booking adds nothing. */
  lemma {:induction false} RevenueSplit(bookings: seq<Booking>)
    ensures RevenueOf(bookings)
         == SumOf(Price, Filter(IsConfirmed, bookings)) + SumOf(Downpayment, Filter(IsDownpaymentPaid, bookings))
  {
    if bookings != [] {
      RevenueSplit(bookings[1..]);
      var b := bookings[0];
      var c := Filter(IsConfirmed, bookings[1..]);
      var d := Filter(IsDownpaymentPaid, bookings[1..]);
      if IsConfirmed(b) {
        assert Filter(IsConfirmed, bookings) == [b] + c;
        assert ([b] + c)[1..] == c;
        assert Filter(IsDownpaymentPaid, bookings) == d;
      } else if IsDownpaymentPaid(b) {
        assert Filter(IsDownpaymentPaid, bookings) == [b] + d;
        assert ([b] + d)[1..] == d;
        assert Filter(IsConfirmed, bookings) == c;
      } else {
        assert Filter(IsConfirmed, bookings) == c;
        assert Filter(IsDownpaymentPaid, bookings) == d;
      }
    }
  }

  /** No amount stored below zero. */
  predicate NonNegativeAmounts(bookings: seq<Booking>) {
    forall i :: 0 <= i < |bookings| ==> Price(bookings[i]) >= 0.0 && Downpayment(bookings[i]) >= 0.0
  }

  /** With no negative amounts the revenue card never shows less than zero. */
  lemma {:induction false} RevenueNonNegative(bookings: seq<Booking>)
    requires NonNegativeAmounts(bookings)
    ensures RevenueOf(bookings) >= 0.0
  {
    if bookings != [] {
      assert NonNegativeAmounts(bookings[1..]) by {
        forall i | 0 <= i < |bookings[1..]|
          ensures Price(bookings[1..][i]) >= 0.0 && Downpayment(bookings[1..][i]) >= 0.0
        {
          assert bookings[1..][i] == bookings[i + 1];
        }
      }
      RevenueNonNegative(bookings[1..]);
      assert Price(bookings[0]) >= 0.0 && Downpayment(bookings[0]) >= 0.0;
    }
  }

  /** Cancelling a booking never raises the revenue shown. */
  lemma {:induction false} CancelNeverRaisesRevenue(bookings: seq<Booking>, id: nat)
    requires NonNegativeAmounts(bookings)
    ensures RevenueOf(WithStatus(bookings, id, Cancelled)) <= RevenueOf(bookings)
  {
    if bookings != [] {
      var t := WithStatus(bookings, id, Cancelled);
      assert t[1..] == WithStatus(bookings[1..], id, Cancelled);
      assert NonNegativeAmounts(bookings[1..]) by {
        forall i | 0 <= i < |bookings[1..]|
          ensures Price(bookings[1..][i]) >= 0.0 && Downpayment(bookings[1..][i]) >= 0.0
        {
          assert bookings[1..][i] == bookings[i + 1];
        }
      }
      CancelNeverRaisesRevenue(bookings[1..], id);
      assert Price(bookings[0]) >= 0.0 && Downpayment(bookings[0]) >= 0.0;
      assert Contribution(t[0]) <= Contribution(bookings[0]);
    }
  }

  // ---------------------------------------------------------------------
  // Actions
  // ---------------------------------------------------------------------

  /** The buttons at the foot of the detail view. */
  datatype Actions = Actions(confirm: bool, fullPayment: bool, cancel: bool)

  function AvailableActions(st: Status): (a: Actions)
    ensures a.confirm <==> st == PendingDownpayment
    ensures a.fullPayment <==> st == DownpaymentPaid
    ensures a.cancel <==> st != Cancelled
  {
    Actions(st == PendingDownpayment, st == DownpaymentPaid, st != Cancelled)
  }

  /** The buttons walk a booking forward: confirming offers full payment
      next, full payment leaves only cancelling, and a cancelled booking
      offers nothing. Confirm and full payment are never offered together. */
  lemma ActionsFollowLifecycle(st: Status)
    ensures !(AvailableActions(st).confirm && AvailableActions(st).fullPayment)
    ensures AvailableActions(st).confirm ==> AvailableActions(DownpaymentPaid) == Actions(false, true, true)
    ensures AvailableActions(st).fullPayment ==> AvailableActions(Confirmed) == Actions(false, false, true)
    ensures AvailableActions(Cancelled) == Actions(false, false, false)
    ensures AvailableActions(st).confirm || AvailableActions(st).fullPayment ==> AvailableActions(st).cancel
  {
  }

  /** The dashboard's state: the loaded bookings and the filter controls. */
  class Dashboard {
    var bookings: seq<Booking>
    var selectedLocation: string
    var statusFilter: Option<Status>
    var search: string

    /** The state after a successful fetch of all bookings. */
    constructor (loaded: seq<Booking>)
      ensures bookings == loaded && selectedLocation == DefaultLocation
      ensures statusFilter.None? && search == ""
    {
      bookings := loaded;
      selectedLocation := DefaultLocation;
      statusFilter := None;
      search := "";
    }

    function Shown(): (shown: seq<Booking>)
      reads this
      ensures forall b :: b in shown <==> b in bookings && MatchesFilter(selectedLocation, statusFilter, search, b)
    {
      FilteredBookings(bookings, selectedLocation, statusFilter, search)
    }

    /** The shared shape of the three handlers: nothing happens when the
        admin declines the prompt or the request throws; otherwise every
        booking with that id takes the new status. The reply itself is not
        inspected, so a 404 from the server still updates the table. */
    method ApplyStatus(id: nat, st: Status, approved: bool, reached: bool)
      modifies this
      ensures bookings == if approved && reached then WithStatus(old(bookings), id, st) else old(bookings)
      ensures selectedLocation == old(selectedLocation) && statusFilter == old(statusFilter) && search == old(search)
    {
      if !approved {
        return;
      }
      if reached {
        bookings := WithStatus(bookings, id, st);
      }
    }

    /** `handleConfirm` */
    method HandleConfirm(id: nat, approved: bool, reached: bool)
      modifies this
      ensures bookings == if approved && reached then WithStatus(old(bookings), id, DownpaymentPaid) else old(bookings)
      ensures selectedLocation == old(selectedLocation) && statusFilter == old(statusFilter) && search == old(search)
    {
      ApplyStatus(id, DownpaymentPaid, approved, reached);
    }

    /** `handleFullPayment` */
    method HandleFullPayment(id: nat, approved: bool, reached: bool)
      modifies this
      ensures bookings == if approved && reached then WithStatus(old(bookings), id, Confirmed) else old(bookings)
      ensures selectedLocation == old(selectedLocation) && statusFilter == old(statusFilter) && search == old(search)
    {
      ApplyStatus(id, Confirmed, approved, reached);
    }

    /** `handleCancel` */
    method HandleCancel(id: nat, approved: bool, reached: bool)
      modifies this
      ensures bookings == if approved && reached then WithStatus(old(bookings), id, Cancelled) else old(bookings)
      ensures selectedLocation == old(selectedLocation) && statusFilter == old(statusFilter) && search == old(search)
    {
      ApplyStatus(id, Cancelled, approved, reached);
    }
  }
}
