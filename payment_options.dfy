/** The payment page of client/src/pages/PaymentOptionsPage.jsx: which
    navigation data it accepts, the 30% / 70% split it shows, and the
    multipart body `handleConfirmAndPay` builds for the create-booking
    request, skipping every undefined value. */
module PaymentOptions {
  import opened Wrappers
  import opened Seqs
  import BookingSchema
  import BookingPage

  /** The navigation state as received: any field may be absent. */
  datatype Incoming = Incoming(
    guestName: Option<string>,
    guestEmail: Option<string>,
    guestPhone: Option<string>,
    specialRequests: Option<string>,
    numberOfGuests: Option<int>,
    checkInDate: Option<int>,
    checkOutDate: Option<int>,
    locationName: Option<string>,
    locationSlug: Option<string>,
    totalPrice: Option<real>,
    downpaymentAmount: Option<real>,
    houseNumber: Option<int>)

  /** A string field that is present and non-empty. */
  predicate Truthy(s: Option<string>) {
    s.Some? && s.value != ""
  }

  /** The entry effect's test: `totalPrice` defined and `checkInDate`,
      `guestName`, `locationName` truthy. */
  predicate Acceptable(d: Incoming) {
    d.totalPrice.Some? && d.checkInDate.Some? && Truthy(d.guestName) && Truthy(d.locationName)
  }

  datatype StatusLine = StatusLine(message: string, isError: bool)

  const DetailsNotFound := "Booking details not found. Please start a new booking."
  const DetailsIncomplete := "Essential booking information is incomplete. Please start over."

  /** The entry effect: the details to keep, or the error line to show. */
  function AcceptIncoming(state: Option<Incoming>): (r: Result<Incoming, StatusLine>)
    ensures r.Ok? <==> state.Some? && Acceptable(state.value)
    ensures r.Ok? ==> r.value == state.value
    ensures r.Err? ==> r.error.isError
    ensures state.None? ==> r == Err(StatusLine(DetailsNotFound, true))
  {
    match state
    case None => Err(StatusLine(DetailsNotFound, true))
    case Some(d) => if Acceptable(d) then Ok(d) else Err(StatusLine(DetailsIncomplete, true))
  }

  /** The booking page's data as it arrives here. */
  function FromBookingPage(p: BookingPage.PaymentData): (d: Incoming)
    ensures d.totalPrice == Some(p.totalPrice as real) && d.checkInDate == Some(p.checkInDate)
    ensures d.guestName == Some(p.guestName) && d.locationName == Some(p.locationName)
    ensures d.houseNumber == p.houseNumber
  {
    Incoming(Some(p.guestName), Some(p.guestEmail), Some(p.guestPhone), Some(p.specialRequests),
             Some(p.numberOfGuests), Some(p.checkInDate), Some(p.checkOutDate),
             Some(p.locationName), Some(p.locationSlug), Some(p.totalPrice as real),
             Some(p.downpaymentAmount), p.houseNumber)
  }

  /** What the booking page sends is accepted as soon as the guest name
      and the location name are non-empty; the total and the check-in it
      always carries. */
  lemma BookingPageDataAccepted(p: BookingPage.PaymentData)
    requires p.guestName != "" && p.locationName != ""
    ensures AcceptIncoming(Some(FromBookingPage(p))) == Ok(FromBookingPage(p))
  {
  }

  // ---------------------------------------------------------------------
  // Downpayment shown on the page

  /** `Number(totalPrice) || 0`. */
  function TotalShown(d: Incoming): (t: real)
    ensures d.totalPrice.None? ==> t == 0.0
    ensures d.totalPrice.Some? ==> t == d.totalPrice.value
  {
    d.totalPrice.GetOr(0.0)
  }

  /** The 30% due now. */
  function Downpayment(d: Incoming): (dp: real)
    ensures dp * 10.0 == 3.0 * TotalShown(d)
  {
    TotalShown(d) * BookingPage.DownpaymentRate
  }

  /** The 70% due on arrival. */
  function Remaining(d: Incoming): (rest: real)
    ensures rest + Downpayment(d) == TotalShown(d)
    ensures rest * 10.0 == 7.0 * TotalShown(d)
  {
    TotalShown(d) - Downpayment(d)
  }

  /** The amount shown here is the amount the booking page computed. */
  lemma DownpaymentAgrees(p: BookingPage.PaymentData)
    requires p.downpaymentAmount * 10.0 == 3.0 * p.totalPrice as real
    ensures Downpayment(FromBookingPage(p)) == p.downpaymentAmount
  {
  }

  // ---------------------------------------------------------------------
  // handleConfirmAndPay

  /** A value of the `dataForBackend` object; `Undefined` entries are
      skipped when the body is built. */
  datatype Value = Text(s: string) | Number(n: int) | Amount(a: real) | Undefined | File(name: string)

  datatype Entry = Entry(key: string, value: Value)

  function OrUndefined(s: Option<string>): Value {
    if s.Some? then Text(s.value) else Undefined
  }

  function NumberOrUndefined(n: Option<int>): Value {
    if n.Some? then Number(n.value) else Undefined
  }

  function AmountOrUndefined(a: Option<real>): Value {
    if a.Some? then Amount(a.value) else Undefined
  }

  predicate IsDefined(e: Entry) {
    !e.value.Undefined?
  }

  /** The object literal `dataForBackend`, in key order. The house is sent
      only for Tagpopongan; the status travels as `paymentStatus`, which the
      server does not read. */
  function DataForBackend(d: Incoming, paymentMethod: string): (es: seq<Entry>)
    ensures |es| == 13
    ensures es[8] == Entry("totalPrice", AmountOrUndefined(d.totalPrice))
    ensures es[10] == Entry("paymentMethod", Text(paymentMethod))
    ensures es[12].key == "houseNumber"
    ensures es[12].value != Undefined ==> d.locationSlug == Some(BookingSchema.Tagpopongan) && d.houseNumber.Some?
    ensures forall i :: 0 <= i < |es| ==> es[i].key != "status"
  {
    [ Entry("guestName", OrUndefined(d.guestName)),
      Entry("guestEmail", OrUndefined(d.guestEmail)),
      Entry("guestPhone", OrUndefined(d.guestPhone)),
      Entry("specialRequests", OrUndefined(d.specialRequests)),
      Entry("numberOfGuests", NumberOrUndefined(d.numberOfGuests)),
      Entry("checkInDate", NumberOrUndefined(d.checkInDate)),
      Entry("checkOutDate", NumberOrUndefined(d.checkOutDate)),
      Entry("location", OrUndefined(d.locationSlug)),
      Entry("totalPrice", AmountOrUndefined(d.totalPrice)),
      Entry("downpaymentAmount", AmountOrUndefined(d.downpaymentAmount)),
      Entry("paymentMethod", Text(paymentMethod)),
      Entry("paymentStatus", Text("pending_downpayment")),
      Entry("houseNumber",
            if d.locationSlug == Some(BookingSchema.Tagpopongan) then NumberOrUndefined(d.houseNumber) else Undefined) ]
  }

  /** The `forEach` that appends the defined entries, then the receipt. */
  method BuildFormData(entries: seq<Entry>, receipt: string) returns (body: seq<Entry>)
    ensures body == Filter(IsDefined, entries) + [Entry("receipt", File(receipt))]
    ensures forall i :: 0 <= i < |body| ==> body[i].value != Undefined
  {
    body := [];
    for i := 0 to |entries|
      invariant body == Filter(IsDefined, entries[..i])
    {
      assert entries[..i + 1] == entries[..i] + [entries[i]];
      FilterAppend(IsDefined, entries[..i], [entries[i]]);
      if entries[i].value != Undefined {
        body := body + [entries[i]];
      }
    }
    assert entries[..|entries|] == entries;
    body := body + [Entry("receipt", File(receipt))];
  }

  /** The body keeps the defined entries in their order, and only them. */
  lemma BodyKeepsDefinedInOrder(entries: seq<Entry>)
    ensures IsSubsequence(Filter(IsDefined, entries), entries)
    ensures forall i :: 0 <= i < |entries| && IsDefined(entries[i]) ==> entries[i] in Filter(IsDefined, entries)
  {
    FilterIsSubsequence(IsDefined, entries);
  }

  /** The server's answer, or `Thrown` when the request fails. */
  datatype ServerAnswer = Success(id: string) | Failure(message: Option<string>) | Thrown(reason: Option<string>)

  const FailureFallback := "Failed to create your booking record. Please try again."
  const ThrownFallback := "An error occurred while attempting to create your booking. Please contact support."

  /** `message || fallback`: a missing or empty message is falsy. */
  function MessageOr(message: Option<string>, fallback: string): (shown: string)
    ensures message.Some? && message.value != "" ==> shown == message.value
    ensures message.None? || message.value == "" ==> shown == fallback
    ensures shown == "" <==> fallback == "" && (message.None? || message.value == "")
  {
    if message.Some? && message.value != "" then message.value else fallback
  }

  /** The status line set from the server's answer. */
  function StatusAfter(answer: ServerAnswer): (line: StatusLine)
    ensures line.isError <==> !answer.Success?
    ensures answer.Failure? && answer.message.Some? && answer.message.value != "" ==> line.message == answer.message.value
    ensures answer.Failure? && (answer.message.None? || answer.message.value == "") ==> line.message == FailureFallback
    ensures answer.Thrown? && answer.reason.Some? && answer.reason.value != "" ==> line.message == answer.reason.value
    ensures answer.Thrown? && (answer.reason.None? || answer.reason.value == "") ==> line.message == ThrownFallback
  {
    match answer
    case Success(_) => StatusLine("Your booking is tentatively reserved.", false)
    case Failure(message) => StatusLine(MessageOr(message, FailureFallback), true)
    case Thrown(reason) => StatusLine(MessageOr(reason, ThrownFallback), true)
  }

  const NoMethod := "Please select a payment method before proceeding."
  const NoReceipt := "Please upload your payment receipt before proceeding."

  /** The page's state. */
  class PaymentPage {
    var bookingDetails: Option<Incoming>
    var selectedPaymentMethod: string
    var receiptFile: Option<string>
    var confirmationStatus: StatusLine
    var isConfirming: bool

    constructor (state: Option<Incoming>)
      ensures bookingDetails == (match AcceptIncoming(state) case Ok(d) => Some(d) case Err(_) => None)
      ensures AcceptIncoming(state).Err? ==> confirmationStatus == AcceptIncoming(state).error
      ensures selectedPaymentMethod == "" && receiptFile.None? && !isConfirming
    {
      selectedPaymentMethod := "";
      receiptFile := None;
      isConfirming := false;
      match AcceptIncoming(state)
      case Ok(d) =>
        bookingDetails := Some(d);
        confirmationStatus := StatusLine("", false);
      case Err(line) =>
        bookingDetails := None;
        confirmationStatus := line;
    }

    /** `handlePaymentMethodSelect`. */
    method SelectPaymentMethod(m: string)
      modifies this
      ensures selectedPaymentMethod == m && confirmationStatus == StatusLine("", false)
      ensures bookingDetails == old(bookingDetails) && receiptFile == old(receiptFile)
    {
      selectedPaymentMethod := m;
      confirmationStatus := StatusLine("", false);
    }

    /** `handleReceiptChange`. */
    method SelectReceipt(f: Option<string>)
      modifies this
      ensures receiptFile == f
      ensures bookingDetails == old(bookingDetails) && selectedPaymentMethod == old(selectedPaymentMethod)
      ensures confirmationStatus == old(confirmationStatus)
    {
      receiptFile := f;
    }

    /** `handleConfirmAndPay`: the two guards, then the body sent and the
        status line set from the answer. */
    method ConfirmAndPay(answer: ServerAnswer) returns (sent: Option<seq<Entry>>)
      modifies this
      ensures bookingDetails == old(bookingDetails) && selectedPaymentMethod == old(selectedPaymentMethod)
      ensures receiptFile == old(receiptFile) && !isConfirming
      ensures sent.Some? <==> selectedPaymentMethod != "" && bookingDetails.Some? && receiptFile.Some?
      ensures selectedPaymentMethod == "" || bookingDetails.None? ==> confirmationStatus == StatusLine(NoMethod, true)
      ensures selectedPaymentMethod != "" && bookingDetails.Some? && receiptFile.None? ==>
        confirmationStatus == StatusLine(NoReceipt, true)
      ensures sent.Some? ==>
        && sent.value == Filter(IsDefined, DataForBackend(bookingDetails.value, selectedPaymentMethod))
                         + [Entry("receipt", File(receiptFile.value))]
        && confirmationStatus == StatusAfter(answer)
        && (confirmationStatus.isError <==> !answer.Success?)
    {
      if selectedPaymentMethod == "" || bookingDetails.None? {
        confirmationStatus := StatusLine(NoMethod, true);
        isConfirming := false;
        return None;
      }
      if receiptFile.None? {
        confirmationStatus := StatusLine(NoReceipt, true);
        isConfirming := false;
        return None;
      }
      isConfirming := true;
      confirmationStatus := StatusLine("", false);
      var body := BuildFormData(DataForBackend(bookingDetails.value, selectedPaymentMethod), receiptFile.value);
      confirmationStatus := StatusAfter(answer);
      isConfirming := false;
      sent := Some(body);
    }
  }
}
