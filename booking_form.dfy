/** The guest-details form of client/src/components/BookingForm.jsx: its
    initial data, the per-field update of `handleChange`, the error
    dictionary `validateForm` builds and the submit that hands the data on
    only when that dictionary is empty. */
module BookingForm {
  import opened Wrappers
  import opened Text
  import BookingSchema

  /** What the number input stores: `parseInt(value, 10) || ''`. */
  datatype GuestCount = Guests(n: int) | NoCount

  datatype FormData = FormData(
    guestName: string,
    guestEmail: string,
    guestPhone: string,
    numberOfGuests: GuestCount,
    specialRequests: string,
    houseNumber: Option<int>)

  /** The `houseOptions` prop's default. */
  const DefaultHouseOptions: seq<int> := [1, 2, 3]

  /** The initial `formData`: empty text fields, the guest count handed in,
      and the first house option when the house select is shown. */
  function InitialFormData(initialGuestCount: int, showHouseSelect: bool, houseOptions: seq<int>): (f: FormData)
    ensures f.guestName == f.guestEmail == f.guestPhone == f.specialRequests == ""
    ensures f.numberOfGuests == Guests(initialGuestCount)
    ensures f.houseNumber.Some? <==> showHouseSelect && houseOptions != []
    ensures f.houseNumber.Some? ==> f.houseNumber.value == houseOptions[0] && f.houseNumber.value in houseOptions
  {
    FormData("", "", "", Guests(initialGuestCount), "",
      if showHouseSelect && houseOptions != [] then Some(houseOptions[0]) else None)
  }

  // ---------------------------------------------------------------------
  // handleChange

  datatype Field = GuestName | GuestEmail | GuestPhone | NumberOfGuests | SpecialRequests | HouseNumber

  datatype TextField = NameInput | EmailInput | PhoneInput | RequestsInput

  /** One change event: a text input, the number input (`parsed` is `None`
      for NaN) or the house select. */
  datatype Edit =
    | TextEdit(input: TextField, text: string)
    | NumberEdit(parsed: Option<int>)
    | HouseEdit(house: int)

  function FieldOf(e: Edit): Field {
    match e
    case TextEdit(NameInput, _) => GuestName
    case TextEdit(EmailInput, _) => GuestEmail
    case TextEdit(PhoneInput, _) => GuestPhone
    case TextEdit(RequestsInput, _) => SpecialRequests
    case NumberEdit(_) => NumberOfGuests
    case HouseEdit(_) => HouseNumber
  }

  /** `parseInt(value, 10) || ''`: NaN and 0 both store `''`. */
  function NumberValue(parsed: Option<int>): (g: GuestCount)
    ensures g.Guests? <==> parsed.Some? && parsed.value != 0
    ensures g.Guests? ==> g.n == parsed.value
  {
    if parsed.Some? && parsed.value != 0 then Guests(parsed.value) else NoCount
  }

  /** `{ ...prevData, [name]: newValue }`. */
  function ApplyEdit(f: FormData, e: Edit): (r: FormData)
    ensures FieldOf(e) != GuestName ==> r.guestName == f.guestName
    ensures FieldOf(e) != GuestEmail ==> r.guestEmail == f.guestEmail
    ensures FieldOf(e) != GuestPhone ==> r.guestPhone == f.guestPhone
    ensures FieldOf(e) != NumberOfGuests ==> r.numberOfGuests == f.numberOfGuests
    ensures FieldOf(e) != SpecialRequests ==> r.specialRequests == f.specialRequests
    ensures FieldOf(e) != HouseNumber ==> r.houseNumber == f.houseNumber
    ensures e.NumberEdit? ==> r.numberOfGuests == NumberValue(e.parsed)
  {
    match e
    case TextEdit(NameInput, t) => f.(guestName := t)
    case TextEdit(EmailInput, t) => f.(guestEmail := t)
    case TextEdit(PhoneInput, t) => f.(guestPhone := t)
    case TextEdit(RequestsInput, t) => f.(specialRequests := t)
    case NumberEdit(p) => f.(numberOfGuests := NumberValue(p))
    case HouseEdit(h) => f.(houseNumber := Some(h))
  }

  /** Keys of the error dictionary: one per field, plus the dates error. */
  datatype ErrorKey = FieldError(field: Field) | Dates

  /** Typing into name, email or phone also clears the dates error. */
  predicate ClearsDates(e: Edit) {
    e.TextEdit? && e.input in {NameInput, EmailInput, PhoneInput}
  }

  /** The errors after a change: the edited field's error and, for the
      three contact fields, the dates error are dropped; every other
      message stays as it was. */
  function ClearErrors(errors: map<ErrorKey, string>, e: Edit): (r: map<ErrorKey, string>)
    ensures r.Keys == errors.Keys - {FieldError(FieldOf(e))} - (if ClearsDates(e) then {Dates} else {})
    ensures forall k :: k in r ==> r[k] == errors[k]
  {
    map k | k in errors && k != FieldError(FieldOf(e)) && !(k == Dates && ClearsDates(e)) :: errors[k]
  }

  /** Editing twice in a row clears nothing more than editing once. */
  lemma ClearErrorsIdempotent(errors: map<ErrorKey, string>, e: Edit)
    ensures ClearErrors(ClearErrors(errors, e), e) == ClearErrors(errors, e)
  {
  }

  // ---------------------------------------------------------------------
  // validateForm

  const DatesMissing := "Error: Check-in/out dates missing. Please re-select."
  const NameRequired := "Name is required."
  const EmailRequired := "Email is required."
  const EmailInvalid := "Invalid email format."
  const PhoneRequired := "Phone number is required."
  const GuestsRequired := "At least one guest is required."

  /** `!n || n < 1` fails; any count of at least one passes. */
  predicate GuestsOk(g: GuestCount) {
    g.Guests? && g.n >= 1
  }

  /** The form passes exactly when each of its conditions holds. */
  predicate FormValid(f: FormData, checkIn: Option<int>, checkOut: Option<int>) {
    && checkIn.Some? && checkOut.Some?
    && !Blank(f.guestName)
    && !Blank(f.guestEmail) && BookingSchema.EmailMatches(f.guestEmail)
    && !Blank(f.guestPhone)
    && GuestsOk(f.numberOfGuests)
  }

  /** The outcome of each check, in the order `validateForm` makes them. */
  datatype Checks = Checks(datesMissing: bool, nameBlank: bool, emailBlank: bool,
                           emailMalformed: bool, phoneBlank: bool, guestsMissing: bool)

  /** The checks for one form. The "invalid format" test runs only on a
      non-blank email (the `else if`). */
  function RunChecks(f: FormData, checkIn: Option<int>, checkOut: Option<int>): (c: Checks)
    ensures c.datesMissing <==> checkIn.None? || checkOut.None?
    ensures c.nameBlank <==> Blank(f.guestName)
    ensures c.emailBlank <==> Blank(f.guestEmail)
    ensures c.emailMalformed <==> !Blank(f.guestEmail) && !BookingSchema.EmailMatches(f.guestEmail)
    ensures c.phoneBlank <==> Blank(f.guestPhone)
    ensures c.guestsMissing <==> !GuestsOk(f.numberOfGuests)
  {
    TrimEmptyIffBlank(f.guestName);
    TrimEmptyIffBlank(f.guestEmail);
    TrimEmptyIffBlank(f.guestPhone);
    var emailBlank := Trim(f.guestEmail) == [];
    Checks(checkIn.None? || checkOut.None?, Trim(f.guestName) == [], emailBlank,
           !emailBlank && !BookingSchema.EmailMatches(f.guestEmail), Trim(f.guestPhone) == [],
           f.numberOfGuests.NoCount? || f.numberOfGuests.n < 1)
  }

  /** The `newErrors` dictionary, filled one check after the other;
      `Object.keys(newErrors).length === 0` is an empty key set. */
  method FillErrors(c: Checks) returns (newErrors: map<ErrorKey, string>)
    ensures Dates in newErrors <==> c.datesMissing
    ensures FieldError(GuestName) in newErrors <==> c.nameBlank
    ensures FieldError(GuestEmail) in newErrors <==> c.emailBlank || c.emailMalformed
    ensures c.emailBlank ==> newErrors[FieldError(GuestEmail)] == EmailRequired
    ensures !c.emailBlank && c.emailMalformed ==> newErrors[FieldError(GuestEmail)] == EmailInvalid
    ensures FieldError(GuestPhone) in newErrors <==> c.phoneBlank
    ensures FieldError(NumberOfGuests) in newErrors <==> c.guestsMissing
    ensures Dates in newErrors ==> newErrors[Dates] == DatesMissing
    ensures FieldError(GuestName) in newErrors ==> newErrors[FieldError(GuestName)] == NameRequired
    ensures FieldError(GuestPhone) in newErrors ==> newErrors[FieldError(GuestPhone)] == PhoneRequired
    ensures FieldError(NumberOfGuests) in newErrors ==> newErrors[FieldError(NumberOfGuests)] == GuestsRequired
    ensures FieldError(SpecialRequests) !in newErrors && FieldError(HouseNumber) !in newErrors
    ensures newErrors.Keys == {} <==>
      !(c.datesMissing || c.nameBlank || c.emailBlank || c.emailMalformed || c.phoneBlank || c.guestsMissing)
  {
    newErrors := map[];
    if c.datesMissing {
      newErrors := newErrors[Dates := DatesMissing];
    }
    if c.nameBlank {
      newErrors := newErrors[FieldError(GuestName) := NameRequired];
    }
    if c.emailBlank {
      newErrors := newErrors[FieldError(GuestEmail) := EmailRequired];
    } else if c.emailMalformed {
      newErrors := newErrors[FieldError(GuestEmail) := EmailInvalid];
    }
    if c.phoneBlank {
      newErrors := newErrors[FieldError(GuestPhone) := PhoneRequired];
    }
    if c.guestsMissing {
      newErrors := newErrors[FieldError(NumberOfGuests) := GuestsRequired];
    }
  }

  /** What the displayed dictionary holds for one form: a key exactly for
      each failed check, carrying that check's message (for the email,
      "required" when blank and "invalid format" otherwise), and no key for
      the special requests or the house. */
  predicate Reports(errors: map<ErrorKey, string>, f: FormData, checkIn: Option<int>, checkOut: Option<int>) {
    && (Dates in errors <==> checkIn.None? || checkOut.None?)
    && (Dates in errors ==> errors[Dates] == DatesMissing)
    && (FieldError(GuestName) in errors <==> Blank(f.guestName))
    && (FieldError(GuestName) in errors ==> errors[FieldError(GuestName)] == NameRequired)
    && (FieldError(GuestEmail) in errors <==> Blank(f.guestEmail) || !BookingSchema.EmailMatches(f.guestEmail))
    && (FieldError(GuestEmail) in errors ==>
          errors[FieldError(GuestEmail)] == if Blank(f.guestEmail) then EmailRequired else EmailInvalid)
    && (FieldError(GuestPhone) in errors <==> Blank(f.guestPhone))
    && (FieldError(GuestPhone) in errors ==> errors[FieldError(GuestPhone)] == PhoneRequired)
    && (FieldError(NumberOfGuests) in errors <==> !GuestsOk(f.numberOfGuests))
    && (FieldError(NumberOfGuests) in errors ==> errors[FieldError(NumberOfGuests)] == GuestsRequired)
    && FieldError(SpecialRequests) !in errors && FieldError(HouseNumber) !in errors
  }

  /** A form determines its dictionary: two dictionaries that both report
      it are the same. */
  lemma ReportsDetermines(e1: map<ErrorKey, string>, e2: map<ErrorKey, string>,
                          f: FormData, checkIn: Option<int>, checkOut: Option<int>)
    requires Reports(e1, f, checkIn, checkOut) && Reports(e2, f, checkIn, checkOut)
    ensures e1 == e2
  {
    forall k | k in e1
      ensures k in e2 && e1[k] == e2[k]
    {
      match k
      case Dates =>
      case FieldError(field) =>
        match field
        case GuestName =>
        case GuestEmail =>
        case GuestPhone =>
        case NumberOfGuests =>
    }
    forall k | k in e2
      ensures k in e1
    {
      match k
      case Dates =>
      case FieldError(field) =>
        match field
        case GuestName =>
        case GuestEmail =>
        case GuestPhone =>
        case NumberOfGuests =>
    }
  }

  /** A form reports no error exactly when it is valid. */
  lemma ReportsNothingIffValid(errors: map<ErrorKey, string>, f: FormData, checkIn: Option<int>, checkOut: Option<int>)
    requires Reports(errors, f, checkIn, checkOut)
    ensures errors.Keys == {} <==> FormValid(f, checkIn, checkOut)
  {
    if !FormValid(f, checkIn, checkOut) {
      if checkIn.None? || checkOut.None? {
        assert Dates in errors;
      } else if Blank(f.guestName) {
        assert FieldError(GuestName) in errors;
      } else if Blank(f.guestEmail) || !BookingSchema.EmailMatches(f.guestEmail) {
        assert FieldError(GuestEmail) in errors;
      } else if Blank(f.guestPhone) {
        assert FieldError(GuestPhone) in errors;
      } else {
        assert FieldError(NumberOfGuests) in errors;
      }
    } else {
      forall k | k in errors
        ensures false
      {
        match k
        case Dates =>
        case FieldError(field) =>
          match field
          case GuestName =>
          case GuestEmail =>
          case GuestPhone =>
          case NumberOfGuests =>
          case SpecialRequests =>
          case HouseNumber =>
      }
    }
  }

  /** `validateForm`'s dictionary for one form: empty exactly when the form
      is valid, with one key and message per failed check. */
  method CollectErrors(f: FormData, checkIn: Option<int>, checkOut: Option<int>) returns (newErrors: map<ErrorKey, string>)
    ensures newErrors.Keys == {} <==> FormValid(f, checkIn, checkOut)
    ensures Reports(newErrors, f, checkIn, checkOut)
  {
    newErrors := FillErrors(RunChecks(f, checkIn, checkOut));
  }

  /** The component's state. `checkInDate`/`checkOutDate` are the props. */
  class Form {
    const checkInDate: Option<int>
    const checkOutDate: Option<int>
    var formData: FormData
    var errors: map<ErrorKey, string>

    constructor (checkIn: Option<int>, checkOut: Option<int>, initialGuestCount: int,
                 showHouseSelect: bool, houseOptions: seq<int>)
      ensures checkInDate == checkIn && checkOutDate == checkOut
      ensures formData == InitialFormData(initialGuestCount, showHouseSelect, houseOptions)
      ensures errors == map[]
    {
      checkInDate := checkIn;
      checkOutDate := checkOut;
      formData := InitialFormData(initialGuestCount, showHouseSelect, houseOptions);
      errors := map[];
    }

    /** The effect that follows the `initialGuestCount` prop. */
    method SyncGuestCount(initialGuestCount: int)
      modifies this
      ensures formData == old(formData).(numberOfGuests := Guests(initialGuestCount))
      ensures errors == old(errors)
    {
      formData := formData.(numberOfGuests := Guests(initialGuestCount));
    }

    /** `handleChange`. */
    method HandleChange(e: Edit)
      modifies this
      ensures formData == ApplyEdit(old(formData), e)
      ensures errors == ClearErrors(old(errors), e)
    {
      formData := ApplyEdit(formData, e);
      errors := ClearErrors(errors, e);
    }

    /** `validateForm`: replaces the errors and reports whether none arose. */
    method ValidateForm() returns (valid: bool)
      modifies this
      ensures formData == old(formData)
      ensures valid <==> FormValid(formData, checkInDate, checkOutDate)
      ensures valid <==> errors.Keys == {}
      ensures Reports(errors, formData, checkInDate, checkOutDate)
    {
      errors := CollectErrors(formData, checkInDate, checkOutDate);
      valid := errors.Keys == {};
    }

    /** `handleSubmit`: `onSubmit(formData)` exactly when the form is valid. */
    method HandleSubmit() returns (submitted: Option<FormData>)
      modifies this
      ensures formData == old(formData)
      ensures submitted.Some? <==> FormValid(formData, checkInDate, checkOutDate)
      ensures submitted.Some? ==> submitted.value == formData
      ensures Reports(errors, formData, checkInDate, checkOutDate)
    {
      var valid := ValidateForm();
      if !valid {
        return None;
      }
      submitted := Some(formData);
    }
  }
}
