# Goldie stay booking — a Dafny model

This project models the booking core of the Goldie resort site. That core has three parts.

**The Express controllers.** They check a stay against the stored bookings and create a booking. They report the free houses of the three-house Tagpopongan location, and let an administrator move a booking between statuses. They also import an Airbnb calendar as `blocked` records and serve a blocked-date feed.

**The Mongoose booking schema and the one-off time migration.** The schema runs its validators on `create()` and `save()`. The migration re-stamps every stay to 12:00 check-in and 11:00 check-out, local time.

**The React client.** It covers:
- the availability calendar and its day colouring;
- the options modal: weekday and weekend rates, the red/yellow range warning, the house choice;
- the price summary card;
- the guest form and its validation;
- the booking page that stamps the stay and computes the 30% downpayment;
- the payment page that builds the upload body;
- the admin dashboard's filters, counts, revenue, actions and receipt links;
- the "Book now" slug rule.

The representations are as follows:
- **Instants** are integer milliseconds. Local time is a fixed UTC+8 offset (`LocalTime`), so `setHours`, `toDateString` and `getDay` become integer arithmetic.
- **The bookings collection** is a `seq<Booking>` held by the class `BookingController.BookingDb`. Its `nextId` stands for the id generator.
- **Component state** is a class per component: `OptionsMenu`, `Form`, `Page`, `PaymentPage`, `Dashboard` and `Calendar`. The fields are the component's `useState` variables. Event handlers and effects are methods with `modifies this`.
- **Network calls, the DOM and the clock** become parameters. Examples are the answer of a `fetch`, whether a request threw, the classes of calendar cells, and the parsed iCalendar events.
- **JavaScript truthiness is written out.** `x || default` treats `0` and `""` as missing. `parseInt(v) || ''` stores no count for `0` or NaN. `!selectedHouse` is true for house `0`.

Every module imports only modules of this project. `Wrappers`, `Text` and `Seqs` hold the option/result types, the string operations and the filter/map/count helpers that the rest share.

## Model

| member | source | states |
|---|---|---|
| LocalTime.Weekday | client/src/components/BookingOptionsMenuModal.jsx:59 | `getDay()` is in 0..6, counted from a Thursday epoch day |
| LocalTime.DayStartBounds | server/updateBookingTimes.js:39-43 | every instant lies inside the local day that `LocalDay` names |
| LocalTime.SetHoursKeepsDay | server/updateBookingTimes.js:40 | `setHours` with a time of day inside [00:00, 24:00) keeps the calendar day |
| LocalTime.AtHourIdempotent | server/updateBookingTimes.js:39-43 | setting the hour keeps the day and is idempotent |
| LocalTime.NormaliseFacts | client/src/pages/BookingPage.jsx:170-173 | check-in becomes 12:00 and check-out 11:00 of the same local day; both normalisations are idempotent |
| LocalTime.NormalisedStayOrder | client/src/pages/BookingPage.jsx:170-173 | a stamped stay is non-empty iff check-out falls on a later local day |
| LocalTime.NormaliseCheckIn | client/src/pages/BookingPage.jsx:170-171 | `setHours(12, 0, 0, 0)` on the check-in; its facts are stated by NormaliseFacts |
| LocalTime.NormaliseCheckOut | client/src/pages/BookingPage.jsx:172-173 | `setHours(11, 0, 0, 0)` on the check-out; its facts are stated by NormaliseFacts |
| LocalTime.LocalDay | client/src/components/CalendarView.jsx:127-130 | the `toDateString` day of an instant at UTC+8; its bounds are stated by DayStartBounds and its order by LocalDayMonotone |
| LocalTime.DayStart | server/updateBookingTimes.js:39-43 | local midnight of a day; DayStartBounds states that every instant lies in [DayStart, DayStart + a day) of its own day |
| LocalTime.SetHours | server/updateBookingTimes.js:40 | `setHours(h, m, s, ms)`: local midnight of the same day plus the time of day; SetHoursKeepsDay states that the day is kept |
| LocalTime.LocalDayMonotone | client/src/components/CalendarView.jsx:127-130 | later instants never fall on earlier local days |
| BookingSchema.EmailFromParts | server/models/Booking.js:16 | any `a@b.c` with non-empty, white-space-free parts matches `^\S+@\S+\.\S+$` |
| BookingSchema.EmailMatches | server/models/Booking.js:16 | the regex `^\S+@\S+\.\S+$`: no white space, an `@` and a later `.` with non-empty text around both; EmailFromParts and EmailToParts state both directions |
| BookingSchema.EmailToParts | server/models/Booking.js:16 | every matching string splits into such three parts (the converse) |
| BookingSchema.ApplySetters | server/models/Booking.js:5-22 | the `trim`/`lowercase` setters change only the string paths and leave stay, status, location, house and guests alone |
| BookingSchema.Validate | server/models/Booking.js:5-87 | the set of failing validators, one per rule the document breaks (required paths, e-mail format, guests ≥ 1, date order, enums, Tagpopongan house) |
| BookingSchema.Valid | server/models/Booking.js:5-87 | all schema rules hold; equal to an empty `Validate` by ValidIffNoViolation |
| BookingSchema.ValidIffNoViolation | server/models/Booking.js:5-87 | the set of failing validators is empty exactly for a document meeting every rule: required paths, guests ≥ 1, check-out after check-in, status and source enums, and the house 1..3 required only for Tagpopongan |
| BookingSchema.NameRequiredAfterTrim | server/models/Booking.js:5-9 | after trimming, `required` fails exactly for a white-space-only name |
| BookingSchema.NameRequiredIffEmpty | server/models/Booking.js:5-9 | without setters, `required` fails exactly for the empty name |
| BookingSchema.BlockedNeverValid | server/models/Booking.js:45-50 | a `blocked` document always fails the status enum |
| BookingList.Find | server/controllers/bookingController.js:395-396 | `findById` finds nothing iff no booking has the id; otherwise it finds a stored booking with that id |
| BookingList.WithStatus | server/controllers/bookingController.js:306-310 | the status update keeps the length and every id in place |
| BookingList.WithStatusFrame | client/src/pages/AdminDashboard.jsx:137 | only the booking with the id changes, and only its status |
| BookingList.WithStatusAbsent | server/controllers/bookingController.js:311-313 | an unknown id changes nothing |
| BookingList.FindWithStatus | server/controllers/bookingController.js:306-310 | after the update the id finds its booking with the new status; other ids find what they found before |
| BookingList.WithStatusUniqueIds | server/controllers/bookingController.js:324-328 | ids stay unique through a status update |
| BookingController.OverlapsSymmetric | server/controllers/bookingController.js:19-20 | the overlap test is symmetric in the two stays |
| BookingController.TouchingStaysDoNotOverlap | server/controllers/bookingController.js:19-20 | a stay that starts at the instant another ends does not conflict with it |
| BookingController.Overlaps | server/controllers/bookingController.js:19-20 | the query `checkInDate < end` and `checkOutDate > start`: the half-open stays share an instant |
| BookingController.Hit | server/controllers/bookingController.js:16-38 | a document the availability query finds: slot-holding status, overlapping, same location when a slug is given, same house for Tagpopongan, not the excluded id |
| BookingController.CheckAvailability | server/controllers/bookingController.js:7-67 | throws iff the slug is Tagpopongan (any case) without a house; otherwise true iff no stored booking is a hit: slot-holding status, overlapping, same location when a slug is given, same house for Tagpopongan, not the excluded id |
| BookingController.NonBlockingNeverConflicts | server/controllers/bookingController.js:16-18 | cancelled, completed, tentative and `blocked` bookings never make a slot unavailable |
| BookingController.LocationAndHouseFilter | server/controllers/bookingController.js:23-38 | without a slug every location counts; for Tagpopongan only the same house counts; the excluded id never counts |
| BookingController.NewRecord | server/controllers/bookingController.js:177-196 | the stored document carries the request's stay, location and status (default `pending_downpayment`); it holds a house only for Tagpopongan |
| BookingController.HouseFor | server/controllers/bookingController.js:168-194 | the house passed to the check and stored is present iff the location is Tagpopongan and the request carries one, and is then the request's house |
| BookingController.PassesChecks | server/controllers/bookingController.js:144-163 | the request gets past the three 400 guards: details present, a house for Tagpopongan, check-out after check-in; CreateOutcome's 409 and 201 clauses are stated under it |
| BookingController.Missing | server/controllers/bookingController.js:144-146 | the falsy test on the required fields: an empty string, a missing value or 0 guests |
| BookingController.CreateOutcome | server/controllers/bookingController.js:124-225 | missing details give 400; past the three checks, 409 exactly when a stored booking is a hit; otherwise the request's record is created when the schema accepts it and answered 400 with its violations when not; a created document was free when checked |
| BookingController.CreateRejectionOrder | server/controllers/bookingController.js:144-174 | rejections come in the handler's order: missing details, Tagpopongan without a house, check-out not after check-in, conflict (409); a request past all four that the schema accepts is created; no request reaches the 500 branch |
| BookingController.CreatedIsSound | server/controllers/bookingController.js:162-196 | a created booking is valid, ends after it starts, and carries the request's values |
| BookingController.OverlapIsRefused | server/controllers/bookingController.js:166-174 | a request that hits a stored slot-holding booking is never created |
| BookingController.CreatePreservesNoDoubleBooking | server/controllers/bookingController.js:124-225 | creating a booking never introduces two clashing slot-holding bookings |
| BookingController.AppendWithoutClash | server/controllers/bookingController.js:182-196 | appending a booking that clashes with none keeps the store free of double bookings |
| BookingController.CheckSpecificAvailability | server/controllers/bookingController.js:230-257 | missing fields give 400; a Tagpopongan slug always gives 500 because no house is passed; every other complete request gets an availability answer, true iff no slot-holding booking at that location overlaps |
| BookingController.BookedHouses | server/controllers/bookingController.js:275-281 | the houses of exactly the overlapping slot-holding Tagpopongan bookings |
| BookingController.GetAvailableHouses | server/controllers/bookingController.js:262-289 | missing fields and non-Tagpopongan locations give 400; every complete Tagpopongan request gets the houses of [1, 2, 3], in order, that no overlapping slot-holding booking holds |
| BookingController.BookingDb.CreateBooking | server/controllers/bookingController.js:124-225 | the reply is `CreateOutcome`; on 201 exactly the new document is appended and the id generator advances by one, otherwise the store and the generator are unchanged |
| BookingController.BookingDb.Insert | server/controllers/bookingController.js:182-196 | `Booking.create` appends exactly the document carrying the next id and advances the id generator by one |
| BookingController.BookingDb.SetStatusById | server/controllers/bookingController.js:306-313 | an unknown id gives 404 and no change; otherwise the status update without validation |
| BookingController.BookingDb.ConfirmDownpayment | server/controllers/bookingController.js:303-319 | sets `downpayment_paid` whatever the current status and answers with the found document carrying it; 404 with no change for an unknown id |
| BookingController.BookingDb.CancelBooking | server/controllers/bookingController.js:321-337 | sets `cancelled` whatever the current status and answers with the found document carrying it; 404 with no change for an unknown id |
| BookingController.BookingDb.ConfirmFullPayment | server/controllers/bookingController.js:393-403 | `save()` validates: a valid result is stored as `confirmed`, an invalid one gives 500 and no change |
| BookingController.FullPaymentOnImportedFails | server/controllers/bookingController.js:393-403 | an imported Airbnb record (no e-mail) can never be marked fully paid |
| BookingController.CancelPreservesNoDoubleBooking | server/controllers/bookingController.js:321-337 | cancelling never creates a double booking |
| BookingController.ReconfirmingCancelledCanDoubleBook | server/controllers/bookingController.js:393-403 | the admin handlers do not re-check availability: re-confirming a cancelled booking can produce two clashing confirmed stays |
| IcalController.FirstMatch | server/controllers/icalController.js:21-22 | `updateOne` touches the first document matching the filter, and none is found only when no document matches |
| IcalController.NewBlocked | server/controllers/icalController.js:21-33 | an upserted document matches its own filter |
| IcalController.Refresh | server/controllers/icalController.js:21-31 | the `$set` of an upsert keeps the id and every path it does not set, and leaves a document matching the filter with the Airbnb guest and the event location |
| IcalController.Step | server/controllers/icalController.js:19-36 | a non-VEVENT changes nothing; a VEVENT refreshes the first match in place or appends a new blocked document with the next id; afterwards the filter finds a document |
| IcalController.ImportAll | server/controllers/icalController.js:17-37 | the import only adds documents and only advances the id generator |
| IcalController.ImportPrefix | server/controllers/icalController.js:17-37 | the documents that existed before end as their overlay: each first match of an imported key is refreshed with the last event's location |
| IcalController.ImportNoAppend | server/controllers/icalController.js:21-34 | re-importing events whose keys all exist inserts nothing |
| IcalController.ImportSettles | server/controllers/icalController.js:17-37 | after an import every imported key is present and its document is settled |
| IcalController.ImportIdempotent | server/controllers/icalController.js:17-37 | importing the same feed twice leaves the same documents as importing it once |
| IcalController.ImportLeavesOthers | server/controllers/icalController.js:21-22 | documents whose key no event carries are unchanged |
| IcalController.ImportWritesEvent | server/controllers/icalController.js:24-31 | every VEVENT leaves a `blocked`, `airbnb`, "Airbnb Guest" document for its stay, with the location of the last such event (default "Airbnb") |
| IcalController.ImportKeepsIds | server/controllers/icalController.js:21-34 | the import keeps ids unique and below the generator |
| IcalController.ImportAirbnbICal | server/controllers/icalController.js:7-42 | a missing URL gives 400, a failed download 500, both without change; otherwise the store becomes `ImportAll` of the VEVENTs and the reply counts them |
| IcalController.Upsert | server/controllers/icalController.js:21-34 | one upsert is one `Step` of the import |
| IcalController.GetBlockedDates | server/controllers/icalController.js:64-84 | exactly the ranges of the bookings with status confirmed, pending_downpayment or blocked at the location (any location when none is given), one per booking, in store order |
| IcalController.FeedDivergesFromCheck | server/controllers/icalController.js:68 | a downpayment-paid booking holds the slot for the server check yet is missing from the feed; a `blocked` one is in the feed yet holds no slot |
| UpdateBookingTimes.Restamp | server/updateBookingTimes.js:38-53 | both times move to 12:00 and 11:00 of their own local day; nothing else changes |
| UpdateBookingTimes.NeedsUpdate | server/updateBookingTimes.js:46-53 | a stay needs an update iff one of its times differs from its 12:00/11:00 stamp |
| UpdateBookingTimes.Saved | server/updateBookingTimes.js:55-62 | the save is attempted and the re-stamped document passes validation |
| UpdateBookingTimes.Migrated | server/updateBookingTimes.js:38-62 | the stored document after its turn: re-stamped when saved, otherwise untouched |
| UpdateBookingTimes.UpdateTimes | server/updateBookingTimes.js:33-66 | every booking is replaced by its migrated form, and the count is the number of saves that pass validation |
| UpdateBookingTimes.MigratedTimes | server/updateBookingTimes.js:55-58 | a saved booking has 12:00/11:00 times on its original days |
| UpdateBookingTimes.RerunIsNoOp | server/updateBookingTimes.js:45-53 | a second run changes nothing and counts 0 |
| UpdateBookingTimes.BlockedNeverMigrated | server/updateBookingTimes.js:55-62 | imported `blocked` records fail `save()` and are never re-stamped |
| UpdateBookingTimes.SameDayStayNotSaved | server/updateBookingTimes.js:55-62 | a stay within one local day would become 12:00→11:00, so its `save()` fails and it is never counted |
| CalendarView.MapApiRanges | client/src/components/CalendarView.jsx:55-61 | API ranges map one-to-one, in order, with the same start and end |
| CalendarView.Calendar.LoadAvailability | client/src/components/CalendarView.jsx:45-76 | a successful fetch replaces the ranges and clears the error; a failed one keeps the ranges and sets the error; loading ends either way |
| CalendarView.HandleDateChangeInternal | client/src/components/CalendarView.jsx:89-94 | the picker's pair is forwarded unchanged |
| CalendarView.DayClassName | client/src/components/CalendarView.jsx:121-144 | fully booked iff the day is some stay's check-in day and some stay's check-out day; partial iff exactly one holds |
| CalendarView.Classify | client/src/components/CalendarView.jsx:121-144 | red when the day is both a check-in and a check-out day, yellow when it is one of them, otherwise unmarked |
| CalendarView.ClassifyIgnoresOrder | client/src/components/CalendarView.jsx:126-132 | the class depends only on which ranges are present, not on their order |
| CalendarView.InteriorDayUnmarked | client/src/components/CalendarView.jsx:138-143 | days strictly inside a stay get no class |
| CalendarView.TurnoverDayFullyBooked | client/src/components/CalendarView.jsx:134-136 | a day where one stay ends and another starts is fully booked |
| CalendarView.ExcludeIntervals | client/src/components/CalendarView.jsx:148-163 | one interval per range, same start, ending 1 ms before the local midnight of the check-out day |
| CalendarView.AdjustedEnd | client/src/components/CalendarView.jsx:153-155 | 1 ms before local midnight of the check-out day, which is the last instant of the day before |
| CalendarView.CheckOutDayNotExcluded | client/src/components/CalendarView.jsx:153-155 | no instant of the check-out day is excluded |
| CalendarView.AdjustedEndWithinStay | client/src/components/CalendarView.jsx:153-155 | for a stay ending on a later day, the adjusted end is ≥ the start and < the original end |
| CalendarView.IsDayAvailable | client/src/components/CalendarView.jsx:97-119 | false iff some range overlaps [00:00, 11:59:59.999] of that day |
| CalendarView.MorningFilterOnStampedStays | client/src/components/CalendarView.jsx:97-119 | on a 12:00→11:00 stay the morning filter greys the check-out day but not the check-in day |
| BookingCard.Nights | client/src/components/BookingCard.jsx:26-28 | 0 iff a date is missing; 1 for any stay shorter than a day and a half (the clamp `max(1, …)`); otherwise the day count rounded to the nearest whole day |
| BookingCard.NightsOfWholeDays | client/src/components/BookingCard.jsx:26-28 | a stay of k whole days counts k nights |
| BookingCard.NightsOfStampedStay | client/src/components/BookingCard.jsx:26-28 | a stay stamped 12:00 on check-in and 11:00 on a later check-out day counts one night per calendar day between them; the 23-hour one-night stay counts 1 |
| BookingCard.Surcharge | client/src/components/BookingCard.jsx:31-33 | zero up to the guest limit; with a positive fee and nights, positive exactly above it |
| BookingCard.Total | client/src/components/BookingCard.jsx:36-37 | 0 with no nights; never below the base total; equal to it up to the guest limit |
| BookingCard.TotalMonotoneInGuests | client/src/components/BookingCard.jsx:31-37 | more guests never cost less |
| BookingCard.ExtraGuestAddsFeePerNight | client/src/components/BookingCard.jsx:31-33 | each guest over the limit adds exactly one fee per night |
| BookingCard.GuestOptions | client/src/components/BookingCard.jsx:47-57 | 16 options with values 1..16 in order; the label is plural iff the value exceeds 1 |
| BookingCard.ButtonLabel | client/src/components/BookingCard.jsx:104 | "Reserve" iff both dates are set, otherwise "Check availability" |
| BookingCard.PricingShownWithReserve | client/src/components/BookingCard.jsx:104-108 | the pricing block shows exactly when the button reads "Reserve" |
| BookingOptionsMenu.DefaultRate | client/src/components/BookingOptionsMenuModal.jsx:48 | the location price unless it is missing or 0, then 12000 |
| BookingOptionsMenu.RatePerNight | client/src/components/BookingOptionsMenuModal.jsx:54-67 | the default rate until a check-in is chosen; then 10000 iff it is a Friday, Saturday or Sunday, otherwise 12000 |
| BookingOptionsMenu.RateDependsOnlyOnCheckInDay | client/src/components/BookingOptionsMenuModal.jsx:58-65 | once a check-in is chosen, the rate depends only on its local day, not on the location |
| BookingOptionsMenu.WeekdayShift | client/src/components/BookingOptionsMenuModal.jsx:59 | moving the check-in by k days moves its weekday by k (mod 7) |
| BookingOptionsMenu.WeekendRunsFridayToSunday | client/src/components/BookingOptionsMenuModal.jsx:60-64 | from a Friday, three days at the weekend rate, then four at the weekday rate |
| BookingOptionsMenu.NumGuestsChange | client/src/components/BookingOptionsMenuModal.jsx:162-164 | at least 1; the parsed value when it is ≥ 1, otherwise 1 |
| BookingOptionsMenu.ScanRange | client/src/components/BookingOptionsMenuModal.jsx:116-131 | the scan finds a red day iff one exists, and two adjacent yellow days iff they exist |
| BookingOptionsMenu.WarningReduces | client/src/components/BookingOptionsMenuModal.jsx:144-148 | when the end cells are the range's first and last days, the warning is: a red day, or two adjacent yellow days |
| BookingOptionsMenu.YellowEndsNotFlagged | client/src/components/BookingOptionsMenuModal.jsx:144-148 | a range with yellow ends and a plain day between them is not flagged |
| BookingOptionsMenu.RedInsideFlagged | client/src/components/BookingOptionsMenuModal.jsx:117-119 | a red day inside the range always raises the warning |
| BookingOptionsMenu.ShouldWarn | client/src/components/BookingOptionsMenuModal.jsx:144-148 | red/red, red/yellow or yellow/red end cells, or, with both dates set, a red day or two adjacent yellow days in the range; WarningReduces gives the simple form |
| BookingOptionsMenu.OptionsMenu.NumberOfNights | client/src/components/BookingOptionsMenuModal.jsx:167-169 | the modal's night count is 0 until both dates are chosen, and positive after |
| BookingOptionsMenu.OptionsMenu.EstimatedTotal | client/src/components/BookingOptionsMenuModal.jsx:170-172 | never below the base total; equal to it up to 10 guests |
| BookingOptionsMenu.OptionsMenu.constructor | client/src/components/BookingOptionsMenuModal.jsx:26-51 | no dates, one guest, the default rate, no warning, no houses |
| BookingOptionsMenu.OptionsMenu.Open | client/src/components/BookingOptionsMenuModal.jsx:39-51 | re-opening clears the dates and guests and restores the default rate; the warning flag and houses are kept |
| BookingOptionsMenu.OptionsMenu.UpdateRate | client/src/components/BookingOptionsMenuModal.jsx:54-67 | the rate becomes `RatePerNight` of the current check-in; nothing else changes |
| BookingOptionsMenu.OptionsMenu.HandleDateChange | client/src/components/BookingOptionsMenuModal.jsx:69-156 | stores both dates and sets the warning flag to the red/yellow rule |
| BookingOptionsMenu.OptionsMenu.HandleNumGuestsChange | client/src/components/BookingOptionsMenuModal.jsx:162-164 | stores `NumGuestsChange`; nothing else changes |
| BookingOptionsMenu.OptionsMenu.FetchHouses | client/src/components/BookingOptionsMenuModal.jsx:175-201 | for Tagpopongan with both dates and no warning, the fetched houses with the first preselected, or an error; otherwise none |
| BookingOptionsMenu.OptionsMenu.ProceedClick | client/src/components/BookingOptionsMenuModal.jsx:203-230 | the dates alert when a date is missing, else the fully-booked alert when the range is flagged, else the house alert when Tagpopongan lacks a chosen house; otherwise the payload of dates, guests, rate, total, nights, and the house only for Tagpopongan |
| BookingOptionsMenu.OptionsMenu.FlaggedRangeBlocksProceed | client/src/components/BookingOptionsMenuModal.jsx:175-215 | after a date change that raises the warning and the houses effect that follows it, "Proceed" answers the fully-booked alert and the house list is empty |
| BookingForm.InitialFormData | client/src/components/BookingForm.jsx:21-28 | empty text fields, the handed-in guest count, the first house only when the select is shown |
| BookingForm.NumberValue | client/src/components/BookingForm.jsx:42 | the field keeps a count iff the input parsed to a non-zero number; 0 and NaN leave it empty |
| BookingForm.ApplyEdit | client/src/components/BookingForm.jsx:44-47 | a change writes only its own field |
| BookingForm.ClearErrors | client/src/components/BookingForm.jsx:50-56 | the edited field's error is cleared, and the dates error too for name, e-mail or phone; every other error is kept |
| BookingForm.ClearErrorsIdempotent | client/src/components/BookingForm.jsx:50-56 | repeating the same change clears nothing more |
| BookingForm.RunChecks | client/src/components/BookingForm.jsx:64-82 | each check fails exactly under its condition; the e-mail format is tested only on a non-blank e-mail |
| BookingForm.FillErrors | client/src/components/BookingForm.jsx:61-85 | a key is present iff its check failed, carrying that check's message (required or invalid format for the e-mail); never a key for the requests or the house; the dictionary is empty iff all passed |
| BookingForm.Reports | client/src/components/BookingForm.jsx:61-85 | what the displayed dictionary holds for a form: a key exactly for each failed check with that check's message, and no other key |
| BookingForm.ReportsDetermines | client/src/components/BookingForm.jsx:61-85 | a form has one reporting dictionary: two dictionaries that report the same form are equal |
| BookingForm.ReportsNothingIffValid | client/src/components/BookingForm.jsx:84-85 | a reporting dictionary is empty exactly when the form is valid |
| BookingForm.CollectErrors | client/src/components/BookingForm.jsx:60-86 | the dictionary is empty iff the form is valid and reports the form: each key present exactly under its condition, with its message, and no other key |
| BookingForm.Form.constructor | client/src/components/BookingForm.jsx:21-29 | the initial form data and no errors |
| BookingForm.Form.SyncGuestCount | client/src/components/BookingForm.jsx:34-36 | only the guest count follows the prop |
| BookingForm.Form.HandleChange | client/src/components/BookingForm.jsx:39-57 | the data becomes `ApplyEdit` and the errors `ClearErrors` |
| BookingForm.Form.ValidateForm | client/src/components/BookingForm.jsx:60-86 | valid iff the form meets every condition iff no error is recorded; the stored errors report the form, key by key and message by message |
| BookingForm.Form.HandleSubmit | client/src/components/BookingForm.jsx:89-99 | submits the current data exactly when the form is valid; the errors left behind report the form key by key and message by message |
| BookingPage.TableKeyedBySlug | client/src/pages/BookingPage.jsx:27-66 | each location is filed under its own slug, Tagpopongan included |
| BookingPage.LookupSlug | client/src/pages/BookingPage.jsx:107-115 | found iff the lower-cased slug is a key of the table, and then that entry |
| BookingPage.LookupIgnoresCase | client/src/pages/BookingPage.jsx:109 | slugs differing only in case find the same location |
| BookingPage.PaymentPayload | client/src/pages/BookingPage.jsx:169-190 | the form's fields, times stamped 12:00/11:00 on the chosen days, a downpayment of 30% of the total, a house only for Tagpopongan |
| BookingPage.PayloadIgnoresFormCountAndHouse | client/src/pages/BookingPage.jsx:178-188 | the form's own guest count and house are overwritten by the page's |
| BookingPage.PayloadStayOrder | client/src/pages/BookingPage.jsx:170-173 | the stamped stay is non-empty iff check-out is on a later day; stamping twice changes nothing |
| BookingPage.Page.constructor | client/src/pages/BookingPage.jsx:85-98 | no selection, one guest, zero total and nights, no location |
| BookingPage.Page.LoadSlug | client/src/pages/BookingPage.jsx:107-124 | an unknown slug sets the error, clears the location and changes nothing else (selections, total, nights, status, both modals); a known one loads the location and resets them |
| BookingPage.Page.HandleOptionsSelected | client/src/pages/BookingPage.jsx:140-151 | copies the modal's choices, a falsy house as none, and moves from the options modal to the form |
| BookingPage.Page.HandleFinalFormSubmit | client/src/pages/BookingPage.jsx:154-201 | the session error when dates or location are missing; otherwise closes the form, clears an error status, keeps any other status, and navigates with `PaymentPayload`; the options modal and the selections never change |
| PaymentOptions.AcceptIncoming | client/src/pages/PaymentOptionsPage.jsx:35-57 | the details are kept iff present with a total, a check-in, a guest name and a location name; otherwise the matching error |
| PaymentOptions.FromBookingPage | client/src/pages/BookingPage.jsx:176-190 | the booking page's data arrives with every field present |
| PaymentOptions.BookingPageDataAccepted | client/src/pages/PaymentOptionsPage.jsx:40-46 | what the booking page sends is accepted once the guest and location names are non-empty |
| PaymentOptions.TotalShown | client/src/pages/PaymentOptionsPage.jsx:161 | the total as sent, or 0 when it is missing |
| PaymentOptions.Downpayment | client/src/pages/PaymentOptionsPage.jsx:162 | the downpayment is 30% of the total shown |
| PaymentOptions.Remaining | client/src/pages/PaymentOptionsPage.jsx:197 | the balance is 70% and adds up with the downpayment to the total |
| PaymentOptions.DownpaymentAgrees | client/src/pages/PaymentOptionsPage.jsx:161-162 | the downpayment shown equals the one the booking page computed |
| PaymentOptions.DataForBackend | client/src/pages/PaymentOptionsPage.jsx:96-110 | 13 keys in order; the house only for Tagpopongan; the status travels as `paymentStatus`, never as `status` |
| PaymentOptions.BuildFormData | client/src/pages/PaymentOptionsPage.jsx:113-117 | the body is the defined entries in order, then the receipt; no undefined value is sent |
| PaymentOptions.BodyKeepsDefinedInOrder | client/src/pages/PaymentOptionsPage.jsx:114-116 | the defined entries are a subsequence of the object's entries, and every defined entry is kept |
| PaymentOptions.MessageOr | client/src/pages/PaymentOptionsPage.jsx:132-136 | `message \|\| fallback`: a non-empty message is shown, a missing or empty one gives the fallback; the result is empty only when both are |
| PaymentOptions.StatusAfter | client/src/pages/PaymentOptionsPage.jsx:126-136 | an error line iff the server did not answer with success; a non-empty server or error message is shown, a missing or empty one falls back to the fixed text |
| PaymentOptions.PaymentPage.constructor | client/src/pages/PaymentOptionsPage.jsx:26-57 | the accepted details, or the entry error, with no method or receipt chosen |
| PaymentOptions.PaymentPage.SelectPaymentMethod | client/src/pages/PaymentOptionsPage.jsx:73-76 | stores the method and clears the status |
| PaymentOptions.PaymentPage.SelectReceipt | client/src/pages/PaymentOptionsPage.jsx:78-81 | stores the receipt only |
| PaymentOptions.PaymentPage.ConfirmAndPay | client/src/pages/PaymentOptionsPage.jsx:83-140 | sends iff a method, details and a receipt are present, with the matching error otherwise; the body is `BuildFormData` of `DataForBackend`; after a send the status line is exactly `StatusAfter` of the answer and `isConfirming` is false again |
| AdminDashboard.ApiUrl | client/src/pages/AdminDashboard.jsx:6 | the configured URL unless it is unset or empty, then the local server |
| AdminDashboard.BackendUrl | client/src/pages/AdminDashboard.jsx:7 | one trailing `/api` is removed: appending `/api` back gives the API URL; other URLs are kept |
| AdminDashboard.ReceiptUrl | client/src/pages/AdminDashboard.jsx:196-200 | "" for a missing or empty path, an `http` URL as it is, anything else prefixed with the backend |
| AdminDashboard.UploadedReceiptResolves | client/src/pages/AdminDashboard.jsx:196-200 | a stored `/uploads/<file>` opens at `http://localhost:5001/uploads/<file>` by default |
| AdminDashboard.ReceiptLinkIsAbsolute | client/src/pages/AdminDashboard.jsx:196-200 | with an `http` backend every link is empty or absolute |
| AdminDashboard.FilteredBookings | client/src/pages/AdminDashboard.jsx:71-78 | a subsequence of the bookings holding exactly those at the selected location, with the status filter, whose name or e-mail contains the search ignoring case |
| AdminDashboard.LocationBookings | client/src/pages/AdminDashboard.jsx:81 | a subsequence holding exactly the bookings of the selected location (all when none is selected) |
| AdminDashboard.StatusCount | client/src/pages/AdminDashboard.jsx:84 | counted over the selected location's bookings only |
| AdminDashboard.UnfilteredTableIsLocationBookings | client/src/pages/AdminDashboard.jsx:71-81 | with no status filter and no search, the table lists exactly the bookings the summary counts |
| AdminDashboard.CardCountMatchesTable | client/src/pages/AdminDashboard.jsx:71-84 | a summary card's count equals the table's length once the status filter is set to that status |
| AdminDashboard.RevenueSplit | client/src/pages/AdminDashboard.jsx:85-89 | revenue is the sum of the confirmed totals plus the sum of the paid downpayments, with a missing amount counted as 0 |
| AdminDashboard.RevenueOf | client/src/pages/AdminDashboard.jsx:85-89 | the `reduce` adding the total of each confirmed booking and the downpayment of each downpayment-paid one, a missing amount as 0 |
| AdminDashboard.TotalRevenue | client/src/pages/AdminDashboard.jsx:81-89 | over the selected location only, the confirmed totals plus the paid downpayments; never negative when no stored amount is |
| AdminDashboard.RevenueNonNegative | client/src/pages/AdminDashboard.jsx:85-89 | no negative amount stored means no negative revenue |
| AdminDashboard.CancelNeverRaisesRevenue | client/src/pages/AdminDashboard.jsx:165 | cancelling never raises the revenue shown |
| AdminDashboard.AvailableActions | client/src/pages/AdminDashboard.jsx:707-730 | Confirm iff pending downpayment, Full payment iff downpayment paid, Cancel iff not cancelled |
| AdminDashboard.ActionsFollowLifecycle | client/src/pages/AdminDashboard.jsx:707-730 | confirm and full payment are never offered together; each action leads to a status offering the next; a cancelled booking offers nothing |
| AdminDashboard.Dashboard.constructor | client/src/pages/AdminDashboard.jsx:18-24 | the loaded bookings, the `calinan` tab, no status filter and no search |
| AdminDashboard.Dashboard.Shown | client/src/pages/AdminDashboard.jsx:71-78 | the rows are exactly the loaded bookings that pass the current filters |
| AdminDashboard.Dashboard.ApplyStatus | client/src/pages/AdminDashboard.jsx:130-169 | declined or thrown: no change; otherwise the id-matched status update, whatever the server replied |
| AdminDashboard.Dashboard.HandleConfirm | client/src/pages/AdminDashboard.jsx:130-141 | the update to `downpayment_paid` |
| AdminDashboard.Dashboard.HandleFullPayment | client/src/pages/AdminDashboard.jsx:144-155 | the update to `confirmed` |
| AdminDashboard.Dashboard.HandleCancel | client/src/pages/AdminDashboard.jsx:158-169 | the update to `cancelled` |
| LocationDetail.DropSpaces | client/src/components/LocationDetailModal.jsx:36 | consumes one whole `\s+` run: the dropped prefix is all white space and the rest starts with none |
| LocationDetail.DashRuns | client/src/components/LocationDetailModal.jsx:36 | the result has no white space, is no longer than the input, and holds only `-` and input characters |
| LocationDetail.DashRunsKeepsWords | client/src/components/LocationDetailModal.jsx:36 | a string without white space is unchanged |
| LocationDetail.RunBecomesOneDash | client/src/components/LocationDetailModal.jsx:36 | two words around a white-space run of any length are joined by exactly one `-` |
| LocationDetail.Slugify | client/src/components/LocationDetailModal.jsx:36 | the fallback slug has no white space and no upper-case letter |
| LocationDetail.SlugifyIdempotent | client/src/components/LocationDetailModal.jsx:36 | slugging a slug changes nothing |
| LocationDetail.SlugFor | client/src/components/LocationDetailModal.jsx:36 | a set slug is used verbatim; otherwise the fallback from the name |
| LocationDetail.TargetPath | client/src/components/LocationDetailModal.jsx:37 | `/book/` followed by the slug |
| LocationDetail.HandleBookNow | client/src/components/LocationDetailModal.jsx:34-41 | the modal is closed first, then the booking path is opened |
| LocationDetail.CardLink | client/src/components/LocationsSection.jsx:55 | a card links to `/book/` followed by its slug as it is |
| LocationDetail.BookNowReachesBookingPage | client/src/components/LocationsSection.jsx:11-24 | both landing-page cards link to the path "Book now" would open for them, and the booking page finds the card's location from it; the capitalised `Tagpopongan` slug is lower-cased there |

## Left out

- Express routing, `req`/`res` plumbing, CORS, the socket.io `bookingCreated` emit, multer storage, the JWT login and `requireAdmin` middleware, CSV export (json2csv) and iCal export (ical-generator). These are transport and foreign libraries. Each handler is a function or method returning its status code.
- `getAvailability` and `getAllBookings` are not modelled. They are single queries feeding the calendar and the dashboard.
- The Airbnb feed is downloaded with node-fetch and parsed with node-ical. The model takes the parsed events as input, and a failed download as `None`.
- Database errors, ObjectId cast errors, connection open/close and `process.exit` are left out. Only the validation failure of `save()` is modelled.
- The check-then-create of `createBooking` is not atomic. Concurrent requests, and therefore races between the check and the insert, are not modelled.
- Date strings and `toISOString` are not parsed or printed. Instants are integers, and local time is a fixed UTC+8 offset with no daylight saving.
- Amounts use `real` instead of IEEE doubles, so `total * 0.30` is exact and rounding in `toLocaleString` is not modelled.
- Lower-casing covers ASCII letters only, and `\s` covers the six ASCII white-space characters. Unicode case and spacing are not modelled.
- The DOM: `handleDateChange` reads the classes of calendar cells found by their day number. The model takes those classes as inputs. Looking up cells across months, by text content, is not modelled.
- Select values arrive as strings in the browser. The house select is modelled as the chosen number.
- Errors cleared to `null` are modelled as removed keys. `Object.keys` would still list them, so the model's "no errors" is weaker than the source's after a change.
- Success, failure and alert message texts are simplified where they embed ids or amounts.
- The loading flags `isSubmitting` and `exporting`, and the receipt preview, are not modelled. `isConfirming` is modelled only as being false again once `handleConfirmAndPay` has finished; the disabled button while it is true is not.
- `BookingController.Missing`: `None` stands for both `undefined` and `null`. The source's `typeof totalPrice === 'undefined'` test lets a `null` amount through to the schema, which the model reports as missing details instead.
- `BookingPage.LookupSlug`: the table is a map of its three slugs. In the source, `allLocationsData[normalizedSlug]` is also truthy for inherited keys such as `constructor` and `__proto__`, so those slugs would load a non-location object; the model reports them as not found.
- `AdminDashboard.Dashboard.ApplyStatus`: does not model the `fetch` reply. A resolved request counts as success whatever its status code; only a thrown request leaves the table unchanged, as in the source.
- `BookingOptionsMenu.ScanRange`: takes the range's cells as given. It does not model the filter that selects them by day number within one month.
