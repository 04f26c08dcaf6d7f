# Booking engine model

A Dafny model of the booking core of a Django appointment-booking service. Businesses publish services,
staff and opening hours. Customers and guests book slots, sometimes against a deposit paid via PayFast.
Owners and staff confirm, decline, complete or reschedule appointments. A periodic sweep sends reminders,
completes past sessions and cancels unpaid holds.

The modules follow the application's files:

| module | file | models |
|---|---|---|
| `Common`, `Strings`, `Calendar` | `common.dfy`, `strings.dfy`, `calendar.dfy` | options and results, the Python string and integer operations the code relies on, proleptic Gregorian ordinals and weekdays |
| `Models` | `models.dfy` | appointment statuses, `Appointment.save`, `end_time`, the slug and embed-token loops |
| `Deposit` | `deposit.dfy` | `calculate_deposit_amount`, the deposit line of manual booking, the booking terms of both booking views |
| `Availability` | `availability.dfy` | `get_available_times`: slot grid, today start, the conflict scan with buffer and group sessions, staff blocks, capacity |
| `Scheduler` | `scheduler.dfy` | `trigger_pending_reminders`, `send_reminder_batch`, `process_auto_completions`, `cleanup_expired_appointments` over an array of appointments |
| `Lifecycle` | `lifecycle.dfy` | the views that change appointments and subscriptions, as methods of a `Store` class |
| `Payfast` | `payfast.dfy` | merchant credential checks |
| `CalendarView` | `calendar_view.dfy` | the day, week and month ranges and the month grid of the master calendar |
| `Forms` | `forms.dfy` | the past-booking check of the appointment form |
| `Middleware` | `middleware.dfy` | the deactivated-staff gate, client IP and the home-page visitor log |
| `Filters`, `EmailExtras` | `filters.dfy`, `email_extras.dfy` | the template filters and email placeholder rendering |

Representation choices:

- **Time.** Time is one local clock counted in whole minutes.
  - A date is its Python ordinal (`date.toordinal()`). The weekday is `(ordinal + 6) % 7`, with Monday as 0.
  - A time of day is a minute in 0..1439. An instant is `ordinal * 1440 + minute`.
  - "Now" is always a parameter.
- **Money.** Money is integer cents. Python's `Decimal` rounding to two places is modelled as round-half-even on cents.
- **Store.** `Lifecycle.Store` holds the database tables the views touch:
  - appointments as a sequence, where the primary key is the index plus one;
  - businesses as a map. A business's one booking form is reduced to a flag saying whether it exists, and an appointment's `booking_form` to the business it belongs to;
  - staff as a map keyed by staff id, staff blocks, and the set of deposit-exempt clients.
- **Sweeps.** The scheduler sweeps work in place on an `array<Appointment>`.
- **Oracles.** These calls become parameters:
  - the random token generator is a sequence of draws;
  - `slugify` gives the base slug;
  - the new session key is passed in;
  - whether a reminder email was sent is a set of (index, kind) pairs.

Behaviour of the code worth knowing:

- **Buffer on both sides.** The buffer is applied on both sides of an existing appointment. With a 15-minute buffer, a 10:00–10:30 appointment and a requested slot of 30 minutes, 09:30 and 10:30 are refused while 09:15 and 10:45 are allowed (`Availability.BufferBothSides`).
- **Wrong length for overlaps.** The overlap uses the service's current `default_length_minutes`, not the appointment's `length_minutes` snapshot.
- **Two expiry periods.** An unpaid pending booking holds its slot for 2 hours in availability, but the cleanup cancels it after 10 minutes.
- **Auto-completion.** Auto-completion fires 2 hours after the start, whatever the length.
- **No conflict re-check on payment.** Confirming a deposit by payment notification does no conflict re-check.
- **No state guards.** Owner confirm/decline and customer or guest cancel work from any status.
- **Manual booking deposit.** Manual booking ignores `deposit_type` and always takes a percentage, defaulting to 100 %.
- **Rescheduling.**
  - Rescheduling checks availability with the appointment itself still holding its slot.
  - A late reschedule creates the new request with one attendee.
- **Status update permission.** `update_appointment_status` lets any staff user through, not only the business's.
- **Self-referral.** A business that refers itself has its subscription extended once: the business row is written last.
- **Global staff lookup.** The staff lookup in availability is global, not restricted to the business.

## Model

| member | source | states |
|---|---|---|
| Models.ParseStatus | bookingApp/models.py:113-120 | a key is accepted exactly when it is one of the six status keys, and maps back to that key |
| Models.Save | bookingApp/models.py:139-143 | with a service the length becomes the service's default length; nothing else changes; without a service nothing changes |
| Models.EndTime | bookingApp/models.py:145-149 | the end time of day is start plus length modulo a day; equal to start plus length when that fits the day; wraps below the start otherwise |
| Models.CandidatesDistinct | bookingApp/models.py:38-47 | the slug tried at step n differs from every slug tried before it |
| Models.CandidatesBelowSize | bookingApp/models.py:38-47 | before step n exactly n distinct slugs have been tried, which bounds the loop by the number of taken slugs |
| Models.SaveSlug | bookingApp/models.py:38-47 | a set slug is kept; otherwise the result is not taken and is the first candidate whose predecessors are all taken |
| Models.SaveEmbedToken | bookingApp/models.py:89-96 | a set token is kept; otherwise the result is the first random draw not in use, or nothing when every draw is in use |
| Deposit.RoundToCents | bookingApp/utils.py:366-379 | the rounded amount is within half a cent of the exact value, and ties go to the even cent |
| Deposit.RoundToCentsUnique | bookingApp/utils.py:366-379 | any value meeting those two conditions is the rounding, so the rounding is uniquely determined |
| Deposit.RoundToCentsExact | bookingApp/utils.py:366-379 | a whole number of cents rounds to itself |
| Deposit.CalculateDeposit | bookingApp/utils.py:366-379 | no deposit when not required; the fixed amount for fixed deposits; nothing for a missing or zero price; otherwise the percentage of the price rounded to the nearest cent, ties to the even cent |
| Deposit.FullPercentageIsPrice | bookingApp/utils.py:374-377 | a 100 % deposit is the full price |
| Deposit.PercentageDepositBounded | bookingApp/utils.py:374-377 | a percentage between 0 and 100 of a non-negative price gives a deposit between 0 and the price |
| Deposit.ManualDeposit | bookingApp/views.py:2108-2114 | no service price gives 0; percentage 0 is read as 100 %; otherwise the percentage of the price rounded to the nearest cent, ties to the even cent |
| Deposit.ManualDepositDefaultFull | bookingApp/views.py:2108-2114 | the default manual deposit is the whole price |
| Deposit.ManualDepositIgnoresKind | bookingApp/views.py:2108-2114 | manual booking charges the full price where online booking charges the fixed amount |
| Deposit.OnlineBookingTerms | bookingApp/views.py:1128-1147 | exempt clients are confirmed as paid with nothing to pay; others are pending, unpaid, owing the calculated deposit; payment is required exactly for a non-exempt client of a deposit business with a positive amount |
| Deposit.PaymentExcludesConfirmation | bookingApp/views.py:1128-1147 | a booking that requires payment is pending and unpaid, and a confirmed one owes nothing and counts as paid |
| Deposit.ManualBookingTerms | bookingApp/views.py:2095-2146 | with a deposit needed the booking is pending and owes the manual deposit; otherwise it is confirmed, paid and owes nothing |
| Availability.ResolveStaff | bookingApp/utils.py:40-44 | empty and null markers mean no staff; text that is not an integer is an error; integer text gives the staff member with that id, or none when no staff member has it |
| Availability.ResolveStaffById | bookingApp/utils.py:40-44 | a non-zero id resolves to that staff member when present and to no staff otherwise |
| Availability.ResolveHours | bookingApp/utils.py:43-51 | the staff member's hours for the day key when they exist, else the business's, else none |
| Availability.SearchInterval | bookingApp/utils.py:55-61 | the step is 15 minutes, or the buffer when that is positive and smaller |
| Availability.NextHour | bookingApp/utils.py:76-79 | the next full hour strictly after now and at most an hour later |
| Availability.EffectiveStart | bookingApp/utils.py:65-81 | the scan starts at opening time, or at the next full hour when the date is today and that is later |
| Availability.GridFrom | bookingApp/utils.py:84-86 | every potential slot starts at or after the start and ends by closing time, and the slots increase strictly |
| Availability.GridSpacing | bookingApp/utils.py:84-86 | the i-th potential slot is the start plus i steps |
| Availability.GridMembers | bookingApp/utils.py:84-86 | every potential slot fits before closing and is the start plus a whole number of steps |
| Availability.GridComplete | bookingApp/utils.py:84-86 | every start plus a whole number of steps whose session ends by closing time is a potential slot |
| Availability.ScanStep | bookingApp/utils.py:116-133 | an appointment without a service raises; a conflict blocks; the same service at the same start adds its attendees; an appointment outside the buffered range changes nothing |
| Availability.ScanCharacterised | bookingApp/utils.py:112-133 | the scan blocks exactly when some appointment conflicts, and otherwise sums the attendees of the same session |
| Availability.ScanFailsOnFirst | bookingApp/utils.py:116-118 | a serviceless first appointment makes availability raise, whether or not it overlaps the slot |
| Availability.Relevant | bookingApp/utils.py:89-100 | the appointments considered are those of the date, for the staff member if one is chosen and otherwise for the business, that are confirmed, reschedule-requested, or pending and created within 2 hours |
| Availability.RelevantAppend | bookingApp/utils.py:97-100 | the filter keeps the rows' order: filtering two stretches of rows one after the other gives the filter of the whole |
| Availability.BlocksFor | bookingApp/utils.py:102 | staff blocks count only with a staff member, and then exactly that member's blocks on the date |
| Availability.JudgeAdmissible | bookingApp/utils.py:107-148 | with every appointment carrying a service, a slot is kept exactly when it has no conflict, its session has room and it misses every staff block |
| Availability.SiftCharacterised | bookingApp/utils.py:107-151 | the filter fails exactly when some slot's scan raises; otherwise it keeps exactly the admissible slots, in increasing order |
| Availability.SiftErrPersists | bookingApp/utils.py:107-151 | once a prefix of the slots raises, the whole filter raises |
| Availability.BlockedDateIsClosed | bookingApp/utils.py:29-31 | a blocked date has no slots, whatever else holds |
| Availability.NoHoursIsClosed | bookingApp/utils.py:47-51 | a day without staff or business hours has no slots |
| Availability.TimesOnGrid | bookingApp/utils.py:62-86 | every returned slot is on the grid, from the effective start in interval steps, fits before closing, and the slots increase strictly |
| Availability.TodayStartsNextHour | bookingApp/utils.py:76-81 | for today no returned slot starts before the next full hour |
| Availability.TimesAreAdmissibleSlots | bookingApp/utils.py:84-151 | the result is exactly the grid slots that are admissible against the relevant appointments, staff blocks and capacity |
| Availability.MissingServiceFails | bookingApp/utils.py:116-118 | a relevant appointment without a service, reached by the scan, makes the call raise |
| Availability.BufferBothSides | bookingApp/utils.py:119-125 | around a 10:00–10:30 booking with a 15-minute buffer, 09:15 and 10:45 are free while 09:30 and 10:30 conflict |
| Availability.SessionFillsUp | bookingApp/utils.py:125-138 | the same session stays bookable until its attendees reach capacity, and the next hour overlapping its buffer is refused |
| Availability.PotentialSlots | bookingApp/utils.py:84-86 | the loop builds exactly the slot grid |
| Availability.ScanExisting | bookingApp/utils.py:112-130 | the loop over existing appointments computes the scan result |
| Availability.HitsStaffBlock | bookingApp/utils.py:141-146 | the loop finds a hit exactly when the slot overlaps a staff block |
| Availability.SiftSlots | bookingApp/utils.py:107-151 | the loop over slots computes the filtered slot list or the failure |
| Availability.GetAvailableTimes | bookingApp/utils.py:21-151 | the whole procedure returns what the specification of availability gives |
| Scheduler.DueIsInWindow | bookingApp/utils.py:190-219 | every appointment due for a reminder is inside the date prefilter, so the prefilter loses nothing |
| Scheduler.NeverBoth | bookingApp/utils.py:209-219 | no appointment is due for both reminders at once |
| Scheduler.Recipient | bookingApp/utils.py:257-263 | there is no recipient exactly when both the customer's and the guest's email are empty |
| Scheduler.MarkSent | bookingApp/utils.py:296-297 | marking sets only the flag of that reminder |
| Scheduler.MarkSentStopsReminder | bookingApp/utils.py:296-297 | once marked, the appointment is no longer due for that reminder; marking twice is marking once; the recipient is unchanged |
| Scheduler.ClassifyReminders | bookingApp/utils.py:186-219 | the two batches hold exactly the indices due for each reminder, in increasing order |
| Scheduler.SendReminderBatch | bookingApp/utils.py:251-302 | each appointment of the batch is marked when its email was sent, and every other appointment is unchanged |
| Scheduler.AutoCompleted | bookingApp/utils.py:233-247 | only the status changes, and it is completed exactly when it was, or when it was confirmed and two hours have passed since the start |
| Scheduler.AutoCompletedIdempotent | bookingApp/utils.py:233-247 | completing twice is completing once |
| Scheduler.CompletionIsInWindow | bookingApp/utils.py:236-240 | an appointment old enough to complete lies on or before today, inside the query's date filter |
| Scheduler.ProcessAutoCompletions | bookingApp/utils.py:233-247 | every appointment becomes its auto-completed form |
| Scheduler.OneReminderPerRun | bookingApp/utils.py:164-231 | a run changes at most one reminder flag of an appointment, and only one that was due |
| Scheduler.TriggerPendingReminders | bookingApp/utils.py:164-231 | every appointment becomes what one run of reminders and completions makes of it |
| Scheduler.CleanedUp | bookingApp/utils.py:472-488 | for a deposit business an expired unpaid pending booking is cancelled and saved; anything else is unchanged |
| Scheduler.CleanupLeavesNoneExpired | bookingApp/utils.py:472-488 | after cleanup nothing is expired, and a second cleanup changes nothing |
| Scheduler.CleanupExpired | bookingApp/utils.py:472-488 | every appointment becomes its cleaned-up form |
| Lifecycle.Extend | bookingApp/views.py:638-643 | a running subscription is extended by one period from its end, a lapsed or missing one from now |
| Lifecycle.ApplySubscription | bookingApp/views.py:632-662 | the business list keeps its keys; the paying business is extended and its referral bonus marked paid when due |
| Lifecycle.SubscriptionTouchesOnlyReferrer | bookingApp/views.py:632-662 | of all other businesses only the referrer changes, by one subscription period, and only when the bonus is due |
| Lifecycle.ReferralPaidAtMostOnce | bookingApp/views.py:645-659 | after one payment the bonus is no longer due, and a second payment leaves every other business unchanged |
| Lifecycle.SelfReferralExtendsOnce | bookingApp/views.py:645-661 | a business that referred itself is extended once and its bonus marked paid |
| Lifecycle.Decide | bookingApp/views.py:998-1023 | "confirm" confirms, "decline" declines, from any status, and anything else changes nothing |
| Lifecycle.ConfirmDeposit | bookingApp/views.py:665-671 | a paid deposit confirms the appointment and marks it paid |
| Lifecycle.ConfirmDepositIdempotent | bookingApp/views.py:665-671 | a repeated payment notification has no further effect |
| Lifecycle.Cancel | bookingApp/views.py:1823-1834 | cancelling sets the status and keeps the payment fields |
| Lifecycle.CancelFreesSlot | bookingApp/views.py:1823-1834 | a cancelled appointment no longer holds its slot in availability |
| Lifecycle.Rebooking | bookingApp/views.py:1735-1775 | the new request is pending and unpaid, owes the deposit, has the new date and time, and keeps the service, staff, customer, business and guest email |
| Lifecycle.Forfeited | bookingApp/views.py:1735-1775 | the old appointment is cancelled in place with its payment kept and the forfeit note appended |
| Lifecycle.Moved | bookingApp/views.py:1781-1786 | an early reschedule moves the same appointment to the new time as pending and keeps its payment |
| Lifecycle.StaffMove | bookingApp/views.py:1372-1391 | the status changes only for that staff member's appointment in the expected status |
| Lifecycle.StaffMovesOwnOnly | bookingApp/views.py:1372-1391 | staff can complete only their own confirmed appointments and confirm only their own pending ones |
| Lifecycle.ParseIdArg | bookingApp/views.py:1372-1391 | a missing id matches nothing, an integer id is that id, and other text raises |
| Lifecycle.Lookup | bookingApp/views.py:1823-1834 | a primary key is found exactly when a row has it |
| Lifecycle.BookedRecord | bookingApp/views.py:1149-1168 | the new row takes the booking terms; a logged-in customer fills an empty guest email; a guest booking has no customer and keeps the guest's details |
| Lifecycle.Store.Book | bookingApp/views.py:1068-1168 | an unknown business is not found; a business without a booking form fails on the save with nothing added; otherwise exactly one row is added with the online terms and its id reported |
| Lifecycle.Store.ManualBook | bookingApp/views.py:2083-2146 | unknown business is not found, someone other than the owner or an admin is forbidden, a business without a booking form is sent back with nothing added, otherwise one confirmed or pending row is added with the manual terms |
| Lifecycle.Store.OwnerDecision | bookingApp/views.py:998-1023 | a missing row is not found, someone other than the owner is forbidden, otherwise the row is decided |
| Lifecycle.Store.PayfastItn | bookingApp/views.py:617-681 | non-POST is refused; an incomplete payment changes nothing; a subscription payment extends the business; a deposit payment confirms the appointment; an unresolvable target is refused with nothing changed |
| Lifecycle.Store.Reschedule | bookingApp/views.py:1685-1811 | the outcome and the new rows are those `RescheduleResult` gives for the old rows; businesses, staff and blocks are unchanged |
| Lifecycle.RescheduleRefusalChangesNothing | bookingApp/views.py:1685-1811 | every outcome other than a move or a rebooking leaves the rows as they were |
| Lifecycle.RescheduleNeedsChecks | bookingApp/views.py:1691-1729 | a move or rebooking needs an existing appointment with a service and a valid form, and a late one needs the forfeit accepted |
| Lifecycle.RescheduleNeedsFreeTime | bookingApp/views.py:1713-1729 | a checked request is moved or rebooked only when the requested time is among the available ones, and rebooked exactly when late |
| Lifecycle.RescheduleLateAppends | bookingApp/views.py:1735-1775 | a late reschedule cancels the old row in place and appends one pending, unpaid request at the requested date and time |
| Lifecycle.RescheduleEarlyMoves | bookingApp/views.py:1781-1786 | an early reschedule moves the appointment to the requested time as pending and leaves every other row alone |
| Lifecycle.Store.CancelByCustomer | bookingApp/views.py:1823-1834 | only the appointment's own customer finds it; a POST cancels it, a GET changes nothing |
| Lifecycle.Store.CancelByGuest | bookingApp/views.py:1840-1867 | a missing appointment is not found; a POST cancels it, a GET changes nothing |
| Lifecycle.Store.StaffAction | bookingApp/views.py:1314-1391 | a user without a staff profile is sent away and a business whose subscription is missing or over shows the locked page, both with nothing changed; otherwise the outcome and rows are those of StaffActionResult |
| Lifecycle.StaffActionResult | bookingApp/views.py:1372-1391 | a malformed id raises with nothing changed; otherwise only the row with the posted id, if any, receives the staff move |
| Lifecycle.Store.UpdateStatus | bookingApp/views.py:2662-2683 | only POST is allowed; a missing row is not found; neither owner nor staff is forbidden; an unknown status is refused; otherwise the status is set |
| Lifecycle.ApplySubscriptionKeepsValid | bookingApp/views.py:632-662 | a subscription payment keeps every business's referrer reference valid |
| Lifecycle.SubscriptionTarget | bookingApp/views.py:632-634 | the business is found exactly from an integer `custom_int1` naming an existing business |
| Lifecycle.DepositTarget | bookingApp/views.py:665-667 | the appointment is found exactly from a non-empty `custom_int1`, else the text after the first dash, read as an integer naming an existing row |
| Lifecycle.DepositIdFromPaymentId | bookingApp/views.py:665-667 | without `custom_int1`, a payment id "APP-" followed by the number of an existing appointment targets that appointment |
| Payfast.ValidateFormat | bookingApp/views.py:702-709 | each of the three messages, in order, exactly for its failing condition, and no message exactly for a numeric id and a key of at least 10 characters |
| Payfast.VerifyCredentials | bookingApp/views.py:713-732 | accepted exactly for a present numeric id and a key of at least 10 characters after stripping |
| Payfast.VerifiedIsWellFormed | bookingApp/views.py:702-732 | verified credentials always pass the format check |
| Payfast.PaddedKeyPassesFormatOnly | bookingApp/views.py:702-732 | a key of nine spaces and one letter passes the format check but fails verification |
| CalendarView.WeekRange | bookingApp/views.py:2472-2477 | the week starts on the Monday on or before the date and ends six days later |
| CalendarView.WeekDates | bookingApp/views.py:2479-2480 | the seven header dates run from Monday to Sunday |
| CalendarView.WeekRangeStable | bookingApp/views.py:2472-2477 | every day of a week gives the same week |
| CalendarView.MonthRange | bookingApp/views.py:2482-2491 | the range contains the date and spans exactly the days of its month |
| CalendarView.ScaleRange | bookingApp/views.py:2472-2512 | a week scale gives the Monday-to-Sunday week around the date, a month scale the date's month, and any other scale the date alone |
| CalendarView.MonthGrid | bookingApp/views.py:2493-2506 | the grid is the blanks up to the first day's weekday followed by the days of the month in order |
| CalendarView.GridColumnsAreWeekdays | bookingApp/views.py:2493-2506 | each day of the grid falls in the column of its weekday |
| Forms.Clean | bookingApp/forms.py:84-99 | the form rejects a date and time strictly before now, with its message, and otherwise returns the data unchanged |
| Forms.StartingNowIsAccepted | bookingApp/forms.py:96 | a booking that starts exactly now passes, because the comparison is strict |
| Forms.ClearlyPastIsRefused | bookingApp/forms.py:89-97 | a booking a minute in the past is refused, and a request missing its date or its time is never refused |
| Middleware.StaffActiveDecision | bookingApp/middleware.py:8-27 | the user is redirected exactly when logged in, with an inactive staff profile, and not on an allowed page |
| Middleware.AllowedPagesAlwaysReachable | bookingApp/middleware.py:13-26 | every allowed page is always reachable |
| Middleware.ClientIp | bookingApp/middleware.py:57-61 | a non-empty forwarded header gives its text before the first comma, otherwise the remote address |
| Middleware.VisitorTracking.Track | bookingApp/middleware.py:37-55 | a GET of exactly "/" appends one log row, creating a session when there is none; any other request logs nothing |
| Filters.FilterRange | bookingApp/templatetags/custom_filters.py:16-18 | the numbers from 0 below n, none for n not positive |
| Filters.Replace | bookingApp/templatetags/custom_filters.py:42-52 | falsy values and arguments without a comma are returned as they are; otherwise the value's text has the part before the first comma replaced by the rest |
| Filters.ReplaceUnderscore | bookingApp/templatetags/custom_filters.py:29-39 | falsy values and arguments without a comma are returned as they are; otherwise the value's text has the part before the first comma replaced by the rest |
| Filters.ReplaceAbsentText | bookingApp/templatetags/custom_filters.py:42-52 | text without the searched part comes back unchanged, as a string |
| Filters.ReplacementKeepsLaterCommas | bookingApp/templatetags/custom_filters.py:51 | the split at the first comma keeps later commas in the replacement |
| Filters.SplitFilter | bookingApp/templatetags/custom_filters.py:55-63 | none gives the empty list, an empty separator raises, otherwise the parts join back to the value's text and hold no separator |
| Filters.GetItem | bookingApp/templatetags/custom_filters.py:66-74 | the entry for a key of a dictionary, none for a missing key or for anything else |
| EmailExtras.Pad2 | bookingApp/templatetags/email_extras.py:23-24 | two decimal digits that read back as the number |
| EmailExtras.TimeText | bookingApp/templatetags/email_extras.py:24 | hours, a colon and minutes, which read back as the time of day |
| EmailExtras.RenderEmailPlaceholders | bookingApp/templatetags/email_extras.py:5-39 | the loop computes the five placeholder replacements applied in order |
| EmailExtras.ApplyAllAbsent | bookingApp/templatetags/email_extras.py:35-37 | text in which no placeholder occurs passes every replacement unchanged |
| EmailExtras.NoPlaceholdersUnchanged | bookingApp/templatetags/email_extras.py:5-39 | owner text without placeholders is sent as written |
| EmailExtras.GuestPlaceholderRendersGuest | bookingApp/templatetags/email_extras.py:16-37 | the guest placeholder renders as the guest name when the name holds no later placeholder |
| EmailExtras.GuestNameIsSubstitutedAgain | bookingApp/templatetags/email_extras.py:26-37 | a guest named "{{ time }}" is shown as the start time, because later replacements act on earlier output |
| EmailExtras.ApplyAllPrefix | bookingApp/templatetags/email_extras.py:35-37 | the replacements can be applied in two stretches |
| Strings.SplitHead | bookingApp/middleware.py:60 | the first part of a split is the text before the first separator |
| Strings.SplitOnce | bookingApp/views.py:666 | text with one dash splits into the parts before and after it |
| Strings.JoinSplit | bookingApp/templatetags/custom_filters.py:63 | the parts of a split join back to the text |
| Strings.ReplaceAbsent | bookingApp/templatetags/email_extras.py:37 | replacing a pattern that does not occur changes nothing |
| Strings.ParseIntToString | bookingApp/utils.py:40-42 | the text of an id read back as an integer gives that id |
| Calendar.DayKeyOf | bookingApp/utils.py:33-34 | Monday to Friday share one key, Saturday and Sunday have their own |
| Calendar.KnownWednesday | bookingApp/utils.py:33 | 14 October 2026 has the ordinal and weekday Python gives it |

## Left out

- Sending email, SMS and push notifications, and building PayFast URLs and signatures. These are services outside the program. A sent reminder is an input set; the payment URL is not modelled.
- The ORM, templates, messages, analytics views and dashboards. Only the state the core reads and writes is modelled.
- Time zones and seconds. All times are one local clock in whole minutes. Dates beyond 9999-12-31 are not rejected.
- Concurrency. Two requests booking the same slot at once are not modelled; each view is one atomic step.
- Floating point and `Decimal` precision. Money is in integer cents, and percentages are integers.
- Date and time parsing from form text. Dates and times arrive as values, and `strptime` failures are not modelled.
- Python's `int()` on Unicode digits, underscores and Unicode white space. ASCII is assumed.
- The status 'rescheduled'. The availability query counts it among the statuses that hold a slot (utils.py:97-99), but it is not one of the six choices, so it cannot occur.
- `slugify` and `get_random_string`. They are library code: the base slug and the token draws are inputs.
- Models.SaveEmbedToken: bounded by the draws given. It returns nothing where the source would keep drawing.
- The `trigger_pending_reminders()` calls made at the start of some views. These calls are not composed into the view methods.
- The reschedule and guest-cancel token lookup. It is modelled as a lookup by primary key; tokens are not modelled.
- `models.py` defines neither `Business.calculate_deposit` nor `Business.is_deposit_required_for_client`, though views.py calls both (for example views.py:2102). The first is modelled as `calculate_deposit_amount`, the second as "deposit required and client not exempt".
- Lifecycle.Store.Book: assumes a form that accepts the `available_times` keyword. As written, `AppointmentForm.__init__` (forms.py:70-73) removes only `services` and `staff` before calling `ModelForm.__init__`. So the call at views.py:1112-1117 raises TypeError on every booking POST.
- Lifecycle.Store.Book: does not model the slot re-check such a form would likely perform. The available times computed at views.py:1100-1108 are never used. That computation also discards a ValueError or AttributeError raised by `get_available_times`.
- Availability.Relevant: keeps the rows in their stored order (`Availability.RelevantAppend`). The query's default ordering, latest date and start time first, is not imposed. So when a slot meets both a row without a service and a blocking row, which of them wins follows the stored order.
- The booking forms' fields. forms.py defines `AppointmentForm` without guest name, guest e-mail or attendee count, and does not define `ManualBookingForm`, `BusinessOnboardingForm`, `StaffServicesForm`, `StaffFormSet`, `ServiceFormSet` or `CustomUserCreationForm`, which views.py imports (views.py:76-90). A validated request carries the fields the views read from it.
- The `attendees` field. Availability reads it (utils.py:128), but models.py does not declare it and no handler sets it, so the model gives every new row `Models.DefaultAttendees`, taken as 1.
- The `get_attr` filter. Attribute access by name on arbitrary objects has no counterpart here.
- The first two `replace` filters. They are overridden by the third definition in the same file, which is modelled.
- The deactivated-staff gate's list of allowed URLs. URL reversing is a parameter.
- EmailExtras.Rendered: a dictionary passed as the appointment is not modelled. Only appointment objects are, and for those `hasattr(appointment, 'service')` always holds.
