/**
 * The appointment lifecycle as the request handlers drive it: booking,
 * the owner's decision, the payment notification, rescheduling, cancelling,
 * the staff dashboard actions and the generic status endpoint. The database
 * is a `Store` whose fields the handlers update.
 */
module Lifecycle {
  import opened Common
  import opened Strings
  import opened Calendar
  import opened Models
  import opened Deposit
  import opened Availability

  /**
   * A business row with the fields the handlers use. Subscription ends are
   * instants; `hasBookingForm` records whether its one booking form exists.
   */
  datatype Business = Business(
    id: int,
    ownerId: int,
    hasBookingForm: bool,
    schedule: Schedule,
    deposit: DepositPolicy,
    rescheduleWindowHours: int,
    subscriptionEnd: Option<int>,
    referredBy: Option<int>,
    referralBonusPaid: bool)

  /** What a handler answers, as far as the model distinguishes it. */
  datatype Outcome =
    | Done
    | NotFound
    | Forbidden
    | BadRequest
    | MethodNotAllowed
    | Rejected
    | Locked
    | ServerError
    | Booked(id: int, requiresPayment: bool)
    | Rebooked(id: int, paymentRedirect: bool)

  /** A logged-in user: id, e-mail ("" if none) and full name. */
  datatype Customer = Customer(id: int, email: string, fullName: string)

  const SubscriptionPeriod := 30 * MinutesPerDay

  /** A subscription end after one more paid period: from the current end if it is still ahead, else from now. */
  function Extend(end: Option<int>, now: int): (r: int)
    ensures r >= now + SubscriptionPeriod
    ensures end.Some? && end.value > now ==> r == end.value + SubscriptionPeriod
    ensures (end.None? || end.value <= now) ==> r == now + SubscriptionPeriod
  {
    if end.Some? && end.value > now then end.value + SubscriptionPeriod else now + SubscriptionPeriod
  }

  /** The business's referrer, when it has one, it is on record and the bonus is still unpaid. */
  predicate ReferralDue(m: map<int, Business>, id: int)
    requires id in m
  {
    m[id].referredBy.Some? && !m[id].referralBonusPaid && m[id].referredBy.value in m
  }

  /**
   * The subscription branch of the payment notification: the paying business is
   * extended; a referrer not yet rewarded is extended too and saved first, then
   * the paying business is saved with the bonus marked paid. The paying
   * business's own save comes last, so a business that referred itself ends up
   * extended once.
   */
  function ApplySubscription(m: map<int, Business>, id: int, now: int): (r: map<int, Business>)
    requires id in m
    ensures r.Keys == m.Keys
    ensures r[id] == m[id].(subscriptionEnd := Some(Extend(m[id].subscriptionEnd, now)),
                            referralBonusPaid := m[id].referralBonusPaid || ReferralDue(m, id))
  {
    var b := m[id];
    var paid := b.(subscriptionEnd := Some(Extend(b.subscriptionEnd, now)));
    if ReferralDue(m, id) then
      var rid := b.referredBy.value;
      var referrer := m[rid];
      var m1 := m[rid := referrer.(subscriptionEnd := Some(Extend(referrer.subscriptionEnd, now)))];
      m1[id := paid.(referralBonusPaid := true)]
    else m[id := paid]
  }

  /** Who else a notification touches: the referrer, extended once, when the bonus was due; nobody otherwise. */
  lemma SubscriptionTouchesOnlyReferrer(m: map<int, Business>, id: int, now: int)
    requires id in m
    ensures var r := ApplySubscription(m, id, now);
      forall k :: k in m && k != id ==>
        r[k] == if ReferralDue(m, id) && k == m[id].referredBy.value
                then m[k].(subscriptionEnd := Some(Extend(m[k].subscriptionEnd, now)))
                else m[k]
  {
  }

  /** A referrer is rewarded at most once per referred business: a second notification extends only the payer. */
  lemma ReferralPaidAtMostOnce(m: map<int, Business>, id: int, now: int, later: int)
    requires id in m
    ensures var once := ApplySubscription(m, id, now);
      var twice := ApplySubscription(once, id, later);
      !ReferralDue(once, id) &&
      forall k :: k in m && k != id ==> twice[k] == once[k]
  {
  }

  /** A business that referred itself gets one period, not two, and its bonus is marked paid. */
  lemma SelfReferralExtendsOnce(m: map<int, Business>, id: int, now: int)
    requires id in m && m[id].referredBy == Some(id) && !m[id].referralBonusPaid
    ensures ApplySubscription(m, id, now)[id].subscriptionEnd == Some(Extend(m[id].subscriptionEnd, now))
    ensures ApplySubscription(m, id, now)[id].referralBonusPaid
  {
  }

  /** The owner's decision on an appointment: confirm or decline, from whatever state; any other action changes nothing. */
  function Decide(ap: Appointment, action: string): (r: Appointment)
    ensures action == "confirm" ==> r == Save(ap.(status := Confirmed))
    ensures action == "decline" ==> r == Save(ap.(status := Declined))
    ensures action != "confirm" && action != "decline" ==> r == ap
  {
    if action == "confirm" then Save(ap.(status := Confirmed))
    else if action == "decline" then Save(ap.(status := Declined))
    else ap
  }

  /** The deposit branch of the payment notification: confirmed and paid, saved; no availability re-check. */
  function ConfirmDeposit(ap: Appointment): (r: Appointment)
    ensures r.status == Confirmed && r.depositPaid
    ensures r == Save(ap).(status := Confirmed, depositPaid := true)
  {
    Save(ap.(status := Confirmed, depositPaid := true))
  }

  /** A repeated deposit notification leaves the appointment as the first one did. */
  lemma ConfirmDepositIdempotent(ap: Appointment)
    ensures ConfirmDeposit(ConfirmDeposit(ap)) == ConfirmDeposit(ap)
  {
  }

  /** A cancellation, saved; the deposit stays recorded as paid or unpaid as it was. */
  function Cancel(ap: Appointment): (r: Appointment)
    ensures r.status == Cancelled && r.depositPaid == ap.depositPaid && r.amountToPay == ap.amountToPay
    ensures r == Save(ap).(status := Cancelled)
  {
    Save(ap.(status := Cancelled))
  }

  /** A cancelled appointment no longer holds its slot for availability. */
  lemma CancelFreesSlot(ap: Appointment, now: int)
    ensures !HoldsSlot(Cancel(ap), now)
  {
  }

  /** A reschedule counts as late when the current start is less than the window ahead of now. */
  predicate TooLate(ap: Appointment, windowHours: int, now: int) {
    StartOf(ap) < now + windowHours * MinutesPerHour
  }

  /** The notes on the replacement appointment of a late reschedule. */
  function RebookedNote(oldId: int): string {
    "Rescheduled from Appt #" + IntToString(oldId) + ". Previous deposit forfeited."
  }

  /** The note appended to the original of a late reschedule. */
  function ForfeitNote(newId: int): string {
    "\n[SYSTEM]: Late reschedule. Deposit forfeited. Re-booked as Appt #" + IntToString(newId) + "."
  }

  /**
   * The replacement row of a late reschedule: the original's form, service,
   * customer, guest details and staff at the new date and time, pending and
   * unpaid with the recalculated deposit.
   */
  function Rebooking(ap: Appointment, newId: int, date: int, start: MinuteOfDay, deposit: int, now: int): (r: Appointment)
    ensures r.status == Pending && !r.depositPaid && r.amountToPay == deposit
    ensures r.id == newId && r.date == date && r.start == start && r.createdAt == now
    ensures r.service == ap.service && r.staffId == ap.staffId && r.customerId == ap.customerId &&
            r.businessId == ap.businessId && r.guestEmail == ap.guestEmail
    ensures r.attendees == DefaultAttendees
  {
    Save(Appointment(newId, ap.businessId, ap.customerId, ap.customerEmail, ap.guestName, ap.guestEmail,
                     ap.service, ap.staffId, date, start, ap.lengthMinutes, DefaultAttendees, Pending, false, deposit,
                     now, false, false, RebookedNote(ap.id)))
  }

  /** The original of a late reschedule: cancelled with its old date and time, the forfeit noted. */
  function Forfeited(ap: Appointment, newId: int): (r: Appointment)
    ensures r.status == Cancelled && r.date == ap.date && r.start == ap.start && r.depositPaid == ap.depositPaid
    ensures r.notes == ap.notes + ForfeitNote(newId)
  {
    Save(ap.(status := Cancelled, notes := ap.notes + ForfeitNote(newId)))
  }

  /** An early reschedule: the same row at the new date and time with the submitted notes, pending again. */
  function Moved(ap: Appointment, date: int, start: MinuteOfDay, notes: string): (r: Appointment)
    ensures r.status == Pending && r.date == date && r.start == start && r.notes == notes
    ensures r.id == ap.id && r.depositPaid == ap.depositPaid && r.amountToPay == ap.amountToPay
  {
    Save(ap.(date := date, start := start, notes := notes, status := Pending))
  }

  /** A staff dashboard action: the row moves from `from` to `to` only when it is the staff member's own and in `from`. */
  function StaffMove(ap: Appointment, staffId: int, from: Status, to: Status): (r: Appointment)
    ensures ap.staffId == Some(staffId) && ap.status == from ==> r == ap.(status := to)
    ensures !(ap.staffId == Some(staffId) && ap.status == from) ==> r == ap
  {
    if ap.staffId == Some(staffId) && ap.status == from then ap.(status := to) else ap
  }

  /** Staff can complete only their own confirmed appointments and confirm only their own pending ones. */
  lemma StaffMovesOwnOnly(ap: Appointment, staffId: int)
    ensures StaffMove(ap, staffId, Confirmed, Completed).status == Completed ==>
      ap.status == Completed || (ap.status == Confirmed && ap.staffId == Some(staffId))
    ensures StaffMove(ap, staffId, Pending, Confirmed).status == Confirmed ==>
      ap.status == Confirmed || (ap.status == Pending && ap.staffId == Some(staffId))
  {
  }

  /** The failure of converting an appointment id from a request. */
  datatype IdError = BadAppointmentId

  /**
   * The rows after a staff dashboard action with a posted id: the `.update()`
   * touches at most the row with that id, a missing id matches nothing, and an
   * id the field cannot convert is a server error.
   */
  function StaffActionResult(apps: seq<Appointment>, staffId: int, rawId: Option<string>,
                             from: Status, to: Status): (r: (Outcome, seq<Appointment>))
    ensures r.0 == (if ParseIdArg(rawId).Err? then ServerError else Done)
    ensures |r.1| == |apps|
    ensures forall j :: 0 <= j < |apps| ==>
      r.1[j] == (if ParseIdArg(rawId) == Ok(Some(j + 1)) then StaffMove(apps[j], staffId, from, to) else apps[j])
  {
    match ParseIdArg(rawId)
    case Err(_) => (ServerError, apps)
    case Ok(target) =>
      if target.Some? && 1 <= target.value <= |apps|
      then (Done, apps[target.value - 1 := StaffMove(apps[target.value - 1], staffId, from, to)])
      else (Done, apps)
  }

  /** A dashboard action changes no row's id or business. */
  lemma StaffActionKeepsRows(apps: seq<Appointment>, m: map<int, Business>, staffId: int, rawId: Option<string>,
                             from: Status, to: Status)
    requires RowsValid(apps, m)
    ensures RowsValid(StaffActionResult(apps, staffId, rawId, from, to).1, m)
  {
    var r := StaffActionResult(apps, staffId, rawId, from, to).1;
    forall j | 0 <= j < |r| ensures r[j].id == j + 1 && r[j].businessId in m {
      assert r[j] == apps[j] || r[j] == StaffMove(apps[j], staffId, from, to);
    }
  }

  /** An appointment id from a request: absent matches nothing, text the id field cannot convert is a server error. */
  function ParseIdArg(raw: Option<string>): (r: Result<Option<int>, IdError>)
    ensures raw.None? ==> r == Ok(None)
    ensures raw.Some? && ParseInt(raw.value).Some? ==> r == Ok(Some(ParseInt(raw.value).value))
    ensures raw.Some? && ParseInt(raw.value).None? ==> r.Err?
  {
    match raw
    case None => Ok(None)
    case Some(t) => match ParseInt(t) case None => Err(BadAppointmentId) case Some(k) => Ok(Some(k))
  }

  /** The row index of an id, ids being 1, 2, ... in creation order. */
  function Lookup(apps: seq<Appointment>, pk: int): (ix: Option<nat>)
    ensures ix.Some? <==> 1 <= pk <= |apps|
    ensures ix.Some? ==> ix.value == pk - 1
  {
    if 1 <= pk <= |apps| then Some(pk - 1) else None
  }

  /** The data of a booking request after form validation. */
  datatype BookingRequest = BookingRequest(
    service: Option<Service>,
    staffId: Option<int>,
    date: int,
    start: MinuteOfDay,
    notes: string,
    guestName: string,
    guestEmail: string)

  /** The new row of a public booking before its save, with the guest details filled in from a logged-in user. */
  function BookedRecord(id: int, businessId: int, user: Option<Customer>, req: BookingRequest,
                        t: BookingTerms, now: int): (r: Appointment)
    ensures r.status == t.status && r.amountToPay == t.amountToPay && r.depositPaid == t.depositPaid
    ensures user.Some? && req.guestEmail == "" ==> r.guestEmail == user.value.email
    ensures user.None? ==> r.customerId.None? && r.guestName == req.guestName && r.guestEmail == req.guestEmail
    ensures r.attendees == DefaultAttendees
  {
    var name := if user.Some? && req.guestName == "" then user.value.fullName else req.guestName;
    var email := if user.Some? && req.guestEmail == "" then user.value.email else req.guestEmail;
    Appointment(id, businessId,
                if user.Some? then Some(user.value.id) else None,
                if user.Some? then user.value.email else "",
                name, email, req.service, req.staffId, req.date, req.start,
                if req.service.Some? then req.service.value.lengthMinutes else 0,
                DefaultAttendees, t.status, t.depositPaid, t.amountToPay, now, false, false, req.notes)
  }

  /** The price the online deposit is computed from: the service's, or 0 without a service. */
  function BookingPrice(service: Option<Service>): Option<int> {
    if service.Some? then service.value.price else Some(0)
  }

  /** The database as the handlers see it. */
  class Store {
    var appointments: seq<Appointment>
    var businesses: map<int, Business>
    var staff: map<int, Staff>
    var staffBlocks: seq<StaffBlock>
    var exemptClients: set<(int, string)>

    /** Ids are 1, 2, ... by row; every appointment's business and every referrer is on record. */
    ghost predicate Valid()
      reads this
    {
      RowsValid(appointments, businesses) && BusinessesValid(businesses) && StaffValid(staff, businesses)
    }

    /** Only rows of the appointment table changed. */
    twostate predicate OnlyAppointments()
      reads this
    {
      businesses == old(businesses) && staff == old(staff) &&
      staffBlocks == old(staffBlocks) && exemptClients == old(exemptClients)
    }

    constructor (businesses: map<int, Business>)
      requires BusinessesValid(businesses)
      ensures Valid()
      ensures this.appointments == [] && this.businesses == businesses
      ensures staff == map[] && staffBlocks == [] && exemptClients == {}
    {
      this.appointments := [];
      this.businesses := businesses;
      this.staff := map[];
      this.staffBlocks := [];
      this.exemptClients := {};
    }

    /**
     * The public booking handler after a valid form: the client's exemption
     * decides the terms, and the saved row is appended. The slot is not checked
     * again here. A business reached by its slug without a booking form gives
     * the row no form, and the save fails on the required reference.
     */
    method Book(businessId: int, user: Option<Customer>, req: BookingRequest, now: int) returns (out: Outcome)
      requires Valid()
      modifies this
      ensures Valid() && OnlyAppointments()
      ensures businessId !in businesses ==> out == NotFound && appointments == old(appointments)
      ensures businessId in businesses && !businesses[businessId].hasBookingForm ==>
        out == ServerError && appointments == old(appointments)
      ensures businessId in businesses && businesses[businessId].hasBookingForm ==>
        var t := OnlineBookingTerms((businessId, req.guestEmail) in exemptClients,
                                    businesses[businessId].deposit, BookingPrice(req.service));
        var id := |old(appointments)| + 1;
        appointments == old(appointments) + [Save(BookedRecord(id, businessId, user, req, t, now))] &&
        out == Booked(id, t.requiresPayment)
    {
      if businessId !in businesses {
        return NotFound;
      }
      var business := businesses[businessId];
      if !business.hasBookingForm {
        return ServerError;
      }
      var exempt := (businessId, req.guestEmail) in exemptClients;
      var t := OnlineBookingTerms(exempt, business.deposit, BookingPrice(req.service));
      var id := |appointments| + 1;
      var ap := Save(BookedRecord(id, businessId, user, req, t, now));
      AppendKeepsRows(appointments, businesses, ap);
      appointments := appointments + [ap];
      out := Booked(id, t.requiresPayment);
    }

    /**
     * The manual booking handler: the owner or an admin staff member books a
     * client; a business without a booking form is sent back with nothing
     * booked; a deposit is needed when the business requires deposits and the
     * client is not exempt.
     */
    method ManualBook(businessId: int, user: int, isAdminStaff: bool, req: BookingRequest, now: int) returns (out: Outcome)
      requires Valid()
      modifies this
      ensures Valid() && OnlyAppointments()
      ensures businessId !in businesses ==> out == NotFound && appointments == old(appointments)
      ensures businessId in businesses && businesses[businessId].ownerId != user && !isAdminStaff ==>
        out == Forbidden && appointments == old(appointments)
      ensures businessId in businesses && (businesses[businessId].ownerId == user || isAdminStaff) ==>
        !businesses[businessId].hasBookingForm ==> out == Rejected && appointments == old(appointments)
      ensures businessId in businesses && (businesses[businessId].ownerId == user || isAdminStaff) ==>
        businesses[businessId].hasBookingForm ==>
        var b := businesses[businessId];
        var needed := b.deposit.required && (businessId, req.guestEmail) !in exemptClients;
        var t := ManualBookingTerms(needed, b.deposit.percentage,
                                    if req.service.Some? then req.service.value.price else None);
        var id := |old(appointments)| + 1;
        appointments == old(appointments) + [Save(BookedRecord(id, businessId, None, req, t, now))] &&
        out == Booked(id, t.requiresPayment)
    {
      if businessId !in businesses {
        return NotFound;
      }
      var b := businesses[businessId];
      if b.ownerId != user && !isAdminStaff {
        return Forbidden;
      }
      if !b.hasBookingForm {
        return Rejected;
      }
      var needed := b.deposit.required && (businessId, req.guestEmail) !in exemptClients;
      var t := ManualBookingTerms(needed, b.deposit.percentage,
                                  if req.service.Some? then req.service.value.price else None);
      var id := |appointments| + 1;
      var ap := Save(BookedRecord(id, businessId, None, req, t, now));
      AppendKeepsRows(appointments, businesses, ap);
      appointments := appointments + [ap];
      out := Booked(id, t.requiresPayment);
    }

    /** `appointment_email_decision`: only the owner of the appointment's business may decide. */
    method OwnerDecision(pk: int, user: int, action: string) returns (out: Outcome)
      requires Valid()
      modifies this
      ensures Valid() && OnlyAppointments()
      ensures Lookup(old(appointments), pk).None? ==> out == NotFound && appointments == old(appointments)
      ensures Lookup(old(appointments), pk).Some? ==>
        var ap := old(appointments)[pk - 1];
        if businesses[ap.businessId].ownerId != user then out == Forbidden && appointments == old(appointments)
        else out == Done && appointments == old(appointments)[pk - 1 := Decide(ap, action)]
    {
      var ix := Lookup(appointments, pk);
      if ix.None? {
        return NotFound;
      }
      var ap := appointments[ix.value];
      if businesses[ap.businessId].ownerId != user {
        return Forbidden;
      }
      appointments := appointments[ix.value := Decide(ap, action)];
      out := Done;
    }

    /**
     * `payfast_itn`: 400 for anything but a POST or on a failed lookup, 200
     * otherwise; only a completed payment changes state.
     */
    method PayfastItn(isPost: bool, data: map<string, string>, now: int) returns (code: int)
      requires Valid()
      modifies this
      ensures Valid()
      ensures staff == old(staff) && staffBlocks == old(staffBlocks) && exemptClients == old(exemptClients)
      ensures code == 200 || code == 400
      ensures !isPost ==> code == 400
      ensures code == 400 || !ItnCompletes(isPost, data) ==>
        appointments == old(appointments) && businesses == old(businesses)
      ensures isPost && !ItnCompletes(isPost, data) ==> code == 200
      ensures ItnCompletes(isPost, data) && IsSubscription(data) ==>
        appointments == old(appointments) &&
        match SubscriptionTarget(data, old(businesses))
        case None => code == 400 && businesses == old(businesses)
        case Some(id) => code == 200 && businesses == ApplySubscription(old(businesses), id, now)
      ensures ItnCompletes(isPost, data) && !IsSubscription(data) && IsDeposit(data) ==>
        businesses == old(businesses) &&
        match DepositTarget(data, old(appointments))
        case None => code == 400 && appointments == old(appointments)
        case Some(pk) =>
          code == 200 && appointments == old(appointments)[pk - 1 := ConfirmDeposit(old(appointments)[pk - 1])]
      ensures ItnCompletes(isPost, data) && !IsSubscription(data) && !IsDeposit(data) ==>
        code == 200 && appointments == old(appointments) && businesses == old(businesses)
    {
      if !isPost {
        return 400;
      }
      if !ItnCompletes(isPost, data) {
        return 200;
      }
      if IsSubscription(data) {
        code := PaySubscription(data, now);
      } else if IsDeposit(data) {
        code := PayDeposit(data);
      } else {
        code := 200;
      }
    }

    /** The subscription route of the payment notification. */
    method PaySubscription(data: map<string, string>, now: int) returns (code: int)
      requires Valid()
      modifies this
      ensures Valid()
      ensures staff == old(staff) && staffBlocks == old(staffBlocks) && exemptClients == old(exemptClients)
      ensures appointments == old(appointments)
      ensures match SubscriptionTarget(data, old(businesses))
        case None => code == 400 && businesses == old(businesses)
        case Some(id) => code == 200 && businesses == ApplySubscription(old(businesses), id, now)
    {
      var target := SubscriptionTarget(data, businesses);
      if target.None? {
        return 400;
      }
      ApplySubscriptionKeepsValid(businesses, target.value, now);
      ForgetBusinessChange(appointments, businesses, ApplySubscription(businesses, target.value, now));
      businesses := ApplySubscription(businesses, target.value, now);
      return 200;
    }

    /** The deposit route of the payment notification. */
    method PayDeposit(data: map<string, string>) returns (code: int)
      requires Valid() && IsDeposit(data)
      modifies this
      ensures Valid() && OnlyAppointments()
      ensures match DepositTarget(data, old(appointments))
        case None => code == 400 && appointments == old(appointments)
        case Some(pk) =>
          code == 200 && appointments == old(appointments)[pk - 1 := ConfirmDeposit(old(appointments)[pk - 1])]
    {
      var target := DepositTarget(data, appointments);
      if target.None? {
        return 400;
      }
      ConfirmPaid(target.value - 1);
      return 200;
    }

    /** Marks one appointment confirmed and paid. */
    method ConfirmPaid(i: nat)
      requires Valid() && i < |appointments|
      modifies this
      ensures Valid() && OnlyAppointments()
      ensures appointments == old(appointments)[i := ConfirmDeposit(old(appointments)[i])]
    {
      var confirmed := ConfirmDeposit(appointments[i]);
      SetKeepsRows(appointments, businesses, i, confirmed);
      appointments := appointments[i := confirmed];
    }

    /**
     * `appointment_reschedule` on a POST. `form` is the validated date, time
     * and notes, None when the form is invalid; `consent` is the forfeit
     * checkbox. Availability is recomputed from the stored rows, including
     * the appointment being moved.
     */
    method Reschedule(pk: int, consent: bool, form: Option<(int, MinuteOfDay, string)>, now: int) returns (out: Outcome)
      requires Valid()
      modifies this
      ensures Valid() && OnlyAppointments()
      ensures (out, appointments) ==
        RescheduleResult(old(appointments), businesses, staff, staffBlocks, pk, consent, form, now)
    {
      var ix := Lookup(appointments, pk);
      if ix.None? {
        return NotFound;
      }
      var ap := appointments[ix.value];
      var b := businesses[ap.businessId];
      var late := TooLate(ap, b.rescheduleWindowHours, now);
      if late && !consent {
        return Rejected;
      }
      if form.None? {
        return Rejected;
      }
      if ap.service.None? {
        return ServerError;
      }
      var (date, start, notes) := form.value;
      var avail := GetAvailableTimes(b.schedule, Directory(staff, staffBlocks, appointments), date,
                                     ap.service.value.lengthMinutes, StaffArgOf(ap), ap.service, now);
      assert avail == RescheduleAvailability(appointments, businesses, staff, staffBlocks, ix.value, date, now);
      out := RescheduleTo(ix.value, late, form.value, avail, now);
    }

    /** The part of a reschedule after the checks on the request: availability, then the move or the rebooking. */
    method RescheduleTo(i: nat, late: bool, form: (int, MinuteOfDay, string),
                        avail: Result<seq<MinuteOfDay>, AvailError>, now: int) returns (out: Outcome)
      requires Valid() && i < |appointments| && appointments[i].service.Some?
      requires avail == RescheduleAvailability(appointments, businesses, staff, staffBlocks, i, form.0, now)
      modifies this
      ensures Valid() && OnlyAppointments()
      ensures (out, appointments) ==
        RescheduleChecked(old(appointments), businesses, staff, staffBlocks, i, late, form, now)
    {
      var (date, start, notes) := form;
      if avail.Err? {
        return ServerError;
      }
      if start !in avail.value {
        return Rejected;
      }
      if late {
        out := RebookLate(i, date, start, now);
      } else {
        out := MoveEarly(i, date, start, notes);
      }
    }

    /** A late reschedule: the old row is forfeited and a new pending request is added. */
    method RebookLate(i: nat, date: int, start: MinuteOfDay, now: int) returns (out: Outcome)
      requires Valid() && i < |appointments| && appointments[i].service.Some?
      modifies this
      ensures Valid() && OnlyAppointments()
      ensures var ap := old(appointments)[i];
        var b := businesses[ap.businessId];
        var newId := |old(appointments)| + 1;
        var deposit := CalculateDeposit(b.deposit, ap.service.value.price);
        out == Rebooked(newId, b.deposit.required) &&
        appointments == old(appointments)[i := Forfeited(ap, newId)] +
                        [Rebooking(ap, newId, date, start, deposit, now)]
    {
      var ap := appointments[i];
      var b := businesses[ap.businessId];
      var newId := |appointments| + 1;
      var deposit := CalculateDeposit(b.deposit, ap.service.value.price);
      var rebooked := Rebooking(ap, newId, date, start, deposit, now);
      SetKeepsRows(appointments, businesses, i, Forfeited(ap, newId));
      var rest := appointments[i := Forfeited(ap, newId)];
      AppendKeepsRows(rest, businesses, rebooked);
      appointments := rest + [rebooked];
      return Rebooked(newId, b.deposit.required);
    }

    /** An early reschedule: the appointment itself moves. */
    method MoveEarly(i: nat, date: int, start: MinuteOfDay, notes: string) returns (out: Outcome)
      requires Valid() && i < |appointments|
      modifies this
      ensures Valid() && OnlyAppointments()
      ensures out == Done && appointments == old(appointments)[i := Moved(old(appointments)[i], date, start, notes)]
    {
      SetKeepsRows(appointments, businesses, i, Moved(appointments[i], date, start, notes));
      appointments := appointments[i := Moved(appointments[i], date, start, notes)];
      out := Done;
    }

    /** `appointment_cancel`: the logged-in customer's own appointment only; a POST cancels it. */
    method CancelByCustomer(pk: int, user: int, isPost: bool) returns (out: Outcome)
      requires Valid()
      modifies this
      ensures Valid() && OnlyAppointments()
      ensures (Lookup(old(appointments), pk).None? || old(appointments)[pk - 1].customerId != Some(user)) ==>
        out == NotFound && appointments == old(appointments)
      ensures Lookup(old(appointments), pk).Some? && old(appointments)[pk - 1].customerId == Some(user) ==>
        out == Done &&
        appointments == if isPost then old(appointments)[pk - 1 := Cancel(old(appointments)[pk - 1])]
                        else old(appointments)
    {
      var ix := Lookup(appointments, pk);
      if ix.None? || appointments[ix.value].customerId != Some(user) {
        return NotFound;
      }
      if isPost {
        appointments := appointments[ix.value := Cancel(appointments[ix.value])];
      }
      out := Done;
    }

    /** `appointment_cancel_guest`: by the appointment's link; a POST cancels it. */
    method CancelByGuest(pk: int, isPost: bool) returns (out: Outcome)
      requires Valid()
      modifies this
      ensures Valid() && OnlyAppointments()
      ensures Lookup(old(appointments), pk).None? ==> out == NotFound && appointments == old(appointments)
      ensures Lookup(old(appointments), pk).Some? ==>
        out == Done &&
        appointments == if isPost then old(appointments)[pk - 1 := Cancel(old(appointments)[pk - 1])]
                        else old(appointments)
    {
      var ix := Lookup(appointments, pk);
      if ix.None? {
        return NotFound;
      }
      if isPost {
        appointments := appointments[ix.value := Cancel(appointments[ix.value])];
      }
      out := Done;
    }

    /**
     * A staff dashboard action (complete: confirmed to completed; confirm:
     * pending to confirmed) on the row with the posted id, as a direct update
     * without the length snapshot. A user without a staff profile is sent
     * away, and the dashboard of a business whose subscription is missing or
     * over shows only the locked page.
     */
    method StaffAction(staffId: int, rawId: Option<string>, from: Status, to: Status, now: int) returns (out: Outcome)
      requires Valid()
      modifies this
      ensures Valid() && OnlyAppointments()
      ensures staffId !in staff ==> out == Rejected && appointments == old(appointments)
      ensures staffId in staff && SubscriptionLapsed(businesses[staff[staffId].businessId], now) ==>
        out == Locked && appointments == old(appointments)
      ensures staffId in staff && !SubscriptionLapsed(businesses[staff[staffId].businessId], now) ==>
        (out, appointments) == StaffActionResult(old(appointments), staffId, rawId, from, to)
    {
      if staffId !in staff {
        return Rejected;
      }
      if SubscriptionLapsed(businesses[staff[staffId].businessId], now) {
        return Locked;
      }
      var r := StaffActionResult(appointments, staffId, rawId, from, to);
      StaffActionKeepsRows(appointments, businesses, staffId, rawId, from, to);
      out, appointments := r.0, r.1;
    }

    /**
     * `update_appointment_status`: POST only; the owner or any user with a
     * staff profile may set any listed status, whatever the current one.
     */
    method UpdateStatus(pk: int, user: int, userIsStaff: bool, isPost: bool, key: Option<string>) returns (out: Outcome)
      requires Valid()
      modifies this
      ensures Valid() && OnlyAppointments()
      ensures out != Done ==> appointments == old(appointments)
      ensures !isPost ==> out == MethodNotAllowed
      ensures isPost && Lookup(old(appointments), pk).None? ==> out == NotFound
      ensures isPost && Lookup(old(appointments), pk).Some? ==>
        var ap := old(appointments)[pk - 1];
        var s := if key.Some? then ParseStatus(key.value) else None;
        if businesses[ap.businessId].ownerId != user && !userIsStaff then out == Forbidden
        else if s.None? then out == BadRequest
        else out == Done && appointments == old(appointments)[pk - 1 := Save(ap.(status := s.value))]
    {
      if !isPost {
        return MethodNotAllowed;
      }
      var ix := Lookup(appointments, pk);
      if ix.None? {
        return NotFound;
      }
      var ap := appointments[ix.value];
      if businesses[ap.businessId].ownerId != user && !userIsStaff {
        return Forbidden;
      }
      var s := if key.Some? then ParseStatus(key.value) else None;
      if s.None? {
        return BadRequest;
      }
      appointments := appointments[ix.value := Save(ap.(status := s.value))];
      out := Done;
    }
  }

  /**
   * What `appointment_reschedule` does on a POST, and the rows it leaves.
   * Availability is recomputed from the stored rows, the moved appointment included.
   */
  function RescheduleResult(apps: seq<Appointment>, m: map<int, Business>, staff: map<int, Staff>,
                            blocks: seq<StaffBlock>, pk: int, consent: bool,
                            form: Option<(int, MinuteOfDay, string)>, now: int): (Outcome, seq<Appointment>)
    requires RowsValid(apps, m)
  {
    match Lookup(apps, pk)
    case None => (NotFound, apps)
    case Some(i) =>
      var ap := apps[i];
      var b := m[ap.businessId];
      var late := TooLate(ap, b.rescheduleWindowHours, now);
      if (late && !consent) || form.None? then (Rejected, apps)
      else if ap.service.None? then (ServerError, apps)
      else RescheduleChecked(apps, m, staff, blocks, i, late, form.value, now)
  }

  /** A reschedule request that passed the checks: refused when the time is not available, else applied. */
  function RescheduleChecked(apps: seq<Appointment>, m: map<int, Business>, staff: map<int, Staff>,
                             blocks: seq<StaffBlock>, i: nat, late: bool,
                             form: (int, MinuteOfDay, string), now: int): (Outcome, seq<Appointment>)
    requires RowsValid(apps, m) && i < |apps| && apps[i].service.Some?
  {
    var ap := apps[i];
    var b := m[ap.businessId];
    var (date, start, notes) := form;
    var avail := RescheduleAvailability(apps, m, staff, blocks, i, date, now);
    if avail.Err? then (ServerError, apps)
    else if start !in avail.value then (Rejected, apps)
    else if late then
      var newId := |apps| + 1;
      (Rebooked(newId, b.deposit.required),
       apps[i := Forfeited(ap, newId)] +
       [Rebooking(ap, newId, date, start, CalculateDeposit(b.deposit, ap.service.value.price), now)])
    else (Done, apps[i := Moved(ap, date, start, notes)])
  }

  /** The availability a reschedule request is checked against: the stored rows, the moved appointment included. */
  function RescheduleAvailability(apps: seq<Appointment>, m: map<int, Business>, staff: map<int, Staff>,
                                  blocks: seq<StaffBlock>, i: nat, date: int, now: int): Result<seq<MinuteOfDay>, AvailError>
    requires RowsValid(apps, m) && i < |apps| && apps[i].service.Some?
  {
    var ap := apps[i];
    AvailableTimes(m[ap.businessId].schedule, Directory(staff, blocks, apps), date,
                   ap.service.value.lengthMinutes, StaffArgOf(ap), ap.service, now)
  }

  /** Every outcome other than a move or a rebooking leaves the rows as they were. */
  lemma RescheduleRefusalChangesNothing(apps: seq<Appointment>, m: map<int, Business>, staff: map<int, Staff>,
                                        blocks: seq<StaffBlock>, pk: int, consent: bool,
                                        form: Option<(int, MinuteOfDay, string)>, now: int)
    requires RowsValid(apps, m)
    ensures var r := RescheduleResult(apps, m, staff, blocks, pk, consent, form, now);
      !r.0.Done? && !r.0.Rebooked? ==> r.1 == apps
  {
  }

  /**
   * A move or a rebooking happens only for an existing appointment with a
   * service and a valid form, after the lateness check (a late one needs the
   * forfeit accepted), and is then decided by the availability check.
   */
  lemma RescheduleNeedsChecks(apps: seq<Appointment>, m: map<int, Business>, staff: map<int, Staff>,
                              blocks: seq<StaffBlock>, pk: int, consent: bool,
                              form: Option<(int, MinuteOfDay, string)>, now: int)
    requires RowsValid(apps, m)
    ensures var r := RescheduleResult(apps, m, staff, blocks, pk, consent, form, now);
      (r.0.Done? || r.0.Rebooked?) ==>
        1 <= pk <= |apps| && form.Some? && apps[pk - 1].service.Some? &&
        var late := TooLate(apps[pk - 1], m[apps[pk - 1].businessId].rescheduleWindowHours, now);
        (late ==> consent) && r == RescheduleChecked(apps, m, staff, blocks, pk - 1, late, form.value, now)
  {
    var r := RescheduleResult(apps, m, staff, blocks, pk, consent, form, now);
    if !(1 <= pk <= |apps|) {
      assert r.0 == NotFound;
    } else {
      var ap := apps[pk - 1];
      var late := TooLate(ap, m[ap.businessId].rescheduleWindowHours, now);
      if (late && !consent) || form.None? {
        assert r.0 == Rejected;
      } else if ap.service.None? {
        assert r.0 == ServerError;
      }
    }
  }

  /** A checked request is moved or rebooked only when the requested time is available; it is rebooked exactly when late. */
  lemma RescheduleNeedsFreeTime(apps: seq<Appointment>, m: map<int, Business>, staff: map<int, Staff>,
                                blocks: seq<StaffBlock>, i: nat, late: bool,
                                form: (int, MinuteOfDay, string), now: int)
    requires RowsValid(apps, m) && i < |apps| && apps[i].service.Some?
    ensures var r := RescheduleChecked(apps, m, staff, blocks, i, late, form, now);
      var avail := RescheduleAvailability(apps, m, staff, blocks, i, form.0, now);
      (r.0.Done? || r.0.Rebooked?) ==>
        avail.Ok? && form.1 in avail.value && (r.0.Rebooked? <==> late)
  {
  }

  /** A late reschedule cancels the old row in place and appends one pending, unpaid request at the new time. */
  lemma RescheduleLateAppends(apps: seq<Appointment>, m: map<int, Business>, staff: map<int, Staff>,
                              blocks: seq<StaffBlock>, pk: int, consent: bool,
                              form: Option<(int, MinuteOfDay, string)>, now: int)
    requires RowsValid(apps, m)
    ensures var r := RescheduleResult(apps, m, staff, blocks, pk, consent, form, now);
      r.0.Rebooked? ==>
        1 <= pk <= |apps| && form.Some? &&
        r.0.id == |apps| + 1 && |r.1| == |apps| + 1 && r.1[pk - 1].status == Cancelled &&
        r.1[|apps|].status == Pending && !r.1[|apps|].depositPaid &&
        r.1[|apps|].date == form.value.0 && r.1[|apps|].start == form.value.1
  {
  }

  /** An early reschedule moves the appointment itself to the new time as pending and leaves every other row alone. */
  lemma RescheduleEarlyMoves(apps: seq<Appointment>, m: map<int, Business>, staff: map<int, Staff>,
                             blocks: seq<StaffBlock>, pk: int, consent: bool,
                             form: Option<(int, MinuteOfDay, string)>, now: int)
    requires RowsValid(apps, m)
    ensures var r := RescheduleResult(apps, m, staff, blocks, pk, consent, form, now);
      r.0.Done? ==>
        1 <= pk <= |apps| && form.Some? && |r.1| == |apps| &&
        r.1[pk - 1].status == Pending && r.1[pk - 1].date == form.value.0 && r.1[pk - 1].start == form.value.1 &&
        forall j :: 0 <= j < |apps| && j != pk - 1 ==> r.1[j] == apps[j]
  {
  }

  /** Row i holds id i + 1 and a business on record. */
  ghost predicate RowsValid(apps: seq<Appointment>, m: map<int, Business>) {
    forall i :: 0 <= i < |apps| ==> apps[i].id == i + 1 && apps[i].businessId in m
  }

  /** Staff members are keyed by their id and belong to a business on record. */
  ghost predicate StaffValid(staff: map<int, Staff>, m: map<int, Business>) {
    forall k :: k in staff ==> staff[k].id == k && staff[k].businessId in m
  }

  /** The business has no subscription end, or it has passed: its dashboards are locked. */
  predicate SubscriptionLapsed(b: Business, now: int) {
    b.subscriptionEnd.None? || b.subscriptionEnd.value < now
  }

  /** Businesses are keyed by id, and referrers are on record. */
  ghost predicate BusinessesValid(m: map<int, Business>) {
    forall k :: k in m ==>
      m[k].id == k && m[k].schedule.businessId == k && (m[k].referredBy.Some? ==> m[k].referredBy.value in m)
  }

  lemma AppendKeepsRows(apps: seq<Appointment>, m: map<int, Business>, ap: Appointment)
    requires RowsValid(apps, m) && ap.id == |apps| + 1 && ap.businessId in m
    ensures RowsValid(apps + [ap], m)
  {
  }

  lemma SetKeepsRows(apps: seq<Appointment>, m: map<int, Business>, i: nat, ap: Appointment)
    requires RowsValid(apps, m) && i < |apps| && ap.id == apps[i].id && ap.businessId == apps[i].businessId
    ensures RowsValid(apps[i := ap], m)
  {
  }

  lemma ForgetBusinessChange(apps: seq<Appointment>, m: map<int, Business>, m2: map<int, Business>)
    requires RowsValid(apps, m) && m.Keys == m2.Keys
    ensures RowsValid(apps, m2)
  {
  }

  lemma ApplySubscriptionKeepsValid(m: map<int, Business>, id: int, now: int)
    requires BusinessesValid(m) && id in m
    ensures BusinessesValid(ApplySubscription(m, id, now))
  {
  }

  /** The staff argument availability is called with for an existing appointment. */
  function StaffArgOf(ap: Appointment): StaffArg {
    if ap.staffId.Some? then Id(ap.staffId.value) else NoStaff
  }

  /** A notification whose payment went through. */
  predicate ItnCompletes(isPost: bool, data: map<string, string>) {
    isPost && "payment_status" in data && data["payment_status"] == "COMPLETE"
  }

  /** The payment id, "" when missing. */
  function PaymentId(data: map<string, string>): string {
    if "m_payment_id" in data then data["m_payment_id"] else ""
  }

  predicate IsSubscription(data: map<string, string>) {
    |PaymentId(data)| >= 4 && PaymentId(data)[..4] == "SUB-"
  }

  predicate IsDeposit(data: map<string, string>) {
    |PaymentId(data)| >= 4 && PaymentId(data)[..4] == "APP-"
  }

  /** The business a subscription payment is for: `custom_int1` as an integer, when that business exists. */
  function SubscriptionTarget(data: map<string, string>, m: map<int, Business>): (r: Option<int>)
    ensures r.Some? ==> r.value in m && "custom_int1" in data && ParseInt(data["custom_int1"]) == Some(r.value)
    ensures r.None? ==> "custom_int1" !in data || ParseInt(data["custom_int1"]).None? ||
                        ParseInt(data["custom_int1"]).value !in m
  {
    if "custom_int1" !in data then None
    else match ParseInt(data["custom_int1"])
      case None => None
      case Some(id) => if id in m then Some(id) else None
  }

  /** The id text of a deposit payment: a non-empty `custom_int1`, else the part after the first dash. */
  function DepositIdText(data: map<string, string>): string
    requires IsDeposit(data)
  {
    if "custom_int1" in data && data["custom_int1"] != "" then data["custom_int1"]
    else SplitDeposit(PaymentId(data)); Split(PaymentId(data), "-")[1]
  }

  /** The appointment a deposit payment is for, when its id converts and the row exists. */
  function DepositTarget(data: map<string, string>, apps: seq<Appointment>): (r: Option<int>)
    requires IsDeposit(data)
    ensures r.Some? ==> 1 <= r.value <= |apps| && ParseInt(DepositIdText(data)) == Some(r.value)
    ensures r.None? ==> ParseInt(DepositIdText(data)).None? || !(1 <= ParseInt(DepositIdText(data)).value <= |apps|)
  {
    SplitDeposit(PaymentId(data));
    match ParseInt(DepositIdText(data))
    case None => None
    case Some(pk) => if 1 <= pk <= |apps| then Some(pk) else None
  }

  /** A payment id starting with "APP-" splits at dashes into at least two parts. */
  lemma SplitDeposit(id: string)
    requires |id| >= 4 && id[..4] == "APP-"
    ensures |Split(id, "-")| >= 2
  {
    assert OccursAt(id, "-", 3);
    SplitHead(id, "-");
  }

  /** A deposit payment for "APP-n" without `custom_int1` confirms appointment n. */
  lemma DepositIdFromPaymentId(apps: seq<Appointment>, n: nat)
    requires 1 <= n <= |apps|
    ensures DepositTarget(map["m_payment_id" := "APP-" + NatToString(n)], apps) == Some(n)
  {
    var digits := NatToString(n);
    var id := "APP-" + digits;
    var data := map["m_payment_id" := id];
    assert PaymentId(data) == id;
    assert id[..4] == "APP-";
    assert id == "APP" + ['-'] + digits;
    SplitOnce("APP", digits, '-');
    assert DepositIdText(data) == digits;
    ParseIntToString(n);
  }
}
