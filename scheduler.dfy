/**
 * The periodic sweeps over the appointment table: reminder selection and
 * flagging, auto-completion, and the cancellation of stale unpaid bookings.
 * The table is an array of records updated in place.
 */
module Scheduler {
  import opened Common
  import opened Calendar
  import opened Models

  datatype ReminderKind = DayBefore | TwoHoursBefore

  /** Minutes from `now` to the appointment's start. */
  function TimeUntil(ap: Appointment, now: int): int { StartOf(ap) - now }

  /** Queued for the 24-hour reminder: confirmed, more than 2 and at most 24 hours ahead, not yet reminded. */
  predicate Due24h(ap: Appointment, now: int) {
    ap.status == Confirmed && 120 < TimeUntil(ap, now) <= 1440 && !ap.reminder24hSent
  }

  /** Queued for the 2-hour reminder: confirmed, at most 2 hours ahead and still in the future, not yet reminded. */
  predicate Due2h(ap: Appointment, now: int) {
    ap.status == Confirmed && 0 < TimeUntil(ap, now) <= 120 && !ap.reminder2hSent
  }

  predicate Due(ap: Appointment, kind: ReminderKind, now: int) {
    match kind
    case DayBefore => Due24h(ap, now)
    case TwoHoursBefore => Due2h(ap, now)
  }

  /** The date range the candidates are first narrowed to: confirmed, from today up to the day after tomorrow. */
  predicate InCandidateWindow(ap: Appointment, now: int) {
    ap.status == Confirmed && DateOf(now) <= ap.date <= DateOf(now + 2 * MinutesPerDay)
  }

  /** The coarse date filter loses nothing: every due appointment lies inside it. */
  lemma DueIsInWindow(ap: Appointment, now: int)
    requires Due24h(ap, now) || Due2h(ap, now)
    ensures InCandidateWindow(ap, now)
  {
    var st := StartOf(ap);
    assert now < st <= now + 1440;
    assert ap.date * 1440 <= st < ap.date * 1440 + 1440;
    DivBounds(now, ap.date);
    DivBounds(now + 2880, ap.date);
  }

  lemma DivBounds(x: int, d: int)
    ensures x < d * 1440 + 1440 ==> x / 1440 <= d
    ensures d * 1440 <= x ==> d <= x / 1440
  {
  }

  /** An appointment is never due for both reminders at once. */
  lemma NeverBoth(ap: Appointment, now: int)
    ensures !(Due24h(ap, now) && Due2h(ap, now))
  {
  }

  /** Whom the reminder goes to: the customer's e-mail, else the guest's; "" for none. */
  function Recipient(ap: Appointment): (r: string)
    ensures r == "" <==> ap.customerEmail == "" && ap.guestEmail == ""
  {
    if ap.customerEmail != "" then ap.customerEmail else ap.guestEmail
  }

  /** The record once the reminder of that kind is flagged as sent. */
  function MarkSent(ap: Appointment, kind: ReminderKind): (r: Appointment)
    ensures kind == DayBefore ==> r == ap.(reminder24hSent := true)
    ensures kind == TwoHoursBefore ==> r == ap.(reminder2hSent := true)
  {
    match kind
    case DayBefore => ap.(reminder24hSent := true)
    case TwoHoursBefore => ap.(reminder2hSent := true)
  }

  /** A flagged reminder is never selected again, and flagging twice is flagging once. */
  lemma MarkSentStopsReminder(ap: Appointment, kind: ReminderKind, now: int)
    ensures !Due(MarkSent(ap, kind), kind, now)
    ensures MarkSent(MarkSent(ap, kind), kind) == MarkSent(ap, kind)
    ensures Recipient(MarkSent(ap, kind)) == Recipient(ap)
  {
  }

  /** The effect of one batch on a row: flagged iff it was in the batch, has a recipient and the mail went out. */
  function AfterBatch(ap: Appointment, inBatch: bool, kind: ReminderKind, sent: bool): Appointment {
    if inBatch && Recipient(ap) != "" && sent then MarkSent(ap, kind) else ap
  }

  /**
   * The selection part of `trigger_pending_reminders`: the rows due for each
   * reminder, in table order. Nothing is written.
   */
  method ClassifyReminders(a: array<Appointment>, now: int) returns (due24: seq<int>, due2: seq<int>)
    ensures forall i :: i in due24 <==> 0 <= i < a.Length && Due24h(a[i], now)
    ensures forall i :: i in due2 <==> 0 <= i < a.Length && Due2h(a[i], now)
    ensures StrictlyIncreasing(due24) && StrictlyIncreasing(due2)
    ensures forall j :: 0 <= j < |due24| ==> 0 <= due24[j] < a.Length
    ensures forall j :: 0 <= j < |due2| ==> 0 <= due2[j] < a.Length
  {
    due24, due2 := [], [];
    var i := 0;
    while i < a.Length
      invariant 0 <= i <= a.Length
      invariant forall k :: k in due24 <==> 0 <= k < i && Due24h(a[k], now)
      invariant forall k :: k in due2 <==> 0 <= k < i && Due2h(a[k], now)
      invariant StrictlyIncreasing(due24) && StrictlyIncreasing(due2)
      invariant forall j :: 0 <= j < |due24| ==> 0 <= due24[j] < i
      invariant forall j :: 0 <= j < |due2| ==> 0 <= due2[j] < i
    {
      var ap := a[i];
      if InCandidateWindow(ap, now) {
        var until := StartOf(ap) - now;
        if 120 < until <= 1440 && !ap.reminder24hSent {
          due24 := due24 + [i];
        }
        if 0 < until <= 120 && !ap.reminder2hSent {
          due2 := due2 + [i];
        }
      } else if Due24h(ap, now) || Due2h(ap, now) {
        DueIsInWindow(ap, now);
        assert false;
      }
      i := i + 1;
    }
  }

  /**
   * The flag-setting part of `send_reminder_batch`: a row of the batch gets its
   * flag iff it has a recipient and `sent` says the mail to it went out. The
   * mail itself is outside the model; `sent` holds the (row, kind) pairs whose
   * send succeeded.
   */
  method SendReminderBatch(a: array<Appointment>, batch: seq<int>, kind: ReminderKind, sent: set<(int, ReminderKind)>)
    requires forall j :: 0 <= j < |batch| ==> 0 <= batch[j] < a.Length
    modifies a
    ensures forall i :: 0 <= i < a.Length ==>
      a[i] == AfterBatch(old(a[i]), i in batch, kind, (i, kind) in sent)
  {
    var j := 0;
    while j < |batch|
      invariant 0 <= j <= |batch|
      invariant forall i :: 0 <= i < a.Length ==>
        a[i] == AfterBatch(old(a[i]), i in batch[..j], kind, (i, kind) in sent)
    {
      var i := batch[j];
      assert batch[..j + 1] == batch[..j] + [i];
      if Recipient(a[i]) != "" && (i, kind) in sent {
        a[i] := MarkSent(a[i], kind);
      }
      j := j + 1;
    }
    assert batch[..j] == batch;
  }

  /** The status after the auto-completion sweep: confirmed appointments two hours past their start become completed. */
  function AutoCompleted(ap: Appointment, now: int): (r: Appointment)
    ensures r.status == Completed <==> ap.status == Completed || (ap.status == Confirmed && now >= StartOf(ap) + 120)
    ensures r == ap.(status := r.status)
  {
    if ap.status == Confirmed && now >= StartOf(ap) + 2 * MinutesPerHour then ap.(status := Completed) else ap
  }

  /** Running the sweep again at the same time changes nothing more. */
  lemma AutoCompletedIdempotent(ap: Appointment, now: int)
    ensures AutoCompleted(AutoCompleted(ap, now), now) == AutoCompleted(ap, now)
  {
  }

  /** `process_auto_completions`: the status field only, written directly without the length snapshot. */
  method ProcessAutoCompletions(a: array<Appointment>, now: int)
    modifies a
    ensures forall i :: 0 <= i < a.Length ==> a[i] == AutoCompleted(old(a[i]), now)
  {
    var i := 0;
    while i < a.Length
      invariant 0 <= i <= a.Length
      invariant forall k :: 0 <= k < i ==> a[k] == AutoCompleted(old(a[k]), now)
      invariant forall k :: i <= k < a.Length ==> a[k] == old(a[k])
    {
      var ap := a[i];
      if ap.status == Confirmed && ap.date <= DateOf(now) {
        if now >= StartOf(ap) + 2 * MinutesPerHour {
          a[i] := ap.(status := Completed);
        }
      } else if ap.status == Confirmed && now >= StartOf(ap) + 2 * MinutesPerHour {
        CompletionIsInWindow(ap, now);
        assert false;
      }
      i := i + 1;
    }
  }

  /** The coarse date filter of the completion sweep loses nothing. */
  lemma CompletionIsInWindow(ap: Appointment, now: int)
    requires now >= StartOf(ap) + 120
    ensures ap.date <= DateOf(now)
  {
    DivBounds(now, ap.date);
  }

  /** The row of `trigger_pending_reminders` after both batches and the completion sweep. */
  function AfterTrigger(ap: Appointment, i: int, now: int, sent: set<(int, ReminderKind)>): Appointment {
    AutoCompleted(
      AfterBatch(AfterBatch(ap, Due24h(ap, now), DayBefore, (i, DayBefore) in sent),
                 Due2h(ap, now), TwoHoursBefore, (i, TwoHoursBefore) in sent),
      now)
  }

  /** A row gets at most one reminder flag per run, and only a reminder that was due. */
  lemma {:induction false} OneReminderPerRun(ap: Appointment, i: int, now: int, sent: set<(int, ReminderKind)>)
    ensures var r := AfterTrigger(ap, i, now, sent);
      (r.reminder24hSent != ap.reminder24hSent ==> Due24h(ap, now) && r.reminder2hSent == ap.reminder2hSent) &&
      (r.reminder2hSent != ap.reminder2hSent ==> Due2h(ap, now) && r.reminder24hSent == ap.reminder24hSent)
  {
    NeverBoth(ap, now);
  }

  /** `trigger_pending_reminders`: select, send the 24-hour batch, send the 2-hour batch, then auto-complete. */
  method TriggerPendingReminders(a: array<Appointment>, now: int, sent: set<(int, ReminderKind)>)
    modifies a
    ensures forall i :: 0 <= i < a.Length ==> a[i] == AfterTrigger(old(a[i]), i, now, sent)
  {
    var due24, due2 := ClassifyReminders(a, now);
    ghost var before := a[..];
    SendReminderBatch(a, due24, DayBefore, sent);
    assert forall i :: 0 <= i < a.Length ==> (i in due2 <==> Due2h(before[i], now));
    SendReminderBatch(a, due2, TwoHoursBefore, sent);
    ProcessAutoCompletions(a, now);
  }

  /** A stale booking: that business's, pending, unpaid and created more than 10 minutes before `now`. */
  predicate Expired(ap: Appointment, businessId: int, now: int) {
    ap.businessId == businessId && ap.status == Pending && ap.createdAt < now - 10 && !ap.depositPaid
  }

  /** The row after the cleanup: a stale booking is cancelled and saved. */
  function CleanedUp(ap: Appointment, depositRequired: bool, businessId: int, now: int): (r: Appointment)
    ensures !depositRequired || !Expired(ap, businessId, now) ==> r == ap
    ensures depositRequired && Expired(ap, businessId, now) ==> r == Save(ap.(status := Cancelled))
  {
    if depositRequired && Expired(ap, businessId, now) then Save(ap.(status := Cancelled)) else ap
  }

  /** After the cleanup no stale booking is left, and a second run changes nothing. */
  lemma CleanupLeavesNoneExpired(ap: Appointment, businessId: int, now: int)
    ensures !Expired(CleanedUp(ap, true, businessId, now), businessId, now)
    ensures CleanedUp(CleanedUp(ap, true, businessId, now), true, businessId, now) == CleanedUp(ap, true, businessId, now)
  {
  }

  /** `cleanup_expired_appointments`: nothing unless the business requires deposits. */
  method CleanupExpired(a: array<Appointment>, depositRequired: bool, businessId: int, now: int)
    modifies a
    ensures forall i :: 0 <= i < a.Length ==> a[i] == CleanedUp(old(a[i]), depositRequired, businessId, now)
  {
    if !depositRequired {
      return;
    }
    var limit := now - 10;
    var i := 0;
    while i < a.Length
      invariant 0 <= i <= a.Length
      invariant forall k :: 0 <= k < i ==> a[k] == CleanedUp(old(a[k]), depositRequired, businessId, now)
      invariant forall k :: i <= k < a.Length ==> a[k] == old(a[k])
    {
      var ap := a[i];
      if ap.businessId == businessId && ap.status == Pending && ap.createdAt < limit && !ap.depositPaid {
        a[i] := Save(ap.(status := Cancelled));
      }
      i := i + 1;
    }
  }
}
