/**
 * The records of the booking application and the logic of their `save` methods:
 * the appointment status choices, the service-length snapshot, the end time of
 * an appointment, the unique business slug and the unique embed token.
 */
module Models {
  import opened Common
  import opened Strings
  import opened Calendar

  /** `Appointment.STATUS_CHOICES`. */
  datatype Status = Pending | Confirmed | Declined | RescheduleRequested | Completed | Cancelled

  /** The stored key of a status. */
  function StatusKey(s: Status): string {
    match s
    case Pending => "pending"
    case Confirmed => "confirmed"
    case Declined => "declined"
    case RescheduleRequested => "reschedule_requested"
    case Completed => "completed"
    case Cancelled => "cancelled"
  }

  /** Membership in the list of status keys: a key is accepted iff it is one of the six. */
  function ParseStatus(key: string): (r: Option<Status>)
    ensures r.Some? ==> StatusKey(r.value) == key
    ensures r.None? ==> forall s: Status :: StatusKey(s) != key
  {
    if key == "pending" then Some(Pending)
    else if key == "confirmed" then Some(Confirmed)
    else if key == "declined" then Some(Declined)
    else if key == "reschedule_requested" then Some(RescheduleRequested)
    else if key == "completed" then Some(Completed)
    else if key == "cancelled" then Some(Cancelled)
    else None
  }

  /** A service row as joined into an appointment (`select_related('service')`). */
  datatype Service = Service(
    id: int,
    businessId: int,
    lengthMinutes: nat,       // default_length_minutes
    price: Option<int>,       // cents; None when the price is blank
    capacity: int)

  /**
   * An appointment row. `customerEmail` is "" when there is no customer or the
   * customer has no e-mail; `guestEmail` is "" when blank. Money is in cents and
   * `createdAt` is an instant.
   */
  datatype Appointment = Appointment(
    id: int,
    businessId: int,          // booking_form.business
    customerId: Option<int>,
    customerEmail: string,
    guestName: string,
    guestEmail: string,
    service: Option<Service>,
    staffId: Option<int>,
    date: int,
    start: MinuteOfDay,
    lengthMinutes: nat,
    attendees: int,
    status: Status,
    depositPaid: bool,
    amountToPay: int,
    createdAt: int,
    reminder24hSent: bool,
    reminder2hSent: bool,
    notes: string)

  /** The attendee count of a row that no handler sets. */
  const DefaultAttendees := 1

  /** The start instant of an appointment. */
  function StartOf(a: Appointment): int { Instant(a.date, a.start) }

  /**
   * `Appointment.save`: with a service, the length is re-snapshotted from the
   * service's current default length; nothing else changes.
   */
  function Save(a: Appointment): (r: Appointment)
    ensures r == a.(lengthMinutes := r.lengthMinutes)
    ensures a.service.Some? ==> r.lengthMinutes == a.service.value.lengthMinutes
    ensures a.service.None? ==> r == a
  {
    match a.service
    case Some(svc) => a.(lengthMinutes := svc.lengthMinutes)
    case None => a
  }

  /** `Appointment.end_time`: the time of day `lengthMinutes` after the start, wrapping past midnight. */
  function EndTime(a: Appointment): (t: MinuteOfDay)
    ensures (a.start + a.lengthMinutes - t) % MinutesPerDay == 0
    ensures a.start + a.lengthMinutes < MinutesPerDay ==> t == a.start + a.lengthMinutes
    ensures a.lengthMinutes < MinutesPerDay <= a.start + a.lengthMinutes ==> t < a.start
  {
    (a.start + a.lengthMinutes) % MinutesPerDay
  }

  /** The k-th slug candidate of `Business.save`: the base itself, then base1, base2, .... */
  function SlugCandidate(base: string, k: nat): string {
    if k == 0 then base else base + NatToString(k)
  }

  /** The first n candidates. */
  function CandidatesBelow(base: string, n: nat): set<string> {
    if n == 0 then {} else CandidatesBelow(base, n - 1) + {SlugCandidate(base, n - 1)}
  }

  lemma {:induction false} CandidatesDistinct(base: string, m: nat, n: nat)
    requires m <= n
    ensures SlugCandidate(base, n) !in CandidatesBelow(base, m)
  {
    if m > 0 {
      CandidatesDistinct(base, m - 1, n);
      var c, d := SlugCandidate(base, m - 1), SlugCandidate(base, n);
      if c == d {
        if m - 1 == 0 {
          assert |d| > |base|;
        } else {
          assert c[|base|..] == NatToString(m - 1);
          assert d[|base|..] == NatToString(n);
          NatToStringInjective(m - 1, n);
        }
      }
    }
  }

  lemma {:induction false} CandidatesBelowSize(base: string, n: nat)
    ensures |CandidatesBelow(base, n)| == n
  {
    if n > 0 {
      CandidatesBelowSize(base, n - 1);
      CandidatesDistinct(base, n - 1, n - 1);
    }
  }

  /**
   * `Business.save`: a non-empty slug is kept; an empty one becomes the first of
   * base, base1, base2, ... that no existing business uses, where base is
   * `slugify(name)`.
   */
  method SaveSlug(slug: string, base: string, taken: set<string>) returns (r: string)
    ensures slug != "" ==> r == slug
    ensures slug == "" ==> r !in taken
    ensures slug == "" ==> exists k: nat :: r == SlugCandidate(base, k) && CandidatesBelow(base, k) <= taken
  {
    if slug != "" {
      return slug;
    }
    r := base;
    var num: nat := 1;
    while r in taken
      invariant r == SlugCandidate(base, num - 1)
      invariant CandidatesBelow(base, num - 1) <= taken
      decreases |taken| - (num - 1)
    {
      CandidatesBelowSize(base, num - 1);
      assert CandidatesBelow(base, num) <= taken;
      CandidatesBelowSize(base, num);
      assert |CandidatesBelow(base, num)| <= |taken| by {
        SubsetSize(CandidatesBelow(base, num), taken);
      }
      r := base + NatToString(num);
      num := num + 1;
    }
  }

  lemma SubsetSize<T>(a: set<T>, b: set<T>)
    requires a <= b
    ensures |a| <= |b|
  {
    if a != b {
      assert |b| == |a| + |b - a|;
    }
  }

  /**
   * `BookingForm.save`: an existing embed token is kept; otherwise tokens are
   * drawn until one is unused. `draws` stands for the random source; the model
   * answers None when the draws run out before a free one appears.
   */
  method SaveEmbedToken(token: string, draws: seq<string>, used: set<string>) returns (r: Option<string>)
    ensures token != "" ==> r == Some(token)
    ensures token == "" && r.Some? ==> r.value !in used
    ensures token == "" && r.Some? ==>
      exists i :: 0 <= i < |draws| && draws[i] == r.value && forall j :: 0 <= j < i ==> draws[j] in used
    ensures token == "" && r.None? ==> forall j :: 0 <= j < |draws| ==> draws[j] in used
  {
    if token != "" {
      return Some(token);
    }
    var i := 0;
    while i < |draws| && draws[i] in used
      invariant 0 <= i <= |draws|
      invariant forall j :: 0 <= j < i ==> draws[j] in used
    {
      i := i + 1;
    }
    if i < |draws| {
      r := Some(draws[i]);
    } else {
      r := None;
    }
  }
}
