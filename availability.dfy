/**
 * The availability engine: the start times a service of a given length can
 * still be booked at on a date. Times of day are minutes after midnight and
 * instants are minutes on the one local clock (see module Calendar).
 */
module Availability {
  import opened Common
  import opened Strings
  import opened Calendar
  import opened Models

  /** Opening and closing time for one day bucket. */
  datatype Hours = Hours(open: MinuteOfDay, close: MinuteOfDay)

  /** A staff member with their own hours per day bucket (at most one row per bucket is used). */
  datatype Staff = Staff(id: int, businessId: int, hours: map<DayKey, Hours>)

  /** A staff member's blocked period on one date. */
  datatype StaffBlock = StaffBlock(staffId: int, date: int, start: MinuteOfDay, end: MinuteOfDay)

  /** What availability needs to know about a business. */
  datatype Schedule = Schedule(
    businessId: int,
    hours: map<DayKey, Hours>,
    blockedDates: set<int>,
    bufferMinutes: int)

  /** The rows availability reads: all staff by id, all staff blocks, all appointments. */
  datatype Directory = Directory(
    staff: map<int, Staff>,
    staffBlocks: seq<StaffBlock>,
    appointments: seq<Appointment>)

  /** The `staff_id` argument: absent, text from a request, or a number. */
  datatype StaffArg = NoStaff | Raw(text: string) | Id(n: int)

  /** The ways availability fails: a staff id the id field cannot convert, or a relevant appointment without a service. */
  datatype AvailError = BadStaffId | ServiceMissing

  /** The staff argument after `str(...).strip()`, or "" when the argument is falsy. */
  function CleanStaffArg(arg: StaffArg): string {
    match arg
    case NoStaff => ""
    case Raw(t) => if t == "" then "" else Strip(t)
    case Id(n) => if n == 0 then "" else IntToString(n)
  }

  /** The placeholder values that mean "no staff". */
  predicate IsNullMarker(s: string) {
    s == "" || s == "None" || s == "null" || s == "undefined"
  }

  /**
   * The staff lookup: a cleaned argument that is not a null marker is converted
   * to an id (failing as the id field does) and looked up among all staff.
   */
  function ResolveStaff(arg: StaffArg, staff: map<int, Staff>): (r: Result<Option<Staff>, AvailError>)
    ensures IsNullMarker(CleanStaffArg(arg)) ==> r == Ok(None)
    ensures !IsNullMarker(CleanStaffArg(arg)) && ParseInt(CleanStaffArg(arg)).None? ==> r == Err(BadStaffId)
    ensures !IsNullMarker(CleanStaffArg(arg)) && ParseInt(CleanStaffArg(arg)).Some? ==>
      var k := ParseInt(CleanStaffArg(arg)).value;
      r == Ok(if k in staff then Some(staff[k]) else None)
    ensures r.Ok? && r.value.Some? ==> r.value.value in staff.Values
  {
    var clean := CleanStaffArg(arg);
    if IsNullMarker(clean) then Ok(None)
    else match ParseInt(clean)
      case None => Err(BadStaffId)
      case Some(k) => Ok(if k in staff then Some(staff[k]) else None)
  }

  /** A numeric staff argument finds exactly the staff member with that id. */
  lemma ResolveStaffById(n: int, staff: map<int, Staff>)
    requires n != 0
    ensures ResolveStaff(Id(n), staff) == Ok(if n in staff then Some(staff[n]) else None)
  {
    ParseIntToString(n);
    assert CleanStaffArg(Id(n)) == IntToString(n);
    var c := IntToString(n);
    assert c[0] == '-' || IsAsciiDigit(c[0]);
    assert c != "" && c[0] != 'N' && c[0] != 'n' && c[0] != 'u';
    assert !IsNullMarker(c) by {
      assert c != "None" && c != "null" && c != "undefined";
    }
    assert ParseInt(c) == Some(n);
  }

  /** The staff member's hours for the bucket when a staff member was found and has them, else the business's. */
  function ResolveHours(sched: Schedule, staff: Option<Staff>, key: DayKey): (h: Option<Hours>)
    ensures staff.Some? && key in staff.value.hours ==> h == Some(staff.value.hours[key])
    ensures (staff.None? || key !in staff.value.hours) ==>
      h == (if key in sched.hours then Some(sched.hours[key]) else None)
  {
    if staff.Some? && key in staff.value.hours then Some(staff.value.hours[key])
    else if key in sched.hours then Some(sched.hours[key])
    else None
  }

  /** The grid step: the buffer when it is positive and below 15 minutes, else 15. */
  function SearchInterval(buffer: int): (step: nat)
    ensures 1 <= step <= 15
    ensures buffer > 0 ==> step <= buffer
    ensures step < 15 ==> step == buffer
  {
    if buffer > 0 then (if buffer < 15 then buffer else 15) else 15
  }

  /** The instant one hour after `now`, truncated to the whole hour. */
  function NextHour(now: int): (h: int)
    ensures h % MinutesPerHour == 0
    ensures now < h <= now + MinutesPerHour
  {
    ((now + 60) / 60) * 60
  }

  /**
   * Where the grid starts, in minutes after the date's midnight: the opening
   * time, moved on to the next whole hour when the date is today and that is later.
   */
  function EffectiveStart(open: MinuteOfDay, date: int, now: int): (c: nat)
    ensures c >= open
    ensures DateOf(now) == date ==> Instant(date, 0) + c >= NextHour(now)
    ensures DateOf(now) == date ==> c == open || Instant(date, 0) + c == NextHour(now)
    ensures DateOf(now) != date ==> c == open
  {
    if DateOf(now) == date && NextHour(now) > Instant(date, open) then NextHour(now) - date * MinutesPerDay
    else open
  }

  /** The start times cur, cur + step, ... whose service still ends by `close`. */
  function GridFrom(cur: nat, close: MinuteOfDay, len: nat, step: nat): (g: seq<MinuteOfDay>)
    requires step > 0
    ensures forall i :: 0 <= i < |g| ==> cur <= g[i] && g[i] + len <= close
    ensures StrictlyIncreasing(g)
    decreases close - cur
  {
    if cur + len > close then [] else [cur as MinuteOfDay] + GridFrom(cur + step, close, len, step)
  }

  /** The grid is evenly spaced: its i-th start is `cur + i * step`. */
  lemma {:induction false} GridSpacing(cur: nat, close: MinuteOfDay, len: nat, step: nat)
    requires step > 0
    ensures forall i :: 0 <= i < |GridFrom(cur, close, len, step)| ==>
      GridFrom(cur, close, len, step)[i] == cur + i * step
    decreases close - cur
  {
    var g := GridFrom(cur, close, len, step);
    if cur + len <= close {
      GridSpacing(cur + step, close, len, step);
      var t := GridFrom(cur + step, close, len, step);
      assert g == [cur as MinuteOfDay] + t;
      forall i | 0 <= i < |g|
        ensures g[i] == cur + i * step
      {
        if i > 0 {
          assert g[i] == t[i - 1];
          assert t[i - 1] == (cur + step) + (i - 1) * step;
          assert (cur + step) + (i - 1) * step == cur + i * step;
        }
      }
    }
  }

  /** Every potential slot is the start plus a whole number of steps, and fits before closing. */
  lemma GridMembers(cur: nat, close: MinuteOfDay, len: nat, step: nat)
    requires step > 0
    ensures forall s :: s in GridFrom(cur, close, len, step) ==>
      cur <= s && s + len <= close && exists k: nat :: s == cur + k * step
  {
    var grid := GridFrom(cur, close, len, step);
    GridSpacing(cur, close, len, step);
    forall s | s in grid
      ensures exists k: nat :: s == cur + k * step
    {
      var k :| 0 <= k < |grid| && grid[k] == s;
      assert grid[k] == cur + k * step;
    }
  }

  /** The grid contains every on-step start that fits: nothing is skipped. */
  lemma {:induction false} GridComplete(cur: nat, close: MinuteOfDay, len: nat, step: nat, k: nat)
    requires step > 0
    requires cur + k * step + len <= close
    ensures cur + k * step in GridFrom(cur, close, len, step)
    decreases k
  {
    if k > 0 {
      assert (cur + step) + (k - 1) * step == cur + k * step;
      GridComplete(cur + step, close, len, step, k - 1);
    }
  }

  /** The request-independent parameters of one evaluation of a slot. */
  datatype Query = Query(date: int, len: nat, buffer: int, service: Option<Service>)

  /** The existing appointment, widened by the buffer on both sides, overlaps the slot. */
  predicate InBufferedRange(ap: Appointment, q: Query, s: MinuteOfDay)
    requires ap.service.Some?
  {
    var apStart := StartOf(ap);
    var apEnd := apStart + ap.service.value.lengthMinutes;
    Instant(q.date, s) < apEnd + q.buffer && Instant(q.date, s) + q.len > apStart - q.buffer
  }

  /** The appointment is for the requested service and starts exactly at the slot. */
  predicate SameSession(ap: Appointment, q: Query, s: MinuteOfDay)
    requires ap.service.Some?
  {
    q.service.Some? && ap.service.value.id == q.service.value.id && StartOf(ap) == Instant(q.date, s)
  }

  /** The appointment blocks the slot outright. */
  predicate Conflicts(ap: Appointment, q: Query, s: MinuteOfDay) {
    ap.service.Some? && InBufferedRange(ap, q, s) && !SameSession(ap, q, s)
  }

  /** The appointment's attendees count towards the slot's session. */
  predicate JoinsSession(ap: Appointment, q: Query, s: MinuteOfDay) {
    ap.service.Some? && InBufferedRange(ap, q, s) && SameSession(ap, q, s)
  }

  /** The state of the scan over existing appointments for one slot. */
  datatype Scan = Open(attendees: int) | Blocked | Crash

  /** One appointment of the scan: a missing service fails, a conflict stops the scan, a session adds its attendees. */
  function ScanStep(n: int, ap: Appointment, q: Query, s: MinuteOfDay): (r: Scan)
    ensures ap.service.None? <==> r == Crash
    ensures r == Blocked <==> Conflicts(ap, q, s)
    ensures JoinsSession(ap, q, s) ==> r == Open(n + ap.attendees)
    ensures ap.service.Some? && !InBufferedRange(ap, q, s) ==> r == Open(n)
  {
    match ap.service
    case None => Crash
    case Some(_) =>
      if InBufferedRange(ap, q, s) then
        (if SameSession(ap, q, s) then Open(n + ap.attendees) else Blocked)
      else Open(n)
  }

  /** The scan over the appointments in order, stopping at the first conflict or failure. */
  function ScanFrom(acc: Scan, rel: seq<Appointment>, q: Query, s: MinuteOfDay): Scan
    decreases |rel|
  {
    if rel == [] || !acc.Open? then acc
    else ScanFrom(ScanStep(acc.attendees, rel[0], q, s), rel[1..], q, s)
  }

  /** The attendees of the appointments that join the slot's session. */
  function SessionAttendees(rel: seq<Appointment>, q: Query, s: MinuteOfDay): int
    decreases |rel|
  {
    if rel == [] then 0
    else (if JoinsSession(rel[0], q, s) then rel[0].attendees else 0) + SessionAttendees(rel[1..], q, s)
  }

  predicate AllHaveService(rel: seq<Appointment>) {
    forall i :: 0 <= i < |rel| ==> rel[i].service.Some?
  }

  /**
   * When every appointment has a service, the scan blocks iff some appointment
   * conflicts with the slot, and otherwise ends with the session's attendees.
   */
  lemma {:induction false} ScanCharacterised(n: int, rel: seq<Appointment>, q: Query, s: MinuteOfDay)
    requires AllHaveService(rel)
    ensures ScanFrom(Open(n), rel, q, s) ==
      if exists i :: 0 <= i < |rel| && Conflicts(rel[i], q, s) then Blocked
      else Open(n + SessionAttendees(rel, q, s))
    decreases |rel|
  {
    if rel != [] {
      var step := ScanStep(n, rel[0], q, s);
      if step == Blocked {
        assert Conflicts(rel[0], q, s);
      } else {
        ScanCharacterised(step.attendees, rel[1..], q, s);
        if exists i :: 0 <= i < |rel| && Conflicts(rel[i], q, s) {
          var i :| 0 <= i < |rel| && Conflicts(rel[i], q, s);
          assert rel[1..][i - 1] == rel[i];
        } else {
          forall i | 0 <= i < |rel[1..]|
            ensures !Conflicts(rel[1..][i], q, s)
          {
            assert rel[1..][i] == rel[i + 1];
          }
        }
      }
    }
  }

  /** The scan reaches a failure when the first appointment it meets has no service. */
  lemma ScanFailsOnFirst(n: int, rel: seq<Appointment>, q: Query, s: MinuteOfDay)
    requires rel != [] && rel[0].service.None?
    ensures ScanFrom(Open(n), rel, q, s) == Crash
  {
  }

  /** The appointment status keeps its slot held: confirmed, awaiting a reschedule, or pending and under two hours old. */
  predicate HoldsSlot(ap: Appointment, now: int) {
    ap.status == Confirmed || ap.status == RescheduleRequested ||
    (ap.status == Pending && ap.createdAt > now - 2 * MinutesPerHour)
  }

  /** The appointments that can block a slot: same date, same staff member (or business when no staff member was found), holding their slot. */
  function Relevant(apps: seq<Appointment>, date: int, staff: Option<Staff>, businessId: int, now: int): (rel: seq<Appointment>)
    ensures forall ap :: ap in rel <==>
      ap in apps && ap.date == date && HoldsSlot(ap, now) &&
      (if staff.Some? then ap.staffId == Some(staff.value.id) else ap.businessId == businessId)
    decreases |apps|
  {
    if apps == [] then []
    else
      var rest := Relevant(apps[1..], date, staff, businessId, now);
      var ap := apps[0];
      assert forall x :: x in apps <==> x == ap || x in apps[1..];
      if ap.date == date && HoldsSlot(ap, now) &&
         (if staff.Some? then ap.staffId == Some(staff.value.id) else ap.businessId == businessId)
      then [ap] + rest
      else rest
  }

  /** The filter keeps the rows' order: filtering a concatenation filters each part in turn. */
  lemma {:induction false} RelevantAppend(a: seq<Appointment>, b: seq<Appointment>, date: int, staff: Option<Staff>, businessId: int, now: int)
    ensures Relevant(a + b, date, staff, businessId, now) ==
      Relevant(a, date, staff, businessId, now) + Relevant(b, date, staff, businessId, now)
    decreases |a|
  {
    if a != [] {
      assert (a + b)[1..] == a[1..] + b;
      assert (a + b)[0] == a[0];
      RelevantAppend(a[1..], b, date, staff, businessId, now);
    } else {
      assert a + b == b;
    }
  }

  /** The blocks of the staff member found, on the date; none without a staff member. */
  function BlocksFor(blocks: seq<StaffBlock>, staff: Option<Staff>, date: int): (bs: seq<StaffBlock>)
    ensures staff.None? ==> bs == []
    ensures forall b :: b in bs <==> staff.Some? && b in blocks && b.staffId == staff.value.id && b.date == date
    decreases |blocks|
  {
    if staff.None? || blocks == [] then []
    else
      var rest := BlocksFor(blocks[1..], staff, date);
      var b := blocks[0];
      assert forall x :: x in blocks <==> x == b || x in blocks[1..];
      if b.staffId == staff.value.id && b.date == date then [b] + rest else rest
  }

  /** The slot overlaps one of the blocks (no buffer). */
  predicate InStaffBlock(bs: seq<StaffBlock>, len: nat, s: MinuteOfDay) {
    exists i :: 0 <= i < |bs| && s < bs[i].end && s + len > bs[i].start
  }

  /** The capacity of a session: the given service's, or 1 without a service. */
  function Capacity(service: Option<Service>): int {
    if service.Some? then service.value.capacity else 1
  }

  /** Everything one slot is judged against. */
  datatype Context = Context(rel: seq<Appointment>, blocks: seq<StaffBlock>, q: Query, cap: int)

  datatype Verdict = Keep | Drop | Fail

  /** The fate of one slot: the scan, then the capacity, then the staff blocks. */
  function Judge(ctx: Context, s: MinuteOfDay): Verdict {
    match ScanFrom(Open(0), ctx.rel, ctx.q, s)
    case Crash => Fail
    case Blocked => Drop
    case Open(n) =>
      if n >= ctx.cap then Drop
      else if InStaffBlock(ctx.blocks, ctx.q.len, s) then Drop
      else Keep
  }

  /** A slot that no appointment conflicts with, whose session is below capacity and that no block touches. */
  predicate Admissible(ctx: Context, s: MinuteOfDay) {
    (forall i :: 0 <= i < |ctx.rel| ==> !Conflicts(ctx.rel[i], ctx.q, s)) &&
    SessionAttendees(ctx.rel, ctx.q, s) < ctx.cap &&
    !InStaffBlock(ctx.blocks, ctx.q.len, s)
  }

  /** With every appointment carrying a service, a slot is kept exactly when it is admissible, and never fails. */
  lemma JudgeAdmissible(ctx: Context, s: MinuteOfDay)
    requires AllHaveService(ctx.rel)
    ensures Judge(ctx, s) != Fail
    ensures Judge(ctx, s) == Keep <==> Admissible(ctx, s)
  {
    ScanCharacterised(0, ctx.rel, ctx.q, s);
  }

  /** The slots kept, in grid order; the first failing slot fails the whole evaluation. */
  function Sift(slots: seq<MinuteOfDay>, ctx: Context): Result<seq<MinuteOfDay>, AvailError>
    decreases |slots|
  {
    if slots == [] then Ok([])
    else
      var s := slots[|slots| - 1];
      match Sift(slots[..|slots| - 1], ctx)
      case Err(e) => Err(e)
      case Ok(kept) =>
        match Judge(ctx, s)
        case Fail => Err(ServiceMissing)
        case Keep => Ok(kept + [s])
        case Drop => Ok(kept)
  }

  /** Sifting fails iff some slot fails; otherwise it keeps exactly the slots judged Keep, in order. */
  lemma SiftCharacterised(slots: seq<MinuteOfDay>, ctx: Context)
    ensures Sift(slots, ctx).Err? <==> exists i :: 0 <= i < |slots| && Judge(ctx, slots[i]) == Fail
    ensures Sift(slots, ctx).Err? ==> Sift(slots, ctx) == Err(ServiceMissing)
    ensures Sift(slots, ctx).Ok? ==> forall s :: s in Sift(slots, ctx).value <==> s in slots && Judge(ctx, s) == Keep
    ensures Sift(slots, ctx).Ok? && StrictlyIncreasing(slots) ==> StrictlyIncreasing(Sift(slots, ctx).value)
  {
    SiftFails(slots, ctx);
    SiftKeeps(slots, ctx);
    if StrictlyIncreasing(slots) {
      SiftSorted(slots, ctx);
    }
  }

  lemma {:induction false} SiftFails(slots: seq<MinuteOfDay>, ctx: Context)
    ensures Sift(slots, ctx).Err? <==> exists i :: 0 <= i < |slots| && Judge(ctx, slots[i]) == Fail
    ensures Sift(slots, ctx).Err? ==> Sift(slots, ctx) == Err(ServiceMissing)
    decreases |slots|
  {
    if slots != [] {
      var init, s := slots[..|slots| - 1], slots[|slots| - 1];
      SiftFails(init, ctx);
      if Sift(init, ctx).Err? {
        var i :| 0 <= i < |init| && Judge(ctx, init[i]) == Fail;
        assert slots[i] == init[i];
      } else if Judge(ctx, s) != Fail {
        forall i | 0 <= i < |slots|
          ensures Judge(ctx, slots[i]) != Fail
        {
          if i < |init| { assert slots[i] == init[i]; }
        }
      }
    }
  }

  lemma {:induction false} SiftKeeps(slots: seq<MinuteOfDay>, ctx: Context)
    ensures Sift(slots, ctx).Ok? ==> forall s :: s in Sift(slots, ctx).value <==> s in slots && Judge(ctx, s) == Keep
    decreases |slots|
  {
    if slots != [] {
      var init, s := slots[..|slots| - 1], slots[|slots| - 1];
      assert slots == init + [s];
      SiftKeeps(init, ctx);
      assert forall x :: x in slots <==> x in init || x == s;
    }
  }

  lemma {:induction false} SiftSorted(slots: seq<MinuteOfDay>, ctx: Context)
    requires StrictlyIncreasing(slots)
    ensures Sift(slots, ctx).Ok? ==> StrictlyIncreasing(Sift(slots, ctx).value)
    decreases |slots|
  {
    if slots != [] && Sift(slots, ctx).Ok? {
      var init, s := slots[..|slots| - 1], slots[|slots| - 1];
      assert StrictlyIncreasing(init) by {
        forall i, j | 0 <= i < j < |init| ensures init[i] < init[j] {
          assert init[i] == slots[i] && init[j] == slots[j];
        }
      }
      SiftSorted(init, ctx);
      SiftKeeps(init, ctx);
      var kept := Sift(init, ctx).value;
      if Judge(ctx, s) == Keep {
        forall x | x in kept ensures x < s {
          var i :| 0 <= i < |init| && init[i] == x;
          assert slots[i] == x;
        }
        var out := kept + [s];
        forall i, j | 0 <= i < j < |out| ensures out[i] < out[j] {
          if j < |kept| {
            assert out[i] == kept[i] && out[j] == kept[j];
          } else {
            assert out[i] == kept[i] && kept[i] in kept;
          }
        }
      }
    }
  }

  /** `get_available_times` as a value: the start times of a service of `len` minutes on `date` that can still be booked. */
  function AvailableTimes(sched: Schedule, dir: Directory, date: int, len: nat, arg: StaffArg,
                          service: Option<Service>, now: int): Result<seq<MinuteOfDay>, AvailError>
  {
    if date in sched.blockedDates then Ok([])
    else match ResolveStaff(arg, dir.staff)
      case Err(e) => Err(e)
      case Ok(staff) =>
        match ResolveHours(sched, staff, DayKeyOf(date))
        case None => Ok([])
        case Some(h) =>
          var grid := GridFrom(EffectiveStart(h.open, date, now), h.close, len, SearchInterval(sched.bufferMinutes));
          Sift(grid, ContextFor(sched, dir, date, len, staff, service, now))
  }

  function ContextFor(sched: Schedule, dir: Directory, date: int, len: nat, staff: Option<Staff>,
                      service: Option<Service>, now: int): Context
  {
    Context(Relevant(dir.appointments, date, staff, sched.businessId, now),
            BlocksFor(dir.staffBlocks, staff, date),
            Query(date, len, sched.bufferMinutes, service),
            Capacity(service))
  }

  /** A blocked date has no times, whatever else holds. */
  lemma BlockedDateIsClosed(sched: Schedule, dir: Directory, date: int, len: nat, arg: StaffArg,
                            service: Option<Service>, now: int)
    requires date in sched.blockedDates
    ensures AvailableTimes(sched, dir, date, len, arg, service, now) == Ok([])
  {
  }

  /** A date with no hours for its day bucket has no times. */
  lemma NoHoursIsClosed(sched: Schedule, dir: Directory, date: int, len: nat, arg: StaffArg,
                        service: Option<Service>, now: int)
    requires ResolveStaff(arg, dir.staff).Ok?
    requires ResolveHours(sched, ResolveStaff(arg, dir.staff).value, DayKeyOf(date)).None?
    ensures AvailableTimes(sched, dir, date, len, arg, service, now) == Ok([])
  {
  }

  /**
   * The times offered: each is on the grid that starts at the effective start
   * with the search interval as step, leaves room for the service before
   * closing, and the list is strictly ascending.
   */
  lemma TimesOnGrid(sched: Schedule, dir: Directory, date: int, len: nat, arg: StaffArg,
                    service: Option<Service>, now: int, staff: Option<Staff>, h: Hours)
    requires date !in sched.blockedDates
    requires ResolveStaff(arg, dir.staff) == Ok(staff)
    requires ResolveHours(sched, staff, DayKeyOf(date)) == Some(h)
    requires AvailableTimes(sched, dir, date, len, arg, service, now).Ok?
    ensures var out := AvailableTimes(sched, dir, date, len, arg, service, now).value;
      var start, step := EffectiveStart(h.open, date, now), SearchInterval(sched.bufferMinutes);
      StrictlyIncreasing(out) &&
      forall s :: s in out ==>
        h.open <= start <= s && s + len <= h.close && exists k: nat :: s == start + k * step
  {
    var start, step := EffectiveStart(h.open, date, now), SearchInterval(sched.bufferMinutes);
    var grid := GridFrom(start, h.close, len, step);
    var ctx := ContextFor(sched, dir, date, len, staff, service, now);
    assert AvailableTimes(sched, dir, date, len, arg, service, now) == Sift(grid, ctx);
    SiftKeeps(grid, ctx);
    SiftSorted(grid, ctx);
    GridMembers(start, h.close, len, step);
  }

  /** On today's date no time is earlier than the next whole hour after now. */
  lemma TodayStartsNextHour(sched: Schedule, dir: Directory, date: int, len: nat, arg: StaffArg,
                            service: Option<Service>, now: int)
    requires DateOf(now) == date
    requires AvailableTimes(sched, dir, date, len, arg, service, now).Ok?
    ensures forall s :: s in AvailableTimes(sched, dir, date, len, arg, service, now).value ==>
      Instant(date, s) >= NextHour(now)
  {
    if date !in sched.blockedDates {
      var staff := ResolveStaff(arg, dir.staff).value;
      var hs := ResolveHours(sched, staff, DayKeyOf(date));
      if hs.Some? {
        var h := hs.value;
        var start := EffectiveStart(h.open, date, now);
        var grid := GridFrom(start, h.close, len, SearchInterval(sched.bufferMinutes));
        SiftCharacterised(grid, ContextFor(sched, dir, date, len, staff, service, now));
      }
    }
  }

  /**
   * When every relevant appointment has a service, the evaluation succeeds and
   * offers exactly the grid starts that are admissible.
   */
  lemma TimesAreAdmissibleSlots(sched: Schedule, dir: Directory, date: int, len: nat, arg: StaffArg,
                                service: Option<Service>, now: int, staff: Option<Staff>, h: Hours)
    requires date !in sched.blockedDates
    requires ResolveStaff(arg, dir.staff) == Ok(staff)
    requires ResolveHours(sched, staff, DayKeyOf(date)) == Some(h)
    requires AllHaveService(ContextFor(sched, dir, date, len, staff, service, now).rel)
    ensures var r := AvailableTimes(sched, dir, date, len, arg, service, now);
      var ctx := ContextFor(sched, dir, date, len, staff, service, now);
      var grid := GridFrom(EffectiveStart(h.open, date, now), h.close, len, SearchInterval(sched.bufferMinutes));
      r.Ok? && forall s :: s in r.value <==> s in grid && Admissible(ctx, s)
  {
    var ctx := ContextFor(sched, dir, date, len, staff, service, now);
    var grid := GridFrom(EffectiveStart(h.open, date, now), h.close, len, SearchInterval(sched.bufferMinutes));
    SiftCharacterised(grid, ctx);
    forall s | s in grid ensures Judge(ctx, s) != Fail && (Judge(ctx, s) == Keep <==> Admissible(ctx, s)) {
      JudgeAdmissible(ctx, s);
    }
  }

  /** A relevant appointment without a service, met first by the scan of some offered start, makes the evaluation fail. */
  lemma MissingServiceFails(sched: Schedule, dir: Directory, date: int, len: nat, arg: StaffArg,
                            service: Option<Service>, now: int, staff: Option<Staff>, h: Hours)
    requires date !in sched.blockedDates
    requires ResolveStaff(arg, dir.staff) == Ok(staff)
    requires ResolveHours(sched, staff, DayKeyOf(date)) == Some(h)
    requires var rel := ContextFor(sched, dir, date, len, staff, service, now).rel;
      rel != [] && rel[0].service.None?
    requires EffectiveStart(h.open, date, now) + len <= h.close
    ensures AvailableTimes(sched, dir, date, len, arg, service, now) == Err(ServiceMissing)
  {
    var ctx := ContextFor(sched, dir, date, len, staff, service, now);
    var start := EffectiveStart(h.open, date, now);
    var grid := GridFrom(start, h.close, len, SearchInterval(sched.bufferMinutes));
    SiftCharacterised(grid, ctx);
    assert grid[0] == start;
    ScanFailsOnFirst(0, ctx.rel, ctx.q, grid[0]);
  }

  /**
   * The buffer is applied on both sides of an existing appointment: with a
   * 15-minute buffer, a confirmed 10:00-10:30 appointment of another service
   * blocks 30-minute slots starting from 09:30 up to 10:30, and leaves 09:15
   * and 10:45 free.
   */
  lemma BufferBothSides(date: int, other: Service, requested: Service)
    requires other.id != requested.id && other.lengthMinutes == 30
    ensures var ap := Appointment(1, 1, None, "", "", "", Some(other), None, date, 600, 30, 1,
                                  Confirmed, false, 0, 0, false, false, "");
      var q := Query(date, 30, 15, Some(requested));
      !Conflicts(ap, q, 555) && Conflicts(ap, q, 570) && Conflicts(ap, q, 630) && !Conflicts(ap, q, 645)
  {
  }

  /** Same-session bookings share a slot until their attendees reach the capacity. */
  lemma SessionFillsUp(date: int, svc: Service, booked: int)
    requires svc.lengthMinutes == 60
    ensures var ap := Appointment(1, 1, None, "", "", "", Some(svc), None, date, 600, 60, booked,
                                  Confirmed, false, 0, 0, false, false, "");
      var ctx := Context([ap], [], Query(date, 60, 15, Some(svc)), svc.capacity);
      (Judge(ctx, 600) == Keep <==> booked < svc.capacity) &&
      Judge(ctx, 660) == Drop
  {
    var ap := Appointment(1, 1, None, "", "", "", Some(svc), None, date, 600, 60, booked,
                          Confirmed, false, 0, 0, false, false, "");
    var ctx := Context([ap], [], Query(date, 60, 15, Some(svc)), svc.capacity);
    assert ScanFrom(Open(0), ctx.rel, ctx.q, 600) == Open(booked);
    assert ScanFrom(Open(0), ctx.rel, ctx.q, 660) == Blocked;
  }

  /** The candidate starts: the grid loop. */
  method PotentialSlots(start: nat, close: MinuteOfDay, len: nat, step: nat) returns (slots: seq<MinuteOfDay>)
    requires step > 0
    ensures slots == GridFrom(start, close, len, step)
  {
    slots := [];
    var cur := start;
    while cur + len <= close
      invariant start <= cur
      invariant slots + GridFrom(cur, close, len, step) == GridFrom(start, close, len, step)
      decreases close - cur
    {
      slots := slots + [cur as MinuteOfDay];
      cur := cur + step;
    }
  }

  /** The scan of the existing appointments for one slot. */
  method ScanExisting(rel: seq<Appointment>, q: Query, s: MinuteOfDay) returns (v: Scan)
    ensures v == ScanFrom(Open(0), rel, q, s)
  {
    var attendees := 0;
    var i := 0;
    while i < |rel|
      invariant 0 <= i <= |rel|
      invariant ScanFrom(Open(attendees), rel[i..], q, s) == ScanFrom(Open(0), rel, q, s)
    {
      assert rel[i..][1..] == rel[i + 1..];
      var ap := rel[i];
      if ap.service.None? {
        return Crash;
      }
      var apStart := Instant(ap.date, ap.start);
      var apEnd := apStart + ap.service.value.lengthMinutes;
      var slotStart := Instant(q.date, s);
      var slotEnd := slotStart + q.len;
      if slotStart < apEnd + q.buffer && slotEnd > apStart - q.buffer {
        if q.service.Some? && ap.service.value.id == q.service.value.id && apStart == slotStart {
          attendees := attendees + ap.attendees;
        } else {
          return Blocked;
        }
      }
      i := i + 1;
    }
    v := Open(attendees);
  }

  /** The staff-block check for one slot. */
  method HitsStaffBlock(bs: seq<StaffBlock>, len: nat, s: MinuteOfDay) returns (hit: bool)
    ensures hit == InStaffBlock(bs, len, s)
  {
    hit := false;
    var i := 0;
    while i < |bs|
      invariant 0 <= i <= |bs|
      invariant forall j :: 0 <= j < i ==> !(s < bs[j].end && s + len > bs[j].start)
    {
      if s < bs[i].end && s + len > bs[i].start {
        return true;
      }
      i := i + 1;
    }
  }

  /** `get_available_times`. */
  method GetAvailableTimes(sched: Schedule, dir: Directory, date: int, len: nat, arg: StaffArg,
                           service: Option<Service>, now: int) returns (r: Result<seq<MinuteOfDay>, AvailError>)
    ensures r == AvailableTimes(sched, dir, date, len, arg, service, now)
  {
    if date in sched.blockedDates {
      return Ok([]);
    }
    var key := DayKeyOf(date);
    var found := ResolveStaff(arg, dir.staff);
    if found.Err? {
      return Err(found.error);
    }
    var staff := found.value;
    var hours := ResolveHours(sched, staff, key);
    if hours.None? {
      return Ok([]);
    }
    var h := hours.value;
    var step := SearchInterval(sched.bufferMinutes);
    var start := EffectiveStart(h.open, date, now);
    var slots := PotentialSlots(start, h.close, len, step);
    var ctx := ContextFor(sched, dir, date, len, staff, service, now);
    r := SiftSlots(slots, ctx);
  }

  /** The loop over the candidate starts. */
  method SiftSlots(slots: seq<MinuteOfDay>, ctx: Context) returns (r: Result<seq<MinuteOfDay>, AvailError>)
    ensures r == Sift(slots, ctx)
  {
    var available := [];
    var i := 0;
    while i < |slots|
      invariant 0 <= i <= |slots|
      invariant Sift(slots[..i], ctx) == Ok(available)
    {
      var s := slots[i];
      assert slots[..i + 1][..i] == slots[..i] && slots[..i + 1][i] == s;
      var scan := ScanExisting(ctx.rel, ctx.q, s);
      if scan.Crash? {
        SiftErrPersists(slots, i + 1, ctx);
        return Err(ServiceMissing);
      }
      if scan.Open? && scan.attendees < ctx.cap {
        var blocked := HitsStaffBlock(ctx.blocks, ctx.q.len, s);
        if !blocked {
          available := available + [s];
        }
      }
      i := i + 1;
    }
    assert slots[..i] == slots;
    r := Ok(available);
  }

  /** A failing prefix fails the whole sift. */
  lemma {:induction false} SiftErrPersists(slots: seq<MinuteOfDay>, n: nat, ctx: Context)
    requires n <= |slots| && Sift(slots[..n], ctx).Err?
    ensures Sift(slots, ctx) == Err(ServiceMissing)
    decreases |slots| - n
  {
    SiftCharacterised(slots[..n], ctx);
    SiftCharacterised(slots, ctx);
    var i :| 0 <= i < n && Judge(ctx, slots[..n][i]) == Fail;
    assert slots[i] == slots[..n][i];
  }
}
