/** The `render_email_placeholders` template filter for owner-written email text. */
module EmailExtras {
  import opened Common
  import opened Strings
  import opened Calendar

  const GuestPlaceholder := "{{ guest_name }}"
  const BusinessPlaceholder := "{{ business_name }}"
  const ServicePlaceholder := "{{ service_name }}"
  const DatePlaceholder := "{{ date }}"
  const TimePlaceholder := "{{ time }}"

  /** The names reached through `appointment.service` and `service.business`. */
  datatype ServiceNames = ServiceNames(serviceName: string, businessName: string)

  /** The appointment fields the filter reads; the guest name may be null. */
  datatype EmailAppointment = EmailAppointment(
    guestName: Option<string>,
    service: Option<ServiceNames>,
    date: CivilDate,
    start: MinuteOfDay)

  /** Reading `name` on a missing service raises in the filter. */
  datatype RenderError = NoService

  /** Two decimal digits, as `%d`, `%H` and `%M` print them. */
  function Pad2(n: int): (r: string)
    requires 0 <= n < 100
    ensures |r| == 2 && IsDigits(r) && DigitsValue(r) == n
  {
    var hi, lo := DigitChar(n / 10), DigitChar(n % 10);
    assert IsAsciiDigit(hi) && DigitValue(hi) == n / 10;
    assert IsAsciiDigit(lo) && DigitValue(lo) == n % 10;
    var r := [hi, lo];
    assert r[..1] == [hi] && [hi][..0] == [];
    assert DigitsValue([hi]) == n / 10;
    assert DigitsValue(r) == DigitsValue([hi]) * 10 + DigitValue(lo);
    r
  }

  /** `strftime('%H:%M')`. */
  function TimeText(t: MinuteOfDay): (r: string)
    ensures |r| == 5 && r[2] == ':' && IsDigits(r[..2]) && IsDigits(r[3..])
    ensures DigitsValue(r[..2]) * 60 + DigitsValue(r[3..]) == t
  {
    var h := Pad2(t / 60);
    var m := Pad2(t % 60);
    assert (h + ":" + m)[..2] == h && (h + ":" + m)[3..] == m;
    h + ":" + m
  }

  /** `strftime('%A, %d %B')` in the English locale. */
  function DateText(d: CivilDate): string
    requires ValidDate(d)
  {
    WeekdayName(Weekday(Ordinal(d))) + ", " + Pad2(d.day) + " " + MonthName(d.month)
  }

  /** `str(guest_name)`: a null guest name prints as "None". */
  function GuestText(guestName: Option<string>): string {
    match guestName
    case None => "None"
    case Some(g) => g
  }

  /** The replacements, in the order the filter applies them. */
  function Pairs(a: EmailAppointment, names: ServiceNames): (ps: seq<(string, string)>)
    requires ValidDate(a.date)
    ensures |ps| == 5
    ensures forall k :: 0 <= k < |ps| ==> |ps[k].0| > 0
  {
    [(GuestPlaceholder, GuestText(a.guestName)),
     (BusinessPlaceholder, names.businessName),
     (ServicePlaceholder, names.serviceName),
     (DatePlaceholder, DateText(a.date)),
     (TimePlaceholder, TimeText(a.start))]
  }

  /** Each replacement in turn applied to the whole output so far. */
  function ApplyAll(s: string, ps: seq<(string, string)>): string
    decreases |ps|
  {
    if |ps| == 0 then s else ApplyAll(ReplaceAll(s, ps[0].0, ps[0].1), ps[1..])
  }

  /**
   * What the filter produces: the empty text when the text is empty or null or
   * there is no appointment, an error when the appointment has no service, and
   * otherwise the five placeholders replaced one after another.
   */
  function Rendered(text: Option<string>, appt: Option<EmailAppointment>): Result<string, RenderError>
    requires appt.Some? ==> ValidDate(appt.value.date)
  {
    if text.None? || text.value == "" || appt.None? then Ok("")
    else if appt.value.service.None? then Err(NoService)
    else Ok(ApplyAll(text.value, Pairs(appt.value, appt.value.service.value)))
  }

  /** The filter itself, with its loop over the replacements. */
  method RenderEmailPlaceholders(text: Option<string>, appt: Option<EmailAppointment>)
    returns (r: Result<string, RenderError>)
    requires appt.Some? ==> ValidDate(appt.value.date)
    ensures r == Rendered(text, appt)
  {
    if text.None? || text.value == "" || appt.None? {
      return Ok("");
    }
    if appt.value.service.None? {
      return Err(NoService);
    }
    var ps := Pairs(appt.value, appt.value.service.value);
    var output := text.value;
    var i := 0;
    while i < |ps|
      invariant 0 <= i <= |ps|
      invariant ApplyAll(output, ps[i..]) == ApplyAll(text.value, ps)
    {
      assert ps[i..][1..] == ps[i + 1..];
      output := ReplaceAll(output, ps[i].0, ps[i].1);
      i := i + 1;
    }
    assert ps[i..] == [];
    return Ok(output);
  }

  /** Text in which none of the patterns occurs goes through every replacement unchanged. */
  lemma {:induction false} ApplyAllAbsent(s: string, ps: seq<(string, string)>)
    requires forall k :: 0 <= k < |ps| ==> |ps[k].0| > 0 && !Contains(s, ps[k].0)
    ensures ApplyAll(s, ps) == s
    decreases |ps|
  {
    if |ps| > 0 {
      ReplaceAbsent(s, ps[0].0, ps[0].1);
      assert forall k :: 0 <= k < |ps| - 1 ==> ps[1..][k] == ps[k + 1];
      ApplyAllAbsent(s, ps[1..]);
    }
  }

  /** Owner text without placeholders is sent as written. */
  lemma NoPlaceholdersUnchanged(text: string, a: EmailAppointment)
    requires text != "" && ValidDate(a.date) && a.service.Some?
    requires !Contains(text, GuestPlaceholder) && !Contains(text, BusinessPlaceholder)
    requires !Contains(text, ServicePlaceholder) && !Contains(text, DatePlaceholder)
    requires !Contains(text, TimePlaceholder)
    ensures Rendered(Some(text), Some(a)) == Ok(text)
  {
    var ps := Pairs(a, a.service.value);
    ApplyAllAbsent(text, ps);
  }

  /** The guest placeholder alone renders as the guest name when that name holds no later placeholder. */
  lemma GuestPlaceholderRendersGuest(a: EmailAppointment, g: string)
    requires ValidDate(a.date) && a.service.Some? && a.guestName == Some(g)
    requires !Contains(g, BusinessPlaceholder) && !Contains(g, ServicePlaceholder)
    requires !Contains(g, DatePlaceholder) && !Contains(g, TimePlaceholder)
    ensures Rendered(Some(GuestPlaceholder), Some(a)) == Ok(g)
  {
    var ps := Pairs(a, a.service.value);
    ReplaceWhole(GuestPlaceholder, g);
    assert ApplyAll(GuestPlaceholder, ps) == ApplyAll(g, ps[1..]);
    ApplyAllAbsent(g, ps[1..]);
  }

  /**
   * The replacements act on text already substituted: a guest who calls
   * themselves "{{ time }}" is shown as the appointment's start time.
   */
  lemma GuestNameIsSubstitutedAgain(a: EmailAppointment)
    requires ValidDate(a.date) && a.service.Some? && a.guestName == Some(TimePlaceholder)
    ensures Rendered(Some(GuestPlaceholder), Some(a)) == Ok(TimeText(a.start))
  {
    var ps := Pairs(a, a.service.value);
    ReplaceWhole(GuestPlaceholder, TimePlaceholder);
    assert ApplyAll(GuestPlaceholder, ps) == ApplyAll(TimePlaceholder, ps[1..]);
    assert !Contains(TimePlaceholder, DatePlaceholder) by {
      assert TimePlaceholder[3] != DatePlaceholder[3];
      assert TimePlaceholder[0..|DatePlaceholder|] != DatePlaceholder;
    }
    ApplyAllAbsent(TimePlaceholder, ps[1..4]);
    assert ps[1..][..3] == ps[1..4];
    ApplyAllPrefix(TimePlaceholder, ps[1..], 3);
    ReplaceWhole(TimePlaceholder, TimeText(a.start));
  }

  /** Applying a list of replacements is applying its first `n`, then the rest. */
  lemma {:induction false} ApplyAllPrefix(s: string, ps: seq<(string, string)>, n: nat)
    requires n <= |ps|
    ensures ApplyAll(s, ps) == ApplyAll(ApplyAll(s, ps[..n]), ps[n..])
    decreases n
  {
    if n > 0 {
      var s1 := ReplaceAll(s, ps[0].0, ps[0].1);
      assert ps[..n][0] == ps[0];
      assert ps[..n][1..] == ps[1..][..n - 1];
      ApplyAllPrefix(s1, ps[1..], n - 1);
      assert ps[1..][n - 1..] == ps[n..];
    }
  }
}
