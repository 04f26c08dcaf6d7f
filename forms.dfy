/** The past-booking check of the appointment form. */
module Forms {
  import opened Common
  import opened Calendar

  const PastBookingMessage := "You cannot book an appointment in the past."

  /**
   * `AppointmentForm.clean`: with both a date and a start time, a start before
   * `now` is an error; otherwise the cleaned data comes back as it was.
   */
  function Clean<D>(data: D, date: Option<int>, start: Option<MinuteOfDay>, now: int): (r: Result<D, string>)
    ensures r.Err? <==> date.Some? && start.Some? && Instant(date.value, start.value) < now
    ensures r.Err? ==> r.error == PastBookingMessage
    ensures r.Ok? ==> r.value == data
  {
    if date.Some? && start.Some? && Instant(date.value, start.value) < now then Err(PastBookingMessage)
    else Ok(data)
  }

  /** A booking that starts exactly now is accepted: the comparison is strict. */
  lemma StartingNowIsAccepted<D>(data: D, date: int, start: MinuteOfDay)
    ensures Clean(data, Some(date), Some(start), Instant(date, start)) == Ok(data)
  {
  }

  /** A booking one minute in the past is refused, missing parts are never refused. */
  lemma ClearlyPastIsRefused<D>(data: D, date: int, start: MinuteOfDay)
    ensures Clean(data, Some(date), Some(start), Instant(date, start) + 1).Err?
    ensures Clean(data, None, Some(start), Instant(date, start) + 1) == Ok(data)
    ensures Clean(data, Some(date), None, Instant(date, start) + 1) == Ok(data)
  {
  }
}
