/**
 * The second reminder library (`scheduleReminder`, `cancelReminder`): the
 * send time is the appointment moved back 24 hours and guarded against the
 * fifteen-minute minimum; the cancel fetches the message first and only
 * cancels one that is still scheduled or queued.
 */
module TwilioReminders {

  import opened Common
  import opened Vendors

  const MinLeadTimeMs: int := 15 * MinuteMs

  /** The instant 2025-11-29T15:00:00.000Z, in milliseconds since the epoch. */
  const FIXED_SEND_AT: int := 1_764_428_400_000

  /** `sendAt.setHours(sendAt.getHours() - 24)`, as a fixed 24-hour shift. */
  function ShiftBack24h(appointment: int): int {
    appointment - 24 * HourMs
  }

  /** The guard: `sendAt < Date.now() + 15 minutes`. */
  predicate TooSoon(appointment: int, now: int) {
    ShiftBack24h(appointment) < now + MinLeadTimeMs
  }

  /** What the function did: returned a value, or threw the vendor's error. */
  datatype Outcome = Returned(sid: Option<string>) | Threw(message: string)

  /**
   * `scheduleReminder` as written: the guard uses the computed send time,
   * but the create call is given the fixed instant, whatever the appointment.
   */
  method ScheduleReminderAsWritten(phone: string, appointment: int, now: int, created: Answer<string>)
    returns (outcome: Outcome, calls: seq<Call>)
    ensures TooSoon(appointment, now) ==> outcome == Returned(None) && calls == []
    ensures !TooSoon(appointment, now) ==>
      && calls == [SmsCreate(phone, ReminderTemplate, Some(FIXED_SEND_AT))]
      && (created.Ok? ==> outcome == Returned(Some(created.value)))
      && (created.Failed? ==> outcome == Threw(created.message))
  {
    if TooSoon(appointment, now) {
      return Returned(None), [];
    }
    calls := [SmsCreate(phone, ReminderTemplate, Some(FIXED_SEND_AT))];
    match created
    case Ok(id) => outcome := Returned(Some(id));
    case Failed(m) => outcome := Threw(m);
  }

  /**
   * The discrepancy, on concrete values: with the clock at 2026-01-01T00:00Z
   * and an appointment two days later the guard lets the reminder through,
   * yet the instant handed over is a month in the past rather than one day
   * before the appointment.
   */
  lemma FixedSendAtIsStale()
    ensures var now := 1_767_225_600_000;
      var appointment := now + 2 * DayMs;
      && !TooSoon(appointment, now)
      && FIXED_SEND_AT < now
      && FIXED_SEND_AT != ShiftBack24h(appointment)
  {
  }

  /**
   * `scheduleReminder` as evidently intended: the create call gets the
   * computed send time, which the guard keeps at least fifteen minutes
   * ahead and exactly one day before the appointment.
   */
  method ScheduleReminder(phone: string, appointment: int, now: int, created: Answer<string>)
    returns (outcome: Outcome, calls: seq<Call>)
    ensures TooSoon(appointment, now) ==> outcome == Returned(None) && calls == []
    ensures !TooSoon(appointment, now) ==>
      && calls == [SmsCreate(phone, ReminderTemplate, Some(appointment - 24 * HourMs))]
      && (created.Ok? ==> outcome == Returned(Some(created.value)))
      && (created.Failed? ==> outcome == Threw(created.message))
    ensures forall i :: 0 <= i < |calls| ==>
      calls[i].SmsCreate? && calls[i].sendAt.Some?
      && calls[i].sendAt.value >= now + MinLeadTimeMs
      && calls[i].sendAt.value + DayMs == appointment
  {
    if TooSoon(appointment, now) {
      return Returned(None), [];
    }
    calls := [SmsCreate(phone, ReminderTemplate, Some(ShiftBack24h(appointment)))];
    match created
    case Ok(id) => outcome := Returned(Some(id));
    case Failed(m) => outcome := Threw(m);
  }

  /** Only these two statuses can still be canceled. */
  predicate Cancelable(status: string) {
    status == "scheduled" || status == "queued"
  }

  /**
   * `cancelReminder`: an empty id does nothing; otherwise the message is
   * fetched, and updated to canceled only when its status is scheduled or
   * queued. Every vendor error is swallowed, so it never throws (the method
   * has no error result).
   */
  method CancelReminder(sid: string, fetched: Answer<string>) returns (calls: seq<Call>)
    ensures sid == "" ==> calls == []
    ensures sid != "" ==>
      calls == [SmsFetch(sid)] + (if fetched.Ok? && Cancelable(fetched.value) then [SmsUpdateCanceled(sid)] else [])
    ensures SmsUpdateCanceled(sid) in calls <==> sid != "" && fetched.Ok? && Cancelable(fetched.value)
  {
    if sid == "" {
      return [];
    }
    calls := [SmsFetch(sid)];
    if fetched.Ok? && Cancelable(fetched.value) {
      calls := calls + [SmsUpdateCanceled(sid)];
    }
  }
}
