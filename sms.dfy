/**
 * The reminder helpers of the messaging library (`scheduleAppointmentReminder`,
 * `cancelScheduledReminder`): a reminder exactly one day before the
 * appointment, skipped when that is less than fifteen minutes away, and a
 * cancel that reports success or failure and never throws.
 */
module Sms {

  import opened Common
  import opened Vendors

  /** Twilio's minimum lead time for a scheduled message: 15 minutes. */
  const MinLeadTimeMs: int := 15 * MinuteMs

  /** The reminder instant: the appointment minus exactly 24 hours of milliseconds. */
  function ReminderTime(appointment: int): (r: int)
    ensures r == appointment - 86_400_000
  {
    appointment - DayMs
  }

  /**
   * When the reminder is sent: None when it would fall less than fifteen
   * minutes from now, otherwise the reminder instant, which is then always
   * at least fifteen minutes ahead.
   */
  function ReminderSendAt(appointment: int, now: int): (r: Option<int>)
    ensures r.None? <==> ReminderTime(appointment) < now + 900_000
    ensures r.Some? ==> r.value == ReminderTime(appointment) && r.value >= now + MinLeadTimeMs
  {
    if ReminderTime(appointment) < now + MinLeadTimeMs then None else Some(ReminderTime(appointment))
  }

  /** The boundary is inclusive: a reminder exactly fifteen minutes ahead is scheduled. */
  lemma BoundaryIsScheduled(now: int)
    ensures ReminderSendAt(now + DayMs + MinLeadTimeMs, now) == Some(now + MinLeadTimeMs)
    ensures ReminderSendAt(now + DayMs + MinLeadTimeMs - 1, now).None?
  {
  }

  /** Later appointments never lose their reminder. */
  lemma LaterAppointmentsStayScheduled(a: int, b: int, now: int)
    requires a <= b && ReminderSendAt(a, now).Some?
    ensures ReminderSendAt(b, now).Some?
  {
  }

  /**
   * `scheduleAppointmentReminder`: skips without any call when too close;
   * otherwise makes one scheduled create whose send time is the reminder
   * instant, and returns the vendor's id, or None when the vendor failed.
   */
  method ScheduleAppointmentReminder(phone: string, appointment: int, now: int, created: Answer<string>)
    returns (sid: Option<string>, calls: seq<Call>)
    ensures ReminderSendAt(appointment, now).None? ==> sid.None? && calls == []
    ensures ReminderSendAt(appointment, now).Some? ==>
      && calls == [SmsCreate(phone, ReminderTemplate, Some(appointment - DayMs))]
      && (sid.Some? <==> created.Ok?)
      && (created.Ok? ==> sid == Some(created.value))
    ensures forall i :: 0 <= i < |calls| ==>
      calls[i].SmsCreate? && calls[i].sendAt.Some? && calls[i].sendAt.value >= now + MinLeadTimeMs
  {
    var sendAt := ReminderSendAt(appointment, now);
    if sendAt.None? {
      return None, [];
    }
    calls := [SmsCreate(phone, ReminderTemplate, sendAt)];
    match created
    case Ok(id) => sid := Some(id);
    case Failed(_) => sid := None;
  }

  /**
   * `cancelScheduledReminder`: an empty id returns `undefined` (None) with
   * no call; otherwise one update to canceled, answering true on success
   * and false on a vendor error.
   */
  method CancelScheduledReminder(sid: string, updated: Answer<()>)
    returns (result: Option<bool>, calls: seq<Call>)
    ensures sid == "" <==> result.None?
    ensures sid == "" ==> calls == []
    ensures sid != "" ==> calls == [SmsUpdateCanceled(sid)] && result == Some(updated.Ok?)
  {
    if sid == "" {
      return None, [];
    }
    calls := [SmsUpdateCanceled(sid)];
    result := Some(updated.Ok?);
  }
}
