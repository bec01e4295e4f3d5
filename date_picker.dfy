/**
 * The date picker (`DatePicker`): a popover whose calendar disables every
 * day before local midnight today, forwards a picked date to the form and
 * closes itself. Instants are milliseconds since the epoch; the local clock
 * is the UTC clock shifted by a fixed offset.
 */
module DatePicker {

  import opened Common

  /**
   * `new Date(new Date().setHours(0, 0, 0, 0))`: the instant of local
   * midnight that starts the current local day.
   */
  function StartOfToday(now: int, offsetMs: int): (r: int)
    ensures r <= now < r + DayMs
    ensures (r + offsetMs) % DayMs == 0
  {
    now - (now + offsetMs) % DayMs
  }

  /** The calendar's `disabled` rule: strictly before the start of today. */
  predicate IsDisabled(d: int, now: int, offsetMs: int) {
    d < StartOfToday(now, offsetMs)
  }

  /** Every instant of the current local day, `now` included, can be picked; the last millisecond of yesterday cannot. */
  lemma TodayIsSelectable(now: int, offsetMs: int)
    ensures !IsDisabled(now, now, offsetMs)
    ensures forall d :: StartOfToday(now, offsetMs) <= d ==> !IsDisabled(d, now, offsetMs)
    ensures IsDisabled(StartOfToday(now, offsetMs) - 1, now, offsetMs)
  {
  }

  /** Every instant at least a day before `now` is disabled. */
  lemma YesterdayIsDisabled(now: int, offsetMs: int, d: int)
    requires d <= now - DayMs
    ensures IsDisabled(d, now, offsetMs)
  {
  }

  /** The number of the local calendar day holding instant `d`, counted from the epoch's local day. */
  function LocalDay(d: int, offsetMs: int): (r: int)
    ensures r * DayMs <= d + offsetMs < (r + 1) * DayMs
  {
    (d + offsetMs) / DayMs
  }

  /**
   * What the trigger button shows. `format(date, "PPP")` prints the local
   * calendar date only, so the label carries the local day and nothing finer.
   */
  datatype TriggerLabel = Placeholder | FormattedDay(day: int)

  /** `date ? format(date, "PPP") : "Select a date"`. */
  function Label(date: Option<int>, offsetMs: int): (r: TriggerLabel)
    ensures r.Placeholder? <==> date.None?
    ensures date.Some? ==> r.day * DayMs <= date.value + offsetMs < (r.day + 1) * DayMs
  {
    match date
    case None => Placeholder
    case Some(d) => FormattedDay(LocalDay(d, offsetMs))
  }

  /** At most one day number brackets a given local time. */
  lemma DayNumberUnique(t: int, k: int, j: int)
    requires k * DayMs <= t < (k + 1) * DayMs
    requires j * DayMs <= t < (j + 1) * DayMs
    ensures k == j
  {
  }

  /**
   * Two choices show the same label exactly when both are unset or both fall
   * on the same local calendar day: the label tells the day, not the instant.
   */
  lemma LabelShowsDay(a: Option<int>, b: Option<int>, offsetMs: int)
    ensures Label(a, offsetMs) == Label(b, offsetMs) <==>
      (a.None? && b.None?) || (a.Some? && b.Some? && LocalDay(a.value, offsetMs) == LocalDay(b.value, offsetMs))
  {
  }

  /**
   * Every instant of the current local day shows the same label as `now`,
   * and the instants just before and just after that day show other labels.
   */
  lemma TodaySharesOneLabel(now: int, offsetMs: int)
    ensures forall d :: StartOfToday(now, offsetMs) <= d < StartOfToday(now, offsetMs) + DayMs ==>
      Label(Some(d), offsetMs) == Label(Some(now), offsetMs)
    ensures Label(Some(StartOfToday(now, offsetMs) - 1), offsetMs) != Label(Some(now), offsetMs)
    ensures Label(Some(StartOfToday(now, offsetMs) + DayMs), offsetMs) != Label(Some(now), offsetMs)
  {
    var start := StartOfToday(now, offsetMs);
    var k := LocalDay(now, offsetMs);
    assert start + offsetMs == k * DayMs by {
      DayNumberUnique(now + offsetMs, (start + offsetMs) / DayMs, k);
    }
    forall d | start <= d < start + DayMs
      ensures Label(Some(d), offsetMs) == Label(Some(now), offsetMs)
    {
      DayNumberUnique(d + offsetMs, LocalDay(d, offsetMs), k);
    }
    DayNumberUnique(start - 1 + offsetMs, LocalDay(start - 1, offsetMs), k - 1);
    DayNumberUnique(start + DayMs + offsetMs, LocalDay(start + DayMs, offsetMs), k + 1);
  }

  class Picker {
    var open: bool

    /** The popover starts closed. */
    constructor ()
      ensures !open
    {
      open := false;
    }

    /** The trigger button's click handler: opens the popover. */
    method ClickTrigger()
      modifies this
      ensures open
    {
      open := true;
    }

    /** `onOpenChange`: the popover reports its new state (outside click, escape). */
    method OpenChange(value: bool)
      modifies this
      ensures open == value
    {
      open := value;
    }

    /**
     * The calendar's `onSelect`: a date is forwarded and the popover closes;
     * a cleared selection is ignored and leaves the popover as it was.
     */
    method CalendarSelect(selected: Option<int>) returns (forwarded: Option<int>)
      modifies this
      ensures forwarded == selected
      ensures selected.Some? ==> !open
      ensures selected.None? ==> open == old(open)
    {
      forwarded := None;
      if selected.Some? {
        forwarded := selected;
        open := false;
      }
    }

    /**
     * A click on day `d`: a disabled day does nothing; any other day goes
     * through `CalendarSelect`. Whatever is forwarded is never in the past.
     */
    method ClickDay(d: int, now: int, offsetMs: int) returns (forwarded: Option<int>)
      modifies this
      ensures forwarded.Some? <==> !IsDisabled(d, now, offsetMs)
      ensures forwarded.Some? ==> forwarded.value == d && d >= StartOfToday(now, offsetMs) && !open
      ensures forwarded.None? ==> open == old(open)
    {
      if IsDisabled(d, now, offsetMs) {
        forwarded := None;
      } else {
        forwarded := CalendarSelect(Some(d));
      }
    }
  }
}
