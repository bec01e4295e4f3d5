/** Values shared by the booking flow, the quote calculators and the API routes. */
module Common {

  datatype Option<+T> = None | Some(value: T) {
    function GetOr(default: T): T {
      match this
      case Some(v) => v
      case None => default
    }
  }

  /** JavaScript truthiness of an optional string: `undefined`, `null` and "" are falsy. */
  predicate Truthy(s: Option<string>) {
    s.Some? && s.value != ""
  }

  /** `a || b` for optional strings. */
  function OrElse(s: Option<string>, fallback: string): (r: string)
    ensures Truthy(s) ==> r == s.value
    ensures !Truthy(s) ==> r == fallback
  {
    if Truthy(s) then s.value else fallback
  }

  /** The two cleaning types of the booking form. */
  datatype CleaningType = Standard | Deep

  /** The cleaning frequencies ("cleaning needs"). */
  datatype CleaningNeeds = OneTime | Weekly | BiWeekly | Monthly

  /** The time windows a customer can pick. */
  datatype TimeSlot = Morning | Afternoon | Evening

  function CleaningTypeName(t: CleaningType): string {
    match t
    case Standard => "standard"
    case Deep => "deep"
  }

  function ParseCleaningType(s: string): (r: Option<CleaningType>)
    ensures r.Some? ==> CleaningTypeName(r.value) == s
    ensures r.None? ==> forall t :: CleaningTypeName(t) != s
  {
    if s == "standard" then Some(Standard)
    else if s == "deep" then Some(Deep)
    else None
  }

  function CleaningNeedsName(n: CleaningNeeds): string {
    match n
    case OneTime => "one-time"
    case Weekly => "weekly"
    case BiWeekly => "bi-weekly"
    case Monthly => "monthly"
  }

  function ParseCleaningNeeds(s: string): (r: Option<CleaningNeeds>)
    ensures r.Some? ==> CleaningNeedsName(r.value) == s
    ensures r.None? ==> forall n :: CleaningNeedsName(n) != s
  {
    if s == "one-time" then Some(OneTime)
    else if s == "weekly" then Some(Weekly)
    else if s == "bi-weekly" then Some(BiWeekly)
    else if s == "monthly" then Some(Monthly)
    else None
  }

  function TimeSlotName(t: TimeSlot): string {
    match t
    case Morning => "morning"
    case Afternoon => "afternoon"
    case Evening => "evening"
  }

  function ParseTimeSlot(s: string): (r: Option<TimeSlot>)
    ensures r.Some? ==> TimeSlotName(r.value) == s
    ensures r.None? ==> forall t :: TimeSlotName(t) != s
  {
    if s == "morning" then Some(Morning)
    else if s == "afternoon" then Some(Afternoon)
    else if s == "evening" then Some(Evening)
    else None
  }

  /** The enum names parse back to the value they name. */
  lemma EnumNamesRoundTrip(t: CleaningType, n: CleaningNeeds, slot: TimeSlot)
    ensures ParseCleaningType(CleaningTypeName(t)) == Some(t)
    ensures ParseCleaningNeeds(CleaningNeedsName(n)) == Some(n)
    ensures ParseTimeSlot(TimeSlotName(slot)) == Some(slot)
  {
  }

  /** Milliseconds, the unit of JavaScript's Date arithmetic. */
  const MinuteMs: int := 60 * 1000
  const HourMs: int := 60 * MinuteMs
  const DayMs: int := 24 * HourMs

  /** Taking entry `j` out of a list takes one copy of it out of the list's multiset. */
  lemma MultisetWithoutAt<T>(s: seq<T>, j: nat)
    requires j < |s|
    ensures multiset(s[..j] + s[j + 1..]) == multiset(s) - multiset{s[j]}
  {
    assert s == s[..j] + [s[j]] + s[j + 1..];
  }
}
