/**
 * The booking form's field rules (`bookingSchema`). The form holds raw values
 * (strings as typed, `undefined` as None); each field has one validity
 * predicate, and parsing a valid record yields the typed booking.
 */
module Schema {

  import opened Common

  /** What the form holds before validation. A missing bathroom count is 0 (see README). */
  datatype BookingValues = BookingValues(
    homeSize: string,
    bathrooms: int,
    cleaningType: string,
    cleaningNeeds: string,
    isNewCustomer: Option<bool>,
    name: string,
    email: string,
    phone: string,
    address: string,
    preferredDate: Option<int>,
    timeSlot: Option<string>)

  /** What a successful parse yields (`BookingFormValues`). */
  datatype Booking = Booking(
    homeSize: string,
    bathrooms: int,
    cleaningType: CleaningType,
    cleaningNeeds: CleaningNeeds,
    isNewCustomer: bool,
    name: string,
    email: string,
    phone: string,
    address: string,
    preferredDate: int,
    timeSlot: TimeSlot)

  /** The keys of the schema, in declaration order. */
  datatype Field =
    | HomeSizeField
    | BathroomsField
    | CleaningTypeField
    | CleaningNeedsField
    | IsNewCustomerField
    | NameField
    | EmailField
    | PhoneField
    | AddressField
    | PreferredDateField
    | TimeSlotField

  const AllFields: seq<Field> := [
    HomeSizeField, BathroomsField, CleaningTypeField, CleaningNeedsField, IsNewCustomerField,
    NameField, EmailField, PhoneField, AddressField, PreferredDateField, TimeSlotField
  ]

  /** Every key of the schema is listed. */
  lemma AllFieldsListed(f: Field)
    ensures f in AllFields
  {
    match f
    case HomeSizeField => assert AllFields[0] == f;
    case BathroomsField => assert AllFields[1] == f;
    case CleaningTypeField => assert AllFields[2] == f;
    case CleaningNeedsField => assert AllFields[3] == f;
    case IsNewCustomerField => assert AllFields[4] == f;
    case NameField => assert AllFields[5] == f;
    case EmailField => assert AllFields[6] == f;
    case PhoneField => assert AllFields[7] == f;
    case AddressField => assert AllFields[8] == f;
    case PreferredDateField => assert AllFields[9] == f;
    case TimeSlotField => assert AllFields[10] == f;
  }

  // ----- the email shape accepted by zod's string().email() -----

  predicate IsAsciiLetter(c: char) {
    ('a' <= c <= 'z') || ('A' <= c <= 'Z')
  }

  predicate IsAsciiAlnum(c: char) {
    IsAsciiLetter(c) || ('0' <= c <= '9')
  }

  predicate IsLocalChar(c: char) {
    IsAsciiAlnum(c) || c == '_' || c == '\'' || c == '+' || c == '-' || c == '.'
  }

  predicate IsLocalEndChar(c: char) {
    IsAsciiAlnum(c) || c == '_' || c == '+' || c == '-'
  }

  predicate IsDomainChar(c: char) {
    IsAsciiAlnum(c) || c == '-' || c == '.'
  }

  function IndexOf(s: string, c: char): (r: Option<nat>)
    ensures r.Some? ==> r.value < |s| && s[r.value] == c && c !in s[..r.value]
    ensures r.None? ==> c !in s
  {
    if s == [] then None
    else if s[0] == c then Some(0)
    else match IndexOf(s[1..], c)
      case None => None
      case Some(k) => assert s[..k + 1] == [s[0]] + s[1..][..k]; Some(k + 1)
  }

  function LastIndexOf(s: string, c: char): (r: Option<nat>)
    ensures r.Some? ==> r.value < |s| && s[r.value] == c && c !in s[r.value + 1..]
    ensures r.None? ==> c !in s
  {
    if s == [] then None
    else if s[|s| - 1] == c then Some(|s| - 1)
    else match LastIndexOf(s[..|s| - 1], c)
      case None => None
      case Some(k) => assert s[k + 1..] == s[..|s| - 1][k + 1..] + [s[|s| - 1]]; Some(k)
  }

  /** The part before '@': allowed characters, not starting with '.', ending in a non-dot. */
  predicate LocalPartOk(l: string) {
    && |l| >= 1
    && l[0] != '.'
    && (forall i :: 0 <= i < |l| ==> IsLocalChar(l[i]))
    && IsLocalEndChar(l[|l| - 1])
  }

  /** One or more labels "[A-Z0-9][A-Z0-9-]*." followed by a top-level domain of two or more letters. */
  predicate DomainOk(d: string) {
    match LastIndexOf(d, '.')
    case None => false
    case Some(k) =>
      var labels, tld := d[..k + 1], d[k + 1..];
      && |tld| >= 2
      && (forall i :: 0 <= i < |tld| ==> IsAsciiLetter(tld[i]))
      && IsAsciiAlnum(labels[0])
      && (forall i :: 0 <= i < |labels| ==> IsDomainChar(labels[i]))
      && (forall i :: 0 <= i < |labels| - 1 ==> labels[i] == '.' ==> IsAsciiAlnum(labels[i + 1]))
  }

  predicate HasDoubleDot(s: string) {
    exists i :: 0 <= i < |s| - 1 && s[i] == '.' && s[i + 1] == '.'
  }

  /** The email shape: local part, '@', domain, and no ".." anywhere. */
  predicate EmailShaped(s: string) {
    match IndexOf(s, '@')
    case None => false
    case Some(at) => LocalPartOk(s[..at]) && DomainOk(s[at + 1..]) && !HasDoubleDot(s)
  }

  lemma EmailAccepted()
    ensures EmailShaped("jo@tidy.house")
  {
    var e := "jo@tidy.house";
    assert IndexOf(e, '@') == Some(2) by {
      assert e[0] != '@' && e[1] != '@' && e[2] == '@';
    }
    assert e[..2] == "jo" && e[3..] == "tidy.house";
    LocalPartJo();
    DomainTidyHouse();
    NoDoubleDotInExample();
  }

  /** The local part of the accepted example. This lemma only splits the proof of `EmailAccepted`. */
  lemma LocalPartJo()
    ensures LocalPartOk("jo")
  {
  }

  /** The accepted example has no two dots in a row. This lemma only splits the proof of `EmailAccepted`. */
  lemma NoDoubleDotInExample()
    ensures !HasDoubleDot("jo@tidy.house")
  {
    var e := "jo@tidy.house";
    forall i | 0 <= i < |e| - 1 ensures !(e[i] == '.' && e[i + 1] == '.') {
    }
  }

  /** The domain of the accepted example: one label, a dot, and a five-letter top-level domain. This lemma only splits the proof of `EmailAccepted`. */
  lemma DomainTidyHouse()
    ensures DomainOk("tidy.house")
  {
    var d := "tidy.house";
    assert LastIndexOf(d, '.') == Some(4) by {
      assert d[4] == '.' && forall i :: 5 <= i < |d| ==> d[i] != '.';
    }
    assert d[..5] == "tidy." && d[5..] == "house";
  }

  lemma EmailRejected()
    ensures !EmailShaped("")
    ensures !EmailShaped("jo@tidy")
    ensures !EmailShaped("jo..x@tidy.house")
  {
    var noTld := "jo@tidy";
    assert !EmailShaped(noTld) by {
      assert IndexOf(noTld, '@') == Some(2) by {
        assert noTld[0] != '@' && noTld[1] != '@' && noTld[2] == '@';
      }
      assert noTld[3..] == "tidy";
      assert !DomainOk("tidy") by {
        var d := "tidy";
        assert d[0] != '.' && d[1] != '.' && d[2] != '.' && d[3] != '.';
        assert '.' !in d;
      }
    }
    var doubled := "jo..x@tidy.house";
    assert !EmailShaped(doubled) by {
      assert doubled[2] == '.' && doubled[3] == '.';
    }
  }

  // ----- the field rules -----

  /** One rule per schema key; each reads only its own field. */
  predicate FieldValid(f: Field, v: BookingValues) {
    match f
    case HomeSizeField => |v.homeSize| >= 1
    case BathroomsField => v.bathrooms >= 1
    case CleaningTypeField => ParseCleaningType(v.cleaningType).Some?
    case CleaningNeedsField => ParseCleaningNeeds(v.cleaningNeeds).Some?
    case IsNewCustomerField => true
    case NameField => |v.name| >= 2
    case EmailField => EmailShaped(v.email)
    case PhoneField => |v.phone| >= 10
    case AddressField => |v.address| >= 5
    case PreferredDateField => v.preferredDate.Some?
    case TimeSlotField => v.timeSlot.Some? && ParseTimeSlot(v.timeSlot.value).Some?
  }

  /** `form.trigger(fields)`: every listed field passes its rule. */
  predicate FieldsValid(fields: seq<Field>, v: BookingValues) {
    forall i :: 0 <= i < |fields| ==> FieldValid(fields[i], v)
  }

  /** The whole record is valid. */
  predicate ValuesValid(v: BookingValues) {
    FieldsValid(AllFields, v)
  }

  /** Every rule of the schema, written out. */
  predicate AllRulesHold(v: BookingValues) {
    && FieldValid(HomeSizeField, v)
    && FieldValid(BathroomsField, v)
    && FieldValid(CleaningTypeField, v)
    && FieldValid(CleaningNeedsField, v)
    && FieldValid(IsNewCustomerField, v)
    && FieldValid(NameField, v)
    && FieldValid(EmailField, v)
    && FieldValid(PhoneField, v)
    && FieldValid(AddressField, v)
    && FieldValid(PreferredDateField, v)
    && FieldValid(TimeSlotField, v)
  }

  lemma ValuesValidUnfold(v: BookingValues)
    ensures ValuesValid(v) <==> AllRulesHold(v)
  {
    if ValuesValid(v) {
      assert FieldValid(AllFields[0], v) && FieldValid(AllFields[1], v) && FieldValid(AllFields[2], v);
      assert FieldValid(AllFields[3], v) && FieldValid(AllFields[4], v) && FieldValid(AllFields[5], v);
      assert FieldValid(AllFields[6], v) && FieldValid(AllFields[7], v) && FieldValid(AllFields[8], v);
      assert FieldValid(AllFields[9], v) && FieldValid(AllFields[10], v);
    }
  }

  /** The three enumerated fields accept exactly their listed names. */
  lemma EnumeratedRules(v: BookingValues)
    ensures FieldValid(CleaningTypeField, v) <==> (v.cleaningType == "standard" || v.cleaningType == "deep")
    ensures FieldValid(CleaningNeedsField, v) <==>
      (v.cleaningNeeds == "one-time" || v.cleaningNeeds == "weekly"
       || v.cleaningNeeds == "bi-weekly" || v.cleaningNeeds == "monthly")
    ensures FieldValid(TimeSlotField, v) <==> (v.timeSlot.Some? &&
      (v.timeSlot.value == "morning" || v.timeSlot.value == "afternoon" || v.timeSlot.value == "evening"))
  {
  }

  /** A record is valid exactly when each field rule holds. */
  lemma ValuesValidExactly(v: BookingValues)
    ensures ValuesValid(v) <==>
      && |v.homeSize| >= 1
      && v.bathrooms >= 1
      && (v.cleaningType == "standard" || v.cleaningType == "deep")
      && (v.cleaningNeeds == "one-time" || v.cleaningNeeds == "weekly"
          || v.cleaningNeeds == "bi-weekly" || v.cleaningNeeds == "monthly")
      && |v.name| >= 2
      && EmailShaped(v.email)
      && |v.phone| >= 10
      && |v.address| >= 5
      && v.preferredDate.Some?
      && v.timeSlot.Some?
      && (v.timeSlot.value == "morning" || v.timeSlot.value == "afternoon" || v.timeSlot.value == "evening")
  {
    ValuesValidUnfold(v);
    EnumeratedRules(v);
  }

  /** The fields that fail their rule, in schema order. */
  function FailingFields(fields: seq<Field>, v: BookingValues): (r: seq<Field>)
    ensures forall f :: f in r <==> f in fields && !FieldValid(f, v)
    ensures r == [] <==> FieldsValid(fields, v)
  {
    if fields == [] then []
    else
      var rest := FailingFields(fields[1..], v);
      assert forall i :: 1 <= i < |fields| ==> fields[i] == fields[1..][i - 1];
      if FieldValid(fields[0], v) then rest else [fields[0]] + rest
  }

  /** A valid record has every enumerated field parsed and both optional fields present. */
  lemma ValidRecordParses(v: BookingValues)
    requires ValuesValid(v)
    ensures ParseCleaningType(v.cleaningType).Some? && ParseCleaningNeeds(v.cleaningNeeds).Some?
    ensures v.preferredDate.Some? && v.timeSlot.Some? && ParseTimeSlot(v.timeSlot.value).Some?
    ensures v.bathrooms >= 1
  {
    ValuesValidUnfold(v);
  }

  datatype ParseResult = Parsed(booking: Booking) | Rejected(errors: seq<Field>)

  /** `bookingSchema.parse`: the typed booking, or the failing fields. */
  function ParseBooking(v: BookingValues): (r: ParseResult)
    ensures r.Parsed? <==> ValuesValid(v)
    ensures r.Rejected? ==> r.errors != [] && forall f :: f in r.errors <==> !FieldValid(f, v)
    ensures r.Parsed? ==>
      && r.booking.isNewCustomer == v.isNewCustomer.GetOr(false)
      && CleaningTypeName(r.booking.cleaningType) == v.cleaningType
      && CleaningNeedsName(r.booking.cleaningNeeds) == v.cleaningNeeds
      && Some(TimeSlotName(r.booking.timeSlot)) == v.timeSlot
      && Some(r.booking.preferredDate) == v.preferredDate
      && r.booking.bathrooms == v.bathrooms >= 1
      && (r.booking.homeSize, r.booking.name, r.booking.email, r.booking.phone, r.booking.address)
         == (v.homeSize, v.name, v.email, v.phone, v.address)
  {
    var errors := FailingFields(AllFields, v);
    if errors != [] then
      assert forall f :: f in errors <==> !FieldValid(f, v) by {
        forall f ensures f in AllFields { AllFieldsListed(f); }
      }
      Rejected(errors)
    else
      ValidRecordParses(v);
      Parsed(Booking(
        v.homeSize, v.bathrooms,
        ParseCleaningType(v.cleaningType).value,
        ParseCleaningNeeds(v.cleaningNeeds).value,
        v.isNewCustomer.GetOr(false),
        v.name, v.email, v.phone, v.address,
        v.preferredDate.value,
        ParseTimeSlot(v.timeSlot.value).value))
  }

  /** An absent new-customer flag parses as false. */
  lemma NewCustomerDefaultsFalse(v: BookingValues)
    requires ValuesValid(v) && v.isNewCustomer.None?
    ensures ParseBooking(v).booking.isNewCustomer == false
  {
  }

  /** The phone rule counts characters, not digits: ten letters pass. */
  lemma PhoneCountsCharacters(v: BookingValues)
    requires v.phone == "abcdefghij"
    ensures FieldValid(PhoneField, v)
  {
  }
}
