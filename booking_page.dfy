/**
 * The three-step booking page (`BookingFormContent`): which fields the Next
 * button validates at each step, the add-on lookup feeding the live price,
 * the progress bar, the step that is rendered and the submit path.
 */
module BookingPage {

  import opened Common
  import opened Schema
  import opened AddOnCatalogue
  import opened TierQuote
  import opened BookingFormState

  /** `handleNext`'s field list: three fields at step 1, the schedule at step 2, nothing otherwise. */
  function HandleNextFields(step: int): (fields: seq<Field>)
    ensures step == 1 ==> fields == [HomeSizeField, BathroomsField, CleaningTypeField]
    ensures step == 2 ==> fields == [PreferredDateField, TimeSlotField]
    ensures step != 1 && step != 2 ==> fields == []
  {
    if step == 1 then [HomeSizeField, BathroomsField, CleaningTypeField]
    else if step == 2 then [PreferredDateField, TimeSlotField]
    else []
  }

  /**
   * The Next button never checks the frequency or any contact field: those
   * are only checked by the final submit.
   */
  lemma HandleNextSkipsContactAndFrequency(step: int, f: Field)
    requires f in HandleNextFields(step)
    ensures f != CleaningNeedsField && f != NameField && f != EmailField
    ensures f != PhoneField && f != AddressField && f != IsNewCustomerField
  {
  }

  /** `handleNext`: validates the current step's fields and advances by one when they pass. */
  method HandleNext(form: BookingForm) returns (advanced: bool)
    modifies form
    ensures advanced <==> FieldsValid(HandleNextFields(old(form.step)), old(form.values))
    ensures form.step == if advanced then old(form.step) + 1 else old(form.step)
    ensures form.addOns == old(form.addOns) && form.values == old(form.values)
  {
    advanced := form.GoNext(HandleNextFields(form.step));
  }

  /** Outside steps 1 and 2 the Next handler validates nothing and always advances. */
  lemma NextPastStepTwoAlwaysAdvances(step: int, v: BookingValues)
    requires step != 1 && step != 2
    ensures FieldsValid(HandleNextFields(step), v)
  {
  }

  /** `addOns.map(id => ADD_ONS.find(x => x.id === id)!)`: None where an id is not in the catalogue. */
  function SelectedAddOns(ids: seq<string>): (r: seq<Option<AddOn>>)
    ensures |r| == |ids|
    ensures forall i :: 0 <= i < |ids| ==> r[i] == Find(ids[i])
  {
    if ids == [] then [] else [Find(ids[0])] + SelectedAddOns(ids[1..])
  }

  /** Every id has an entry in the list. */
  predicate AllIn(list: seq<AddOn>, ids: seq<string>) {
    forall i :: 0 <= i < |ids| ==> FindIn(list, ids[i]).Some?
  }

  /** Every selected id is in the catalogue. */
  predicate AllKnown(ids: seq<string>) {
    AllIn(ADD_ONS, ids)
  }

  /** The entry of one id in a list of add-ons, as a list of zero or one entries. */
  function Lookup(list: seq<AddOn>, id: string): seq<AddOn> {
    match FindIn(list, id)
    case Some(a) => [a]
    case None => []
  }

  /** The entries of the listed ids, in list order. */
  function Entries(list: seq<AddOn>, ids: seq<string>): seq<AddOn> {
    if ids == [] then [] else Lookup(list, ids[0]) + Entries(list, ids[1..])
  }

  /** The catalogue entries of the selected ids. */
  function KnownAddOns(ids: seq<string>): seq<AddOn> {
    Entries(ADD_ONS, ids)
  }

  /** When every id is known, entry i is the catalogue entry of id i. */
  lemma KnownAddOnsMatch(ids: seq<string>)
    requires AllKnown(ids)
    ensures |KnownAddOns(ids)| == |ids|
    ensures forall i :: 0 <= i < |ids| ==> Some(KnownAddOns(ids)[i]) == Find(ids[i])
  {
    EntriesMatch(ADD_ONS, ids);
  }

  lemma {:induction false} EntriesMatch(list: seq<AddOn>, ids: seq<string>)
    requires AllIn(list, ids)
    ensures |Entries(list, ids)| == |ids|
    ensures forall i :: 0 <= i < |ids| ==> Some(Entries(list, ids)[i]) == FindIn(list, ids[i])
  {
    if ids != [] {
      var tail := ids[1..];
      assert forall i :: 0 <= i < |tail| ==> tail[i] == ids[i + 1];
      EntriesMatch(list, tail);
      assert Lookup(list, ids[0]) == [FindIn(list, ids[0]).value];
      forall i | 0 <= i < |ids| ensures Some(Entries(list, ids)[i]) == FindIn(list, ids[i]) {
        if i > 0 { assert ids[i] == tail[i - 1]; }
      }
    }
  }

  /**
   * The live price: the tier quote over the selected entries. An unknown id
   * makes the sum read a property of `undefined`, so the page has no price (None).
   */
  function EstimatedPrice(values: BookingValues, ids: seq<string>): (r: Option<real>)
    ensures r.Some? <==> AllKnown(ids)
    ensures r.Some? ==> r.value == Total(values, KnownAddOns(ids)) && r.value >= 0.0
  {
    if AllKnown(ids) then Some(Total(values, KnownAddOns(ids))) else None
  }

  /** The price does not depend on the order in which add-ons were toggled on. */
  lemma EstimatedPriceOrderFree(values: BookingValues, a: seq<string>, b: seq<string>)
    requires multiset(a) == multiset(b)
    ensures EstimatedPrice(values, a) == EstimatedPrice(values, b)
  {
    if AllKnown(a) { AllInPermutation(ADD_ONS, a, b); }
    if AllKnown(b) { AllInPermutation(ADD_ONS, b, a); }
    TotalOrderFree(ADD_ONS, values, a, b);
  }

  lemma TotalOrderFree(list: seq<AddOn>, values: BookingValues, a: seq<string>, b: seq<string>)
    requires multiset(a) == multiset(b)
    ensures Total(values, Entries(list, a)) == Total(values, Entries(list, b))
  {
    KnownMultiset(list, a, b);
    AddOnTotalOrderFree(Entries(list, a), Entries(list, b));
  }

  lemma AllInPermutation(list: seq<AddOn>, a: seq<string>, b: seq<string>)
    requires multiset(a) == multiset(b) && AllIn(list, a)
    ensures AllIn(list, b)
  {
    forall i | 0 <= i < |b| ensures FindIn(list, b[i]).Some? {
      assert b[i] in multiset(b);
      var k :| 0 <= k < |a| && a[k] == b[i];
    }
  }

  lemma {:induction false} EntriesAppend(list: seq<AddOn>, a: seq<string>, b: seq<string>)
    ensures Entries(list, a + b) == Entries(list, a) + Entries(list, b)
  {
    if a == [] {
      assert a + b == b;
    } else {
      assert (a + b)[1..] == a[1..] + b;
      EntriesAppend(list, a[1..], b);
    }
  }

  lemma EntriesSingle(list: seq<AddOn>, x: string)
    ensures Entries(list, [x]) == Lookup(list, x)
  {
    assert [x][1..] == [];
  }

  /** Lists of the same ids, in any order, map to the same entries, up to order. */
  lemma {:induction false} KnownMultiset(list: seq<AddOn>, a: seq<string>, b: seq<string>)
    requires multiset(a) == multiset(b)
    ensures multiset(Entries(list, a)) == multiset(Entries(list, b))
    decreases |a|
  {
    if a == [] {
      assert |multiset(b)| == 0;
    } else {
      assert a[0] in multiset(b) by { assert a[0] in multiset(a); }
      var j :| 0 <= j < |b| && b[j] == a[0];
      var b' := b[..j] + b[j + 1..];
      RemoveBoth(a, b, j);
      KnownMultiset(list, a[1..], b');
      EntriesRemoveAt(list, b, j);
    }
  }

  lemma RemoveBoth<T>(a: seq<T>, b: seq<T>, j: nat)
    requires multiset(a) == multiset(b) && a != [] && j < |b| && b[j] == a[0]
    ensures multiset(a[1..]) == multiset(b[..j] + b[j + 1..])
  {
    MultisetWithoutAt(a, 0);
    assert a[..0] + a[1..] == a[1..];
    MultisetWithoutAt(b, j);
  }

  /** The entries of a list are those of the list without id j, plus id j's. */
  lemma EntriesRemoveAt(list: seq<AddOn>, b: seq<string>, j: nat)
    requires j < |b|
    ensures multiset(Entries(list, b))
      == multiset(Lookup(list, b[j])) + multiset(Entries(list, b[..j] + b[j + 1..]))
  {
    var pre, x, post := b[..j], b[j], b[j + 1..];
    assert b == pre + ([x] + post);
    EntriesAppend(list, pre, [x] + post);
    EntriesAppend(list, [x], post);
    EntriesSingle(list, x);
    EntriesAppend(list, pre, post);
  }

  /** The three step circles: completed before the current step, active at it. */
  function ProgressDot(step: int, n: int): (r: (bool, bool))
    ensures r.0 <==> step > n
    ensures r.1 <==> step == n
  {
    (step > n, step == n)
  }

  /** At steps 1 to 3 the highlighted circles are exactly 1..step, and exactly one is active. */
  lemma ProgressBarShape(step: int)
    requires 1 <= step <= 3
    ensures forall n :: 1 <= n <= 3 ==>
      ((ProgressDot(step, n).0 || ProgressDot(step, n).1) <==> n <= step)
    ensures forall n, m :: 1 <= n <= 3 && 1 <= m <= 3 && ProgressDot(step, n).1 && ProgressDot(step, m).1 ==> n == m
    ensures exists n :: 1 <= n <= 3 && ProgressDot(step, n).1
  {
    assert ProgressDot(step, step).1;
  }

  datatype StepView = QuoteStep | DetailsStep | FinalizeStep

  /** The step component on screen: steps 1 to 3 only; any other value renders an empty form. */
  function RenderedStep(step: int): (r: Option<StepView>)
    ensures r.Some? <==> 1 <= step <= 3
    ensures r == Some(QuoteStep) <==> step == 1
    ensures r == Some(DetailsStep) <==> step == 2
    ensures r == Some(FinalizeStep) <==> step == 3
  {
    if step == 1 then Some(QuoteStep)
    else if step == 2 then Some(DetailsStep)
    else if step == 3 then Some(FinalizeStep)
    else None
  }

  /** A panel is on screen exactly when the progress bar has an active dot, and it is that dot's step. */
  lemma PanelMatchesActiveDot(step: int)
    ensures RenderedStep(step).Some? <==> exists n :: 1 <= n <= 3 && ProgressDot(step, n).1
    ensures RenderedStep(step) == Some(QuoteStep) <==> ProgressDot(step, 1).1
    ensures RenderedStep(step) == Some(DetailsStep) <==> ProgressDot(step, 2).1
    ensures RenderedStep(step) == Some(FinalizeStep) <==> ProgressDot(step, 3).1
  {
    if 1 <= step <= 3 {
      assert ProgressDot(step, step).1;
    }
  }

  /** Going back from step 1 leaves a page with no step on it. */
  lemma BackFromFirstStepRendersNothing()
    ensures RenderedStep(1 - 1).None?
  {
  }

  /** `?canceled=...` from the payment page: the notice shows for any non-empty value. */
  function ShowsCancelNotice(canceled: Option<string>): (r: bool)
    ensures r <==> canceled.Some? && |canceled.value| > 0
  {
    Truthy(canceled)
  }

  /**
   * The notice reads presence, not the value: `canceled=true` and
   * `canceled=false` both show it; an empty value or no parameter does not.
   */
  lemma CancelNoticeValues()
    ensures ShowsCancelNotice(Some("true")) && ShowsCancelNotice(Some("false"))
    ensures !ShowsCancelNotice(Some("")) && !ShowsCancelNotice(None)
  {
  }

  /**
   * `form.handleSubmit(...)`: when the whole record validates, `onSubmit`
   * gets the parsed booking and the live price; otherwise nothing is posted
   * and nothing changes. A page without a price (unknown add-on id) has no
   * submit button to press.
   */
  method HandleSubmit(form: BookingForm, outcome: FetchOutcome) returns (request: Option<SubmitRequest>)
    requires form.Valid()
    modifies form
    ensures form.Valid()
    ensures request.Some? <==> ValuesValid(old(form.values)) && AllKnown(old(form.addOns))
    ensures request.Some? ==>
      && request.value.booking == ParseBooking(old(form.values)).booking
      && request.value.addOns == old(form.addOns)
      && request.value.estimatedPrice == EstimatedPrice(old(form.values), old(form.addOns)).value
    ensures request.Some? && outcome.Resolved? ==>
      form.step == 1 && form.addOns == [] && form.values == Defaults
    ensures request.None? || outcome.Threw? ==>
      form.step == old(form.step) && form.addOns == old(form.addOns) && form.values == old(form.values)
  {
    var price := EstimatedPrice(form.values, form.addOns);
    var parsed := ParseBooking(form.values);
    if price.Some? && parsed.Parsed? {
      var r := form.OnSubmit(parsed.booking, price.value, outcome);
      request := Some(r);
    } else {
      request := None;
    }
  }
}
