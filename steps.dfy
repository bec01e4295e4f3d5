/** The map from booking step number to the schema fields that step validates (`steps`). */
module Steps {

  import opened Common
  import opened Schema

  /** `steps[n]`: defined for the keys 1 to 5, `undefined` for any other number. */
  function StepFields(n: int): (r: Option<seq<Field>>)
    ensures r.Some? <==> 1 <= n <= 5
  {
    if n == 1 then Some([HomeSizeField, BathroomsField])
    else if n == 2 then Some([CleaningTypeField, CleaningNeedsField])
    else if n == 3 then Some([])
    else if n == 4 then Some([PreferredDateField, TimeSlotField])
    else if n == 5 then Some([NameField, EmailField, PhoneField, AddressField])
    else None
  }

  predicate IsContactField(f: Field) {
    f == NameField || f == EmailField || f == PhoneField || f == AddressField
  }

  /** Step 3 validates nothing, so it passes whatever the form holds. */
  lemma StepThreeAlwaysPasses(v: BookingValues)
    ensures StepFields(3) == Some([])
    ensures FieldsValid(StepFields(3).value, v)
  {
  }

  /** No field belongs to two steps. */
  lemma NoFieldInTwoSteps(n: int, m: int, f: Field)
    requires StepFields(n).Some? && StepFields(m).Some?
    requires f in StepFields(n).value && f in StepFields(m).value
    ensures n == m
  {
  }

  /** The contact fields are checked at step 5 and nowhere else. */
  lemma ContactFieldsOnlyAtStepFive(n: int, f: Field)
    requires IsContactField(f)
    ensures StepFields(5).Some? && f in StepFields(5).value
    ensures StepFields(n).Some? && f in StepFields(n).value ==> n == 5
  {
  }

  /** Which step (if any) validates a field. */
  function StepOf(f: Field): (n: Option<int>)
    ensures n.Some? ==> StepFields(n.value).Some? && f in StepFields(n.value).value
    ensures n.None? ==> forall k :: StepFields(k).Some? ==> f !in StepFields(k).value
  {
    match f
    case HomeSizeField => Some(1)
    case BathroomsField => Some(1)
    case CleaningTypeField => Some(2)
    case CleaningNeedsField => Some(2)
    case IsNewCustomerField => None
    case NameField => Some(5)
    case EmailField => Some(5)
    case PhoneField => Some(5)
    case AddressField => Some(5)
    case PreferredDateField => Some(4)
    case TimeSlotField => Some(4)
  }

  /** Together the steps cover every schema field except the new-customer flag. */
  lemma StepsCoverSchema(f: Field)
    ensures (exists n :: 1 <= n <= 5 && f in StepFields(n).value) <==> f != IsNewCustomerField
  {
    match StepOf(f)
    case Some(n) =>
      assert 1 <= n <= 5 && f in StepFields(n).value;
    case None =>
  }

  /** Passing steps 1 to 5 in turn is the same as the whole record being valid. */
  lemma {:induction false} AllStepsIsWholeSchema(v: BookingValues)
    ensures (forall n :: 1 <= n <= 5 ==> FieldsValid(StepFields(n).value, v)) <==> ValuesValid(v)
  {
    ValuesValidUnfold(v);
    if forall n :: 1 <= n <= 5 ==> FieldsValid(StepFields(n).value, v) {
      assert FieldsValid(StepFields(1).value, v);
      assert FieldsValid(StepFields(2).value, v);
      assert FieldsValid(StepFields(4).value, v);
      assert FieldsValid(StepFields(5).value, v);
      assert FieldValid(StepFields(1).value[0], v) && FieldValid(StepFields(1).value[1], v);
      assert FieldValid(StepFields(2).value[0], v) && FieldValid(StepFields(2).value[1], v);
      assert FieldValid(StepFields(4).value[0], v) && FieldValid(StepFields(4).value[1], v);
      assert FieldValid(StepFields(5).value[0], v) && FieldValid(StepFields(5).value[1], v);
      assert FieldValid(StepFields(5).value[2], v) && FieldValid(StepFields(5).value[3], v);
      assert AllRulesHold(v);
    }
  }
}
