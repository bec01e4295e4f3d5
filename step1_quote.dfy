/**
 * The first booking step (`Step1Quote`): six home-size tiles, a bathroom
 * stepper that never goes below one, and the standard / deep buttons. Each
 * control writes one form value and nothing else.
 */
module Step1Quote {

  import opened Common
  import opened Schema
  import opened TierQuote
  import opened BookingFormState
  import opened BookingPage

  /** The tile ids, in display order. */
  const HOME_OPTIONS: seq<string> := ["studio", "1br", "2br", "3br", "4br", "5br"]

  /** Every tile has a base price, and the tiles are pairwise distinct, so at most one is highlighted. */
  lemma TilesArePriced()
    ensures forall i :: 0 <= i < |HOME_OPTIONS| ==> HOME_OPTIONS[i] in BASE_PRICES
    ensures forall i, j :: 0 <= i < j < |HOME_OPTIONS| ==> HOME_OPTIONS[i] != HOME_OPTIONS[j]
    ensures forall k :: k in BASE_PRICES <==> k in HOME_OPTIONS
  {
    assert forall k :: k in BASE_PRICES ==> k in HOME_OPTIONS by {
      forall k | k in BASE_PRICES ensures k in HOME_OPTIONS {
        assert k == "1br" || k == "2br" || k == "3br" || k == "4br" || k == "5br" || k == "studio";
        assert HOME_OPTIONS[1] == "1br" && HOME_OPTIONS[0] == "studio";
      }
    }
  }

  /** `watch("bathrooms") || 1`: a missing (zero) count shows as one. */
  function ShownBathrooms(b: int): (r: int)
    ensures b != 0 ==> r == b
    ensures b == 0 ==> r == 1
  {
    if b == 0 then 1 else b
  }

  /** The minus button: one fewer than shown, but never below one. */
  function Decremented(b: int): (r: int)
    ensures r >= 1
    ensures ShownBathrooms(b) >= 2 ==> r == ShownBathrooms(b) - 1
    ensures ShownBathrooms(b) <= 2 ==> r == 1
  {
    if ShownBathrooms(b) - 1 > 1 then ShownBathrooms(b) - 1 else 1
  }

  /** The plus button: one more than shown. */
  function Incremented(b: int): (r: int)
    ensures r == ShownBathrooms(b) + 1
  {
    ShownBathrooms(b) + 1
  }

  /** From any count of at least one (the default is one), plus then minus returns to it. */
  lemma PlusThenMinus(b: int)
    requires b >= 1
    ensures Decremented(Incremented(b)) == b
  {
  }

  /** Minus then plus returns to the count when it was at least two; at one, minus is a no-op. */
  lemma MinusThenPlus(b: int)
    requires b >= 1
    ensures b >= 2 ==> Incremented(Decremented(b)) == b
    ensures b == 1 ==> Decremented(b) == 1
  {
  }

  /** A tile click: sets the home size only. */
  method SelectHomeSize(form: BookingForm, i: nat)
    requires i < |HOME_OPTIONS|
    modifies form
    ensures form.values == old(form.values).(homeSize := HOME_OPTIONS[i])
    ensures form.step == old(form.step) && form.addOns == old(form.addOns)
  {
    form.values := form.values.(homeSize := HOME_OPTIONS[i]);
  }

  /** The minus button: writes `Decremented` of the stored count. */
  method DecrementBathrooms(form: BookingForm)
    modifies form
    ensures form.values == old(form.values).(bathrooms := Decremented(old(form.values.bathrooms)))
    ensures form.step == old(form.step) && form.addOns == old(form.addOns)
  {
    form.values := form.values.(bathrooms := Decremented(form.values.bathrooms));
  }

  /** The plus button: writes `Incremented` of the stored count. */
  method IncrementBathrooms(form: BookingForm)
    modifies form
    ensures form.values == old(form.values).(bathrooms := Incremented(old(form.values.bathrooms)))
    ensures form.step == old(form.step) && form.addOns == old(form.addOns)
  {
    form.values := form.values.(bathrooms := Incremented(form.values.bathrooms));
  }

  /** A cleaning-type button: writes "standard" or "deep". */
  method SelectCleaningType(form: BookingForm, t: CleaningType)
    modifies form
    ensures form.values == old(form.values).(cleaningType := CleaningTypeName(t))
    ensures form.step == old(form.step) && form.addOns == old(form.addOns)
  {
    form.values := form.values.(cleaningType := CleaningTypeName(t));
  }

  /**
   * After a tile has been picked, and with the count kept by the stepper,
   * the Next button at step 1 passes: each control can only write values its
   * field's rule accepts.
   */
  lemma StepOneControlsSatisfyNext(v: BookingValues, i: nat, t: CleaningType, presses: seq<bool>)
    requires i < |HOME_OPTIONS|
    requires v.bathrooms >= 1
    ensures FieldsValid(HandleNextFields(1),
      Pressed(v, presses).(homeSize := HOME_OPTIONS[i], cleaningType := CleaningTypeName(t)))
  {
    PressedKeepsAtLeastOne(v, presses);
    var w := Pressed(v, presses).(homeSize := HOME_OPTIONS[i], cleaningType := CleaningTypeName(t));
    assert FieldValid(HomeSizeField, w) && FieldValid(BathroomsField, w);
    assert ParseCleaningType(CleaningTypeName(t)) == Some(t);
  }

  /** The count after a sequence of stepper presses (true: plus, false: minus). */
  function Pressed(v: BookingValues, presses: seq<bool>): BookingValues
    decreases |presses|
  {
    if presses == [] then v
    else
      var b := v.bathrooms;
      Pressed(v.(bathrooms := if presses[0] then Incremented(b) else Decremented(b)), presses[1..])
  }

  /** No sequence of presses takes a count of at least one below one. */
  lemma {:induction false} PressedKeepsAtLeastOne(v: BookingValues, presses: seq<bool>)
    requires v.bathrooms >= 1
    ensures Pressed(v, presses).bathrooms >= 1
    ensures Pressed(v, presses).homeSize == v.homeSize
    ensures Pressed(v, presses).cleaningType == v.cleaningType
    decreases |presses|
  {
    if presses != [] {
      var b := v.bathrooms;
      PressedKeepsAtLeastOne(v.(bathrooms := if presses[0] then Incremented(b) else Decremented(b)), presses[1..]);
    }
  }

  /** The stepper also repairs a missing count: any press from zero leaves at least one. */
  lemma PressFromZero()
    ensures Incremented(0) == 2 && Decremented(0) == 1
  {
  }
}
