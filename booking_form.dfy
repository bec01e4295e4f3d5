/**
 * The booking session (`useBookingForm`): the step counter, the list of
 * selected add-on ids and the form values, with the add-on toggle, the
 * validated forward step, the unguarded backward step and the submit.
 */
module BookingFormState {

  import opened Common
  import opened Schema

  /** `defaultValues`, which `form.reset()` restores. */
  const Defaults: BookingValues := BookingValues(
    homeSize := "",
    bathrooms := 1,
    cleaningType := "standard",
    cleaningNeeds := "one-time",
    isNewCustomer := Some(false),
    name := "",
    email := "",
    phone := "",
    address := "",
    preferredDate := None,
    timeSlot := None)

  predicate NoDuplicates(s: seq<string>) {
    forall i, j :: 0 <= i < j < |s| ==> s[i] != s[j]
  }

  /** `list.filter(x => x !== id)`. */
  function Without(s: seq<string>, id: string): (r: seq<string>)
    ensures id !in r
    ensures forall x :: x != id ==> (x in r <==> x in s)
    ensures multiset(r) == multiset(s)[id := 0]
    ensures |r| <= |s|
  {
    if s == [] then []
    else
      var rest := Without(s[1..], id);
      assert s == [s[0]] + s[1..];
      if s[0] == id then rest else [s[0]] + rest
  }

  /** The new add-on list: every occurrence removed when present, appended at the end when absent. */
  function Toggled(s: seq<string>, id: string): (r: seq<string>)
    ensures id in r <==> id !in s
    ensures forall x :: x != id ==> (x in r <==> x in s)
    ensures id !in s ==> r == s + [id]
  {
    if id in s then Without(s, id) else s + [id]
  }

  lemma {:induction false} WithoutAbsent(s: seq<string>, id: string)
    requires id !in s
    ensures Without(s, id) == s
  {
    if s != [] {
      WithoutAbsent(s[1..], id);
    }
  }

  lemma {:induction false} WithoutKeepsNoDuplicates(s: seq<string>, id: string)
    requires NoDuplicates(s)
    ensures NoDuplicates(Without(s, id))
  {
    if s != [] {
      var tail := s[1..];
      assert NoDuplicates(tail) by {
        forall i, j | 0 <= i < j < |tail| ensures tail[i] != tail[j] {
          assert tail[i] == s[i + 1] && tail[j] == s[j + 1];
        }
      }
      WithoutKeepsNoDuplicates(tail, id);
      if s[0] != id {
        assert s[0] !in tail by {
          forall k | 0 <= k < |tail| ensures tail[k] != s[0] {
            assert tail[k] == s[k + 1];
          }
        }
        var rest := Without(tail, id);
        assert s[0] !in rest;
        var r := [s[0]] + rest;
        forall i, j | 0 <= i < j < |r| ensures r[i] != r[j] {
          if i == 0 {
            assert r[j] == rest[j - 1];
          } else {
            assert r[i] == rest[i - 1] && r[j] == rest[j - 1];
          }
        }
      }
    }
  }

  /** A toggle keeps a duplicate-free list duplicate-free. */
  lemma ToggleKeepsNoDuplicates(s: seq<string>, id: string)
    requires NoDuplicates(s)
    ensures NoDuplicates(Toggled(s, id))
  {
    if id in s {
      WithoutKeepsNoDuplicates(s, id);
    }
  }

  /** Toggling an id that was not selected, then toggling it again, restores the list exactly. */
  lemma ToggleTwiceAbsent(s: seq<string>, id: string)
    requires id !in s
    ensures Toggled(Toggled(s, id), id) == s
  {
    WithoutAbsent(s, id);
    assert Without(s + [id], id) == s by {
      WithoutAppend(s, [id], id);
      assert Without([id], id) == [];
    }
  }

  lemma {:induction false} WithoutAppend(a: seq<string>, b: seq<string>, id: string)
    ensures Without(a + b, id) == Without(a, id) + Without(b, id)
  {
    if a == [] {
      assert a + b == b;
    } else {
      assert (a + b)[1..] == a[1..] + b;
      WithoutAppend(a[1..], b, id);
    }
  }

  /**
   * Toggling a selected id twice on a duplicate-free list restores the same
   * selection (as a multiset), with that id moved to the end.
   */
  lemma ToggleTwicePresent(s: seq<string>, id: string)
    requires NoDuplicates(s) && id in s
    ensures Toggled(Toggled(s, id), id) == Without(s, id) + [id]
    ensures multiset(Toggled(Toggled(s, id), id)) == multiset(s)
  {
    var w := Without(s, id);
    assert Toggled(w, id) == w + [id];
    OccursOnce(s, id);
    assert multiset(w + [id]) == multiset(w) + multiset{id};
  }

  /** In a duplicate-free list a listed id occurs exactly once. */
  lemma OccursOnce(s: seq<string>, id: string)
    requires NoDuplicates(s) && id in s
    ensures multiset(s)[id] == 1
  {
    var i :| 0 <= i < |s| && s[i] == id;
    var pre, post := s[..i], s[i + 1..];
    forall k | 0 <= k < |pre| ensures pre[k] != id {
      assert s[k] != s[i];
    }
    forall k | 0 <= k < |post| ensures post[k] != id {
      assert s[i] != s[i + 1 + k];
    }
    assert id !in multiset(pre) && id !in multiset(post);
    assert s == pre + [id] + post;
  }

  /** The order does change: ["a", "b"] toggled at "a" twice is ["b", "a"]. */
  lemma ToggleTwiceReorders()
    ensures Toggled(Toggled(["a", "b"], "a"), "a") == ["b", "a"]
  {
    assert Without(["a", "b"], "a") == ["b"] by {
      assert ["a", "b"][1..] == ["b"];
      assert ["b"][1..] == [];
    }
    assert "a" !in ["b"];
  }

  /** What `fetch` did with the submission. */
  datatype FetchOutcome = Resolved(status: int) | Threw

  /** The JSON body of the POST: the parsed values, the add-on ids and the price. */
  datatype SubmitRequest = SubmitRequest(booking: Booking, addOns: seq<string>, estimatedPrice: real)

  class BookingForm {
    var step: int
    var addOns: seq<string>
    var values: BookingValues

    /** The add-on list holds each id at most once. */
    predicate Valid()
      reads this
    {
      NoDuplicates(addOns)
    }

    /** Initial state: step 1, no add-ons, the default values. */
    constructor ()
      ensures Valid()
      ensures step == 1 && addOns == [] && values == Defaults
    {
      step := 1;
      addOns := [];
      values := Defaults;
    }

    /** `toggleAddOn`: changes only the add-on list. */
    method ToggleAddOn(id: string)
      requires Valid()
      modifies this
      ensures Valid()
      ensures addOns == Toggled(old(addOns), id)
      ensures id in addOns <==> id !in old(addOns)
      ensures step == old(step) && values == old(values)
    {
      ToggleKeepsNoDuplicates(addOns, id);
      addOns := Toggled(addOns, id);
    }

    /** `goNext`: one step forward exactly when the given fields validate; otherwise nothing changes. */
    method GoNext(fields: seq<Field>) returns (advanced: bool)
      modifies this
      ensures advanced <==> FieldsValid(fields, old(values))
      ensures step == if advanced then old(step) + 1 else old(step)
      ensures addOns == old(addOns) && values == old(values)
    {
      advanced := FieldsValid(fields, values);
      if advanced {
        step := step + 1;
      }
    }

    /** `goBack`: one step back, without validation and without a lower bound. */
    method GoBack()
      modifies this
      ensures step == old(step) - 1
      ensures addOns == old(addOns) && values == old(values)
    {
      step := step - 1;
    }

    /**
     * `onSubmit`: posts the values, the add-ons and the price; once the POST
     * resolves (whatever its status) the session resets, and when it throws
     * nothing changes.
     */
    method OnSubmit(booking: Booking, estimatedPrice: real, outcome: FetchOutcome)
      returns (request: SubmitRequest)
      requires Valid()
      modifies this
      ensures Valid()
      ensures request == SubmitRequest(booking, old(addOns), estimatedPrice)
      ensures outcome.Resolved? ==> step == 1 && addOns == [] && values == Defaults
      ensures outcome.Threw? ==>
        step == old(step) && addOns == old(addOns) && values == old(values)
    {
      request := SubmitRequest(booking, addOns, estimatedPrice);
      if outcome.Resolved? {
        values := Defaults;
        addOns := [];
        step := 1;
      }
    }
  }

  /** The defaults are not a submittable record: the form must be filled in first. */
  lemma DefaultsNotSubmittable()
    ensures !ValuesValid(Defaults)
    ensures !FieldValid(HomeSizeField, Defaults)
    ensures FieldValid(BathroomsField, Defaults) && FieldValid(CleaningTypeField, Defaults)
    ensures FieldValid(CleaningNeedsField, Defaults)
  {
    assert !FieldValid(AllFields[0], Defaults);
  }
}
