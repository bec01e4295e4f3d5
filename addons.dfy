/** The add-on price catalogue (`ADD_ONS`). */
module AddOnCatalogue {

  import opened Common

  /** One catalogue entry: its id, its `label` (`label` is a reserved word in Dafny) and its price. */
  datatype AddOn = AddOn(id: string, labelText: string, price: real)

  const ADD_ONS: seq<AddOn> := [
    AddOn("inside_fridge", "Inside Fridge", 30.0),
    AddOn("inside_oven", "Inside Oven", 40.0),
    AddOn("baseboards", "Baseboards", 25.0),
    AddOn("windows", "Interior Windows", 50.0),
    AddOn("laundry", "1 Load Laundry", 15.0),
    AddOn("dishes", "Dishes", 10.0)
  ]

  predicate DistinctIds(s: seq<AddOn>) {
    forall i, j :: 0 <= i < j < |s| ==> s[i].id != s[j].id
  }

  /** Index of the first entry with the given id (`Array.prototype.findIndex`). */
  function FirstIndexOf(s: seq<AddOn>, id: string): (r: Option<nat>)
    ensures r.Some? ==> r.value < |s| && s[r.value].id == id
    ensures r.Some? ==> forall j :: 0 <= j < r.value ==> s[j].id != id
    ensures r.None? ==> forall j :: 0 <= j < |s| ==> s[j].id != id
  {
    if s == [] then None
    else if s[0].id == id then Some(0)
    else match FirstIndexOf(s[1..], id)
      case None => None
      case Some(k) => Some(k + 1)
  }

  /** `list.find(x => x.id === id)`: the first entry of a list with the given id. */
  function FindIn(list: seq<AddOn>, id: string): (r: Option<AddOn>)
    ensures r.Some? <==> exists i :: 0 <= i < |list| && list[i].id == id
    ensures r.Some? ==> r.value in list && r.value.id == id
  {
    match FirstIndexOf(list, id)
    case None => None
    case Some(k) => Some(list[k])
  }

  /** `ADD_ONS.find(x => x.id === id)`: the catalogue entry for an id, if listed. */
  function Find(id: string): (r: Option<AddOn>)
    ensures r.Some? <==> exists i :: 0 <= i < |ADD_ONS| && ADD_ONS[i].id == id
    ensures r.Some? ==> r.value in ADD_ONS && r.value.id == id
  {
    FindIn(ADD_ONS, id)
  }

  /** Six entries, pairwise distinct ids, every price strictly positive. */
  lemma CatalogueShape()
    ensures |ADD_ONS| == 6
    ensures DistinctIds(ADD_ONS)
    ensures forall a :: a in ADD_ONS ==> a.price > 0.0
  {
  }

  /** The listed prices. */
  lemma CataloguePrices()
    ensures Find("inside_fridge") == Some(AddOn("inside_fridge", "Inside Fridge", 30.0))
    ensures Find("inside_oven") == Some(AddOn("inside_oven", "Inside Oven", 40.0))
    ensures Find("baseboards") == Some(AddOn("baseboards", "Baseboards", 25.0))
    ensures Find("windows") == Some(AddOn("windows", "Interior Windows", 50.0))
    ensures Find("laundry") == Some(AddOn("laundry", "1 Load Laundry", 15.0))
    ensures Find("dishes") == Some(AddOn("dishes", "Dishes", 10.0))
  {
    FindUnique(0);
    FindUnique(1);
    FindUnique(2);
    FindUnique(3);
    FindUnique(4);
    FindUnique(5);
  }

  /** Looking up a listed id finds exactly one entry, and it is the one found. */
  lemma {:induction false} FindUnique(i: nat)
    requires i < |ADD_ONS|
    ensures Find(ADD_ONS[i].id) == Some(ADD_ONS[i])
    ensures forall j :: 0 <= j < |ADD_ONS| && ADD_ONS[j].id == ADD_ONS[i].id ==> j == i
  {
    CatalogueShape();
    var k := FirstIndexOf(ADD_ONS, ADD_ONS[i].id);
    assert k.Some?;
    assert k.value == i;
  }
}
