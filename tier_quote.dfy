/**
 * The tier quote (`useQuoteCalculator`): a base price by home-size tile, a
 * quarter dollar per bathroom, a flat deep-clean fee, a flat frequency
 * discount and the sum of the selected add-ons, clamped at zero.
 */
module TierQuote {

  import opened Common
  import opened Schema
  import opened AddOnCatalogue

  /** `BASE_PRICES`: price per home-size tile. */
  const BASE_PRICES: map<string, real> := map[
    "1br" := 100.0,
    "2br" := 140.0,
    "3br" := 190.0,
    "4br" := 250.0,
    "5br" := 320.0,
    "studio" := 0.0
  ]

  const BathroomRate: real := 0.25
  const DeepCleanFee: real := 60.0

  /** `BASE_PRICES[homeSize] || 0`. */
  function PackagePrice(homeSize: string): (p: real)
    ensures homeSize in BASE_PRICES ==> p == BASE_PRICES[homeSize]
    ensures homeSize !in BASE_PRICES ==> p == 0.0
  {
    if homeSize in BASE_PRICES then BASE_PRICES[homeSize] else 0.0
  }

  /** Each bedroom tile costs more than the one before it, and the studio tile costs nothing. */
  lemma TilePricesIncrease()
    ensures 0.0 == PackagePrice("studio") < PackagePrice("1br") < PackagePrice("2br")
    ensures PackagePrice("2br") < PackagePrice("3br") < PackagePrice("4br") < PackagePrice("5br")
  {
  }

  /** `(bathrooms || 0) * 0.25`. */
  function BathPrice(bathrooms: int): real {
    bathrooms as real * BathroomRate
  }

  /** The flat frequency discount, keyed on the raw `cleaningNeeds` string. */
  function FrequencyDiscount(cleaningNeeds: string): (d: real)
    ensures d <= 0.0
  {
    if cleaningNeeds == "weekly" then -30.0
    else if cleaningNeeds == "bi-weekly" then -15.0
    else if cleaningNeeds == "monthly" then -10.0
    else 0.0
  }

  /** The first memoised value: everything but the add-ons. */
  function BasePrice(v: BookingValues): real {
    PackagePrice(v.homeSize) + BathPrice(v.bathrooms)
    + (if v.cleaningType == "deep" then DeepCleanFee else 0.0)
    + FrequencyDiscount(v.cleaningNeeds)
  }

  /** The second memoised value: `addOns.reduce((sum, x) => sum + x.price, 0)`, a left fold. */
  function AddOnTotal(addOns: seq<AddOn>): real {
    if addOns == [] then 0.0 else AddOnTotal(addOns[..|addOns| - 1]) + addOns[|addOns| - 1].price
  }

  /** The quote: base plus add-ons when positive, otherwise zero. */
  function Total(v: BookingValues, addOns: seq<AddOn>): (total: real)
    ensures total >= 0.0
    ensures BasePrice(v) + AddOnTotal(addOns) > 0.0 ==> total == BasePrice(v) + AddOnTotal(addOns)
    ensures BasePrice(v) + AddOnTotal(addOns) <= 0.0 ==> total == 0.0
  {
    var sum := BasePrice(v) + AddOnTotal(addOns);
    if sum > 0.0 then sum else 0.0
  }

  /** An empty, unknown or studio home size contributes nothing. */
  lemma UnselectedSizeIsFree(homeSize: string)
    requires homeSize == "" || homeSize == "studio" || homeSize !in BASE_PRICES
    ensures PackagePrice(homeSize) == 0.0
  {
  }

  /** The flat discounts: weekly 30, bi-weekly 15, monthly 10, any other value nothing. */
  lemma FlatDiscounts(s: string)
    ensures FrequencyDiscount("weekly") == -30.0
    ensures FrequencyDiscount("bi-weekly") == -15.0
    ensures FrequencyDiscount("monthly") == -10.0
    ensures s != "weekly" && s != "bi-weekly" && s != "monthly" ==> FrequencyDiscount(s) == 0.0
  {
  }

  /** A missing (or zero) bathroom count is charged nothing. */
  lemma NoBathroomsNoCharge()
    ensures BathPrice(0) == 0.0
  {
  }

  /** 2br, one bathroom, standard, one-time, no add-ons: 140.25. */
  lemma ExampleTwoBedroom(v: BookingValues)
    requires v.homeSize == "2br" && v.bathrooms == 1
    requires v.cleaningType == "standard" && v.cleaningNeeds == "one-time"
    ensures Total(v, []) == 140.25
  {
  }

  /** Deep adds exactly 60 over standard whenever both totals are positive. */
  lemma DeepAddsSixty(v: BookingValues, addOns: seq<AddOn>)
    requires v.cleaningType == "deep"
    requires Total(v.(cleaningType := "standard"), addOns) > 0.0
    ensures Total(v, addOns) == Total(v.(cleaningType := "standard"), addOns) + 60.0
  {
  }

  lemma {:induction false} AddOnTotalAppend(a: seq<AddOn>, b: seq<AddOn>)
    ensures AddOnTotal(a + b) == AddOnTotal(a) + AddOnTotal(b)
  {
    if b == [] {
      assert a + b == a;
    } else {
      var c := b[..|b| - 1];
      assert (a + b)[..|a + b| - 1] == a + c;
      AddOnTotalAppend(a, c);
    }
  }

  /** The total of a list is the total without one entry plus that entry's price. */
  lemma AddOnTotalRemove(s: seq<AddOn>, j: nat)
    requires j < |s|
    ensures AddOnTotal(s) == AddOnTotal(s[..j] + s[j + 1..]) + s[j].price
  {
    var pre, x, post := s[..j], [s[j]], s[j + 1..];
    assert s == pre + (x + post);
    AddOnTotalAppend(pre, x + post);
    AddOnTotalAppend(x, post);
    AddOnTotalAppend(pre, post);
    assert AddOnTotal(x) == s[j].price by {
      assert x[..0] == [];
    }
  }

  /** The add-on total does not depend on the order of the list. */
  lemma {:induction false} AddOnTotalOrderFree(a: seq<AddOn>, b: seq<AddOn>)
    requires multiset(a) == multiset(b)
    ensures AddOnTotal(a) == AddOnTotal(b)
  {
    if a != [] {
      var x := a[|a| - 1];
      var rest := a[..|a| - 1];
      MultisetWithoutAt(a, |a| - 1);
      assert a[..|a| - 1] + a[|a|..] == rest;
      assert x in multiset(b);
      var j :| 0 <= j < |b| && b[j] == x;
      MultisetWithoutAt(b, j);
      AddOnTotalOrderFree(rest, b[..j] + b[j + 1..]);
      AddOnTotalRemove(b, j);
    } else {
      assert |multiset(b)| == 0;
    }
  }

  /** Selecting one more add-on with a non-negative price never lowers the quote. */
  lemma AddingAddOnNeverLowers(v: BookingValues, addOns: seq<AddOn>, extra: AddOn, at: nat)
    requires extra.price >= 0.0 && at <= |addOns|
    ensures Total(v, addOns) <= Total(v, addOns[..at] + [extra] + addOns[at..])
  {
    var grown := addOns[..at] + [extra] + addOns[at..];
    assert addOns == addOns[..at] + addOns[at..];
    assert multiset(grown) == multiset(addOns + [extra]);
    AddOnTotalOrderFree(grown, addOns + [extra]);
    assert (addOns + [extra])[..|addOns|] == addOns;
  }

  /** The whole catalogue costs 170. */
  lemma CatalogueTotal()
    ensures AddOnTotal(ADD_ONS) == 170.0
  {
    var c := ADD_ONS;
    assert AddOnTotal(c[..1]) == 30.0 by { assert c[..1][..0] == []; }
    assert AddOnTotal(c[..2]) == 70.0 by { assert c[..2][..1] == c[..1]; }
    assert AddOnTotal(c[..3]) == 95.0 by { assert c[..3][..2] == c[..2]; }
    assert AddOnTotal(c[..4]) == 145.0 by { assert c[..4][..3] == c[..3]; }
    assert AddOnTotal(c[..5]) == 160.0 by { assert c[..5][..4] == c[..4]; }
    assert c[..6] == c;
  }
}
