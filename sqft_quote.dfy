/**
 * The square-footage quote (`calculateQuote`): a base price by square-foot band,
 * per-bedroom and per-bathroom charges, a new-customer discount on standard
 * cleanings, a 1.5 factor for deep cleanings and a percentage frequency
 * discount, rounded half up and never below the minimum price.
 */
module SqFtQuote {

  import opened Common

  datatype QuoteInput = QuoteInput(
    homeSqFt: string,
    bedrooms: int,
    bathrooms: int,
    cleaningType: CleaningType,
    cleaningNeeds: CleaningNeeds,
    isNewCustomer: bool)

  const MinimumPrice: int := 80
  const BedroomRate: int := 15
  const BathroomRate: int := 22
  const NewCustomerDiscount: int := 35

  /** Base price per square-foot band. */
  const SqFtBands: map<string, int> := map[
    "under_1000" := 100,
    "1001_1500" := 130,
    "1501_2000" := 160,
    "2001_2500" := 200,
    "2501_3000" := 240,
    "3001_3500" := 280,
    "3501_4000" := 320,
    "4001_plus" := 360
  ]

  /** `sqFtBase[homeSqFt] || 0`: a key that is not a band contributes nothing. */
  function SqFtBase(homeSqFt: string): (base: int)
    ensures homeSqFt !in SqFtBands ==> base == 0
    ensures homeSqFt in SqFtBands ==> 100 <= base <= 360
  {
    if homeSqFt in SqFtBands then SqFtBands[homeSqFt] else 0
  }

  /** Percentage discount per frequency. */
  function FrequencyDiscount(needs: CleaningNeeds): (pct: int)
    ensures 0 <= pct < 100
  {
    match needs
    case OneTime => 0
    case Weekly => 20
    case BiWeekly => 15
    case Monthly => 10
  }

  /** `Math.round`: the nearest integer, halves rounding up. */
  function Round(x: real): (r: int)
    ensures r as real - 0.5 <= x < r as real + 0.5
  {
    (x + 0.5).Floor
  }

  function Max(a: int, b: int): (m: int)
    ensures m >= a && m >= b && (m == a || m == b)
  {
    if a >= b then a else b
  }

  /** The price before the deep-clean factor: base, rooms and the new-customer discount. */
  function Subtotal(q: QuoteInput): real {
    (SqFtBase(q.homeSqFt) + q.bedrooms * BedroomRate + q.bathrooms * BathroomRate) as real
    - (if q.isNewCustomer && q.cleaningType == Standard then NewCustomerDiscount as real else 0.0)
  }

  /** The price after the deep-clean factor. */
  function Scaled(q: QuoteInput): real {
    if q.cleaningType == Deep then Subtotal(q) * 1.5 else Subtotal(q)
  }

  /** The price after the frequency discount, before rounding. */
  function Discounted(q: QuoteInput): real {
    Scaled(q) - Scaled(q) * (FrequencyDiscount(q.cleaningNeeds) as real / 100.0)
  }

  /** The quote: the rounded discounted price, or the minimum price when that is higher. */
  function QuotePrice(q: QuoteInput): (price: int)
    ensures price >= MinimumPrice
    ensures price >= Round(Discounted(q))
    ensures price == MinimumPrice || price == Round(Discounted(q))
  {
    Max(MinimumPrice, Round(Discounted(q)))
  }

  /** `calculateQuote`, one running price updated step by step. */
  method CalculateQuote(q: QuoteInput) returns (quote: int)
    ensures quote == QuotePrice(q)
    ensures quote >= MinimumPrice
  {
    var price: real := SqFtBase(q.homeSqFt) as real;
    price := price + (q.bedrooms * BedroomRate) as real;
    price := price + (q.bathrooms * BathroomRate) as real;
    if q.isNewCustomer && q.cleaningType == Standard {
      price := price - NewCustomerDiscount as real;
    }
    if q.cleaningType == Deep {
      price := price * 1.5;
    }
    var discount := FrequencyDiscount(q.cleaningNeeds);
    price := price - price * (discount as real / 100.0);
    quote := Max(MinimumPrice, Round(price));
  }

  lemma RoundMonotone(x: real, y: real)
    requires x <= y
    ensures Round(x) <= Round(y)
  {
  }

  /** The discounted price is the scaled price times the share left after the discount. */
  lemma DiscountedIsShare(q: QuoteInput)
    ensures Discounted(q) == Scaled(q) * ((100 - FrequencyDiscount(q.cleaningNeeds)) as real / 100.0)
  {
  }

  /** A deep cleaning ignores the new-customer flag; a standard one subtracts 35 for it. */
  lemma NewCustomerDiscountOnlyStandard(q: QuoteInput)
    ensures q.cleaningType == Deep ==>
      QuotePrice(q.(isNewCustomer := true)) == QuotePrice(q.(isNewCustomer := false))
    ensures q.cleaningType == Standard ==>
      Subtotal(q.(isNewCustomer := true)) == Subtotal(q.(isNewCustomer := false)) - 35.0
  {
  }

  /** Deep cleaning multiplies the whole pre-discount subtotal by 1.5. */
  lemma DeepMultipliesSubtotal(q: QuoteInput)
    requires q.cleaningType == Deep
    ensures Scaled(q) == 1.5 * Subtotal(q)
    ensures Subtotal(q) == Subtotal(q.(cleaningType := Standard, isNewCustomer := false))
  {
  }

  /**
   * For a non-negative subtotal a longer commitment never costs more:
   * weekly <= bi-weekly <= monthly <= one-time.
   */
  lemma {:induction false} FrequencyOrdering(q: QuoteInput)
    requires Subtotal(q) >= 0.0
    ensures QuotePrice(q.(cleaningNeeds := Weekly)) <= QuotePrice(q.(cleaningNeeds := BiWeekly))
    ensures QuotePrice(q.(cleaningNeeds := BiWeekly)) <= QuotePrice(q.(cleaningNeeds := Monthly))
    ensures QuotePrice(q.(cleaningNeeds := Monthly)) <= QuotePrice(q.(cleaningNeeds := OneTime))
  {
    var w, b, m, o := q.(cleaningNeeds := Weekly), q.(cleaningNeeds := BiWeekly),
                      q.(cleaningNeeds := Monthly), q.(cleaningNeeds := OneTime);
    var s := Scaled(q);
    assert s >= 0.0;
    assert Scaled(w) == s && Scaled(b) == s && Scaled(m) == s && Scaled(o) == s;
    assert Discounted(w) == s * 0.8;
    assert Discounted(b) == s * 0.85;
    assert Discounted(m) == s * 0.9;
    assert Discounted(o) == s;
    RoundMonotone(Discounted(w), Discounted(b));
    RoundMonotone(Discounted(b), Discounted(m));
    RoundMonotone(Discounted(m), Discounted(o));
  }

  /** The discounted price grows with the subtotal: every step multiplies by a positive constant. */
  lemma DiscountedMonotone(q: QuoteInput, r: QuoteInput)
    requires q.cleaningType == r.cleaningType && q.cleaningNeeds == r.cleaningNeeds
    requires Subtotal(q) <= Subtotal(r)
    ensures Discounted(q) <= Discounted(r)
    ensures QuotePrice(q) <= QuotePrice(r)
  {
    DiscountedIsShare(q);
    DiscountedIsShare(r);
    var share := (100 - FrequencyDiscount(q.cleaningNeeds)) as real / 100.0;
    assert share > 0.0;
    assert Scaled(q) <= Scaled(r);
    assert Scaled(q) * share <= Scaled(r) * share;
    RoundMonotone(Discounted(q), Discounted(r));
  }

  /** With everything else fixed, more bedrooms or more bathrooms never lower the quote. */
  lemma RoomsMonotone(q: QuoteInput, bedrooms: int, bathrooms: int)
    requires q.bedrooms <= bedrooms && q.bathrooms <= bathrooms
    ensures QuotePrice(q) <= QuotePrice(q.(bedrooms := bedrooms, bathrooms := bathrooms))
  {
    DiscountedMonotone(q, q.(bedrooms := bedrooms, bathrooms := bathrooms));
  }

  /** under_1000, one bedroom, one bathroom, standard, one-time, returning customer: 137. */
  lemma ExampleQuote()
    ensures QuotePrice(QuoteInput("under_1000", 1, 1, Standard, OneTime, false)) == 137
  {
  }
}
