/**
 * The checkout-session route: the payment key chosen when the module loads,
 * the site origin chosen from the environment, the price converted to whole
 * cents, and the one session created with the success and cancel pages.
 */
module Checkout {

  import opened Common
  import opened Vendors
  import BookingPage
  import Webhooks

  /**
   * The key read at load time: the live key in production, the test key
   * otherwise. None means the module throws while loading.
   */
  function SecretKey(nodeEnv: Option<string>, liveKey: Option<string>, testKey: Option<string>)
    : (r: Option<string>)
    ensures var chosen := if nodeEnv == Some("production") then liveKey else testKey;
      (r.Some? <==> Truthy(chosen)) && (r.Some? ==> r == chosen)
  {
    var chosen := if nodeEnv == Some("production") then liveKey else testKey;
    if Truthy(chosen) then chosen else None
  }

  /** The test key is never used in production, and the live key never outside it. */
  lemma KeyNeverCrosses(nodeEnv: Option<string>, liveKey: Option<string>, testKey: Option<string>)
    requires liveKey != testKey
    requires SecretKey(nodeEnv, liveKey, testKey).Some?
    ensures SecretKey(nodeEnv, liveKey, testKey) == liveKey <==> nodeEnv == Some("production")
  {
  }

  const Localhost: string := "http://localhost:3000"

  /** `NEXT_PUBLIC_URL || (VERCEL_URL ? "https://" + VERCEL_URL : "http://localhost:3000")`. */
  function Origin(nextPublicUrl: Option<string>, vercelUrl: Option<string>): (r: string)
    ensures Truthy(nextPublicUrl) ==> r == nextPublicUrl.value
    ensures !Truthy(nextPublicUrl) && Truthy(vercelUrl) ==> r == "https://" + vercelUrl.value
    ensures !Truthy(nextPublicUrl) && !Truthy(vercelUrl) ==> r == Localhost
  {
    if Truthy(nextPublicUrl) then nextPublicUrl.value
    else if Truthy(vercelUrl) then "https://" + vercelUrl.value
    else Localhost
  }

  /** Whatever the environment, the origin is never empty. */
  lemma OriginNonEmpty(nextPublicUrl: Option<string>, vercelUrl: Option<string>)
    ensures |Origin(nextPublicUrl, vercelUrl)| > 0
  {
  }

  /** `Math.round(price * 100)`, on exact rationals: halves round up. */
  function UnitAmount(price: real): (cents: int)
    ensures cents as real - 0.5 <= price * 100.0 < cents as real + 0.5
  {
    (price * 100.0 + 0.5).Floor
  }

  /** A price that is a whole number of cents converts to exactly that number. */
  lemma UnitAmountOfCents(cents: int)
    ensures UnitAmount(cents as real / 100.0) == cents
  {
    assert (cents as real / 100.0) * 100.0 == cents as real;
  }

  /** Rounding keeps the order of prices. */
  lemma UnitAmountMonotone(p: real, q: real)
    requires p <= q
    ensures UnitAmount(p) <= UnitAmount(q)
  {
  }

  const SessionPlaceholder: string := "{CHECKOUT_SESSION_ID}"

  function SuccessUrl(origin: string): string {
    origin + "/success?session_id=" + SessionPlaceholder
  }

  function CancelUrl(origin: string): string {
    origin + "/booking?canceled=true"
  }

  /** The session metadata: the customer's name and the service date, nothing else. */
  function Metadata(name: string, date: string): (m: map<string, string>)
    ensures m.Keys == {"customer_name", "service_date"}
    ensures m["customer_name"] == name && m["service_date"] == date
  {
    map["customer_name" := name, "service_date" := date]
  }

  /**
   * The two pages the payment provider sends the customer back to: the
   * cancel page carries `canceled=true`, whose value the booking page treats
   * as set and so shows its notice; a session created here carries no
   * add-ons, so the paid confirmation lists its extras as "None".
   */
  lemma ReturnPages(origin: string, name: string, date: string)
    ensures var u := CancelUrl(origin);
      u[|u| - 4..] == "true" && BookingPage.ShowsCancelNotice(Some(u[|u| - 4..]))
    ensures Webhooks.Extras(Some(Metadata(name, date))) == "None"
  {
    var u := CancelUrl(origin);
    assert u[|u| - 4..] == "true";
  }

  /** The JSON body; `price` is the number sent by the client. */
  datatype CheckoutRequest = CheckoutRequest(
    email: string, name: string, price: real, cleaningType: string, date: string)

  datatype CheckoutResponse =
    | Redirect(url: string)        // 200, `{ url }`
    | ServerError(message: string) // 500, `{ error }`

  /**
   * The route, once the module has loaded with a key, given the origin
   * variables and what the session create answered. A failed create
   * answers 500 with the vendor's message, or "Internal Server Error" when
   * that message is empty.
   */
  method Post(req: CheckoutRequest,
              nextPublicUrl: Option<string>, vercelUrl: Option<string>, created: Answer<string>)
    returns (response: CheckoutResponse, calls: seq<Call>)
    ensures |calls| == 1 && calls[0].CheckoutSessionCreate?
    ensures var c := calls[0];
      var origin := Origin(nextPublicUrl, vercelUrl);
      && c.item == LineItem("usd", UnitAmount(req.price), 1)
      && c.successUrl == SuccessUrl(origin) && c.cancelUrl == CancelUrl(origin)
      && c.customerEmail == req.email
      && c.metadata == Metadata(req.name, req.date)
    ensures created.Ok? ==> response == Redirect(created.value)
    ensures created.Failed? ==>
      response == ServerError(if created.message != "" then created.message else "Internal Server Error")
  {
    var origin := Origin(nextPublicUrl, vercelUrl);
    var item := LineItem("usd", UnitAmount(req.price), 1);
    calls := [CheckoutSessionCreate(item, SuccessUrl(origin), CancelUrl(origin),
                                    req.email, Metadata(req.name, req.date))];
    match created
    case Ok(url) => response := Redirect(url);
    case Failed(m) => response := ServerError(OrElse(Some(m), "Internal Server Error"));
  }
}
