/**
 * The payment webhook (`POST`): the signed event is checked, only completed
 * checkout sessions are acted on, the paid amount is rendered as dollars
 * with two decimals, the customer is emailed when the session holds an
 * email, and the owner is alerted for every completed session.
 */
module Webhooks {

  import opened Common
  import opened Text
  import opened Vendors

  const CompletedType: string := "checkout.session.completed"
  const OWNER_EMAIL: string := "your-personal-email@gmail.com"

  /** The session fields the route reads; `amountTotal` is in cents. */
  datatype Session = Session(
    metadata: Option<map<string, string>>,
    customerEmail: Option<string>,
    amountTotal: Option<nat>)

  datatype Event = Event(kind: string, session: Session)

  /** Cents rendered as dollars: the whole part, a point, then exactly two digits. */
  function FormatCents(cents: nat): (s: string)
    ensures |s| >= 4 && s[|s| - 3] == '.'
    ensures forall i :: 0 <= i < |s| && i != |s| - 3 ==> IsDigit(s[i])
    ensures s[..|s| - 3] == NatToString(cents / 100)
  {
    NatToString(cents / 100) + ['.', DigitChar(cents % 100 / 10), DigitChar(cents % 10)]
  }

  /** `amount_total ? (amount_total / 100).toFixed(2) : "0.00"`. */
  function AmountPaid(amountTotal: Option<nat>): (s: string)
    ensures amountTotal == None || amountTotal == Some(0) ==> s == "0.00"
    ensures amountTotal.Some? ==> s == FormatCents(amountTotal.value)
  {
    match amountTotal
    case None => "0.00"
    case Some(n) => if n == 0 then "0.00" else FormatCents(n)
  }

  /** Reading the rendered amount back, dollars times 100 plus cents, gives the amount. */
  lemma FormatCentsRoundTrip(cents: nat)
    ensures var s := FormatCents(cents);
      DigitsValue(s[..|s| - 3]) * 100 + DigitsValue(s[|s| - 2..]) == cents
  {
    var s := FormatCents(cents);
    NatToStringRoundTrip(cents / 100);
    var tail := s[|s| - 2..];
    assert tail == [DigitChar(cents % 100 / 10), DigitChar(cents % 10)];
    assert tail[..1] == [DigitChar(cents % 100 / 10)];
    assert tail[..1][..0] == [];
    assert DigitsValue(tail[..1]) == cents % 100 / 10;
    assert DigitsValue(tail) == cents % 100 / 10 * 10 + cents % 10;
  }

  /** Examples: 12345 cents is "123.45", 5 cents "0.05", 100 cents "1.00". */
  lemma AmountExamples()
    ensures AmountPaid(Some(12345)) == "123.45"
    ensures AmountPaid(Some(5)) == "0.05"
    ensures AmountPaid(Some(100)) == "1.00"
  {
    DollarsAndCents();
    CentsOnly();
    WholeDollar();
  }

  lemma DollarsAndCents()
    ensures FormatCents(12345) == "123.45"
  {
    assert NatToString(123) == "123" by {
      assert NatToString(12) == "12";
    }
  }

  lemma CentsOnly()
    ensures FormatCents(5) == "0.05"
  {
  }

  lemma WholeDollar()
    ensures FormatCents(100) == "1.00"
  {
  }

  /** `addOns || "None"`, the add-ons read from the session's metadata. */
  function Extras(metadata: Option<map<string, string>>): (r: string)
    ensures metadata.Some? && "addOns" in metadata.value && metadata.value["addOns"] != "" ==>
      r == metadata.value["addOns"]
    ensures metadata.None? || "addOns" !in metadata.value || metadata.value["addOns"] == "" ==>
      r == "None"
  {
    if metadata.Some? && "addOns" in metadata.value then OrElse(Some(metadata.value["addOns"]), "None")
    else "None"
  }

  datatype WebhookResponse =
    | Received             // 200, `{ received: true }`
    | SignatureError       // 400, `{ error: "Webhook Error" }`
    | Crashed(message: string)  // an email send threw: the handler fails with a 500

  function Status(r: WebhookResponse): int {
    match r
    case Received => 200
    case SignatureError => 400
    case Crashed(_) => 500
  }

  /** The emails for a completed session, in order, when none of them fails. */
  function PaidEmails(session: Session): seq<Call> {
    var amount := AmountPaid(session.amountTotal);
    (if Truthy(session.customerEmail)
     then [EmailSend(session.customerEmail.value, PaidCustomerConfirmation(amount, Extras(session.metadata)))]
     else [])
    + [EmailSend(OWNER_EMAIL, PaidOwnerAlert(amount))]
  }

  /**
   * The route. `constructed` is the verified event, None when the signature
   * check threw. The customer and owner answers stand for the two sends;
   * neither is caught, so a failure ends the request with a 500.
   */
  method Post(constructed: Option<Event>, customerSent: Answer<()>, ownerSent: Answer<()>)
    returns (response: WebhookResponse, calls: seq<Call>)
    ensures constructed.None? ==> response == SignatureError && calls == []
    ensures constructed.Some? && constructed.value.kind != CompletedType ==>
      response == Received && calls == []
    ensures constructed.Some? && constructed.value.kind == CompletedType ==>
      var session := constructed.value.session;
      var customer := Truthy(session.customerEmail);
      && (customer && customerSent.Failed? ==>
            response == Crashed(customerSent.message) && calls == PaidEmails(session)[..1])
      && (!(customer && customerSent.Failed?) ==>
            calls == PaidEmails(session)
            && response == (if ownerSent.Ok? then Received else Crashed(ownerSent.message)))
  {
    calls := [];
    if constructed.None? {
      return SignatureError, calls;
    }
    var event := constructed.value;
    if event.kind != CompletedType {
      return Received, calls;
    }
    var session := event.session;
    var amount := AmountPaid(session.amountTotal);
    if Truthy(session.customerEmail) {
      calls := calls + [EmailSend(session.customerEmail.value,
                                  PaidCustomerConfirmation(amount, Extras(session.metadata)))];
      if customerSent.Failed? {
        return Crashed(customerSent.message), calls;
      }
    }
    calls := calls + [EmailSend(OWNER_EMAIL, PaidOwnerAlert(amount))];
    if ownerSent.Failed? {
      return Crashed(ownerSent.message), calls;
    }
    response := Received;
  }

  /**
   * What the emails say about a completed session: the owner alert is the
   * last email and always sent, the customer email only with an email, and
   * both carry the same amount text.
   */
  lemma PaidEmailsShape(session: Session)
    ensures var e := PaidEmails(session);
      && EmailsSent(e) == |e|
      && |e| == (if Truthy(session.customerEmail) then 2 else 1)
      && e[|e| - 1] == EmailSend(OWNER_EMAIL, PaidOwnerAlert(AmountPaid(session.amountTotal)))
      && (|e| == 2 ==> e[0].kind.amountPaid == e[1].kind.amountPaid)
  {
    var e := PaidEmails(session);
    if |e| == 2 {
      assert e[..1][..0] == [];
      assert e[..1] == [e[0]];
    } else {
      assert e[..0] == [];
    }
  }
}
