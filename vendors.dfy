/**
 * The calls the server code makes to its vendors (messaging, email, database),
 * recorded in order. The vendors themselves are not modelled: each operation
 * takes the vendor's answer as a parameter and returns the calls it made.
 */
module Vendors {

  import opened Common

  /** Message text: the literal replies are modelled, the locale-formatted templates are not. */
  datatype SmsBody =
    | Literal(text: string)
    | ReminderTemplate
    | ConfirmationTemplate

  /**
   * Which email is sent. Their HTML bodies are not modelled, except for the
   * amount and extras text the payment emails show.
   */
  datatype EmailKind =
    | ManualCustomerConfirmation
    | ManualAdminAlert
    | PaidCustomerConfirmation(amountPaid: string, extras: string)
    | PaidOwnerAlert(amountPaid: string)

  /** The one line item of a checkout session: a unit amount in cents, quantity one, in usd. */
  datatype LineItem = LineItem(currency: string, unitAmount: int, quantity: int)

  datatype Call =
    | SmsCreate(to: string, body: SmsBody, sendAt: Option<int>)
    | SmsFetch(sid: string)
    | SmsUpdateCanceled(sid: string)
    | EmailSend(to: string, kind: EmailKind)
    | DbInsertBooking
    | DbSelectNextConfirmed(phone: string)
    | DbUpdateCanceled(id: int)
    | CheckoutSessionCreate(
        item: LineItem, successUrl: string, cancelUrl: string,
        customerEmail: string, metadata: map<string, string>)

  /** What a vendor call that can fail answered. */
  datatype Answer<+T> = Ok(value: T) | Failed(message: string)

  /** Number of messages sent (or scheduled) in a log. */
  function SmsSent(log: seq<Call>): (n: nat)
    ensures n <= |log|
    ensures n == 0 <==> forall i :: 0 <= i < |log| ==> !log[i].SmsCreate?
  {
    if log == [] then 0
    else SmsSent(log[..|log| - 1]) + (if log[|log| - 1].SmsCreate? then 1 else 0)
  }

  /** Number of emails sent in a log. */
  function EmailsSent(log: seq<Call>): (n: nat)
    ensures n <= |log|
    ensures n == 0 <==> forall i :: 0 <= i < |log| ==> !log[i].EmailSend?
  {
    if log == [] then 0
    else EmailsSent(log[..|log| - 1]) + (if log[|log| - 1].EmailSend? then 1 else 0)
  }

  /** Both counters add up over concatenated logs. */
  lemma {:induction false} CountsAppend(a: seq<Call>, b: seq<Call>)
    ensures SmsSent(a + b) == SmsSent(a) + SmsSent(b)
    ensures EmailsSent(a + b) == EmailsSent(a) + EmailsSent(b)
  {
    if b == [] {
      assert a + b == a;
    } else {
      var c := b[..|b| - 1];
      assert (a + b)[..|a + b| - 1] == a + c;
      CountsAppend(a, c);
    }
  }
}
