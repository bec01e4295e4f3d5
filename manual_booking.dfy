/**
 * The manual-booking route (`POST`): the request becomes one confirmed row
 * with defaults for the missing fields; after a successful insert the
 * customer is texted (when a phone is given), emailed (when an email is
 * given) and the administrator is always alerted, each failure caught and
 * ignored.
 */
module ManualBooking {

  import opened Common
  import opened Text
  import opened Vendors

  /** The JSON body; every field is a string or absent. */
  datatype ManualRequest = ManualRequest(
    name: Option<string>,
    email: Option<string>,
    phone: Option<string>,
    address: Option<string>,
    date: Option<string>,
    time: Option<string>,
    price: Option<string>,
    serviceType: Option<string>,
    homeSize: Option<string>,
    bathrooms: Option<string>,
    cleaningNeeds: Option<string>)

  /** The inserted row. `bathrooms` None is NaN; `price` is kept as text. */
  datatype ManualRow = ManualRow(
    name: Option<string>,
    email: Option<string>,
    phone: Option<string>,
    address: Option<string>,
    cleaningType: Option<string>,
    homeSize: string,
    bathrooms: Option<int>,
    cleaningNeeds: string,
    timeSlot: Option<string>,
    price: Option<string>,
    preferredDate: Option<string>,
    status: string,
    isNewCustomer: bool)

  const ADMIN_EMAIL: string := "ptrose78+admin@gmail.com"

  /** `bathrooms ? parseInt(bathrooms) : 1`. */
  function BathroomsCell(bathrooms: Option<string>): Option<int> {
    if Truthy(bathrooms) then ParseInt(bathrooms.value) else Some(1)
  }

  /** The row built from a request. */
  function RowOf(req: ManualRequest): ManualRow {
    ManualRow(
      req.name, req.email, req.phone, req.address, req.serviceType,
      OrElse(req.homeSize, "Manual Entry"),
      BathroomsCell(req.bathrooms),
      OrElse(req.cleaningNeeds, "Manual Booking"),
      req.time, req.price, req.date,
      "confirmed", false)
  }

  /**
   * What a row holds: the request's own fields under the table's names, the
   * two text defaults, which leave the home size and cleaning needs never
   * empty, and a fixed confirmed status for a returning customer.
   */
  lemma RowContents(req: ManualRequest)
    ensures var row := RowOf(req);
      && row.homeSize != "" && row.cleaningNeeds != ""
      && row.homeSize == (if Truthy(req.homeSize) then req.homeSize.value else "Manual Entry")
      && row.cleaningNeeds == (if Truthy(req.cleaningNeeds) then req.cleaningNeeds.value else "Manual Booking")
      && row.status == "confirmed" && !row.isNewCustomer
      && (row.name, row.email, row.phone, row.address) == (req.name, req.email, req.phone, req.address)
      && (row.cleaningType, row.timeSlot, row.price, row.preferredDate)
         == (req.serviceType, req.time, req.price, req.date)
  {
  }

  /** A rendered count is stored as that count; an absent or empty count as one. */
  lemma BathroomsExamples(req: ManualRequest, n: nat)
    ensures req.bathrooms == Some(NatToString(n)) ==> RowOf(req).bathrooms == Some(n)
    ensures !Truthy(req.bathrooms) ==> RowOf(req).bathrooms == Some(1)
    ensures Truthy(req.bathrooms) ==> RowOf(req).bathrooms == ParseInt(req.bathrooms.value)
  {
    ParseIntRoundTrip(n);
  }

  /** The notifications after a successful insert, in order. */
  function Notifications(req: ManualRequest): seq<Call> {
    (if Truthy(req.phone) then [SmsCreate(req.phone.value, ConfirmationTemplate, None)] else [])
    + (if Truthy(req.email) then [EmailSend(req.email.value, ManualCustomerConfirmation)] else [])
    + [EmailSend(ADMIN_EMAIL, ManualAdminAlert)]
  }

  /**
   * At most one text, sent first and only with a phone; the customer email
   * only with an email; the administrator alert always, and last.
   */
  lemma NotificationShape(req: ManualRequest)
    ensures SmsSent(Notifications(req)) == if Truthy(req.phone) then 1 else 0
    ensures EmailsSent(Notifications(req)) == if Truthy(req.email) then 2 else 1
    ensures var n := Notifications(req); n[|n| - 1] == EmailSend(ADMIN_EMAIL, ManualAdminAlert)
    ensures var n := Notifications(req);
      forall i :: 0 <= i < |n| && n[i].SmsCreate? ==> i == 0
  {
    var sms := if Truthy(req.phone) then [SmsCreate(req.phone.value, ConfirmationTemplate, None)] else [];
    var mail := if Truthy(req.email) then [EmailSend(req.email.value, ManualCustomerConfirmation)] else [];
    var admin := [EmailSend(ADMIN_EMAIL, ManualAdminAlert)];
    CountsAppend(sms, mail);
    CountsAppend(sms + mail, admin);
    assert SmsSent(admin) == 0 && EmailsSent(admin) == 1 by {
      assert admin[..0] == [];
    }
    if sms != [] {
      assert SmsSent(sms) == 1 by { assert sms[..0] == []; }
    }
    if mail != [] {
      assert EmailsSent(mail) == 1 && SmsSent(mail) == 0 by { assert mail[..0] == []; }
    }
  }

  datatype ManualResponse = Success | ServerError(message: string)

  /**
   * The route. A failed insert answers 500 with the database message and
   * makes no other call; otherwise the notifications are attempted in
   * order and the answer is success, whatever the messaging and email
   * vendors answered.
   */
  method Post(req: ManualRequest, inserted: Answer<()>,
              texted: Answer<()>, customerEmailed: Answer<()>, adminEmailed: Answer<()>)
    returns (response: ManualResponse, row: ManualRow, calls: seq<Call>)
    ensures row == RowOf(req)
    ensures inserted.Failed? ==> response == ServerError(inserted.message) && calls == [DbInsertBooking]
    ensures inserted.Ok? ==> response == Success && calls == [DbInsertBooking] + Notifications(req)
  {
    row := RowOf(req);
    calls := [DbInsertBooking];
    if inserted.Failed? {
      return ServerError(inserted.message), row, calls;
    }
    var sms: seq<Call> := [];
    if Truthy(req.phone) {
      // a failed text is logged and ignored
      sms := [SmsCreate(req.phone.value, ConfirmationTemplate, None)];
    }
    var mail: seq<Call> := [];
    if Truthy(req.email) {
      // a failed customer email is logged and ignored
      mail := [EmailSend(req.email.value, ManualCustomerConfirmation)];
    }
    // a failed administrator alert is logged and ignored
    var admin := [EmailSend(ADMIN_EMAIL, ManualAdminAlert)];
    assert sms + mail + admin == Notifications(req);
    calls := calls + sms + mail + admin;
    assert calls == [DbInsertBooking] + (sms + mail + admin);
    response := Success;
  }
}
