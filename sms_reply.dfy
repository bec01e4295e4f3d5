/**
 * The inbound-SMS webhook (`POST` of the reply route): the message is
 * trimmed and lower-cased, matched against three commands, and answered
 * with exactly one reply. "cancel" cancels the sender's earliest confirmed
 * booking (`findAndCancelNextBooking`) in the bookings table.
 */
module SmsReply {

  import opened Common
  import opened Text
  import opened Vendors
  import opened Sms

  // ----- the keyword router -----

  datatype Command = ScheduleCmd | HelpCmd | CancelCmd | OtherCmd

  /** `incomingMsg?.trim().toLowerCase()`: None stays None. */
  function Normalise(body: Option<string>): (r: Option<string>)
    ensures r.Some? <==> body.Some?
    ensures body.Some? ==> r.value == ToLower(Trim(body.value))
  {
    match body
    case None => None
    case Some(s) => Some(ToLower(Trim(s)))
  }

  /** Exact matches only; anything else, a missing body included, is `OtherCmd`. */
  function Classify(clean: Option<string>): (c: Command)
    ensures c == ScheduleCmd <==> clean == Some("schedule")
    ensures c == HelpCmd <==> clean == Some("help")
    ensures c == CancelCmd <==> clean == Some("cancel")
  {
    if clean == Some("schedule") then ScheduleCmd
    else if clean == Some("help") then HelpCmd
    else if clean == Some("cancel") then CancelCmd
    else OtherCmd
  }

  /** Surrounding white space and upper case do not matter: " CANCEL\n" is the cancel command. */
  lemma PaddedUpperCaseCancel()
    ensures Classify(Normalise(Some(" CANCEL\n"))) == CancelCmd
  {
    TrimCancelExample();
    LowerCancel();
  }

  lemma TrimCancelExample()
    ensures Trim(" CANCEL\n") == "CANCEL"
  {
    var s := " CANCEL\n";
    var word := "CANCEL";
    assert s == [' '] + word + ['\n'];
    assert !IsJsSpace(word[0]) && !IsJsSpace(word[|word| - 1]);
    TrimPadded([' '], word, ['\n']);
  }

  lemma LowerCancel()
    ensures ToLower("CANCEL") == "cancel"
  {
    var r := ToLower("CANCEL");
    assert r[0] == 'c' && r[1] == 'a' && r[2] == 'n' && r[3] == 'c' && r[4] == 'e' && r[5] == 'l';
  }

  /**
   * White space around a message and upper case in it do not matter: a word
   * without upper-case letters, sent upper-cased between white space, cleans
   * to that word and so is routed as the word itself.
   */
  lemma NormaliseIgnoresPaddingAndCase(pre: string, w: string, post: string)
    requires forall i :: 0 <= i < |pre| ==> IsJsSpace(pre[i])
    requires forall i :: 0 <= i < |post| ==> IsJsSpace(post[i])
    requires w != [] && !IsJsSpace(w[0]) && !IsJsSpace(w[|w| - 1])
    requires forall i :: 0 <= i < |w| ==> !IsUpperAscii(w[i])
    ensures Normalise(Some(pre + ToUpper(w) + post)) == Some(w)
    ensures Classify(Normalise(Some(pre + ToUpper(w) + post))) == Classify(Some(w))
  {
    var up := ToUpper(w);
    assert !IsJsSpace(up[0]) && !IsJsSpace(up[|up| - 1]);
    TrimPadded(pre, up, post);
    LowerUndoesUpper(w);
  }

  /** A missing body, or any word other than the three, gets the default reply. */
  lemma OthersAreDefault(s: string)
    requires ToLower(Trim(s)) != "schedule" && ToLower(Trim(s)) != "help" && ToLower(Trim(s)) != "cancel"
    ensures Classify(Normalise(None)) == OtherCmd
    ensures Classify(Normalise(Some(s))) == OtherCmd
  {
  }

  const ScheduleReply: string :=
    "\U{1F4C5} Here is the link to schedule your cleaning: https://tidyhouse.com/book"
  const HelpReply: string :=
    "\U{1F9F9} Support Team here! Call us at 555-0199 for urgent issues."
  const CanceledReply: string :=
    "\U{2705} Your next upcoming cleaning appointment has been successfully CANCELED. We will miss you!"
  const NotFoundReply: string :=
    "\U{274C} We could not find a confirmed upcoming appointment to cancel. Please reply HELP or call 555-0199."
  const DefaultReply: string :=
    "Thanks for messaging Tidy House! We received your note."

  /** The reply: one text per command, and for cancel one per outcome. */
  function ReplyText(c: Command, canceled: bool): (r: string)
    ensures c == CancelCmd ==> (r == CanceledReply <==> canceled)
    ensures c == CancelCmd ==> r == CanceledReply || r == NotFoundReply
  {
    match c
    case ScheduleCmd => ScheduleReply
    case HelpCmd => HelpReply
    case CancelCmd => if canceled then CanceledReply else NotFoundReply
    case OtherCmd => DefaultReply
  }

  /** Outside cancel the reply does not depend on the cancel outcome. */
  lemma ReplyIgnoresOutcome(c: Command)
    requires c != CancelCmd
    ensures ReplyText(c, true) == ReplyText(c, false)
  {
  }

  /** The five replies are pairwise different, so the reply identifies the command and outcome. */
  lemma RepliesDistinct()
    ensures ScheduleReply != HelpReply && ScheduleReply != CanceledReply
    ensures ScheduleReply != NotFoundReply && ScheduleReply != DefaultReply
    ensures HelpReply != CanceledReply && HelpReply != NotFoundReply && HelpReply != DefaultReply
    ensures CanceledReply != NotFoundReply && CanceledReply != DefaultReply
    ensures NotFoundReply != DefaultReply
  {
  }

  // ----- the bookings table -----

  datatype BookingRow = BookingRow(
    id: int,
    phone: string,
    status: string,
    preferredDate: int,
    reminderSid: Option<string>)

  /** The select's filter: this phone, status confirmed. */
  predicate Matches(row: BookingRow, phone: string) {
    row.phone == phone && row.status == "confirmed"
  }

  /**
   * The select ordered by `preferred_date` ascending, limit one: the index
   * of a matching row with the smallest date, the first such in table order.
   */
  function Earliest(rows: seq<BookingRow>, phone: string): (r: Option<nat>)
    ensures r.None? <==> forall j :: 0 <= j < |rows| ==> !Matches(rows[j], phone)
    ensures r.Some? ==> r.value < |rows| && Matches(rows[r.value], phone)
    ensures r.Some? ==> forall j :: 0 <= j < |rows| && Matches(rows[j], phone) ==>
      rows[r.value].preferredDate <= rows[j].preferredDate
    ensures r.Some? ==> forall j :: 0 <= j < r.value && Matches(rows[j], phone) ==>
      rows[r.value].preferredDate < rows[j].preferredDate
  {
    if rows == [] then None
    else
      var n := |rows| - 1;
      var e := Earliest(rows[..n], phone);
      assert forall j :: 0 <= j < n ==> rows[..n][j] == rows[j];
      if Matches(rows[n], phone) && (e.None? || rows[n].preferredDate < rows[e.value].preferredDate)
      then Some(n)
      else e
  }

  /** The update: every row with the given id becomes canceled with no reminder id. */
  function CanceledRows(rows: seq<BookingRow>, id: int): (r: seq<BookingRow>)
    ensures |r| == |rows|
    ensures forall i :: 0 <= i < |rows| && rows[i].id == id ==>
      r[i] == rows[i].(status := "canceled", reminderSid := None)
    ensures forall i :: 0 <= i < |rows| && rows[i].id != id ==> r[i] == rows[i]
  {
    seq(|rows|, i requires 0 <= i < |rows| =>
      if rows[i].id == id then rows[i].(status := "canceled", reminderSid := None) else rows[i])
  }

  predicate DistinctIds(rows: seq<BookingRow>) {
    forall i, j :: 0 <= i < j < |rows| ==> rows[i].id != rows[j].id
  }

  /**
   * With distinct ids the update touches the target row only, and a second
   * cancel picks a different booking, never an earlier one.
   */
  lemma CancelThenNext(rows: seq<BookingRow>, phone: string)
    requires DistinctIds(rows)
    requires Earliest(rows, phone).Some?
    ensures var t := Earliest(rows, phone).value;
      var after := CanceledRows(rows, rows[t].id);
      && (forall i :: 0 <= i < |rows| && i != t ==> after[i] == rows[i])
      && !Matches(after[t], phone)
      && (Earliest(after, phone).Some? ==>
            Earliest(after, phone).value != t
            && rows[t].preferredDate <= after[Earliest(after, phone).value].preferredDate)
  {
    var t := Earliest(rows, phone).value;
    var after := CanceledRows(rows, rows[t].id);
    forall i | 0 <= i < |rows| && i != t ensures after[i] == rows[i] {
      if i < t { assert rows[i].id != rows[t].id; } else { assert rows[t].id != rows[i].id; }
    }
    var e := Earliest(after, phone);
    if e.Some? {
      assert e.value != t;
      assert after[e.value] == rows[e.value];
    }
  }

  class BookingsTable {
    var rows: seq<BookingRow>

    constructor (initial: seq<BookingRow>)
      ensures rows == initial
    {
      rows := initial;
    }
  }

  /**
   * `findAndCancelNextBooking`. A select error or no matching row answers
   * false and changes nothing. Otherwise the reminder is canceled first,
   * only when the row holds a non-empty id, and its outcome is ignored;
   * then the row is updated, and the answer is whether the update succeeded.
   */
  method FindAndCancelNextBooking(table: BookingsTable, phone: string,
                                  selectFailed: bool, unscheduled: Answer<()>, updated: Answer<()>)
    returns (canceled: bool, calls: seq<Call>)
    modifies table
    ensures var t := Earliest(old(table.rows), phone);
      && (selectFailed || t.None? ==>
            !canceled && table.rows == old(table.rows) && calls == [DbSelectNextConfirmed(phone)])
      && (!selectFailed && t.Some? ==>
            var row := old(table.rows)[t.value];
            && calls == [DbSelectNextConfirmed(phone)]
                        + (if Truthy(row.reminderSid) then [SmsUpdateCanceled(row.reminderSid.value)] else [])
                        + [DbUpdateCanceled(row.id)]
            && (canceled <==> updated.Ok?)
            && table.rows == (if canceled then CanceledRows(old(table.rows), row.id) else old(table.rows)))
    ensures SmsSent(calls) == 0
  {
    calls := [DbSelectNextConfirmed(phone)];
    var t := Earliest(table.rows, phone);
    if selectFailed || t.None? {
      return false, calls;
    }
    var row := table.rows[t.value];
    if Truthy(row.reminderSid) {
      var _, more := CancelScheduledReminder(row.reminderSid.value, unscheduled);
      calls := calls + more;
    }
    calls := calls + [DbUpdateCanceled(row.id)];
    if updated.Failed? {
      return false, calls;
    }
    table.rows := CanceledRows(table.rows, row.id);
    canceled := true;
  }

  /**
   * The route. Exactly one reply is sent, last, to the sender, and its text
   * depends only on the command and, for cancel, on the boolean answer; the
   * table changes only for cancel. The status is 200, or 500 when the reply
   * could not be sent.
   */
  method Post(table: BookingsTable, body: Option<string>, sender: string,
              selectFailed: bool, unscheduled: Answer<()>, updated: Answer<()>, replied: Answer<()>)
    returns (status: int, reply: string, calls: seq<Call>)
    modifies table
    ensures var c := Classify(Normalise(body));
      && (c != CancelCmd ==> table.rows == old(table.rows) && reply == ReplyText(c, false)
                             && calls == [SmsCreate(sender, Literal(reply), None)])
      && (c == CancelCmd ==>
            (reply == CanceledReply <==>
               !selectFailed && Earliest(old(table.rows), phone := sender).Some? && updated.Ok?)
            && (reply == CanceledReply || reply == NotFoundReply))
    ensures var t := Earliest(old(table.rows), sender);
      Classify(Normalise(body)) == CancelCmd && (selectFailed || t.None?) ==>
        table.rows == old(table.rows)
        && calls == [DbSelectNextConfirmed(sender), SmsCreate(sender, Literal(reply), None)]
    ensures var t := Earliest(old(table.rows), sender);
      Classify(Normalise(body)) == CancelCmd && !selectFailed && t.Some? ==>
        var row := old(table.rows)[t.value];
        && table.rows == (if updated.Ok? then CanceledRows(old(table.rows), row.id) else old(table.rows))
        && calls == [DbSelectNextConfirmed(sender)]
                    + (if Truthy(row.reminderSid) then [SmsUpdateCanceled(row.reminderSid.value)] else [])
                    + [DbUpdateCanceled(row.id), SmsCreate(sender, Literal(reply), None)]
    ensures |calls| >= 1 && calls[|calls| - 1] == SmsCreate(sender, Literal(reply), None)
    ensures SmsSent(calls) == 1
    ensures status == if replied.Ok? then 200 else 500
  {
    var c := Classify(Normalise(body));
    var canceled := false;
    calls := [];
    if c == CancelCmd {
      canceled, calls := FindAndCancelNextBooking(table, sender, selectFailed, unscheduled, updated);
    }
    reply := ReplyText(c, canceled);
    var prefix := calls;
    calls := prefix + [SmsCreate(sender, Literal(reply), None)];
    assert calls[..|calls| - 1] == prefix;
    status := if replied.Ok? then 200 else 500;
  }
}
