# Tidy House Cleaners: booking, quote and messaging core in Dafny

This project models the core of the Tidy House Cleaners booking site, a
Next.js application, and proves properties of the model. It covers:

- the two price calculators: the square-footage quote `calculateQuote` and
  the tier quote `useQuoteCalculator`, with its add-on catalogue;
- the booking form: the field schema, the step map, the form hook
  (`useBookingForm`) as a class with `step`, `addOns` and `values`, the
  booking page's next/submit handlers and progress bar, the first step's
  tiles and bathroom counter, and the date picker's popover and disabled days;
- the contact page: its schema, captcha callbacks and submit handler;
- the server side: the inbound-SMS command router with its
  cancel-next-booking logic, the two reminder libraries, the manual-booking
  route, the payment webhook, the checkout-session route and the order
  number of the success page.

Every call to a vendor (messaging, email, database, payments) becomes an
entry in an ordered log of `Vendors.Call` values that the operation
returns. What the vendor answered is a parameter: `Answer.Ok` or
`Answer.Failed(message)`, where a failure stands for the error the SDK
throws. The clock (`now`), the local time-zone offset and environment
variables are parameters too. Money is an exact `real`. `Math.round(x)` is
`floor(x + 0.5)`. Instants are integer milliseconds since the epoch. Raw
form values keep `undefined` as `None`.

Modules, one per source file:

- `SqFtQuote`: src/lib/quote.ts
- `TierQuote`: src/lib/booking/useQuoteCalculator.ts
- `AddOnCatalogue`: src/lib/booking/config-addons.ts
- `Schema`: src/lib/booking/schema.ts
- `Steps`: src/lib/booking/steps.ts
- `BookingFormState`: src/lib/booking/useBookingForm.ts
- `BookingPage`: src/app/booking/page.tsx
- `Step1Quote`: src/app/booking/steps/Step1Quote.tsx
- `DatePicker`: src/components/DatePicker.tsx
- `Contact`: src/app/contact/page.tsx
- `SmsReply`: src/app/api/sms-reply/route.ts
- `Sms`: src/lib/sms.ts
- `TwilioReminders`: src/lib/twilio.ts
- `ManualBooking`: src/app/api/manual-booking/route.ts
- `Webhooks`: src/app/api/webhooks/route.ts
- `Checkout`: src/app/api/create-checkout-session/route.ts
- `SuccessPage`: src/app/success/page.tsx

Shared helpers live in three modules:

- `Common`: Option, JavaScript truthiness of strings, the three string enums.
- `Text`: JavaScript `trim`, ASCII case mapping, `slice(-n)`, decimal rendering and `parseInt`.
- `Vendors`: the call log.

## Model

| member | source | states |
|---|---|---|
| `Common.EnumNamesRoundTrip` | src/lib/booking/schema.ts:8-23 | each cleaning type, frequency and time slot is accepted by its enum rule under its own name, and only that name maps back to it |
| `Text.TrimPadded` | src/app/api/sms-reply/route.ts:66 | trimming a word padded with white space on both sides gives back the word |
| `Text.ToLowerIdempotent` | src/app/api/sms-reply/route.ts:66 | lower-cased text has no upper-case letter left, so lower-casing it again changes nothing |
| `Text.LowerUndoesUpper` | src/app/api/sms-reply/route.ts:66 | on text without upper-case letters, lower-casing undoes upper-casing |
| `Text.TakeLast` | src/app/success/page.tsx:14 | `slice(-n)` is the suffix of length n, or the whole string when shorter |
| `Text.NatToStringRoundTrip` | src/app/api/webhooks/route.ts:36 | reading the decimal rendering of a count back gives the count |
| `Text.ParseIntRoundTrip` | src/app/api/manual-booking/route.ts:36 | `parseInt` of a rendered natural number is that number |
| `Text.ParseIntNegativePrefix` | src/app/api/manual-booking/route.ts:36 | `parseInt` skips leading white space, a minus sign negates, and any text after the digits is ignored, whatever the digits |
| `Text.ParseIntExample` | src/app/api/manual-booking/route.ts:36 | `parseInt` skips leading white space, takes a sign and ignores trailing text: " -12 baths" is -12 |
| `Text.ParseIntNaN` | src/app/api/manual-booking/route.ts:36 | an empty or non-numeric string and a bare "0x" are NaN; "0x1A" reads as hexadecimal 26 |
| `SqFtQuote.SqFtBase` | src/lib/quote.ts:20-38 | a key that is not a band adds nothing; every band is priced between 100 and 360 |
| `SqFtQuote.FrequencyDiscount` | src/lib/quote.ts:31-36 | every frequency discount is a percentage from 0 to 99 |
| `SqFtQuote.Round` | src/lib/quote.ts:54 | the result is the integer nearest the price, halves rounding up |
| `SqFtQuote.QuotePrice` | src/lib/quote.ts:38-54 | the quote is never below 80; it is the larger of 80 and the rounded discounted price |
| `SqFtQuote.CalculateQuote` | src/lib/quote.ts:5-55 | the step-by-step running price ends at the specified quote, so it is never below 80 |
| `SqFtQuote.RoundMonotone` | src/lib/quote.ts:54 | rounding keeps the order of prices |
| `SqFtQuote.DiscountedIsShare` | src/lib/quote.ts:51-52 | subtracting the discount share is multiplying by the share left |
| `SqFtQuote.NewCustomerDiscountOnlyStandard` | src/lib/quote.ts:43-45 | the new-customer flag changes nothing for a deep cleaning and takes exactly 35 off a standard subtotal |
| `SqFtQuote.DeepMultipliesSubtotal` | src/lib/quote.ts:47-49 | a deep cleaning is 1.5 times the subtotal, and that subtotal never carries the new-customer discount |
| `SqFtQuote.FrequencyOrdering` | src/lib/quote.ts:31-54 | for a non-negative subtotal, weekly costs no more than bi-weekly, then monthly, then one-time |
| `SqFtQuote.DiscountedMonotone` | src/lib/quote.ts:40-54 | for the same type and frequency, a larger subtotal never gives a lower quote |
| `SqFtQuote.RoomsMonotone` | src/lib/quote.ts:40-41 | more bedrooms or bathrooms never lower the quote |
| `SqFtQuote.ExampleQuote` | src/lib/quote.ts:20-54 | under 1000 sq ft, one bedroom, one bathroom, standard, one-time, returning customer: 137 |
| `AddOnCatalogue.FirstIndexOf` | src/app/booking/page.tsx:38 | the index found holds the id and no earlier entry does; None means no entry holds it |
| `AddOnCatalogue.Find` | src/app/booking/page.tsx:38 | an id is found exactly when some catalogue entry has it, and the entry found is a catalogue entry with that id |
| `AddOnCatalogue.CatalogueShape` | src/lib/booking/config-addons.ts:3-10 | six entries with pairwise distinct ids, every price positive |
| `AddOnCatalogue.CataloguePrices` | src/lib/booking/config-addons.ts:3-10 | looking up each listed id gives its label and price (30, 40, 25, 50, 15, 10) |
| `AddOnCatalogue.FindUnique` | src/lib/booking/config-addons.ts:3-10 | looking up an entry's id gives that entry, and no other entry has the id |
| `Schema.EmailAccepted` | src/lib/booking/schema.ts:13 | an ordinary address such as "jo@tidy.house" passes the email rule |
| `Schema.EmailRejected` | src/lib/booking/schema.ts:13 | an empty string, a domain without a dot and a double dot fail the email rule |
| `Schema.ValuesValidExactly` | src/lib/booking/schema.ts:4-24 | a form record is valid exactly when each field meets its own rule, written out field by field |
| `Schema.FailingFields` | src/lib/booking/schema.ts:4-24 | the reported fields are exactly the listed fields whose rule fails; none are reported iff all pass |
| `Schema.ParseBooking` | src/lib/booking/schema.ts:4-24 | parsing succeeds iff the record is valid, then carries every value over; otherwise it names the failing fields, at least one |
| `Schema.NewCustomerDefaultsFalse` | src/lib/booking/schema.ts:11 | an absent new-customer flag parses as false |
| `Schema.PhoneCountsCharacters` | src/lib/booking/schema.ts:14 | the phone rule counts characters, so ten letters pass |
| `Schema.AllFieldsListed` | src/lib/booking/schema.ts:4-24 | every key of the schema is in the list the whole-record check uses |
| `Steps.StepFields` | src/lib/booking/steps.ts:5-11 | the map is defined for steps 1 to 5 and for no other number |
| `Steps.StepThreeAlwaysPasses` | src/lib/booking/steps.ts:8 | step 3 lists no field, so its check passes whatever the form holds |
| `Steps.NoFieldInTwoSteps` | src/lib/booking/steps.ts:5-11 | no field is validated by two different steps |
| `Steps.ContactFieldsOnlyAtStepFive` | src/lib/booking/steps.ts:10 | name, email, phone and address are validated at step 5 and nowhere else |
| `Steps.StepOf` | src/lib/booking/steps.ts:5-11 | the step found lists the field; None means no step lists it |
| `Steps.StepsCoverSchema` | src/lib/booking/steps.ts:5-11 | every schema field but the new-customer flag is validated at some step |
| `Steps.AllStepsIsWholeSchema` | src/lib/booking/steps.ts:5-11 | passing steps 1 to 5 is the same as the whole record being valid |
| `TierQuote.TilePricesIncrease` | src/lib/booking/useQuoteCalculator.ts:11-23 | the studio tile costs nothing and each bedroom tile costs more than the one before it |
| `TierQuote.FrequencyDiscount` | src/lib/booking/useQuoteCalculator.ts:34-38 | the frequency adjustment is never a surcharge |
| `TierQuote.Total` | src/lib/booking/useQuoteCalculator.ts:40-49 | the estimate is never negative: the base plus add-ons when positive, otherwise 0 |
| `TierQuote.UnselectedSizeIsFree` | src/lib/booking/useQuoteCalculator.ts:17-23 | an empty, unknown or studio home size contributes nothing |
| `TierQuote.FlatDiscounts` | src/lib/booking/useQuoteCalculator.ts:34-38 | weekly takes 30 off, bi-weekly 15, monthly 10, anything else nothing |
| `TierQuote.NoBathroomsNoCharge` | src/lib/booking/useQuoteCalculator.ts:28 | a missing bathroom count is charged nothing |
| `TierQuote.ExampleTwoBedroom` | src/lib/booking/useQuoteCalculator.ts:13-49 | a two-bedroom, one-bathroom, standard, one-time cleaning without add-ons is 140.25 |
| `TierQuote.DeepAddsSixty` | src/lib/booking/useQuoteCalculator.ts:31 | when the standard estimate is positive, deep costs exactly 60 more |
| `TierQuote.AddOnTotalAppend` | src/lib/booking/useQuoteCalculator.ts:43-45 | the add-on sum of two lists joined is the sum of their sums |
| `TierQuote.AddOnTotalOrderFree` | src/lib/booking/useQuoteCalculator.ts:43-45 | the add-on sum does not depend on the order of the selection |
| `TierQuote.AddingAddOnNeverLowers` | src/lib/booking/useQuoteCalculator.ts:43-49 | inserting an add-on with a non-negative price anywhere never lowers the estimate |
| `TierQuote.CatalogueTotal` | src/lib/booking/useQuoteCalculator.ts:43-45 | selecting the whole catalogue adds 170 |
| `BookingFormState.Without` | src/lib/booking/useBookingForm.ts:35 | the filter removes every occurrence of the id and keeps every other element with its count |
| `BookingFormState.Toggled` | src/lib/booking/useBookingForm.ts:33-38 | toggling flips membership of the id, leaves other ids alone, and appends an absent id at the end |
| `BookingFormState.WithoutAbsent` | src/lib/booking/useBookingForm.ts:35 | filtering out an id that is not there leaves the list unchanged |
| `BookingFormState.WithoutKeepsNoDuplicates` | src/lib/booking/useBookingForm.ts:35 | filtering keeps a duplicate-free list duplicate-free |
| `BookingFormState.ToggleKeepsNoDuplicates` | src/lib/booking/useBookingForm.ts:33-38 | toggling keeps the selection duplicate-free |
| `BookingFormState.ToggleTwiceAbsent` | src/lib/booking/useBookingForm.ts:33-38 | toggling an unselected add-on twice restores the selection exactly |
| `BookingFormState.WithoutAppend` | src/lib/booking/useBookingForm.ts:35 | filtering distributes over concatenation |
| `BookingFormState.ToggleTwicePresent` | src/lib/booking/useBookingForm.ts:33-38 | toggling a selected add-on twice restores the same set, with that add-on moved to the end |
| `BookingFormState.ToggleTwiceReorders` | src/lib/booking/useBookingForm.ts:33-38 | ["a","b"] toggled twice on "a" becomes ["b","a"] |
| `BookingFormState.BookingForm.constructor` | src/lib/booking/useBookingForm.ts:9-31 | the form starts at step 1 with no add-ons and the default values |
| `BookingFormState.BookingForm.ToggleAddOn` | src/lib/booking/useBookingForm.ts:33-38 | the selection becomes the toggled list and stays duplicate-free; step and values are unchanged |
| `BookingFormState.BookingForm.GoNext` | src/lib/booking/useBookingForm.ts:40-44 | the step advances by one exactly when every given field passes its rule; nothing else changes |
| `BookingFormState.BookingForm.GoBack` | src/lib/booking/useBookingForm.ts:46 | the step goes down by one, without a lower bound; nothing else changes |
| `BookingFormState.BookingForm.OnSubmit` | src/lib/booking/useBookingForm.ts:48-64 | the request carries the values, the add-ons and the estimate; a completed request resets the form, a thrown one changes nothing |
| `BookingFormState.DefaultsNotSubmittable` | src/lib/booking/useBookingForm.ts:17-30 | the default values fail validation, on the home size in particular, while the defaulted bathrooms, type and frequency pass |
| `BookingPage.HandleNextSkipsContactAndFrequency` | src/app/booking/page.tsx:45-51 | the next button never checks the frequency, the contact fields or the new-customer flag |
| `BookingPage.HandleNext` | src/app/booking/page.tsx:42-55 | the step advances exactly when the fields for the current step pass; nothing else changes |
| `BookingPage.NextPastStepTwoAlwaysAdvances` | src/app/booking/page.tsx:42-55 | from any step other than 1 and 2 the check always passes |
| `BookingPage.SelectedAddOns` | src/app/booking/page.tsx:38 | one lookup per selected id, in order |
| `BookingPage.KnownAddOnsMatch` | src/app/booking/page.tsx:38 | when every id is listed, the entries used for the price are the lookups, one per id |
| `BookingPage.EstimatedPrice` | src/app/booking/page.tsx:38-39 | an estimate exists exactly when every selected id is listed; it is the tier total of those entries and never negative |
| `BookingPage.EstimatedPriceOrderFree` | src/app/booking/page.tsx:38-39 | two selections holding the same ids in any order give the same estimate |
| `BookingPage.ProgressBarShape` | src/app/booking/page.tsx:62-78 | on steps 1 to 3 exactly one dot is active and exactly the earlier ones are completed |
| `BookingPage.PanelMatchesActiveDot` | src/app/booking/page.tsx:62-112 | a step panel is on screen exactly when the progress bar has an active dot, and it is that dot's panel |
| `BookingPage.BackFromFirstStepRendersNothing` | src/app/booking/page.tsx:87-112 | going back from step 1 reaches a step that renders no panel |
| `BookingPage.CancelNoticeValues` | src/app/booking/page.tsx:24-32 | the notice depends on presence, not on the value: `canceled=true` and `canceled=false` both show it, an empty value or no parameter does not |
| `BookingPage.HandleSubmit` | src/app/booking/page.tsx:83-85 | a request is sent iff the values validate and every add-on is listed; it carries the parsed booking and the estimate; a completed request resets the form |
| `Step1Quote.TilesArePriced` | src/app/booking/steps/Step1Quote.tsx:15-22 | the six tiles are distinct and are exactly the priced home sizes |
| `Step1Quote.Decremented` | src/app/booking/steps/Step1Quote.tsx:80 | minus never goes below 1 and otherwise takes one off the shown count |
| `Step1Quote.PlusThenMinus` | src/app/booking/steps/Step1Quote.tsx:80-88 | plus then minus restores any count of at least 1 |
| `Step1Quote.MinusThenPlus` | src/app/booking/steps/Step1Quote.tsx:80-88 | minus then plus restores a count of at least 2; at 1, minus stays at 1 |
| `Step1Quote.SelectHomeSize` | src/app/booking/steps/Step1Quote.tsx:44 | a tile click sets the home size to that tile's id and changes nothing else |
| `Step1Quote.DecrementBathrooms` | src/app/booking/steps/Step1Quote.tsx:80 | the minus button stores the decremented count and changes nothing else |
| `Step1Quote.IncrementBathrooms` | src/app/booking/steps/Step1Quote.tsx:88 | the plus button stores the incremented count and changes nothing else |
| `Step1Quote.SelectCleaningType` | src/app/booking/steps/Step1Quote.tsx:98-102 | a type click stores that type's name and changes nothing else |
| `Step1Quote.StepOneControlsSatisfyNext` | src/app/booking/steps/Step1Quote.tsx:40-102 | after picking a tile and a type, any sequence of counter presses leaves step 1's checks passing |
| `Step1Quote.PressedKeepsAtLeastOne` | src/app/booking/steps/Step1Quote.tsx:78-92 | any sequence of counter presses keeps at least one bathroom and leaves size and type alone |
| `Step1Quote.PressFromZero` | src/app/booking/steps/Step1Quote.tsx:28-88 | from a missing count, plus stores 2 and minus stores 1, both based on the displayed 1 |
| `DatePicker.StartOfToday` | src/components/DatePicker.tsx:45 | local midnight of today: at or before now, less than a day before, and on a local day boundary |
| `DatePicker.TodayIsSelectable` | src/components/DatePicker.tsx:44-46 | now and every later instant are selectable; the instant before local midnight is not |
| `DatePicker.YesterdayIsDisabled` | src/components/DatePicker.tsx:44-46 | any instant a day or more before now is disabled |
| `DatePicker.LabelShowsDay` | src/components/DatePicker.tsx:29 | two choices show the same trigger label exactly when both are unset or both fall on the same local calendar day, because `format(date, "PPP")` prints the day and nothing finer |
| `DatePicker.TodaySharesOneLabel` | src/components/DatePicker.tsx:29 | every instant from local midnight today up to the next midnight shows the label of now, and the instants just before and just after that day show other labels |
| `DatePicker.Picker.constructor` | src/components/DatePicker.tsx:16 | the popover starts closed |
| `DatePicker.Picker.ClickTrigger` | src/components/DatePicker.tsx:23 | clicking the trigger opens the popover |
| `DatePicker.Picker.OpenChange` | src/components/DatePicker.tsx:19 | the popover takes the state it is told |
| `DatePicker.Picker.CalendarSelect` | src/components/DatePicker.tsx:38-43 | a chosen day is forwarded and closes the popover; a cleared selection is not forwarded and leaves it as it was |
| `DatePicker.Picker.ClickDay` | src/components/DatePicker.tsx:38-46 | a day is forwarded iff it is not disabled, so a forwarded day is never before today |
| `Contact.ParseContact` | src/app/contact/page.tsx:11-22 | the data parses exactly when all five rules hold, and then carries the values over with a non-empty token |
| `Contact.PhoneRule` | src/app/contact/page.tsx:14-19 | an absent or empty phone passes, one to nine characters fail, ten or more pass |
| `Contact.EmptyIsInvalid` | src/app/contact/page.tsx:11-22 | the empty form fails validation |
| `Contact.ContactPage.constructor` | src/app/contact/page.tsx:27-28 | the page starts without the thank-you panel, with the captcha not ready and nothing typed |
| `Contact.ContactPage.TurnstileSuccess` | src/app/contact/page.tsx:48-51 | the success callback stores the token and marks the captcha ready |
| `Contact.ContactPage.TurnstileError` | src/app/contact/page.tsx:59-62 | the error callback clears the ready flag and nothing else |
| `Contact.ContactPage.TurnstileExpired` | src/app/contact/page.tsx:64-70 | the expiry callback clears the ready flag; the stale token stays |
| `Contact.ContactPage.Edit` | src/app/contact/page.tsx:120-161 | typing replaces the visible fields and keeps the token, the ready flag and the panel |
| `Contact.ContactPage.Submit` | src/app/contact/page.tsx:83-95 | data is posted iff no panel is shown, the captcha is ready and the form is valid; an ok response shows the panel, resets the form and clears the ready flag; anything else changes nothing |
| `Contact.PostedCarriesToken` | src/app/contact/page.tsx:21 | nothing is posted without a non-empty captcha token |
| `Sms.ReminderSendAt` | src/lib/sms.ts:16-23 | the reminder is skipped exactly when it would fall less than 15 minutes from now; a scheduled one is at least 15 minutes ahead |
| `Sms.BoundaryIsScheduled` | src/lib/sms.ts:20 | a reminder exactly 15 minutes ahead is scheduled; one millisecond less is skipped |
| `Sms.LaterAppointmentsStayScheduled` | src/lib/sms.ts:16-23 | if an appointment gets its reminder, every later appointment does too |
| `Sms.ScheduleAppointmentReminder` | src/lib/sms.ts:11-40 | too close: no call and no id; otherwise one scheduled text a day before the appointment, and the id iff the vendor accepted it |
| `Sms.CancelScheduledReminder` | src/lib/sms.ts:43-63 | an empty id gives undefined and no call; otherwise one cancel update, answering true on success and false on a vendor error |
| `TwilioReminders.ScheduleReminderAsWritten` | src/lib/twilio.ts:16-42 | the guard uses the computed time, but the create call always carries the fixed instant; vendor errors are rethrown |
| `TwilioReminders.FixedSendAtIsStale` | src/lib/twilio.ts:34 | with the clock at 2026-01-01 and an appointment two days later, the guard passes but the fixed instant is already past and is not the day before |
| `TwilioReminders.ScheduleReminder` | src/lib/twilio.ts:16-42 | every scheduled text is at least 15 minutes ahead and exactly a day before the appointment; vendor errors are rethrown |
| `TwilioReminders.CancelReminder` | src/lib/twilio.ts:49-68 | an empty id makes no call; otherwise exactly one fetch, followed by one cancel iff the fetched status is scheduled or queued; it never throws |
| `SmsReply.NormaliseIgnoresPaddingAndCase` | src/app/api/sms-reply/route.ts:66-84 | a word without upper-case letters, sent upper-cased between white space, cleans to the word itself and is routed as that word |
| `SmsReply.PaddedUpperCaseCancel` | src/app/api/sms-reply/route.ts:66-73 | " CANCEL" with a trailing newline is the cancel command |
| `SmsReply.OthersAreDefault` | src/app/api/sms-reply/route.ts:82-84 | a missing body or any other word gets the default reply |
| `SmsReply.ReplyIgnoresOutcome` | src/app/api/sms-reply/route.ts:69-84 | outside cancel the reply does not depend on the cancel outcome |
| `SmsReply.RepliesDistinct` | src/app/api/sms-reply/route.ts:69-84 | the five replies are pairwise different |
| `SmsReply.Earliest` | src/app/api/sms-reply/route.ts:18-27 | the row found is a confirmed booking of that phone with the earliest date, the first such in table order; none iff no row matches |
| `SmsReply.CancelThenNext` | src/app/api/sms-reply/route.ts:16-53 | with distinct ids, canceling touches only the target row, which stops matching; a second cancel finds another booking, never an earlier one |
| `SmsReply.FindAndCancelNextBooking` | src/app/api/sms-reply/route.ts:16-53 | a select error or no match answers false and changes nothing; otherwise the reminder is canceled if the row has one, then the row is updated, and the answer is whether the update succeeded |
| `SmsReply.Post` | src/app/api/sms-reply/route.ts:57-103 | exactly one reply, sent last to the sender; the table changes only for cancel; for cancel, the full call log (select, reminder cancel when the row has an id, update, reply) and the new table (the earliest match canceled iff the update succeeded); the cancel reply is the success text iff a booking was canceled; the status is 500 iff the reply failed |
| `ManualBooking.BathroomsExamples` | src/app/api/manual-booking/route.ts:36 | a present count is stored as what `parseInt` reads from it, so a rendered count is stored as that count; an absent or empty count is stored as 1 |
| `ManualBooking.RowContents` | src/app/api/manual-booking/route.ts:26-44 | the row carries the request's fields under the table's names; home size and cleaning needs fall back to "Manual Entry" and "Manual Booking" and so are never empty; every row is confirmed and not a new customer's |
| `ManualBooking.NotificationShape` | src/app/api/manual-booking/route.ts:60-127 | a text only with a phone and only first; a customer email only with an email; the admin alert always and last |
| `ManualBooking.Post` | src/app/api/manual-booking/route.ts:8-135 | an insert error answers 500 with its message and makes no other call; otherwise the notifications follow in order and the answer is success whatever they returned |
| `Webhooks.FormatCents` | src/app/api/webhooks/route.ts:36 | the amount is digits, a point, then exactly two digits, the whole part being the dollars |
| `Webhooks.AmountPaid` | src/app/api/webhooks/route.ts:36 | a missing or zero amount is "0.00"; any other is its cents rendered as dollars |
| `Webhooks.FormatCentsRoundTrip` | src/app/api/webhooks/route.ts:36 | reading the dollars and cents back gives the amount in cents |
| `Webhooks.AmountExamples` | src/app/api/webhooks/route.ts:36 | 12345 cents is "123.45", 5 cents "0.05", 100 cents "1.00" |
| `Webhooks.Post` | src/app/api/webhooks/route.ts:15-81 | a bad signature answers 400 with no email; other event types are received with no email; a completed session emails the customer (if any email) then the owner, and a failed send ends the request with 500 |
| `Webhooks.PaidEmailsShape` | src/app/api/webhooks/route.ts:38-77 | the owner alert is always sent, and last; the customer email only with an email; both show the same amount |
| `Checkout.KeyNeverCrosses` | src/app/api/create-checkout-session/route.ts:7-11 | with distinct keys, the live key is used iff the environment is production |
| `Checkout.OriginNonEmpty` | src/app/api/create-checkout-session/route.ts:30-31 | whatever the environment, the origin is never empty |
| `Checkout.UnitAmount` | src/app/api/create-checkout-session/route.ts:45 | the cents are within half a cent of the price times 100 |
| `Checkout.UnitAmountOfCents` | src/app/api/create-checkout-session/route.ts:45 | a price that is a whole number of cents converts to exactly those cents |
| `Checkout.UnitAmountMonotone` | src/app/api/create-checkout-session/route.ts:45 | a higher price never gives fewer cents |
| `Checkout.Metadata` | src/app/api/create-checkout-session/route.ts:58-61 | the metadata has exactly the keys customer_name and service_date, holding the name and the date |
| `Checkout.ReturnPages` | src/app/api/create-checkout-session/route.ts:53-61 | the cancel page's `canceled=true` makes the booking page show its notice; a session created here lists its extras as "None" |
| `Checkout.Post` | src/app/api/create-checkout-session/route.ts:22-71 | one session create with the rounded cents, quantity 1 in usd, the two return pages, the email and the metadata; its url on success, else 500 with the message or "Internal Server Error" |
| `SuccessPage.OrderNumberShape` | src/app/success/page.tsx:14 | at most eight characters, exactly eight iff the id has eight or more, each the upper-cased character at the same place from the end |
| `SuccessPage.ShortIdKeptWhole` | src/app/success/page.tsx:14 | an id shorter than eight characters is shown whole, upper-cased |
| `SuccessPage.OrderNumberExample` | src/app/success/page.tsx:14 | "cs_test_a1b2c3d4e5" gives "B2C3D4E5"; a missing or empty id gives "PENDING" |

## Left out

- Floating point: money and rates are exact rationals, so IEEE rounding such as `0.1 + 0.2` is not modelled.
- `estimated_price: parseFloat(price)` in the manual-booking route: the price is stored as the text sent.
- `parseInt` precision for numbers beyond 2^53 is not modelled.
- `Text.ToLower`: case mapping is ASCII only; other letters are kept as they are.
- `Text.ToUpper`: case mapping is ASCII only; other letters are kept as they are.
- String lengths count Dafny characters, not UTF-16 code units, so the `min(n)` rules differ for characters outside the Basic Multilingual Plane.
- The zod email regular expression is replaced by a simplified `Schema.EmailShaped`: a local part, '@', dot-separated labels and a letter-only top-level domain, with no "..".
- `z.coerce.number()` on the bathroom field: the form holds a number, and a missing count is represented as 0, which every rule and price treat like `undefined`.
- Prototype keys such as "toString" used as a home size or band are treated like any unknown key.
- Daylight saving time: `setHours(getHours() - 24)` and local midnight use a fixed 24-hour day and a fixed time-zone offset.
- Locale formatting (`toLocaleDateString`, `toLocaleTimeString`) is not modelled. Formatted dates are opaque labels. The date picker's `format(date, "PPP")` is modelled only by the local day it names; the month names and ordinals of its text are not modelled.
- Message and email templates are not modelled beyond which message goes to whom, except the payment amount and extras text.
- Turnstile script polling, its `reset` call, and React rendering, effects and async scheduling are not modelled. Each handler runs to completion.
- `alert` calls and `window.history.replaceState` on the booking page are not modelled. The cancel notice is modelled as a predicate.
- The bookings table's order among rows with equal `preferred_date` is unspecified in the database. The model picks the first in table order. NULL dates are not modelled.
- The sms-reply route's reply sender number (`To`) and a failure to parse the form data are not modelled. A missing `From` is not modelled either.
- A malformed JSON body in the manual-booking and checkout routes (the outer catch) is not modelled. Absent JSON fields of the checkout body are not modelled either.
- The webhook route's module-level client set-up is not modelled. The checkout route's load-time throw is modelled only as `Checkout.SecretKey` returning None.
- The checkout line item's product name and description text, and the payment method list, are not modelled.
- `session.url` being null is not modelled. A created session always has a url.
- `BookingFormState.BookingForm.GoBack` has no lower bound because the source has none. Step 0 renders no panel.
- Amounts of 10^23 cents (10^21 dollars) or more are not modelled. `toFixed` renders the dollar figure in exponent form from 10^21 upward.

## Findings

| source | as written | input that shows it | evidently intended | confidence | as-written member | corrected member |
|---|---|---|---|---|---|---|
| src/lib/twilio.ts:34 | the reminder is scheduled at the fixed instant 2025-11-29T15:00Z, while the computed `sendAt` is used only by the guard | clock 2026-01-01T00:00Z, appointment two days later: the guard passes, and the send time handed over is a month in the past | send the reminder at the computed `sendAt`, 24 hours before the appointment | high, not executed | `TwilioReminders.ScheduleReminderAsWritten` | `TwilioReminders.ScheduleReminder` |
