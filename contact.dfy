/**
 * The contact page (`ContactPage`): five form values checked by their own
 * schema, an invisible captcha whose callbacks set and clear the ready flag,
 * the submit button's disabled rule, and the submit handler that posts the
 * parsed values and, on an ok response, shows the thank-you panel.
 */
module Contact {

  import opened Common
  import opened Schema

  /** The raw form values; None is a value the form does not hold. */
  datatype ContactValues = ContactValues(
    name: Option<string>,
    email: Option<string>,
    phone: Option<string>,
    message: Option<string>,
    turnstileToken: Option<string>)

  /** What a successful parse yields and what is posted. */
  datatype ContactData = ContactData(
    name: string,
    email: string,
    phone: Option<string>,
    message: string,
    turnstileToken: string)

  const Empty: ContactValues := ContactValues(None, None, None, None, None)

  /** `phone`: optional, and when non-empty at least ten characters. */
  predicate PhoneOk(phone: Option<string>) {
    phone.None? || phone.value == "" || |phone.value| >= 10
  }

  /** The five rules of the page's schema. */
  predicate ContactValid(v: ContactValues) {
    && v.name.Some? && |v.name.value| >= 2
    && v.email.Some? && EmailShaped(v.email.value)
    && PhoneOk(v.phone)
    && v.message.Some? && |v.message.value| >= 5
    && v.turnstileToken.Some? && |v.turnstileToken.value| >= 1
  }

  /** `schema.parse`: the typed data exactly when every rule holds. */
  function ParseContact(v: ContactValues): (r: Option<ContactData>)
    ensures r.Some? <==> ContactValid(v)
    ensures r.Some? ==>
      && Some(r.value.name) == v.name && Some(r.value.email) == v.email
      && r.value.phone == v.phone && Some(r.value.message) == v.message
      && Some(r.value.turnstileToken) == v.turnstileToken && r.value.turnstileToken != ""
  {
    if ContactValid(v) then
      Some(ContactData(v.name.value, v.email.value, v.phone, v.message.value, v.turnstileToken.value))
    else None
  }

  /** The phone rule: absent or empty passes, one to nine characters fail, ten or more pass. */
  lemma PhoneRule(p: string)
    ensures PhoneOk(None) && PhoneOk(Some(""))
    ensures 1 <= |p| < 10 ==> !PhoneOk(Some(p))
    ensures |p| >= 10 ==> PhoneOk(Some(p))
  {
  }

  /** The empty form, as after `reset()`, fails validation. */
  lemma EmptyIsInvalid()
    ensures !ContactValid(Empty)
    ensures ParseContact(Empty).None?
  {
  }

  /** `disabled={isSubmitting || !captchaReady}`. */
  predicate SubmitDisabled(isSubmitting: bool, captchaReady: bool) {
    isSubmitting || !captchaReady
  }

  /** What the POST to the contact endpoint did. */
  datatype PostOutcome = Responded(ok: bool) | Threw

  class ContactPage {
    var submitted: bool
    var captchaReady: bool
    var values: ContactValues

    /** A fresh page: no panel, captcha not ready, nothing typed. */
    constructor ()
      ensures !submitted && !captchaReady && values == Empty
    {
      submitted := false;
      captchaReady := false;
      values := Empty;
    }

    /** The captcha success callback: stores the token and marks the captcha ready. */
    method TurnstileSuccess(token: string)
      modifies this
      ensures values == old(values).(turnstileToken := Some(token))
      ensures captchaReady && submitted == old(submitted)
    {
      values := values.(turnstileToken := Some(token));
      captchaReady := true;
    }

    /** The error callback: clears the ready flag and nothing else. */
    method TurnstileError()
      modifies this
      ensures !captchaReady
      ensures values == old(values) && submitted == old(submitted)
    {
      captchaReady := false;
    }

    /** The expiry callback: clears the ready flag; the stale token stays among the values. */
    method TurnstileExpired()
      modifies this
      ensures !captchaReady
      ensures values == old(values) && submitted == old(submitted)
    {
      captchaReady := false;
    }

    /** Typing into a field. */
    method Edit(newValues: ContactValues)
      modifies this
      ensures values == newValues.(turnstileToken := old(values.turnstileToken))
      ensures captchaReady == old(captchaReady) && submitted == old(submitted)
    {
      values := newValues.(turnstileToken := values.turnstileToken);
    }

    /**
     * Pressing Send. Nothing happens once the panel is shown or while the
     * button is disabled; invalid values are not posted; an ok response
     * shows the panel, resets the values and clears the ready flag; any
     * other response, or a throw, leaves the page as it was.
     */
    method Submit(outcome: PostOutcome) returns (posted: Option<ContactData>)
      modifies this
      ensures posted.Some? <==> !old(submitted) && old(captchaReady) && ContactValid(old(values))
      ensures posted.Some? ==> posted == ParseContact(old(values))
      ensures posted.Some? && outcome == Responded(true) ==>
        submitted && values == Empty && !captchaReady
      ensures posted.None? || outcome != Responded(true) ==>
        submitted == old(submitted) && values == old(values) && captchaReady == old(captchaReady)
    {
      posted := None;
      if !submitted && !SubmitDisabled(false, captchaReady) {
        var data := ParseContact(values);
        if data.Some? {
          posted := data;
          if outcome == Responded(true) {
            submitted := true;
            values := Empty;
            captchaReady := false;
          }
        }
      }
    }
  }

  /** Nothing is posted before a captcha success has produced a non-empty token. */
  lemma PostedCarriesToken(v: ContactValues)
    requires ParseContact(v).Some?
    ensures v.turnstileToken.Some? && v.turnstileToken.value != ""
  {
  }
}
