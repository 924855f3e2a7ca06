/**
 * The contact page's submit handler: three checks in a fixed order, then a
 * notification to the office, and only when that reports success the message
 * is kept in storage for the admin panel.
 */
module ContactForm {
  import opened Values
  import opened Text
  import opened Ids
  import opened Records

  /** The three reasons a contact message is refused, in the order they are checked. */
  datatype ContactError = RequiredMissing | PrivacyNotAccepted | EmailInvalid

  /** The required fields: first and last name, e-mail, subject and message, each merely non-empty (not trimmed). */
  predicate RequiredFilled(f: ContactFormData)
  {
    f.firstName != "" && f.lastName != "" && f.email != "" && f.subject != "" && f.message != ""
  }

  /**
   * The checks of `submitContactForm`, first failure wins: a required field
   * left empty, then the privacy box, then the e-mail pattern applied to the
   * address exactly as typed.
   */
  function ValidateContact(f: ContactFormData): (r: Option<ContactError>)
    ensures r.None? <==> RequiredFilled(f) && f.privacyAccepted && MatchesEmailPattern(f.email)
    ensures r == Some(RequiredMissing) <==> !RequiredFilled(f)
    ensures r == Some(PrivacyNotAccepted) <==> RequiredFilled(f) && !f.privacyAccepted
    ensures r == Some(EmailInvalid) <==> RequiredFilled(f) && f.privacyAccepted && !MatchesEmailPattern(f.email)
  {
    if !RequiredFilled(f) then Some(RequiredMissing)
    else if !f.privacyAccepted then Some(PrivacyNotAccepted)
    else if !MatchesEmailPattern(f.email) then Some(EmailInvalid)
    else None
  }

  /** The notification shown for each refusal. */
  function ErrorMessage(e: ContactError): string
  {
    match e
    case RequiredMissing => "Please fill in all required fields"
    case PrivacyNotAccepted => "Please accept the privacy policy"
    case EmailInvalid => "Please enter a valid email address"
  }

  /**
   * How a submission ends: refused by a check, kept under a new id, not sent
   * (the notifier reported failure), or failed (the notifier threw).
   */
  datatype ContactOutcome =
    | Invalid(error: ContactError)
    | Sent(contactId: string)
    | NotSent
    | Errored

  /** The stored message: every field of the form plus the new id, the date, the time and the status "new". */
  function NewSubmission(f: ContactFormData, contactId: string, today: string, time: string): ContactSubmission
  {
    ContactSubmission(f, contactId, today, time, "new")
  }

  /**
   * `submitContactForm`. A refused form touches nothing. A valid one is
   * passed to the notifier; only when it reports success is the message
   * appended to the stored contact submissions under a "CT" id.
   */
  method SubmitContactForm(store: LocalStore, f: ContactFormData, year: nat, nowMs: nat, today: string, time: string,
                           notify: NotifyResult)
    returns (outcome: ContactOutcome)
    modifies store
    ensures outcome.Invalid? <==> ValidateContact(f).Some?
    ensures outcome.Invalid? ==> outcome.error == ValidateContact(f).value
    ensures outcome.Sent? <==> ValidateContact(f).None? && notify == Returned(true)
    ensures outcome.NotSent? <==> ValidateContact(f).None? && notify == Returned(false)
    ensures outcome.Errored? <==> ValidateContact(f).None? && notify == Threw
    ensures !outcome.Sent? ==> unchanged(store)
    ensures outcome.Sent? ==>
      && outcome.contactId == ReferenceId("CT", year, nowMs)
      && store.contactSubmissions == old(store.contactSubmissions) + [NewSubmission(f, outcome.contactId, today, time)]
      && store.quoteRequests == old(store.quoteRequests)
      && store.visitorData == old(store.visitorData)
  {
    var error := ValidateContact(f);
    if error.Some? {
      return Invalid(error.value);
    }
    match notify {
      case Threw =>
        outcome := Errored;
      case Returned(sent) =>
        if sent {
          var contactId := ReferenceId("CT", year, nowMs);
          store.contactSubmissions := store.contactSubmissions + [NewSubmission(f, contactId, today, time)];
          outcome := Sent(contactId);
        } else {
          outcome := NotSent;
        }
    }
  }

  /** An address with a blank anywhere in it, such as one typed with a trailing space, never matches the pattern. */
  lemma WhitespaceBreaksEmail(s: string, k: int)
    requires 0 <= k < |s| && IsWhitespace(s[k])
    ensures !MatchesEmailPattern(s)
  {
    if MatchesEmailPattern(s) {
      EmailShape(s);
    }
  }

  /** Since the contact form does not trim the address, a filled-in form whose address ends in a space is refused as invalid. */
  lemma TrailingSpaceRefused(f: ContactFormData)
    requires RequiredFilled(f) && f.privacyAccepted
    requires IsWhitespace(f.email[|f.email| - 1])
    ensures ValidateContact(f) == Some(EmailInvalid)
  {
    WhitespaceBreaksEmail(f.email, |f.email| - 1);
  }

  /** A filled-in form with the privacy box ticked and a well-formed address passes every check. */
  lemma ExampleContactAccepted(f: ContactFormData)
    requires RequiredFilled(f) && f.privacyAccepted && f.email == "ann@x.com"
    ensures ValidateContact(f).None?
  {
    EmailExample();
  }
}
