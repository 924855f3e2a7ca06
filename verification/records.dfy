/**
 * The records the site keeps in the browser's key-value storage: quote
 * requests, contact messages and visitor statistics, and the storage itself.
 */
module Records {
  import opened Values

  /**
   * A quote request as the submit handler collects it from the form (`formData`).
   * Text fields are already trimmed where the handler trims them; `weight` may be
   * "not a number", the other measurements fall back to 0.
   */
  datatype QuoteRequestData = QuoteRequestData(
    serviceType: string,
    customerName: string,
    customerEmail: string,
    phone: string,
    company: string,
    origin: string,
    destination: string,
    cargoType: string,
    incoterms: string,
    weight: Number,
    volume: real,
    packages: int,
    length: real,
    width: real,
    height: real,
    additionalServices: seq<string>,
    specialRequirements: string,
    termsAccepted: bool,
    marketingConsent: bool)

  /**
   * A stored quote request: the submitted data, the identity and timestamps the
   * submit handler adds, and the fields the admin panel sets later (absent
   * until then).
   */
  datatype Quote = Quote(
    id: string,
    date: string,
    submittedAt: string,
    request: QuoteRequestData,
    status: string,
    quotedAmount: Option<real>,
    adminNotes: Option<string>,
    lastUpdated: Option<string>,
    notes: Option<string>,
    quotedDate: Option<string>,
    rejectedDate: Option<string>)

  /** The contact form's fields. */
  datatype ContactFormData = ContactFormData(
    firstName: string,
    lastName: string,
    email: string,
    phone: string,
    company: string,
    service: string,
    subject: string,
    message: string,
    privacyAccepted: bool,
    newsletterSubscription: bool)

  /** A stored contact message: every form field plus id, date, time and status. */
  datatype ContactSubmission = ContactSubmission(
    form: ContactFormData,
    id: string,
    date: string,
    time: string,
    status: string)

  /** One page view in the visitor log. */
  datatype SessionEntry = SessionEntry(page: string, timestamp: string, userAgent: string)

  /** The visitor statistics object (`visitorData`). */
  datatype VisitorData = VisitorData(
    totalVisits: nat,
    dailyVisits: map<string, nat>,
    sessionData: seq<SessionEntry>,
    quoteRequests: nat)

  /**
   * One more visit on `day`: an absent (or zero) count starts from zero, every
   * other day's count is kept.
   */
  function CountVisit(daily: map<string, nat>, day: string): (r: map<string, nat>)
    ensures r.Keys == daily.Keys + {day}
    ensures r[day] == (if day in daily then daily[day] else 0) + 1
    ensures forall d :: d in daily && d != day ==> r[d] == daily[d]
  {
    var before := if day in daily then daily[day] else 0;
    daily[day := before + 1]
  }

  /** The object the scripts start from when nothing is stored yet. */
  const NoVisitorData := VisitorData(0, map[], [], 0)

  /** The browser storage keys the core reads and writes, as parsed values. */
  class LocalStore {
    var quoteRequests: seq<Quote>
    var contactSubmissions: seq<ContactSubmission>
    var visitorData: VisitorData

    /** An empty storage: every key absent. */
    constructor ()
      ensures quoteRequests == [] && contactSubmissions == [] && visitorData == NoVisitorData
    {
      quoteRequests := [];
      contactSubmissions := [];
      visitorData := NoVisitorData;
    }
  }
}
