/**
 * The quote request form: collecting its values, the progressive unlocking of
 * its sections, the ordered list of validation errors, and the submission that
 * stores a new pending quote request.
 */
module QuoteForm {
  import opened Values
  import opened Text
  import opened Ids
  import opened Ports
  import opened Records

  // ---------------------------------------------------------------------------
  // Collecting the form

  /**
   * What the form's controls hold when the submit handler runs. A missing
   * control reads as the empty string. Numbers are what `parseFloat`/`parseInt`
   * return for the field text (an empty field is parsed as `'0'`).
   */
  datatype RawQuoteForm = RawQuoteForm(
    checkedServiceType: Option<string>,
    name: string,
    email: string,
    phone: string,
    company: string,
    origin: string,
    destination: string,
    cargoType: string,
    incoterms: string,
    weight: Number,
    volume: Number,
    packages: Option<int>,
    length: Number,
    width: Number,
    height: Number,
    checkedServices: seq<string>,
    specialRequirements: string,
    terms: bool,
    marketing: bool)

  /** `parseFloat(...) || 0`: "not a number" (and zero) become 0. */
  function OrZero(n: Number): real
  {
    if n.Num? then n.value else 0.0
  }

  /**
   * The `formData` object: text fields trimmed (except cargo type and incoterms,
   * which are taken as they are), measurements other than weight defaulted to 0.
   */
  function CollectQuoteForm(raw: RawQuoteForm): (f: QuoteRequestData)
    ensures f.customerName == "" <==> Blank(raw.name)
    ensures f.customerEmail == "" <==> Blank(raw.email)
    ensures f.origin == "" <==> Blank(raw.origin)
    ensures f.destination == "" <==> Blank(raw.destination)
    ensures f.cargoType == raw.cargoType && f.weight == raw.weight
    ensures raw.checkedServiceType.None? ==> f.serviceType == ""
  {
    QuoteRequestData(
      serviceType := if raw.checkedServiceType.Some? then raw.checkedServiceType.value else "",
      customerName := Trim(raw.name),
      customerEmail := Trim(raw.email),
      phone := Trim(raw.phone),
      company := Trim(raw.company),
      origin := Trim(raw.origin),
      destination := Trim(raw.destination),
      cargoType := raw.cargoType,
      incoterms := raw.incoterms,
      weight := raw.weight,
      volume := OrZero(raw.volume),
      packages := if raw.packages.Some? then raw.packages.value else 0,
      length := OrZero(raw.length),
      width := OrZero(raw.width),
      height := OrZero(raw.height),
      additionalServices := raw.checkedServices,
      specialRequirements := Trim(raw.specialRequirements),
      termsAccepted := raw.terms,
      marketingConsent := raw.marketing)
  }

  // ---------------------------------------------------------------------------
  // Contact details

  datatype ContactField = NameField | EmailField

  /** The outcome of checking one contact field on blur. */
  datatype FieldCheck = FieldCheck(isValid: bool, message: string)

  /** The contact details that unlock the shipment section: a trimmed name of two or more characters and a well-formed e-mail address. */
  predicate ContactComplete(name: string, email: string)
  {
    |Trim(name)| >= 2 && MatchesEmailPattern(Trim(email))
  }

  /** `validateContactField`: the check run when the name or e-mail field loses focus. */
  function ValidateContactField(field: ContactField, value: string): (r: FieldCheck)
    ensures r.isValid <==> r.message == ""
    ensures Blank(value) ==> !r.isValid
    ensures field == NameField ==> (r.isValid <==> |Trim(value)| >= 2)
    ensures field == EmailField ==> (r.isValid <==> MatchesEmailPattern(Trim(value)))
  {
    var v := Trim(value);
    match field
    case NameField =>
      if v == [] then FieldCheck(false, "Full name is required")
      else if |v| < 2 then FieldCheck(false, "Name must be at least 2 characters")
      else FieldCheck(true, "")
    case EmailField =>
      if v == [] then FieldCheck(false, "Email address is required")
      else if !MatchesEmailPattern(v) then FieldCheck(false, "Please enter a valid email address")
      else FieldCheck(true, "")
  }

  /** The blur checks and the unlocking check agree: both fields pass on blur exactly when the contact details are complete. */
  lemma ContactCompleteIffFieldsValid(name: string, email: string)
    ensures ContactComplete(name, email)
        <==> ValidateContactField(NameField, name).isValid && ValidateContactField(EmailField, email).isValid
  {
  }

  // ---------------------------------------------------------------------------
  // Progressive unlocking

  /**
   * The enabled state of the form's sections and the shipment section's count
   * of completed fields. The service type section is always enabled; each other
   * section starts disabled and, being disabled, delivers no events.
   */
  class FormGates {
    var contactEnabled: bool
    var shipmentEnabled: bool
    var cargoEnabled: bool
    var servicesEnabled: bool
    var completedFields: int

    /** Sections unlock in order, and the counter only runs once the shipment section is open. */
    predicate Valid()
      reads this
    {
      && completedFields >= 0
      && (servicesEnabled ==> cargoEnabled)
      && (cargoEnabled ==> shipmentEnabled)
      && (shipmentEnabled ==> contactEnabled)
      && (!shipmentEnabled ==> completedFields == 0)
    }

    /** `initializeProgressiveForm`: every section but the service type disabled. */
    constructor ()
      ensures Valid()
      ensures !contactEnabled && !shipmentEnabled && !cargoEnabled && !servicesEnabled && completedFields == 0
    {
      contactEnabled := false;
      shipmentEnabled := false;
      cargoEnabled := false;
      servicesEnabled := false;
      completedFields := 0;
    }

    /** A service type is chosen: the contact section opens. */
    method OnServiceTypeChange()
      requires Valid()
      modifies this
      ensures Valid()
      ensures contactEnabled
      ensures shipmentEnabled == old(shipmentEnabled) && cargoEnabled == old(cargoEnabled)
      ensures servicesEnabled == old(servicesEnabled) && completedFields == old(completedFields)
    {
      contactEnabled := true;
    }

    /**
     * Typing in the name or e-mail field: when the typed field is not blank and
     * the contact details are complete, the shipment section opens. Opening it
     * again later does not restart its counter, because its listeners are
     * attached only once.
     */
    method OnContactInput(typed: ContactField, name: string, email: string)
      requires Valid()
      modifies this
      ensures Valid()
      ensures shipmentEnabled
          == (old(shipmentEnabled)
              || (contactEnabled && !Blank(if typed == NameField then name else email) && ContactComplete(name, email)))
      ensures contactEnabled == old(contactEnabled) && cargoEnabled == old(cargoEnabled)
      ensures servicesEnabled == old(servicesEnabled) && completedFields == old(completedFields)
    {
      var value := if typed == NameField then name else email;
      if contactEnabled && Trim(value) != [] && ContactComplete(name, email) {
        shipmentEnabled := true;
      }
    }

    /**
     * A change of origin, destination or cargo type. A non-empty value counts
     * one more completed field, even when the same field changes again; an
     * empty value counts one less, never going below zero. Three completed
     * fields open the cargo section.
     */
    method OnShipmentFieldChange(value: string)
      requires Valid()
      modifies this
      ensures Valid()
      ensures !old(shipmentEnabled) ==> completedFields == old(completedFields) && cargoEnabled == old(cargoEnabled)
      ensures old(shipmentEnabled) && value != "" ==> completedFields == old(completedFields) + 1
      ensures old(shipmentEnabled) && value == "" ==> completedFields == if old(completedFields) > 0 then old(completedFields) - 1 else 0
      ensures cargoEnabled == (old(cargoEnabled) || (old(shipmentEnabled) && value != "" && completedFields >= 3))
      ensures contactEnabled == old(contactEnabled) && shipmentEnabled == old(shipmentEnabled)
      ensures servicesEnabled == old(servicesEnabled)
    {
      if shipmentEnabled {
        if value != "" {
          completedFields := completedFields + 1;
          if completedFields >= 3 {
            cargoEnabled := true;
          }
        } else {
          completedFields := if completedFields - 1 > 0 then completedFields - 1 else 0;
        }
      }
    }

    /** The weight field loses focus: a parsed weight above zero opens the additional services section. */
    method OnWeightBlur(weight: Number)
      requires Valid()
      modifies this
      ensures Valid()
      ensures servicesEnabled == (old(servicesEnabled) || (cargoEnabled && weight.Num? && weight.value > 0.0))
      ensures contactEnabled == old(contactEnabled) && shipmentEnabled == old(shipmentEnabled)
      ensures cargoEnabled == old(cargoEnabled) && completedFields == old(completedFields)
    {
      if cargoEnabled && weight.Num? && weight.value != 0.0 && weight.value > 0.0 {
        servicesEnabled := true;
      }
    }
  }

  /**
   * Choosing the same origin three times counts three completed fields and
   * opens the cargo section, although destination and cargo type were never
   * chosen.
   */
  method RepeatedChoiceOpensCargo(name: string, email: string, origin: string) returns (gates: FormGates)
    requires !Blank(name) && ContactComplete(name, email) && origin != ""
    ensures gates.Valid() && gates.cargoEnabled && gates.completedFields == 3
  {
    gates := new FormGates();
    gates.OnServiceTypeChange();
    gates.OnContactInput(NameField, name, email);
    gates.OnShipmentFieldChange(origin);
    gates.OnShipmentFieldChange(origin);
    gates.OnShipmentFieldChange(origin);
  }

  // ---------------------------------------------------------------------------
  // Validation on submit

  /** The problems the submit handler reports, in the order it checks them. */
  datatype QuoteError =
    | ServiceTypeMissing
    | NameMissing
    | EmailMissing
    | EmailInvalid
    | OriginMissing
    | OriginIncompatible
    | DestinationMissing
    | DestinationIncompatible
    | SameRoute
    | CargoTypeMissing
    | WeightInvalid
    | TermsNotAccepted

  /** The order in which the handler runs its checks. */
  const CheckOrder: seq<QuoteError> := [
    ServiceTypeMissing, NameMissing, EmailMissing, EmailInvalid, OriginMissing, OriginIncompatible,
    DestinationMissing, DestinationIncompatible, SameRoute, CargoTypeMissing, WeightInvalid, TermsNotAccepted]

  /** The position of a check in the handler. */
  function Rank(e: QuoteError): (r: nat)
    ensures r < |CheckOrder| && CheckOrder[r] == e
  {
    match e
    case ServiceTypeMissing => 0
    case NameMissing => 1
    case EmailMissing => 2
    case EmailInvalid => 3
    case OriginMissing => 4
    case OriginIncompatible => 5
    case DestinationMissing => 6
    case DestinationIncompatible => 7
    case SameRoute => 8
    case CargoTypeMissing => 9
    case WeightInvalid => 10
    case TermsNotAccepted => 11
  }

  /** When each problem is present in the collected form. */
  predicate Detects(f: QuoteRequestData, e: QuoteError)
  {
    match e
    case ServiceTypeMissing => f.serviceType == ""
    case NameMissing => f.customerName == ""
    case EmailMissing => f.customerEmail == ""
    case EmailInvalid => f.customerEmail != "" && !MatchesEmailPattern(f.customerEmail)
    case OriginMissing => f.origin == ""
    case OriginIncompatible => f.origin != "" && !ValidatePortCompatibility(f.origin, f.serviceType).isValid
    case DestinationMissing => f.destination == ""
    case DestinationIncompatible => f.destination != "" && !ValidatePortCompatibility(f.destination, f.serviceType).isValid
    case SameRoute => f.origin != "" && f.destination != "" && f.origin == f.destination
    case CargoTypeMissing => f.cargoType == ""
    case WeightInvalid => f.weight.NaN? || f.weight.value <= 0.0
    case TermsNotAccepted => !f.termsAccepted
  }

  /** A request the handler accepts: none of its checks finds a problem. */
  predicate AcceptableQuote(f: QuoteRequestData)
  {
    forall e :: !Detects(f, e)
  }

  /** The error list is in check order, each error at most once. */
  predicate StrictlyRanked(errors: seq<QuoteError>)
  {
    forall i, j :: 0 <= i < j < |errors| ==> Rank(errors[i]) < Rank(errors[j])
  }

  /** The error list the handler builds for `f`: exactly the problems present, in check order. */
  predicate ReportsExactly(f: QuoteRequestData, errors: seq<QuoteError>)
  {
    && StrictlyRanked(errors)
    && forall e :: e in errors <==> Detects(f, e)
  }

  /**
   * What an acceptable request is, field by field: a service type and a name,
   * an address matching the e-mail pattern, an origin and a destination that
   * both suit the service and differ, a cargo type, a weight above zero, and
   * the terms accepted.
   */
  lemma AcceptableQuoteMeans(f: QuoteRequestData)
    ensures AcceptableQuote(f) <==>
      && f.serviceType != ""
      && f.customerName != ""
      && MatchesEmailPattern(f.customerEmail)
      && f.origin != "" && ValidatePortCompatibility(f.origin, f.serviceType).isValid
      && f.destination != "" && ValidatePortCompatibility(f.destination, f.serviceType).isValid
      && f.origin != f.destination
      && f.cargoType != ""
      && f.weight.Num? && f.weight.value > 0.0
      && f.termsAccepted
  {
    if AcceptableQuote(f) {
      assert !Detects(f, ServiceTypeMissing) && !Detects(f, NameMissing);
      assert !Detects(f, EmailMissing) && !Detects(f, EmailInvalid);
      assert !Detects(f, OriginMissing) && !Detects(f, OriginIncompatible);
      assert !Detects(f, DestinationMissing) && !Detects(f, DestinationIncompatible);
      assert !Detects(f, SameRoute) && !Detects(f, CargoTypeMissing);
      assert !Detects(f, WeightInvalid) && !Detects(f, TermsNotAccepted);
    } else {
      if f.customerEmail != "" && !MatchesEmailPattern(f.customerEmail) {
        assert Detects(f, EmailInvalid);
      } else if f.customerEmail == "" {
        assert Detects(f, EmailMissing);
      } else if f.origin == "" {
        assert Detects(f, OriginMissing);
      } else if f.destination == "" {
        assert Detects(f, DestinationMissing);
      } else if !ValidatePortCompatibility(f.origin, f.serviceType).isValid {
        assert Detects(f, OriginIncompatible);
      } else if !ValidatePortCompatibility(f.destination, f.serviceType).isValid {
        assert Detects(f, DestinationIncompatible);
      } else if f.origin == f.destination {
        assert Detects(f, SameRoute);
      } else if f.weight.NaN? || f.weight.value <= 0.0 {
        assert Detects(f, WeightInvalid);
      } else if f.serviceType == "" {
        assert Detects(f, ServiceTypeMissing);
      } else if f.customerName == "" {
        assert Detects(f, NameMissing);
      } else if f.cargoType == "" {
        assert Detects(f, CargoTypeMissing);
      } else {
        assert Detects(f, TermsNotAccepted);
      }
    }
  }

  /**
   * Two lists in check order with the same problems are the same list, so the
   * handler's error list, and the first message it shows, are determined by the
   * form alone.
   */
  lemma {:induction false} RankedListsUnique(a: seq<QuoteError>, b: seq<QuoteError>)
    requires StrictlyRanked(a) && StrictlyRanked(b)
    requires forall e :: e in a <==> e in b
    ensures a == b
  {
    if a != [] {
      assert a[0] in b;
    }
    if b != [] {
      assert b[0] in a;
    }
    if a != [] {
      HeadsAgree(a, b);
      TailsAgree(a, b);
      RankedListsUnique(a[1..], b[1..]);
      assert a == [a[0]] + a[1..] && b == [b[0]] + b[1..];
    }
  }

  /** Two non-empty lists in check order with the same problems start with the same problem: the first in check order. */
  lemma HeadsAgree(a: seq<QuoteError>, b: seq<QuoteError>)
    requires StrictlyRanked(a) && StrictlyRanked(b)
    requires a != [] && b != [] && a[0] in b && b[0] in a
    ensures a[0] == b[0]
  {
    var i :| 0 <= i < |b| && b[i] == a[0];
    var j :| 0 <= j < |a| && a[j] == b[0];
    assert Rank(a[0]) <= Rank(a[j]);
    assert Rank(b[0]) <= Rank(b[i]);
    assert CheckOrder[Rank(a[0])] == a[0] && CheckOrder[Rank(b[0])] == b[0];
  }

  /** With equal heads, the rests of two lists in check order with the same problems hold the same problems. */
  lemma TailsAgree(a: seq<QuoteError>, b: seq<QuoteError>)
    requires StrictlyRanked(a) && StrictlyRanked(b)
    requires forall e :: e in a <==> e in b
    requires a != [] && b != [] && a[0] == b[0]
    ensures forall e :: e in a[1..] <==> e in b[1..]
  {
    forall e
      ensures e in a[1..] ==> e in b[1..]
      ensures e in b[1..] ==> e in a[1..]
    {
      if e in a[1..] {
        var k :| 1 <= k < |a| && a[k] == e;
        assert Rank(a[0]) < Rank(a[k]);
        assert a[k] in a;
        var m :| 0 <= m < |b| && b[m] == e;
        assert b[1..][m - 1] == e;
      }
      if e in b[1..] {
        var k :| 1 <= k < |b| && b[k] == e;
        assert Rank(b[0]) < Rank(b[k]);
        assert b[k] in b;
        var m :| 0 <= m < |a| && a[m] == e;
        assert a[1..][m - 1] == e;
      }
    }
  }

  /** Sea freight never produces a port incompatibility error. */
  lemma SeaFreightHasNoPortErrors(f: QuoteRequestData)
    requires f.serviceType == "sea-freight"
    ensures !Detects(f, OriginIncompatible) && !Detects(f, DestinationIncompatible)
  {
    SeaFreightNeverRejects(f.origin);
    SeaFreightNeverRejects(f.destination);
  }

  /**
   * The error list after every check of rank below `k` has run: in check order,
   * and holding exactly the problems among those checks.
   */
  predicate CheckedUpTo(f: QuoteRequestData, errors: seq<QuoteError>, k: nat)
  {
    && StrictlyRanked(errors)
    && (forall e :: e in errors ==> Rank(e) < k)
    && (forall e :: Rank(e) < k ==> (e in errors <==> Detects(f, e)))
  }

  /**
   * One check of the handler: push `e` when the check fails. Run in check order,
   * the pushes keep the list in order and holding exactly the problems found so far.
   */
  method Report(f: QuoteRequestData, errors: seq<QuoteError>, fails: bool, e: QuoteError) returns (next: seq<QuoteError>)
    requires fails == Detects(f, e)
    requires CheckedUpTo(f, errors, Rank(e))
    ensures CheckedUpTo(f, next, Rank(e) + 1)
  {
    next := errors;
    if fails {
      next := next + [e];
    }
    forall e' | Rank(e') == Rank(e)
      ensures e' == e
    {
      assert CheckOrder[Rank(e')] == e';
    }
  }

  /** The service type, name and e-mail checks. */
  method CheckContactDetails(f: QuoteRequestData, errors: seq<QuoteError>) returns (next: seq<QuoteError>)
    requires CheckedUpTo(f, errors, Rank(ServiceTypeMissing))
    ensures CheckedUpTo(f, next, Rank(EmailInvalid) + 1)
  {
    next := Report(f, errors, f.serviceType == "", ServiceTypeMissing);
    next := Report(f, next, f.customerName == "", NameMissing);
    next := Report(f, next, f.customerEmail == "", EmailMissing);
    next := Report(f, next, f.customerEmail != "" && !MatchesEmailPattern(f.customerEmail), EmailInvalid);
  }

  /** The origin, destination and same-route checks. */
  method CheckRoute(f: QuoteRequestData, errors: seq<QuoteError>) returns (next: seq<QuoteError>)
    requires CheckedUpTo(f, errors, Rank(OriginMissing))
    ensures CheckedUpTo(f, next, Rank(SameRoute) + 1)
  {
    next := Report(f, errors, f.origin == "", OriginMissing);
    next := Report(f, next, f.origin != "" && !ValidatePortCompatibility(f.origin, f.serviceType).isValid, OriginIncompatible);
    next := Report(f, next, f.destination == "", DestinationMissing);
    next := Report(f, next, f.destination != "" && !ValidatePortCompatibility(f.destination, f.serviceType).isValid,
                   DestinationIncompatible);
    next := Report(f, next, f.origin != "" && f.destination != "" && f.origin == f.destination, SameRoute);
  }

  /** The cargo type, weight and terms checks. */
  method CheckCargoAndTerms(f: QuoteRequestData, errors: seq<QuoteError>) returns (next: seq<QuoteError>)
    requires CheckedUpTo(f, errors, Rank(CargoTypeMissing))
    ensures CheckedUpTo(f, next, Rank(TermsNotAccepted) + 1)
  {
    next := Report(f, errors, f.cargoType == "", CargoTypeMissing);
    next := Report(f, next, f.weight.NaN? || f.weight.value <= 0.0, WeightInvalid);
    next := Report(f, next, !f.termsAccepted, TermsNotAccepted);
  }

  /**
   * The validation block of the submit handler, its checks run in order. The
   * list holds exactly the problems present in the form, in check order, and
   * is empty exactly for acceptable forms.
   */
  method ValidateQuoteForm(f: QuoteRequestData) returns (errors: seq<QuoteError>)
    ensures ReportsExactly(f, errors)
    ensures errors == [] <==> AcceptableQuote(f)
  {
    errors := CheckContactDetails(f, []);
    errors := CheckRoute(f, errors);
    errors := CheckCargoAndTerms(f, errors);
    AllChecked(f, errors);
  }

  /** Once every check has run, the list reports exactly the problems of the form, and is empty exactly for acceptable forms. */
  lemma AllChecked(f: QuoteRequestData, errors: seq<QuoteError>)
    requires CheckedUpTo(f, errors, Rank(TermsNotAccepted) + 1)
    ensures ReportsExactly(f, errors)
    ensures errors == [] <==> AcceptableQuote(f)
  {
    if errors != [] {
      assert Detects(f, errors[0]);
    }
  }

  /** A list that reports exactly the problems of a form names at most one of the two e-mail, origin and destination errors. */
  lemma OneErrorPerField(f: QuoteRequestData, errors: seq<QuoteError>)
    requires ReportsExactly(f, errors)
    ensures !(EmailMissing in errors && EmailInvalid in errors)
    ensures !(OriginMissing in errors && OriginIncompatible in errors)
    ensures !(DestinationMissing in errors && DestinationIncompatible in errors)
  {
    assert EmailInvalid in errors ==> Detects(f, EmailInvalid);
    assert OriginIncompatible in errors ==> Detects(f, OriginIncompatible);
    assert DestinationIncompatible in errors ==> Detects(f, DestinationIncompatible);
  }

  /** The text pushed for each problem. */
  function ErrorMessage(f: QuoteRequestData, e: QuoteError): string
  {
    match e
    case ServiceTypeMissing => "Please select a service type"
    case NameMissing => "Full name is required"
    case EmailMissing => "Email address is required"
    case EmailInvalid => "Please enter a valid email address"
    case OriginMissing => "Please select an origin port"
    case OriginIncompatible =>
      "Selected origin port may not be suitable for " + ReplaceFirst(f.serviceType, '-', ' ') + ". "
        + ValidatePortCompatibility(f.origin, f.serviceType).message
    case DestinationMissing => "Please select a destination port"
    case DestinationIncompatible =>
      "Selected destination port may not be suitable for " + ReplaceFirst(f.serviceType, '-', ' ') + ". "
        + ValidatePortCompatibility(f.destination, f.serviceType).message
    case SameRoute => "Origin and destination cannot be the same"
    case CargoTypeMissing => "Cargo type is required"
    case WeightInvalid => "Valid weight is required"
    case TermsNotAccepted => "Please accept the terms and conditions"
  }

  // ---------------------------------------------------------------------------
  // Submission

  /**
   * The volume stored with the request: when no volume was entered and all
   * three dimensions (in centimetres) were, their product converted to cubic
   * metres; otherwise the entered volume.
   */
  function DeriveVolume(f: QuoteRequestData): (v: real)
    ensures f.volume != 0.0 ==> v == f.volume
    ensures (f.length == 0.0 || f.width == 0.0 || f.height == 0.0) ==> v == f.volume
    ensures f.volume == 0.0 && f.length != 0.0 && f.width != 0.0 && f.height != 0.0 ==> v * 1000000.0 == f.length * f.width * f.height
  {
    if f.length != 0.0 && f.width != 0.0 && f.height != 0.0 && f.volume == 0.0 then
      (f.length * f.width * f.height) / 1000000.0
    else
      f.volume
  }

  /** A 100 × 50 × 20 cm package with no volume entered is stored as 0.1 m³. */
  lemma DeriveVolumeExample(f: QuoteRequestData)
    requires f.volume == 0.0 && f.length == 100.0 && f.width == 50.0 && f.height == 20.0
    ensures DeriveVolume(f) == 0.1
  {
  }

  /** The stored record for an accepted form. */
  function NewQuote(f: QuoteRequestData, id: string, date: string, submittedAt: string): (q: Quote)
    ensures q.status == "pending" && q.id == id && q.quotedAmount.None?
    ensures q.request == f.(volume := DeriveVolume(f))
  {
    Quote(id, date, submittedAt, f.(volume := DeriveVolume(f)), "pending", None, None, None, None, None, None)
  }

  /** What the submitter sees: the first error, or the new reference and whether the confirmation e-mail went out. */
  datatype SubmitOutcome =
    | Rejected(errors: seq<QuoteError>, shown: string)
    | Submitted(quoteId: string, emailSent: bool)

  /**
   * `submitQuoteRequest`. The clock (`year`, `nowMs`, `today`, `nowIso`) and the
   * notification's outcome are inputs. A form with problems stores nothing and
   * shows the first problem. An acceptable form is stored as one new pending
   * request at the end of the list, whatever the notification did, and the
   * visitor statistics count one more quote request.
   */
  method SubmitQuoteRequest(store: LocalStore, raw: RawQuoteForm, year: nat, nowMs: nat, today: string, nowIso: string,
                            notify: NotifyResult)
    returns (outcome: SubmitOutcome)
    modifies store
    ensures var f := CollectQuoteForm(raw);
      outcome.Rejected? <==> !AcceptableQuote(f)
    ensures outcome.Rejected? ==>
      && ReportsExactly(CollectQuoteForm(raw), outcome.errors)
      && outcome.errors != []
      && outcome.shown == ErrorMessage(CollectQuoteForm(raw), outcome.errors[0])
      && unchanged(store)
    ensures outcome.Submitted? ==> outcome.quoteId == ReferenceId("QR", year, nowMs) && outcome.emailSent == EmailSent(notify)
    ensures outcome.Submitted? ==>
      store.quoteRequests == old(store.quoteRequests) + [NewQuote(CollectQuoteForm(raw), outcome.quoteId, today, nowIso)]
    ensures outcome.Submitted? ==>
      && store.visitorData == old(store.visitorData).(quoteRequests := old(store.visitorData.quoteRequests) + 1)
      && store.contactSubmissions == old(store.contactSubmissions)
  {
    var f := CollectQuoteForm(raw);
    var rejection := Screen(f);
    if rejection.Some? {
      return rejection.value;
    }
    outcome := StoreQuoteRequest(store, f, year, nowMs, today, nowIso, notify);
  }

  /** The checks and what the submitter is shown: nothing for an acceptable form, otherwise the rejection. */
  method Screen(f: QuoteRequestData) returns (rejection: Option<SubmitOutcome>)
    ensures rejection.None? <==> AcceptableQuote(f)
    ensures rejection.Some? ==>
      && rejection.value.Rejected?
      && ReportsExactly(f, rejection.value.errors)
      && rejection.value.errors != []
      && rejection.value.shown == ErrorMessage(f, rejection.value.errors[0])
  {
    var errors := ValidateQuoteForm(f);
    if |errors| > 0 {
      return Some(Rejected(errors, ErrorMessage(f, errors[0])));
    }
    return None;
  }

  /**
   * The accepted path: the request is appended to the stored list under a new
   * "QR" reference and one more quote request is counted, whatever the
   * notification did.
   */
  method StoreQuoteRequest(store: LocalStore, f: QuoteRequestData, year: nat, nowMs: nat, today: string, nowIso: string,
                           notify: NotifyResult)
    returns (outcome: SubmitOutcome)
    modifies store
    ensures outcome == Submitted(ReferenceId("QR", year, nowMs), EmailSent(notify))
    ensures store.quoteRequests == old(store.quoteRequests) + [NewQuote(f, outcome.quoteId, today, nowIso)]
    ensures store.visitorData == old(store.visitorData).(quoteRequests := old(store.visitorData.quoteRequests) + 1)
    ensures store.contactSubmissions == old(store.contactSubmissions)
  {
    var quoteId := ReferenceId("QR", year, nowMs);
    var emailSent := EmailSent(notify);
    store.quoteRequests := store.quoteRequests + [NewQuote(f, quoteId, today, nowIso)];
    var visits := store.visitorData;
    store.visitorData := visits.(quoteRequests := visits.quoteRequests + 1);
    outcome := Submitted(quoteId, emailSent);
  }
}
