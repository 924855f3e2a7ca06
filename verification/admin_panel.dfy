/**
 * The plain admin panel's state: an editable rate table, the quote list held
 * in memory only (nothing here is written to storage), and the quote open in
 * the detail view.
 */
module AdminPanel {
  import opened Values
  import opened Records
  import opened AdminRecords
  import Text

  /** A quote after it was sent to the customer: quoted, with amount, notes and the moment of sending. */
  function SentQuote(q: Quote, amount: real, notes: string, nowIso: string): Quote
  {
    q.(status := "quoted", quotedAmount := Some(amount), notes := Some(notes), quotedDate := Some(nowIso))
  }

  /** A quote after it was rejected, with the moment of rejection. */
  function RejectedQuote(q: Quote, nowIso: string): Quote
  {
    q.(status := "rejected", rejectedDate := Some(nowIso))
  }

  /**
   * One of the panel's built-in sample requests. The sample lists only some of
   * a request's fields; the others are empty here.
   */
  function SampleQuote(id: string, date: string, customerName: string, customerEmail: string, company: string,
                       serviceType: string, origin: string, destination: string, cargoType: string,
                       weight: real, volume: real, packages: int, status: string, quotedAmount: Option<real>,
                       specialRequirements: string): Quote
  {
    var request := QuoteRequestData(serviceType, customerName, customerEmail, "", company, origin, destination,
                                    cargoType, "", Num(weight), volume, packages, 0.0, 0.0, 0.0, [],
                                    specialRequirements, false, false);
    Quote(id, date, "", request, status, quotedAmount, None, None, None, None, None)
  }

  /** The quote list the panel starts with: one pending, one quoted and one accepted request. */
  const BuiltInQuotes: seq<Quote> := [
    SampleQuote("QR2025001", "2025-01-18", "John Smith", "john.smith@example.com", "ABC Trading Co.",
                "sea-freight", "Mumbai, India", "New York, USA", "general", 1500.0, 12.5, 50, "pending", None,
                "Temperature controlled shipping required"),
    SampleQuote("QR2025002", "2025-01-17", "Sarah Johnson", "sarah.j@techcorp.com", "TechCorp Inc.",
                "air-freight", "Shanghai, China", "London, UK", "electronics", 250.0, 2.8, 10, "quoted", Some(2850.0),
                "Fragile electronics, requires careful handling"),
    SampleQuote("QR2025003", "2025-01-16", "Mike Wilson", "mike@autoparts.com", "AutoParts Ltd.",
                "road-transport", "Delhi, India", "Mumbai, India", "automotive", 800.0, 6.2, 25, "accepted", Some(1200.0),
                "Heavy machinery parts")
  ]

  /** On the built-in list the dashboard shows three requests, two processed and one pending. */
  lemma BuiltInDashboard(today: string)
    ensures Dashboard(BuiltInQuotes, today).total == 3
    ensures Dashboard(BuiltInQuotes, today).processed == 2
    ensures Dashboard(BuiltInQuotes, today).pending == 1
  {
    var q := BuiltInQuotes;
    assert q[..2][..1] == q[..1] && q[..1][..0] == [];
    assert CountStatus(q[..1], ProcessedStatuses) == 0 && CountStatus(q[..1], PendingStatuses) == 1;
    assert CountStatus(q[..2], ProcessedStatuses) == 1 && CountStatus(q[..2], PendingStatuses) == 1;
  }

  class Panel {
    var rates: map<string, Rate>
    var quoteRequests: seq<Quote>
    var currentQuoteId: Option<string>

    /** The page load: the built-in rates, the built-in quote list, nothing open. */
    constructor ()
      ensures rates == DefaultRates && quoteRequests == BuiltInQuotes && currentQuoteId == None
    {
      rates := DefaultRates;
      quoteRequests := BuiltInQuotes;
      currentQuoteId := None;
    }

    /**
     * `updateRates`: when all three entries read as numbers, the chosen
     * service's rates are replaced (or added); otherwise nothing changes.
     */
    method UpdateRates(serviceType: string, perKg: Number, perCbm: Number, baseFee: Number) returns (updated: bool)
      modifies this
      ensures updated <==> perKg.Num? && perCbm.Num? && baseFee.Num?
      ensures updated ==> rates == old(rates)[serviceType := Rate(perKg.value, perCbm.value, baseFee.value)]
      ensures !updated ==> rates == old(rates)
      ensures quoteRequests == old(quoteRequests) && currentQuoteId == old(currentQuoteId)
    {
      if perKg.NaN? || perCbm.NaN? || baseFee.NaN? {
        return false;
      }
      rates := rates[serviceType := Rate(perKg.value, perCbm.value, baseFee.value)];
      updated := true;
    }

    /** `viewQuote`: the quote becomes the selection when it is in the list; otherwise the selection stays. */
    method ViewQuote(quoteId: string) returns (found: bool)
      modifies this
      ensures found <==> FindQuote(quoteRequests, quoteId).Some?
      ensures currentQuoteId == if found then Some(quoteId) else old(currentQuoteId)
      ensures rates == old(rates) && quoteRequests == old(quoteRequests)
    {
      found := FindQuote(quoteRequests, quoteId).Some?;
      if found {
        currentQuoteId := Some(quoteId);
      }
    }

    /** `closeQuoteModal`: nothing is selected any more. */
    method CloseQuoteModal()
      modifies this
      ensures currentQuoteId == None
      ensures rates == old(rates) && quoteRequests == old(quoteRequests)
    {
      currentQuoteId := None;
    }

    /**
     * `sendQuote`: with a selected quote still in the list and an amount above
     * zero, the quote is sent (quoted, amount, notes, time) and the detail
     * view closes; otherwise nothing changes.
     */
    method SendQuote(amount: Number, notes: string, nowIso: string) returns (sent: bool)
      modifies this
      ensures sent <==> Selected(old(quoteRequests), old(currentQuoteId)).Some? && PositiveAmount(amount)
      ensures rates == old(rates)
      ensures !sent ==> quoteRequests == old(quoteRequests) && currentQuoteId == old(currentQuoteId)
      ensures sent ==>
                var i := Selected(old(quoteRequests), old(currentQuoteId)).value;
                && quoteRequests == old(quoteRequests)[i := SentQuote(old(quoteRequests)[i], amount.value, notes, nowIso)]
                && OnlyChanged(old(quoteRequests), quoteRequests, i)
                && currentQuoteId == None
    {
      if !Present(currentQuoteId) || !PositiveAmount(amount) {
        return false;
      }
      var selected := Selected(quoteRequests, currentQuoteId);
      if selected.None? {
        return false;
      }
      var i := selected.value;
      quoteRequests := quoteRequests[i := SentQuote(quoteRequests[i], amount.value, notes, nowIso)];
      currentQuoteId := None;
      sent := true;
    }

    /**
     * `rejectQuote`: a selected quote still in the list is rejected and the
     * detail view closes; otherwise nothing changes.
     */
    method RejectQuote(nowIso: string) returns (rejected: bool)
      modifies this
      ensures rejected <==> Selected(old(quoteRequests), old(currentQuoteId)).Some?
      ensures rates == old(rates)
      ensures !rejected ==> quoteRequests == old(quoteRequests) && currentQuoteId == old(currentQuoteId)
      ensures rejected ==>
                var i := Selected(old(quoteRequests), old(currentQuoteId)).value;
                && quoteRequests == old(quoteRequests)[i := RejectedQuote(old(quoteRequests)[i], nowIso)]
                && OnlyChanged(old(quoteRequests), quoteRequests, i)
                && currentQuoteId == None
    {
      var selected := Selected(quoteRequests, currentQuoteId);
      if selected.None? {
        return false;
      }
      var i := selected.value;
      quoteRequests := quoteRequests[i := RejectedQuote(quoteRequests[i], nowIso)];
      currentQuoteId := None;
      rejected := true;
    }

    /**
     * `calculateQuote` of the plain panel: the price under the panel's current
     * rate table, so edited rates take effect at once.
     */
    function CalculateQuote(): (amount: Option<real>)
      reads this
      ensures amount.Some? <==>
        && Selected(quoteRequests, currentQuoteId).Some?
        && quoteRequests[Selected(quoteRequests, currentQuoteId).value].request.serviceType in rates
      ensures amount.Some? ==>
        var q := quoteRequests[Selected(quoteRequests, currentQuoteId).value].request;
        amount.value == Price(rates[q.serviceType], StoredWeight(q.weight), q.volume, q.cargoType, q.specialRequirements)
    {
      AdminRecords.CalculateQuote(rates, quoteRequests, currentQuoteId)
    }
  }

  /** Rejecting a pending quote takes it off the pending figure without adding it to the processed one. */
  lemma RejectingPendingShrinksPending(quotes: seq<Quote>, i: nat, nowIso: string, day: string)
    requires i < |quotes| && quotes[i].status == "pending"
    ensures var before, after := Dashboard(quotes, day), Dashboard(quotes[i := RejectedQuote(quotes[i], nowIso)], day);
      && after.total == before.total
      && after.processed == before.processed
      && after.pending + 1 == before.pending
  {
    var q := RejectedQuote(quotes[i], nowIso);
    CountStatusAfterUpdate(quotes, i, q, ProcessedStatuses);
    CountStatusAfterUpdate(quotes, i, q, PendingStatuses);
  }

  /** Sending a quote makes its row show under the "quoted" filter. */
  lemma SentQuoteShowsAsQuoted(quotes: seq<Quote>, i: nat, amount: real, notes: string, nowIso: string)
    requires i < |quotes|
    ensures var after := quotes[i := SentQuote(quotes[i], amount, notes, nowIso)];
      VisibleRows(after, "quoted", false)[i] && !VisibleRows(after, "pending", false)[i]
  {
    var after := quotes[i := SentQuote(quotes[i], amount, notes, nowIso)];
    assert Text.IsLowerWord(after[i].status);
    VisibleIffFilterMatches(after, "quoted", false, i);
    VisibleIffFilterMatches(after, "pending", false, i);
  }
}
