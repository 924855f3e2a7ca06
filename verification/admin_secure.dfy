/**
 * The secure admin panel's state: its copy of the stored quote requests, its
 * copy of the visitor statistics, and the quote open in the detail view.
 * Every change to a quote is written back to storage at once.
 */
module AdminSecure {
  import opened Values
  import opened Records
  import opened AdminRecords

  /** `parseFloat(amount) || null`: "not a number" and zero are stored as `null`, any other number as it is. */
  function AmountOrNull(n: Number): (r: Option<real>)
    ensures r.Some? <==> n.Num? && n.value != 0.0
    ensures r.Some? ==> r.value == n.value
  {
    if n.Num? && n.value != 0.0 then Some(n.value) else None
  }

  /** A quote after the status form is saved: status, amount, notes and the day of the change. */
  function WithStatus(q: Quote, newStatus: string, amount: Number, adminNotes: string, today: string): Quote
  {
    q.(status := newStatus, quotedAmount := AmountOrNull(amount), adminNotes := Some(adminNotes), lastUpdated := Some(today))
  }

  /** A quote after "mark as quoted" with a positive amount. */
  function MarkedQuoted(q: Quote, amount: real, today: string): Quote
  {
    q.(status := "quoted", quotedAmount := Some(amount), lastUpdated := Some(today))
  }

  class SecurePanel {
    const store: LocalStore
    var quoteRequests: seq<Quote>
    var visitorData: VisitorData
    var currentQuoteId: Option<string>

    /**
     * The page load. The script's built-in sample list is only a fallback of
     * the initial assignment: the load handler's first dashboard refresh
     * replaces the list with what is stored (nothing stored reads as no
     * quotes), so the panel always starts from storage. The visitor
     * statistics are as stored; nothing is open.
     */
    constructor (store: LocalStore)
      ensures this.store == store
      ensures quoteRequests == store.quoteRequests
      ensures visitorData == store.visitorData && currentQuoteId == None
    {
      this.store := store;
      quoteRequests := store.quoteRequests;
      visitorData := store.visitorData;
      currentQuoteId := None;
    }

    /**
     * `viewQuote`: the list is reloaded from storage first; a quote that is
     * not there leaves the selection as it was.
     */
    method ViewQuote(quoteId: string) returns (found: bool)
      modifies this
      ensures quoteRequests == store.quoteRequests
      ensures found <==> FindQuote(store.quoteRequests, quoteId).Some?
      ensures currentQuoteId == if found then Some(quoteId) else old(currentQuoteId)
      ensures visitorData == old(visitorData)
    {
      quoteRequests := store.quoteRequests;
      found := FindQuote(quoteRequests, quoteId).Some?;
      if found {
        currentQuoteId := Some(quoteId);
      }
    }

    /** `closeQuoteModal`: nothing is selected any more. */
    method CloseQuoteModal()
      modifies this
      ensures currentQuoteId == None
      ensures quoteRequests == old(quoteRequests) && visitorData == old(visitorData)
    {
      currentQuoteId := None;
    }

    /**
     * `updateQuoteStatus`: without a selected quote that is still in the list
     * nothing happens. Otherwise that quote (the first with the id) takes the
     * new status, the amount or `null`, the notes and today's date, and the
     * whole list is saved.
     */
    method UpdateQuoteStatus(newStatus: string, amount: Number, adminNotes: string, today: string)
      modifies this, store
      ensures currentQuoteId == old(currentQuoteId) && visitorData == old(visitorData)
      ensures store.contactSubmissions == old(store.contactSubmissions) && store.visitorData == old(store.visitorData)
      ensures Selected(old(quoteRequests), currentQuoteId).None? ==>
                quoteRequests == old(quoteRequests) && store.quoteRequests == old(store.quoteRequests)
      ensures Selected(old(quoteRequests), currentQuoteId).Some? ==>
                var i := Selected(old(quoteRequests), currentQuoteId).value;
                && quoteRequests == old(quoteRequests)[i := WithStatus(old(quoteRequests)[i], newStatus, amount, adminNotes, today)]
                && OnlyChanged(old(quoteRequests), quoteRequests, i)
                && store.quoteRequests == quoteRequests
    {
      var selected := Selected(quoteRequests, currentQuoteId);
      if selected.None? {
        return;
      }
      var i := selected.value;
      quoteRequests := quoteRequests[i := WithStatus(quoteRequests[i], newStatus, amount, adminNotes, today)];
      store.quoteRequests := quoteRequests;
    }

    /**
     * `quickUpdateToQuoted`: with a selected quote and an amount above zero,
     * the quote becomes "quoted" with that amount and today's date, and the
     * list is saved; otherwise nothing changes.
     */
    method QuickUpdateToQuoted(amount: Number, today: string) returns (updated: bool)
      modifies this, store
      ensures updated <==> Selected(old(quoteRequests), currentQuoteId).Some? && PositiveAmount(amount)
      ensures currentQuoteId == old(currentQuoteId) && visitorData == old(visitorData)
      ensures store.contactSubmissions == old(store.contactSubmissions) && store.visitorData == old(store.visitorData)
      ensures !updated ==> quoteRequests == old(quoteRequests) && store.quoteRequests == old(store.quoteRequests)
      ensures updated ==>
                var i := Selected(old(quoteRequests), currentQuoteId).value;
                && quoteRequests == old(quoteRequests)[i := MarkedQuoted(old(quoteRequests)[i], amount.value, today)]
                && OnlyChanged(old(quoteRequests), quoteRequests, i)
                && store.quoteRequests == quoteRequests
    {
      var selected := Selected(quoteRequests, currentQuoteId);
      if selected.None? || !PositiveAmount(amount) {
        return false;
      }
      var i := selected.value;
      quoteRequests := quoteRequests[i := MarkedQuoted(quoteRequests[i], amount.value, today)];
      store.quoteRequests := quoteRequests;
      updated := true;
    }

    /**
     * `calculateQuote` of the secure panel: the rate table is fixed inside the
     * function, so only the three built-in services get a price.
     */
    function CalculateQuote(): (amount: Option<real>)
      reads this
      ensures amount.Some? <==>
        && Selected(quoteRequests, currentQuoteId).Some?
        && quoteRequests[Selected(quoteRequests, currentQuoteId).value].request.serviceType
           in {"sea-freight", "air-freight", "road-transport"}
      ensures amount.Some? ==>
        var q := quoteRequests[Selected(quoteRequests, currentQuoteId).value].request;
        amount.value == Price(DefaultRates[q.serviceType], StoredWeight(q.weight), q.volume, q.cargoType, q.specialRequirements)
    {
      AdminRecords.CalculateQuote(DefaultRates, quoteRequests, currentQuoteId)
    }

    /**
     * `trackVisitor`: today's count and the total go up by one in the panel's
     * own copy of the statistics, and that copy overwrites the stored one.
     */
    method TrackVisitor(today: string)
      modifies this, store
      ensures visitorData == old(visitorData).(dailyVisits := CountVisit(old(visitorData).dailyVisits, today),
                                               totalVisits := old(visitorData).totalVisits + 1)
      ensures store.visitorData == visitorData
      ensures store.quoteRequests == old(store.quoteRequests) && store.contactSubmissions == old(store.contactSubmissions)
      ensures quoteRequests == old(quoteRequests) && currentQuoteId == old(currentQuoteId)
    {
      visitorData := visitorData.(dailyVisits := CountVisit(visitorData.dailyVisits, today),
                                  totalVisits := visitorData.totalVisits + 1);
      store.visitorData := visitorData;
    }
  }

  /** Marking a pending quote as quoted moves it from the pending figure to the processed one. */
  lemma QuickUpdateMovesDashboard(quotes: seq<Quote>, i: nat, amount: real, today: string, day: string)
    requires i < |quotes| && quotes[i].status == "pending"
    ensures var before, after := Dashboard(quotes, day), Dashboard(quotes[i := MarkedQuoted(quotes[i], amount, today)], day);
      after.processed == before.processed + 1 && after.pending + 1 == before.pending
  {
    QuotingPendingMovesDashboard(quotes, i, MarkedQuoted(quotes[i], amount, today), day);
  }

  /** Saving the status form with a zero or unreadable amount erases a stored amount instead of keeping it. */
  lemma StatusFormClearsAmount(q: Quote, newStatus: string, amount: Number, adminNotes: string, today: string)
    requires amount.NaN? || amount.value == 0.0
    ensures WithStatus(q, newStatus, amount, adminNotes, today).quotedAmount == None
    ensures !HasAmount(WithStatus(q, newStatus, amount, adminNotes, today))
  {
  }
}
