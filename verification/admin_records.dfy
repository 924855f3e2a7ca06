/**
 * The logic both admin panels share over the list of quote requests: looking
 * a quote up by id, the dashboard figures, the status filter of the quotes
 * table, and the pricing rule of the "calculate" button.
 */
module AdminRecords {
  import opened Values
  import opened Text
  import opened Records

  // ---------------------------------------------------------------------------
  // Lookup

  /** `quoteRequests.find(q => q.id === id)`, as the position of the first quote with that id. */
  function FindQuote(quotes: seq<Quote>, id: string): (r: Option<nat>)
    ensures r.Some? ==> r.value < |quotes| && quotes[r.value].id == id
    ensures r.Some? ==> forall k :: 0 <= k < r.value ==> quotes[k].id != id
    ensures r.None? ==> forall k :: 0 <= k < |quotes| ==> quotes[k].id != id
  {
    if quotes == [] then None
    else if quotes[0].id == id then Some(0)
    else
      match FindQuote(quotes[1..], id)
      case None => None
      case Some(k) => Some(k + 1)
  }

  /** The quote the open detail view refers to: the position of the first quote with the selected id, when that id is non-empty and still present. */
  function Selected(quotes: seq<Quote>, currentQuoteId: Option<string>): (r: Option<nat>)
    ensures r.Some? ==> Present(currentQuoteId) && r.value < |quotes| && quotes[r.value].id == currentQuoteId.value
    ensures r.Some? ==> forall k :: 0 <= k < r.value ==> quotes[k].id != currentQuoteId.value
    ensures r.None? && Present(currentQuoteId) ==> forall k :: 0 <= k < |quotes| ==> quotes[k].id != currentQuoteId.value
  {
    if Present(currentQuoteId) then FindQuote(quotes, currentQuoteId.value) else None
  }

  /**
   * An admin edit of the quote at position `i`: every other quote is left as
   * it was, and the edited one keeps its id, its dates and the customer's
   * request; only the admin's fields (status, amount, notes, change dates) move.
   */
  predicate OnlyChanged(before: seq<Quote>, after: seq<Quote>, i: nat)
  {
    && |after| == |before| && i < |before|
    && (forall k :: 0 <= k < |before| && k != i ==> after[k] == before[k])
    && after[i].id == before[i].id && after[i].request == before[i].request
    && after[i].date == before[i].date && after[i].submittedAt == before[i].submittedAt
  }

  // ---------------------------------------------------------------------------
  // Dashboard

  /** The number of quotes whose status is one of `statuses`. */
  function CountStatus(quotes: seq<Quote>, statuses: set<string>): (n: nat)
    ensures n <= |quotes|
  {
    if quotes == [] then 0
    else CountStatus(quotes[..|quotes| - 1], statuses) + if quotes[|quotes| - 1].status in statuses then 1 else 0
  }

  /** Counting two disjoint groups of statuses separately adds up to counting them together. */
  lemma {:induction false} CountStatusDisjoint(quotes: seq<Quote>, s: set<string>, t: set<string>)
    requires s !! t
    ensures CountStatus(quotes, s) + CountStatus(quotes, t) == CountStatus(quotes, s + t)
  {
    if quotes != [] {
      CountStatusDisjoint(quotes[..|quotes| - 1], s, t);
    }
  }

  const ProcessedStatuses: set<string> := {"quoted", "accepted"}
  const PendingStatuses: set<string> := {"pending"}

  /** `true` when a stored amount counts: `q.quotedAmount` present and not zero. */
  predicate HasAmount(q: Quote)
  {
    q.quotedAmount.Some? && q.quotedAmount.value != 0.0
  }

  /** The sum of the quoted amounts of the quotes dated `today`. */
  function TodaysValue(quotes: seq<Quote>, today: string): real
  {
    if quotes == [] then 0.0
    else
      var q := quotes[|quotes| - 1];
      TodaysValue(quotes[..|quotes| - 1], today) + if q.date == today && HasAmount(q) then q.quotedAmount.value else 0.0
  }

  /** Today's value adds up over a split of the list. */
  lemma {:induction false} TodaysValueAppend(a: seq<Quote>, b: seq<Quote>, today: string)
    ensures TodaysValue(a + b, today) == TodaysValue(a, today) + TodaysValue(b, today)
  {
    if b != [] {
      assert (a + b)[..|a + b| - 1] == a + b[..|b| - 1];
      TodaysValueAppend(a, b[..|b| - 1], today);
    } else {
      assert a + b == a;
    }
  }

  /** Replacing one quote moves it from the count of its old status to the count of its new one. */
  lemma {:induction false} CountStatusAfterUpdate(quotes: seq<Quote>, i: nat, q: Quote, statuses: set<string>)
    requires i < |quotes|
    ensures CountStatus(quotes[i := q], statuses) + (if quotes[i].status in statuses then 1 else 0)
         == CountStatus(quotes, statuses) + (if q.status in statuses then 1 else 0)
  {
    var n := |quotes| - 1;
    if i == n {
      assert quotes[i := q][..n] == quotes[..n];
    } else {
      assert quotes[i := q][..n] == quotes[..n][i := q];
      CountStatusAfterUpdate(quotes[..n], i, q, statuses);
    }
  }

  /** The dashboard figures. */
  datatype DashboardStats = DashboardStats(total: nat, processed: nat, pending: nat, todaysValue: real)

  /**
   * `loadDashboardStats`: all quotes, the quoted or accepted ones, the pending
   * ones, and the value quoted for today. No quote is both processed and
   * pending, so the two never add up to more than the total.
   */
  function Dashboard(quotes: seq<Quote>, today: string): (d: DashboardStats)
    ensures d.total == |quotes|
    ensures d.processed + d.pending <= d.total
    ensures d.processed + d.pending == CountStatus(quotes, {"quoted", "accepted", "pending"})
  {
    CountStatusDisjoint(quotes, ProcessedStatuses, PendingStatuses);
    assert ProcessedStatuses + PendingStatuses == {"quoted", "accepted", "pending"};
    DashboardStats(|quotes|, CountStatus(quotes, ProcessedStatuses), CountStatus(quotes, PendingStatuses),
                   TodaysValue(quotes, today))
  }

  /** Quoting a pending request moves it from the pending figure to the processed one; the total stays. */
  lemma QuotingPendingMovesDashboard(quotes: seq<Quote>, i: nat, q: Quote, today: string)
    requires i < |quotes| && quotes[i].status == "pending" && q.status == "quoted"
    ensures var before, after := Dashboard(quotes, today), Dashboard(quotes[i := q], today);
      && after.total == before.total
      && after.processed == before.processed + 1
      && after.pending + 1 == before.pending
  {
    CountStatusAfterUpdate(quotes, i, q, ProcessedStatuses);
    CountStatusAfterUpdate(quotes, i, q, PendingStatuses);
  }

  /** A quote amount the panels accept: a number above zero (`isNaN(x) || x <= 0` and `!x || x <= 0` both refuse the rest). */
  predicate PositiveAmount(n: Number)
  {
    n.Num? && n.value > 0.0
  }

  // ---------------------------------------------------------------------------
  // Status filter

  /** The status badge text: the stored status with its first letter in upper case. */
  function StatusLabel(status: string): string
  {
    Capitalize(status)
  }

  /** The status a table row is filtered by in the plain panel: the badge text lower-cased and trimmed. */
  function PlainRowStatus(status: string): string
  {
    Trim(ToLower(StatusLabel(status)))
  }

  /** The secure panel also turns the first space into a hyphen. */
  function SecureRowStatus(status: string): string
  {
    ReplaceFirst(Trim(ToLower(StatusLabel(status))), ' ', '-')
  }

  /** `filterQuotes`: a row stays visible when the filter is `all` or names the row's status. */
  predicate RowVisible(filter: string, rowStatus: string)
  {
    filter == "all" || rowStatus == filter
  }

  /** Which rows of the table stay visible under `filter`. */
  function VisibleRows(quotes: seq<Quote>, filter: string, secure: bool): (shown: seq<bool>)
    ensures |shown| == |quotes|
  {
    seq(|quotes|, k requires 0 <= k < |quotes| =>
      RowVisible(filter, if secure then SecureRowStatus(quotes[k].status) else PlainRowStatus(quotes[k].status)))
  }

  /** For the statuses the panels store (lower-case words), the badge reads back as the stored status in both panels. */
  lemma RowStatusOfStoredStatus(status: string)
    requires IsLowerWord(status)
    ensures PlainRowStatus(status) == status && SecureRowStatus(status) == status
  {
    CapitalizeToLower(status);
    if status != [] {
      assert !IsWhitespace(status[0]) && !IsWhitespace(status[|status| - 1]);
    }
    TrimClean(status);
    assert ' ' !in status;
  }

  /** So a row is shown exactly when the filter is `all` or equals the row's stored status. */
  lemma VisibleIffFilterMatches(quotes: seq<Quote>, filter: string, secure: bool, k: nat)
    requires k < |quotes| && IsLowerWord(quotes[k].status)
    ensures VisibleRows(quotes, filter, secure)[k] <==> filter == "all" || filter == quotes[k].status
  {
    RowStatusOfStoredStatus(quotes[k].status);
  }

  // ---------------------------------------------------------------------------
  // Pricing

  /** A service's rates: per kilogram, per cubic metre, and a base fee. */
  datatype Rate = Rate(perKg: real, perCbm: real, baseFee: real)

  /** The rate table the panels start with. */
  const DefaultRates: map<string, Rate> := map[
    "sea-freight" := Rate(2.5, 150.0, 100.0),
    "air-freight" := Rate(8.5, 300.0, 200.0),
    "road-transport" := Rate(1.2, 80.0, 50.0)]

  /** `Math.max`. */
  function Max(a: real, b: real): (m: real)
    ensures m >= a && m >= b && (m == a || m == b)
  {
    if a >= b then a else b
  }

  /**
   * The extra charges: 500 for hazardous cargo, 300 for perishable cargo, and
   * 200 when the special requirements mention "temperature" in any case.
   */
  function Surcharge(cargoType: string, specialRequirements: string): (s: real)
    ensures 0.0 <= s <= 700.0
    ensures cargoType != "hazardous" && cargoType != "perishable" ==> s == 0.0 || s == 200.0
  {
    (if cargoType == "hazardous" then 500.0 else 0.0)
    + (if cargoType == "perishable" then 300.0 else 0.0)
    + (if specialRequirements != "" && Contains(ToLower(specialRequirements), "temperature") then 200.0 else 0.0)
  }

  /**
   * The price of a shipment: the larger of the weight cost and the volume cost,
   * plus the base fee, plus the surcharges.
   */
  function Price(rate: Rate, weight: real, volume: real, cargoType: string, specialRequirements: string): (total: real)
    ensures var extra := rate.baseFee + Surcharge(cargoType, specialRequirements);
      && total >= weight * rate.perKg + extra
      && total >= volume * rate.perCbm + extra
      && (total == weight * rate.perKg + extra || total == volume * rate.perCbm + extra)
  {
    var weightCost := weight * rate.perKg;
    var volumeCost := volume * rate.perCbm;
    var baseCost := Max(weightCost, volumeCost) + rate.baseFee;
    baseCost + Surcharge(cargoType, specialRequirements)
  }

  /**
   * The surcharges exactly: 500 for hazardous cargo, 300 for perishable cargo,
   * plus 200 exactly when the lower-cased requirements contain "temperature".
   */
  lemma SurchargeParts(cargoType: string, special: string)
    ensures Surcharge(cargoType, special)
         == Surcharge("general", special)
            + (if cargoType == "hazardous" then 500.0 else if cargoType == "perishable" then 300.0 else 0.0)
    ensures Surcharge("general", special) == if Contains(ToLower(special), "temperature") then 200.0 else 0.0
  {
    if special == "" {
      assert !OccursAt(ToLower(special), "temperature", 0);
    }
  }

  /** Scaling by a non-negative factor keeps the order. */
  lemma ScaleMonotone(a: real, b: real, k: real)
    requires a <= b && k >= 0.0
    ensures a * k <= b * k
  {
    assert b * k - a * k == (b - a) * k;
  }

  /** The larger of two values does not shrink when one of them grows. */
  lemma MaxMonotone(a: real, b: real, c: real)
    requires a <= b
    ensures Max(a, c) <= Max(b, c)
  {
  }

  /** With non-negative rates, a heavier shipment never costs less. */
  lemma PriceMonotoneInWeight(rate: Rate, w1: real, w2: real, volume: real, cargoType: string, special: string)
    requires rate.perKg >= 0.0 && w1 <= w2
    ensures Price(rate, w1, volume, cargoType, special) <= Price(rate, w2, volume, cargoType, special)
  {
    var c1, c2, cv := w1 * rate.perKg, w2 * rate.perKg, volume * rate.perCbm;
    ScaleMonotone(w1, w2, rate.perKg);
    MaxMonotone(c1, c2, cv);
    assert Price(rate, w1, volume, cargoType, special) == Max(c1, cv) + rate.baseFee + Surcharge(cargoType, special);
    assert Price(rate, w2, volume, cargoType, special) == Max(c2, cv) + rate.baseFee + Surcharge(cargoType, special);
  }

  /** Requirements that mention "temperature" in lower case always carry the 200 surcharge. */
  lemma TemperatureSurcharge(cargoType: string, special: string)
    requires Contains(special, "temperature")
    ensures Surcharge(cargoType, special) >= 200.0
  {
    var word := "temperature";
    var k :| 0 <= k <= |special| - |word| && OccursAt(special, word, k);
    var low := ToLower(special);
    forall m | 0 <= m < |word|
      ensures low[k + m] == word[m]
    {
      assert special[k..k + |word|][m] == special[k + m];
    }
    assert low[k..k + |word|] == word;
    assert OccursAt(low, word, k);
  }

  /** Requirements that start with "Temperature" carry the surcharge too: the match ignores case. */
  lemma CapitalTemperatureSurcharge(cargoType: string, special: string)
    requires |special| >= 11 && special[..11] == "Temperature"
    ensures Surcharge(cargoType, special) >= 200.0
  {
    var word := "temperature";
    var low := ToLower(special);
    forall m | 0 <= m < 11
      ensures low[m] == word[m]
    {
      assert special[..11][m] == special[m];
    }
    assert low[0..11] == word;
    assert OccursAt(low, word, 0);
  }

  /**
   * The first sample request, 1500 kg and 12.5 m³ by sea with temperature
   * control: 1500 × 2.50 = 3750 beats 12.5 × 150 = 1875, plus 100 base and
   * 200 surcharge.
   */
  lemma SampleSeaFreightPrice(special: string)
    requires special == "Temperature controlled shipping required"
    ensures Price(DefaultRates["sea-freight"], 1500.0, 12.5, "general", special) == 4050.0
  {
    assert special[..11] == "Temperature";
    CapitalTemperatureSurcharge("general", special);
  }

  /** A weight read back from storage: a weight that was not a number was saved as `null`, which multiplies as 0. */
  function StoredWeight(n: Number): real
  {
    if n.Num? then n.value else 0.0
  }

  /**
   * `calculateQuote`: the amount proposed for the selected quote under `rates`.
   * Nothing is proposed without a selection, for an id no longer in the list,
   * or for a service type the table has no rates for.
   */
  function CalculateQuote(rates: map<string, Rate>, quotes: seq<Quote>, currentQuoteId: Option<string>): (amount: Option<real>)
    ensures amount.Some? <==> Selected(quotes, currentQuoteId).Some?
                              && quotes[Selected(quotes, currentQuoteId).value].request.serviceType in rates
    ensures amount.Some? ==>
      var q := quotes[Selected(quotes, currentQuoteId).value].request;
      amount.value == Price(rates[q.serviceType], StoredWeight(q.weight), q.volume, q.cargoType, q.specialRequirements)
  {
    match Selected(quotes, currentQuoteId)
    case None => None
    case Some(i) =>
      var q := quotes[i].request;
      if q.serviceType !in rates then None
      else Some(Price(rates[q.serviceType], StoredWeight(q.weight), q.volume, q.cargoType, q.specialRequirements))
  }

  /** Replacing one service's rates changes the proposal for quotes of that service only. */
  lemma CalculateQuoteUsesCurrentRates(rates: map<string, Rate>, service: string, rate: Rate, quotes: seq<Quote>,
                                       currentQuoteId: Option<string>)
    requires Selected(quotes, currentQuoteId).Some?
    ensures var q := quotes[Selected(quotes, currentQuoteId).value].request;
      && (q.serviceType == service ==>
            CalculateQuote(rates[service := rate], quotes, currentQuoteId)
            == Some(Price(rate, StoredWeight(q.weight), q.volume, q.cargoType, q.specialRequirements)))
      && (q.serviceType != service ==>
            CalculateQuote(rates[service := rate], quotes, currentQuoteId) == CalculateQuote(rates, quotes, currentQuoteId))
  {
  }
}
