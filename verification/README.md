# Freight quote site: a verified model of its core

This project is a Dafny model of the logic behind a freight-forwarding website.

- **Quote form.** A customer requests a quote through a form whose sections unlock one after another: service type, contact details, shipment route, cargo, and additional services. On submit, the handler:
  - collects the form;
  - checks it in a fixed order;
  - derives the volume;
  - gives the request a `QR` reference;
  - appends it to the stored list of quote requests.
- **Contact form.** It runs three checks in order. It keeps a message under a `CT` reference only when the office notification reports success.
- **Page views.** Every page view raises the visitor counters and appends to a log that keeps the newest 1000 entries.
- **Admin server.** It keeps a map of live admin sessions behind login, verify and logout. It refuses to start without its credentials.
- **Admin panels.** There are two:
  - A secure panel that decides access with the server. It edits the stored quotes, writing each change straight back to storage.
  - A plain panel with an editable rate table. It edits an in-memory quote list.
  - Both show dashboard counts, filter the quotes table by status, and propose a price.

The clock, random tokens, the notification outcome and the browser's storage are inputs or state of the model. The storage is the `Records.LocalStore` class, whose fields stand for the storage keys.

**Layout**
- `values.dfy`: option, number and notification-outcome values.
- `text.dfy`: the JavaScript string operations and the e-mail regular expression.
- `ids.dfy`: reference numbers.
- `records.dfy`: the stored records and the storage.
- `ports.dfy`: the port check.
- `quote_form.dfy`: the quote form.
- `session_server.dfy`: the admin server.
- `admin_auth.dfy`: the secure panel's access decision.
- `admin_records.dfy`: lookup, dashboard, filter and pricing, shared by both panels.
- `admin_secure.dfy` and `admin_panel.dfy`: the two panels.
- `contact_form.dfy`: the contact form.
- `site.dfy`: the visit tracker and the generic required-field check.

**Two properties of the port check**

- Port classification is case-sensitive. The code compares against three fixed spellings of "airport" and three of "port", so `AirPort` is seaport-like only.
- The sea-freight branch that rejects airport-like names is dead code. Every airport keyword contains a seaport keyword, so that rejection can never happen (`Ports.SeaFreightNeverRejects`).

## Model

| member | source | states |
|---|---|---|
| Ports.ValidatePortCompatibility | scripts/quote.js:675-705 | The verdict is invalid exactly when it carries a message. Only air and sea freight can reject. For air freight a name is accepted exactly when it is not seaport-like or is also airport-like. |
| Ports.AirportKeywordHoldsSeaportKeyword | scripts/quote.js:676-677 | `AIRPORT` contains `PORT`; `Airport` and `airport` contain `port`. |
| Ports.AirportImpliesSeaport | scripts/quote.js:679-680 | Every airport-like name is also seaport-like. |
| Ports.SeaFreightNeverRejects | scripts/quote.js:691-698 | Sea freight accepts every name with an empty message: its rejection branch is dead. |
| Ports.OnlyAirFreightRejects | scripts/quote.js:682-704 | Every service other than air freight accepts every name, including unknown and empty service types. |
| Ports.MixedCaseAirportRejectedForAir | scripts/quote.js:676-690 | Matching is case-sensitive: air freight rejects `AirPort`. |
| Ports.FilterPortOptions | scripts/quote.js:725-741 | An option survives exactly when it is the empty placeholder or passes the port check for the service. Nothing is added. |
| Ports.FilterPortOptionsAppend | scripts/quote.js:728-734 | Filtering distributes over concatenation, so the original order is kept. |
| Ports.FilterPortOptionsKeepsAllButAir | scripts/quote.js:729-733 | For any service but air freight the drop-down is returned unchanged. |
| QuoteForm.CollectQuoteForm | scripts/quote.js:282-316 | Name, e-mail, origin and destination are empty exactly when typed blank (they are trimmed). Cargo type and weight are taken as entered. With no service chosen the service type is empty. |
| QuoteForm.ValidateContactField | scripts/quote.js:139-176 | A field is valid exactly when no message is shown, and a blank field is never valid. A name is valid iff it trims to 2 or more characters; an e-mail iff its trimmed text matches the pattern. |
| QuoteForm.ContactCompleteIffFieldsValid | scripts/quote.js:198-205 | The unlocking check passes exactly when both blur checks pass. |
| QuoteForm.FormGates.constructor | scripts/quote.js:35-37 | Every section but the service type starts disabled, with a zero counter. The unlock-order invariant holds. |
| QuoteForm.FormGates.OnServiceTypeChange | scripts/quote.js:42-54 | Choosing a service opens the contact section and changes nothing else. |
| QuoteForm.FormGates.OnContactInput | scripts/quote.js:80-84 | The shipment section opens (and stays open) exactly when the contact section is open, the typed field is not blank and the contact details are complete. The counter is not reset. |
| QuoteForm.FormGates.OnShipmentFieldChange | scripts/quote.js:218-246 | While the shipment section is open, a non-empty value adds one (even for a repeated field) and an empty value subtracts one, floored at 0. The cargo section opens once the count reaches 3 on a non-empty change. No section closes. |
| QuoteForm.FormGates.OnWeightBlur | scripts/quote.js:248-266 | With the cargo section open, a weight above zero opens the additional services. No section closes. |
| QuoteForm.RepeatedChoiceOpensCargo | scripts/quote.js:220-231 | Choosing the same origin three times opens the cargo section with a count of 3. |
| QuoteForm.AcceptableQuoteMeans | scripts/quote.js:323-425 | The form passes every check exactly when all of these hold: a service type and a name; an e-mail that matches the pattern; origin and destination present, suited to the service and different; a cargo type; a weight above 0; terms accepted. |
| QuoteForm.RankedListsUnique | scripts/quote.js:319-431 | Two error lists in check order with the same problems are equal, so the list and its first message depend on the form alone. |
| QuoteForm.SeaFreightHasNoPortErrors | scripts/quote.js:368-392 | A sea-freight request never gets an origin or destination incompatibility error. |
| QuoteForm.Report | scripts/quote.js:319-425 | Pushing one check's error when it fails keeps the list in check order, holding exactly the problems found so far. |
| QuoteForm.CheckContactDetails | scripts/quote.js:322-359 | After the service, name and e-mail checks the list holds exactly those checks' problems, in order. |
| QuoteForm.CheckRoute | scripts/quote.js:361-401 | After the origin, destination and same-route checks the list holds exactly the problems found so far, in order. |
| QuoteForm.CheckCargoAndTerms | scripts/quote.js:403-425 | After the cargo, weight and terms checks the list holds exactly every problem of the form, in order. |
| QuoteForm.ValidateQuoteForm | scripts/quote.js:318-425 | The error list holds exactly the problems present, each once, in check order. It is empty exactly for acceptable forms. |
| QuoteForm.OneErrorPerField | scripts/quote.js:346-392 | E-mail, origin and destination each get at most one of their two errors. |
| QuoteForm.DeriveVolume | scripts/quote.js:461-464 | An entered volume is kept, and so is the volume when any dimension is 0. Otherwise the volume is length·width·height / 1,000,000. |
| QuoteForm.DeriveVolumeExample | scripts/quote.js:462-463 | 100 × 50 × 20 cm with no volume entered gives 0.1 m³. |
| QuoteForm.NewQuote | scripts/quote.js:467-471 | The stored record is pending, carries its reference and no amount, and holds the form with the derived volume. |
| QuoteForm.Screen | scripts/quote.js:427-449 | Nothing is shown exactly for acceptable forms. Otherwise the rejection carries the exact error list and shows its first message. |
| QuoteForm.StoreQuoteRequest | scripts/quote.js:466-506 | The new pending record is appended after all earlier ones under a `QR` reference, whatever the notification did. The quote-request count rises by one and contact messages are untouched. |
| QuoteForm.SubmitQuoteRequest | scripts/quote.js:268-541 | It rejects exactly the forms with a problem: storage is then untouched and the first error is shown. Otherwise exactly one pending record is appended and one more quote request is counted. The confirmation flag is true only when the notifier returned true. |
| Ids.ReferenceId | scripts/quote.js:467 | A reference is the prefix followed by digits, at most six more than the year's. |
| Ids.DecimalRoundTrip | scripts/quote.js:467 | The decimal text of a number reads back as that number. |
| Ids.ReferenceIdShape | scripts/quote.js:467 | For a four-digit year and a clock of six or more digits, a reference is the prefix plus 10 digits: the year, then the clock modulo 1,000,000. |
| SessionServer.LoadConfig | server.js:15-23 | The server starts exactly when the user name, password and secret are all set and non-empty, and it keeps them as given. |
| SessionServer.SessionService.constructor | server.js:25-26 | The session map starts empty. |
| SessionServer.SessionService.Login | server.js:51-85 | A missing or empty credential gives 400 and a mismatch gives 401, both leaving the map unchanged. An exact match files exactly one session under the fresh token, created now, and answers 7200 seconds. Every session stays filed under its own token. |
| SessionServer.SessionService.VerifySession | server.js:34-48 | A token is accepted exactly when it is known and at most 7,200,000 ms old (inclusive). A refused known token is deleted. No other session changes. |
| SessionServer.SessionService.Verify | server.js:88-100 | Without a token it answers 400 and does not touch the map. Otherwise it answers with the verdict of the session check. |
| SessionServer.SessionService.Logout | server.js:103-107 | The token's session is removed whether or not it exists. No other session changes. |
| SessionServer.LoginThenVerify | server.js:34-85 | A login followed within two hours by a check of its token is accepted. |
| SessionServer.LogoutThenVerify | server.js:103-106 | After logout the token is refused, at any time. |
| AdminAuth.CheckAuthentication | scripts/admin-secure.js:28-75 | The server is asked exactly when there is a token and a login time at most two hours old. A missing token or login time, or a login over two hours old, is refused and logged out. When the server answers, access is granted exactly when it says `ok` and `valid`, and logged out exactly otherwise. On a network error there is no logout, and access is granted exactly when the login is under an hour old. A logout never grants. |
| AdminAuth.LocalExpiryIgnoresServer | scripts/admin-secure.js:36-45 | Past two hours the decision is the same whatever the server would say, and the server is not asked. |
| AdminAuth.UnparseableNeverOffline | scripts/admin-secure.js:38-74 | A login time that does not parse passes the local check and asks the server, but is never granted offline. |
| AdminAuth.AsReply | scripts/admin-secure.js:57-64 | The browser sees `ok` exactly for a 200 answer of the verify endpoint. |
| AdminAuth.GrantedOnlyIfServerVerified | scripts/admin-secure.js:47-69 | When the server answers, access is granted only if it has just found the token live. |
| AdminRecords.FindQuote | scripts/admin-secure.js:370 | It returns the position of the first quote with the id, or none when no quote has it. |
| AdminRecords.Selected | scripts/admin-secure.js:437-441 | There is a selection only for a non-empty current id that is still in the list, and it points at the first quote with that id. |
| AdminRecords.CountStatus | scripts/admin-secure.js:186-187 | A status count never exceeds the number of quotes. |
| AdminRecords.CountStatusDisjoint | scripts/admin-secure.js:185-187 | Counts of disjoint status groups add up. |
| AdminRecords.TodaysValueAppend | scripts/admin-secure.js:188-190 | Today's value adds up over a split of the list. |
| AdminRecords.CountStatusAfterUpdate | scripts/admin-secure.js:437-457 | Replacing one quote moves one unit from its old status's count to its new one. |
| AdminRecords.Dashboard | scripts/admin.js:88-100 | The total is the list length. Processed plus pending equals the count of quoted, accepted and pending quotes, so it never exceeds the total. |
| AdminRecords.QuotingPendingMovesDashboard | scripts/admin.js:286-297 | Quoting a pending request adds one to processed and takes one from pending. The total stays the same. |
| AdminRecords.RowStatusOfStoredStatus | scripts/admin.js:165-186 | For a lower-case stored status, the badge lower-cased and trimmed, with the secure panel's hyphen step, gives the stored status back. |
| AdminRecords.VisibleIffFilterMatches | scripts/admin-secure.js:348-365 | A row is shown exactly when the filter is `all` or equals the stored status, in both panels. |
| AdminRecords.Surcharge | scripts/admin.js:262-267 | The surcharges lie between 0 and 700. Without a hazardous or perishable cargo they are 0 or 200. |
| AdminRecords.SurchargeParts | scripts/admin.js:262-267 | The surcharges exactly: 500 for hazardous cargo, 300 for perishable cargo, plus 200 exactly when the lower-cased requirements contain "temperature". |
| AdminRecords.Price | scripts/admin.js:256-269 | The price is base fee plus surcharges plus the larger of weight cost and volume cost: at least each cost plus extras, and equal to one of them. |
| AdminRecords.PriceMonotoneInWeight | scripts/admin.js:257-259 | With a non-negative per-kg rate, more weight never costs less. |
| AdminRecords.TemperatureSurcharge | scripts/admin.js:265-267 | Requirements containing "temperature" always carry the 200 surcharge. |
| AdminRecords.CapitalTemperatureSurcharge | scripts/admin-secure.js:548-550 | "Temperature" at the start also triggers it, because the match lower-cases first. |
| AdminRecords.SampleSeaFreightPrice | scripts/admin-secure.js:531-552 | The built-in 1500 kg / 12.5 m³ temperature-controlled sea shipment is priced 4050. |
| AdminRecords.CalculateQuote | scripts/admin.js:247-273 | A price is proposed exactly when a quote is selected and its service has rates, and it equals the pricing rule under those rates. |
| AdminRecords.CalculateQuoteUsesCurrentRates | scripts/admin.js:253 | Replacing one service's rates reprices that service's quotes with the new rates and leaves other proposals alone. |
| AdminSecure.AmountOrNull | scripts/admin-secure.js:444 | An amount is kept exactly when it is a non-zero number. 0 and "not a number" become null. |
| AdminSecure.SecurePanel.constructor | scripts/admin-secure.js:11-19 | After the load handler's refresh the panel holds the stored quotes and visitor data, with nothing selected. |
| AdminSecure.SecurePanel.ViewQuote | scripts/admin-secure.js:367-376 | The list is reloaded from storage. The selection moves to the id exactly when a stored quote has it; otherwise it stays. |
| AdminSecure.SecurePanel.CloseQuoteModal | scripts/admin-secure.js:429-435 | The selection is cleared and nothing else changes. |
| AdminSecure.SecurePanel.UpdateQuoteStatus | scripts/admin-secure.js:437-462 | Without a live selection nothing changes. Otherwise only the selected quote's status, amount (or null), notes and date change: its id, dates and request and all other quotes stay. The list is saved. |
| AdminSecure.SecurePanel.QuickUpdateToQuoted | scripts/admin-secure.js:464-496 | It updates exactly when a quote is selected and the amount is above 0. Only that quote becomes quoted with the amount and today's date, and the list is saved. Otherwise nothing changes. |
| AdminSecure.SecurePanel.CalculateQuote | scripts/admin-secure.js:524-558 | A price is proposed exactly for a selected quote of one of the three built-in services, by the fixed table. |
| AdminSecure.SecurePanel.TrackVisitor | scripts/admin-secure.js:619-630 | Today's count and the total rise by one in the panel's copy, and that copy overwrites the stored statistics. |
| AdminSecure.QuickUpdateMovesDashboard | scripts/admin-secure.js:479-491 | Marking a pending quote as quoted moves it from pending to processed. |
| AdminSecure.StatusFormClearsAmount | scripts/admin-secure.js:444-449 | Saving the status form with a 0 or unreadable amount erases the stored amount. |
| AdminPanel.Panel.constructor | scripts/admin.js:27-86 | The panel starts with the built-in rates and the built-in list of three sample requests, with nothing selected. |
| AdminPanel.BuiltInDashboard | scripts/admin.js:33-84 | On the built-in list the dashboard shows three requests, two of them processed and one pending. |
| AdminPanel.Panel.UpdateRates | scripts/admin.js:120-137 | It updates exactly when all three entries are numbers, and then replaces only that service's rates. Otherwise the table is unchanged. |
| AdminPanel.Panel.ViewQuote | scripts/admin.js:196-200 | The selection moves to the id exactly when a quote has it; otherwise it stays. |
| AdminPanel.Panel.CloseQuoteModal | scripts/admin.js:242-245 | The selection is cleared and nothing else changes. |
| AdminPanel.Panel.SendQuote | scripts/admin.js:275-302 | It sends exactly when a quote is selected and the amount is above 0. Only that quote becomes quoted with amount, notes and time, and the selection clears. Otherwise nothing changes. |
| AdminPanel.Panel.RejectQuote | scripts/admin.js:304-318 | It rejects exactly when a quote is selected. Only that quote becomes rejected with its time, and the selection clears. Otherwise nothing changes. |
| AdminPanel.Panel.CalculateQuote | scripts/admin.js:247-273 | A price is proposed exactly for a selected quote whose service is in the current (possibly edited) table, by the pricing rule. |
| AdminPanel.RejectingPendingShrinksPending | scripts/admin.js:307-313 | Rejecting a pending quote takes one from pending. Processed and total stay. |
| AdminPanel.SentQuoteShowsAsQuoted | scripts/admin.js:186-191 | A sent quote's row shows under the "quoted" filter and not under "pending". |
| ContactForm.ValidateContact | scripts/contact.js:29-45 | The checks run first-failure-wins: required fields (not trimmed), then privacy, then the e-mail pattern. Each refusal holds exactly when its check is the first to fail. |
| ContactForm.SubmitContactForm | scripts/contact.js:14-85 | A refused form, a notifier answering false and a notifier that throws all leave storage untouched. Only a true answer appends the message, with a `CT` reference, after the earlier ones. |
| ContactForm.WhitespaceBreaksEmail | scripts/contact.js:41-42 | An address with whitespace anywhere never matches the pattern. |
| ContactForm.TrailingSpaceRefused | scripts/contact.js:16-45 | Since the address is not trimmed, a trailing space makes a complete form fail the e-mail check. |
| ContactForm.ExampleContactAccepted | scripts/contact.js:30-45 | A filled-in form with privacy accepted and `ann@x.com` passes every check. |
| Text.Trim | scripts/quote.js:140 | The result is a contiguous part of the input, and only whitespace lies outside it. It is empty exactly for blank input. Otherwise it neither starts nor ends with whitespace. |
| Text.ToLower | scripts/admin.js:186 | Lower-casing keeps the length and maps each character. |
| Text.Capitalize | scripts/admin.js:165 | The first letter is upper-cased and the rest kept. |
| Text.CapitalizeToLower | scripts/admin.js:165-186 | Lower-casing a capitalised lower-case word gives the word back. |
| Text.ReplaceFirst | scripts/admin-secure.js:357 | The length is kept and text without the character is unchanged. Otherwise only the first occurrence is replaced, and everything before and after it is kept. |
| Text.EmailShape | scripts/quote.js:155 | A matching address has 5 or more characters, no whitespace and exactly one `@`, and is unchanged by trimming. |
| Text.EmailExample | scripts/contact.js:41 | `ann@x.com` matches the pattern. |
| Values.Last | scripts/main.js:343 | `slice(-k)` keeps the last k elements (all when shorter) as a suffix. |
| Records.CountVisit | scripts/main.js:326-330 | Today's count becomes its old value (0 when absent) plus one. Other days keep their counts and no other day is added. |
| Site.Prefix | scripts/main.js:338 | The user agent is cut to its first 100 characters. |
| Site.TrackPageVisit | scripts/main.js:315-347 | Total and today's count rise by one. The log becomes the newest 1000 entries of the old log plus the new entry, which is last. The quote-request count and other storage stay. |
| Site.LastOfLast | scripts/main.js:342-344 | Cutting the log early loses nothing that a single cut at the end keeps. |
| Site.ReplayKeepsNewest | scripts/main.js:335-344 | After any series of views the log is the newest 1000 entries of the whole history, in order. |
| Site.CheckRequiredFields | scripts/main.js:133-154 | Each field is flagged exactly when it trims to nothing. The form passes exactly when no field is flagged. |

## Left out

- The page's visual state is not modelled: section styling, error labels, scrolling, focus, modals and notifications. Where a notification's text is the outcome, the model returns it as a value (`QuoteForm.ErrorMessage`, `ContactForm.ErrorMessage`).
- Timers are not modelled: the one-second login delay, the form's scroll and focus delays, and auto-refresh.
- The e-mail notification service, the asset loader and the visitor analytics charts are not part of this model. The notification's outcome is an input: it returns true, returns false, or throws.
- The clock, the random session token and the year are inputs.
- JSON encoding of storage is not modelled, and neither is a failure of the storage itself. The outer `catch` of the quote handler (scripts/quote.js:531-535) is therefore never reached in the model.
- QuoteForm.SubmitQuoteRequest: on the rejected path the handler shows the first error, then throws at scripts/quote.js:446. That line reads the submit button before its declaration at line 452. The model returns the rejection and stores nothing, which is what the user observes; it does not model the exception.
- QuoteForm.SubmitQuoteRequest: the case where the notification service is absent is not modelled separately. It behaves like a false answer.
- Records.LocalStore does not separate an absent storage key from a stored empty list. AdminSecure.SecurePanel.constructor therefore does not show the script's built-in sample list, which its own load handler replaces anyway.
- The `uniqueVisitors` set is dropped from the visitor statistics. Once stored as JSON it is an empty object that nothing reads.
- AdminSecure.SecurePanel.TrackVisitor is modelled although nothing in the scripts calls it.
- AdminRecords.CalculateQuote: a rate lookup by a service name that is an inherited JavaScript object key (such as `constructor`) is not modelled. Only keys of the rate table count.
- AdminRecords.Price: prices are exact reals. Floating-point rounding and `toFixed(2)` formatting are not modelled.
- QuoteForm.SubmitQuoteRequest: on a page without a submit button, the handler returns after validation without storing or notifying (scripts/quote.js:452-456). The model assumes the button exists and always stores an acceptable form.
- ContactForm.SubmitContactForm: a missing submit button makes the handler throw at scripts/contact.js:48-51, before the notifier is called. The model assumes the button exists.
- AdminPanel.BuiltInQuotes: the sample requests list only some fields. The absent ones (phone, incoterms, dimensions, services, submission time) are empty text, zero, an empty list or `false` in the model.
- AdminAuth.CheckAuthentication: the logout it triggers is recorded as a flag. The logout request and the redirect are not modelled.
- SessionServer.SessionService.Login: only string credentials are modelled. Non-string request bodies are out, as are the port setting and the static file routes.
- The plain panel's `sendQuoteEmail` only writes a log line and is not modelled.
- The generic form handler of scripts/main.js also fires on the contact and quote forms. Site.CheckRequiredFields models only its check, not how it interleaves with those forms' own handlers.
- Text.ToLower: lower-casing and upper-casing cover ASCII letters only. Other scripts' case mappings are not modelled.
- Ports.FilterPortOptions: it models one filtering of a list of option values. The page refills the drop-down from its already-filtered options, so choosing air freight and then another service does not bring removed options back. The model does not state that sequence.
