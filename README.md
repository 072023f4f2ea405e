# Adminis Locuințe client and sensors, modelled in Dafny

The Home Assistant integration `adminislocuinte` polls the Adminis Locuințe
apartment-management portal. Its client class `AdminisLocuinteAPI` does
four things:

- logs in with a form post and keeps the session cookies in a jar;
- scrapes the dashboard page for the account's location ids and captions;
- fetches three JSON resources per location (pending payments, payment
  history, counters) into one snapshot with a summary;
- merges the payment histories of several locations into one list sorted
  newest first.

The sensor platform turns that snapshot into entities. It creates four
global sensors and three per location, each with a unique id and a
friendly name. Every sensor exposes a value and a dictionary of attributes
computed from the snapshot.

The model has these parts:

- `Values` (values.dfy): decoded JSON values with Python's truthiness and
  `dict.get`, plus exceptions as `Eval` (`Ok(v)` or `Raised`).
- `Text` (text.dfy): the string operations the source uses: `in`,
  `split`, `strip`, and the ordering of `str`.
- `Http` (http.dfy): the portal is a function from request to response,
  there is a page datatype whose addresses spell out the templates of
  `const.py`, and the 200-or-raise fetch rule lives here.
- `Markup` (markup.dfy): a deterministic scanner for the two regular
  expressions the client applies to the dashboard.
- `Discovery` (discovery.dfy): `_extract_location_ids` as a reference
  definition: the first-seen id list, the info entries, and the
  association pass.
- `Aggregation` (aggregation.dfy): one location of `get_data`'s loop, the
  loop itself, and the choice of the summary's last payment.
- `PaymentHistory` (paymenthistory.dfy): the tag-and-append loop of
  `get_payment_history` and a stable descending sort on text dates.
- `ApiClient` (client.dfy): each public operation as a step function over
  the client state (`AuthStep`, `PollStep`, `HistoryStep`, …), lemmas about
  those steps, and the class `Api`:
  - its fields are the cookie jar, the authenticated flag, the cached ids
    and the info dictionary;
  - a ghost `sent` field records every request;
  - each method updates these fields in place and is proved to produce
    exactly the state, result and requests of its step function.
- `Sensors` (sensor.dfy): the setup loop, the unique ids and names, each
  sensor's `native_value`, and the attribute dictionaries, including the
  status-flag and breakdown loops.
- `Integration` (integration.dfy): what the sensors show when the snapshot
  is one that `get_data` produced.

The portal's answers, the credentials and Python's `float()` are
parameters of the model.

## Model

| member | source | states |
|---|---|---|
| Http.Url | const.py:11-16 | the address of each page the client requests: login, dashboard, or a resource template filled with a location id; every address lies under the base address and ends in `/` (distinctness is `Http.UrlInjective`) |
| Http.ResourceUrl | const.py:14-16 | a per-location address starts with its resource's template prefix and ends in `/` |
| Http.ResourceUrlInjective | const.py:14-16 | two resource addresses are equal only for the same resource and the same location id |
| Http.ResourceUrlNotPage | const.py:12-16 | no resource address is the login page or the dashboard |
| Http.UrlInjective | const.py:11-18 | distinct pages have distinct addresses, so the portal can tell every request apart |
| Http.FetchResult | custom_components/adminislocuinte/api.py:280-287 | a fetch yields the decoded body exactly when the answer is 200 with valid JSON, and raises otherwise |
| Http.ReceiptUrl | custom_components/adminislocuinte/api.py:305-308 | the address `_fetch_receipt` would use: the month form when month and year are both given and non-zero, else the current form; both start with the receipt template for the id and end in `/` (their separation is `Http.ReceiptUrlForms`) |
| Http.ReceiptUrlForms | custom_components/adminislocuinte/api.py:305-308 | for digit ids, the current-receipt address determines its id, and it never equals a month-form address (month and year both given and non-zero) |
| Text.Split | custom_components/adminislocuinte/api.py:131 | `str.split` with a non-empty separator always yields at least one piece |
| Text.SplitHasSecond | custom_components/adminislocuinte/api.py:130-131 | splitting yields a second piece exactly when the separator occurs |
| Text.SecondPieceUpToComma | custom_components/adminislocuinte/api.py:131 | `s.split(sep)[1].split(",")[0]` is the text after the first `sep`, up to the next comma |
| Text.Strip | custom_components/adminislocuinte/api.py:125 | `strip` returns a slice of the string with no whitespace at either end, and everything cut off on either side is whitespace |
| Text.StripContains | custom_components/adminislocuinte/api.py:125-130 | whatever the stripped caption contains, the caption contains |
| Text.LexLeTotal | custom_components/adminislocuinte/api.py:387 | the string ordering used by the sort is total |
| Text.LexLeTransitive | custom_components/adminislocuinte/api.py:387 | that ordering is transitive |
| Markup.CodeMatches | custom_components/adminislocuinte/api.py:115-116 | every `data-code` match has an all-digit id and a non-empty caption without `<`, and the page contains that attribute |
| Markup.CodeMatchesFromComplete | custom_components/adminislocuinte/api.py:115-116 | `findall` from a position misses nothing: no match exactly when the pattern matches nowhere, otherwise the match at the first matching position followed by `findall` from its end |
| Markup.CodeMatchesComplete | custom_components/adminislocuinte/api.py:115-116 | the same for the whole page, so the matches are all of them, in document order |
| Markup.FirstAssoc | custom_components/adminislocuinte/api.py:142-144 | the search gives the digits of the leftmost `data-assoc` match of the page, and finds nothing exactly when no position matches |
| Discovery.ParseCaption | custom_components/adminislocuinte/api.py:124-139 | the name is the stripped caption and the id is the id; an apartment is present iff the caption contains `", ap. "`, and it is then the text after it up to the next comma; the kind is parking iff that branch is taken and the caption contains `PARCARI` or the apartment starts with `S`; it is unknown iff there is no apartment |
| Discovery.ParkingMarkerAloneIsUnknown | custom_components/adminislocuinte/api.py:130-139 | `PARCARI` without `", ap. "` still gives the unknown kind and no apartment |
| Discovery.UniqueIdsSpec | custom_components/adminislocuinte/api.py:118-121 | the discovered ids have no duplicates, are exactly the matched ids, and are in order of first occurrence |
| Discovery.MatchStep | custom_components/adminislocuinte/api.py:119-127 | one more match appends a new id with the entry of its caption, and leaves a repeated id and its entry alone |
| Discovery.InfosSpec | custom_components/adminislocuinte/api.py:119-139 | the loop writes an entry exactly for the matched ids, each built from the id's first caption |
| Discovery.Associate | custom_components/adminislocuinte/api.py:146-147 | the association id is set on the entry of every id of this call and on no other entry; the keys are unchanged |
| Discovery.DiscoverFailed | custom_components/adminislocuinte/api.py:152-157 | an unreachable or non-200 dashboard gives no ids and changes no entry |
| Discovery.DiscoverIds | custom_components/adminislocuinte/api.py:110-151 | the ids found on a 200 page are digit strings with no duplicates, exactly the page's `data-code` ids, in first-seen order |
| Discovery.DiscoverKeys | custom_components/adminislocuinte/api.py:118-147 | after a page, the info has the old keys plus one per id found |
| Discovery.DiscoverKeeps | custom_components/adminislocuinte/api.py:124 | an entry of an earlier call whose id the page no longer shows is kept unchanged |
| Discovery.DiscoverEntries | custom_components/adminislocuinte/api.py:119-147 | each id found gets its first caption's entry, carrying the page's first association id when there is one |
| Discovery.Discover | custom_components/adminislocuinte/api.py:99-157 | reference definition of `_extract_location_ids` on the dashboard answer: the ids and the updated info; its properties are `DiscoverFailed`, `DiscoverIds`, `DiscoverKeys`, `DiscoverKeeps` and `DiscoverEntries` |
| Aggregation.LocationEntry | custom_components/adminislocuinte/api.py:197-258 | reference definition of one iteration of the location loop: the entry (info, pending, history, counters) and the payment it offers; its properties are `EntryFailures`, `GatherIsolation` and `UnparsableAmount` |
| Aggregation.Candidate | custom_components/adminislocuinte/api.py:230-242 | the payment a location offers to a search still looking for one; characterised by `CandidateSpec` |
| Aggregation.Gather | custom_components/adminislocuinte/api.py:193-258 | reference definition of the location loop: the entries so far, in order, and the running `last_payment`; its properties are `GatherSnoc`, `GatherEntries`, `GatherLast`, `GatherInfo` and `GatherLastSource` |
| Aggregation.FirstCandidate | custom_components/adminislocuinte/api.py:194-242 | independent reference for the summary's last payment: the offer of the first location that makes one; characterised by `FirstCandidateSpec` and tied to the loop by `GatherLast` |
| Aggregation.PendingField | custom_components/adminislocuinte/api.py:213-226 | the stored pending field is the fetched dictionary, or nothing when the fetch, `.get("results")` or `results.get(...)` raises |
| Aggregation.HistoryOutcome | custom_components/adminislocuinte/api.py:229-245 | a stored history is the fetched dictionary; it is lost exactly when the fetch fails, the body is not a dictionary, or truthy `results` cannot be indexed, or (while searching) their head is not a dictionary or its amount does not convert; a last payment is offered only while searching, naming this location |
| Aggregation.CandidateSpec | custom_components/adminislocuinte/api.py:234-245 | a location offers a payment exactly when its history is a dictionary whose truthy `results` list starts with a dictionary whose amount converts; the amount, date (default `""`) and id then come from that record |
| Aggregation.EntryFailures | custom_components/adminislocuinte/api.py:197-258 | in an entry, a failed fetch empties its own field (a failed history fetch also offers no payment); the info is present exactly when the id has an entry, and is that entry |
| Aggregation.UnparsableAmount | custom_components/adminislocuinte/api.py:236-245 | an amount that does not convert empties the location's history while searching, and offers nothing |
| Aggregation.PollRequests | custom_components/adminislocuinte/api.py:196-258 | the loop sends three GETs per location, in the order of the ids: its pending payments, its payment history, then its counters |
| Aggregation.GatherSnoc | custom_components/adminislocuinte/api.py:196-258 | one more id appends its entry, and the running last payment changes only while it is still unset |
| Aggregation.FirstCandidateSpec | custom_components/adminislocuinte/api.py:234-242 | the reference choice is nothing iff no location offers a payment; otherwise it is the offer of the first location that makes one |
| Aggregation.GatherLast | custom_components/adminislocuinte/api.py:237-242 | the loop's running last payment equals the reference choice |
| Aggregation.GatherInfo | custom_components/adminislocuinte/api.py:200-201 | when every id has an entry, every location of the snapshot carries its own entry |
| Aggregation.GatherEntries | custom_components/adminislocuinte/api.py:196-258 | the loop makes one entry per id, in order, each being the id's own fetches |
| Aggregation.GatherIsolation | custom_components/adminislocuinte/api.py:213-256 | a location's pending, counter and info fields depend only on the portal's answers for that location, so a failure elsewhere leaves them alone |
| Aggregation.OfferKept | custom_components/adminislocuinte/api.py:231-242 | a location that offers the last payment keeps as its history the record the payment came from |
| Aggregation.GatherLastSource | custom_components/adminislocuinte/api.py:229-269 | the summary's last payment names a location of the snapshot whose stored history starts with the record it came from |
| Aggregation.GatherPendingShaped | custom_components/adminislocuinte/api.py:213-226 | in every stored pending body, truthy `results` are a dictionary |
| PaymentHistory.Tag | custom_components/adminislocuinte/api.py:381 | tagging adds or overwrites `location_id` with the location and keeps every other key |
| PaymentHistory.TagAll | custom_components/adminislocuinte/api.py:380-382 | the records tagged are the leading dictionaries of `results`, in order |
| PaymentHistory.TaggedRecords | custom_components/adminislocuinte/api.py:376-384 | a location adds records only when its fetch gave a dictionary whose `results` is a list |
| PaymentHistory.LocationContribution | custom_components/adminislocuinte/api.py:376-384 | a failed fetch adds nothing; a list of dictionaries adds all of them, tagged, in order |
| PaymentHistory.Collect | custom_components/adminislocuinte/api.py:375-384 | reference definition of the tag-and-append loop over the targets; its properties are `CollectSnoc`, `CollectTagged` and `LocationContribution` |
| PaymentHistory.CollectSnoc | custom_components/adminislocuinte/api.py:375-384 | one more target appends what that location contributes |
| PaymentHistory.HistoryRequests | custom_components/adminislocuinte/api.py:375-377 | one history fetch is sent per target, in order |
| PaymentHistory.CollectTagged | custom_components/adminislocuinte/api.py:375-384 | every collected record carries the id of a requested location |
| PaymentHistory.SortByDate | custom_components/adminislocuinte/api.py:387 | reference definition of the descending, stable sort by date as insertion sort; its properties are `SortByDateSpec` and `SortByDateStable` |
| PaymentHistory.InsertElements | custom_components/adminislocuinte/api.py:387 | an insertion step of the sort keeps every record and adds the new one |
| PaymentHistory.InsertSorted | custom_components/adminislocuinte/api.py:387 | an insertion step keeps a list sorted newest first |
| PaymentHistory.SortByDateSpec | custom_components/adminislocuinte/api.py:387 | the reference sort orders the records by date string, newest first, and is a permutation |
| PaymentHistory.SortByDateStable | custom_components/adminislocuinte/api.py:387 | the sort is stable: records with the same date keep their collection order |
| PaymentHistory.SortOutcome | custom_components/adminislocuinte/api.py:387 | the sort raises exactly when two or more records are compared and some date is not text |
| PaymentHistory.SortOutcomeSpec | custom_components/adminislocuinte/api.py:387 | a successful sort is sorted, a permutation of the collected records, and stable |
| ApiClient.AuthStep | custom_components/adminislocuinte/api.py:45-97 | step function of `authenticate`: new state, boolean or exception, and the requests sent; characterised by `AuthSpec` |
| ApiClient.LoginStep | custom_components/adminislocuinte/api.py:180-181 | step function of the login-if-needed prelude, dropping the boolean; its properties are `LoginKeepsLocations` and `PollIgnoresRefusedLogin` |
| ApiClient.DiscoverStep | custom_components/adminislocuinte/api.py:184-186 | step function of the discover-if-no-ids prelude; characterised by `DiscoverStepSpec` |
| ApiClient.PollStep | custom_components/adminislocuinte/api.py:159-278 | step function of `get_data`; its properties are `PollRaisesOnlyOnLogin`, `PollEmpty`, `PollShape`, `PollStepResult`, `PollCarriesInfo`, `PollRequestsAreFetches` and `PollDiscoversOnce` |
| ApiClient.HistoryStep | custom_components/adminislocuinte/api.py:357-388 | step function of `get_payment_history`; its properties are `HistoryStepSpec` and `HistoryOneLocation` |
| ApiClient.LocationsStep | custom_components/adminislocuinte/api.py:390-398 | step function of `get_locations`; characterised by `LocationsSpec` |
| ApiClient.BillingStep | custom_components/adminislocuinte/api.py:348-355 | step function of `get_billing_info`; characterised by `BillingSpec` |
| ApiClient.AuthSpec | custom_components/adminislocuinte/api.py:45-97 | a non-200 or unreachable login page raises before posting and changes nothing; otherwise the form is posted with the merged jar, post cookies overwrite page cookies, which overwrite older ones; the answer is true exactly for a 302 with an `adminis` cookie; the flag is never cleared and the locations are untouched |
| ApiClient.InitialWellFormed | custom_components/adminislocuinte/api.py:40-43 | a new client has no ids, so it is well formed |
| ApiClient.LoginKeepsLocations | custom_components/adminislocuinte/api.py:180-181 | logging in leaves the ids and the info untouched |
| ApiClient.DiscoverStepSpec | custom_components/adminislocuinte/api.py:184-186 | discovery runs only when no ids are cached; it leaves the ids distinct digit strings with entries, keeps the cookies, the flag and every old entry, and with cached ids changes nothing and sends nothing |
| ApiClient.PollRaisesOnlyOnLogin | custom_components/adminislocuinte/api.py:180-278 | `get_data` raises exactly when the login it attempts raises |
| ApiClient.PollIgnoresRefusedLogin | custom_components/adminislocuinte/api.py:180-181 | a refused login does not stop the poll, and the client stays unauthenticated |
| ApiClient.PollEmpty | custom_components/adminislocuinte/api.py:185-189 | with no ids, the answer is the fixed empty snapshot; an empty snapshot occurs only with no ids |
| ApiClient.PollShape | custom_components/adminislocuinte/api.py:192-274 | a non-empty snapshot has one entry per cached id, in order; `location_count` is the number of ids, `total_pending` is 0.0, and the last payment is the first location's offer |
| ApiClient.PollStepResult | custom_components/adminislocuinte/api.py:180-274 | a successful poll is the login, then discovery, then the location loop over the ids discovery leaves |
| ApiClient.PollCarriesInfo | custom_components/adminislocuinte/api.py:200-201 | on a well-formed client, every snapshot entry carries its location's info |
| ApiClient.OperationsKeepWellFormed | custom_components/adminislocuinte/api.py:159-398 | every public operation keeps the ids distinct digit strings, each with an entry |
| ApiClient.PollRequestsAreFetches | custom_components/adminislocuinte/api.py:280-335 | the location loop sends only GETs of per-location resources |
| ApiClient.PollDiscoversOnce | custom_components/adminislocuinte/api.py:184-186 | once ids are cached, a poll keeps them and never requests the dashboard again |
| ApiClient.HistoryStepSpec | custom_components/adminislocuinte/api.py:357-388 | the merge raises only on a raising login or incomparable dates; otherwise it holds exactly the collected records, newest first, stably, each tagged with a requested location |
| ApiClient.HistoryOneLocation | custom_components/adminislocuinte/api.py:373-388 | after the login and discovery requests, a non-empty requested id is the only history GET sent, even when ids are cached, and the answer is the sort outcome of that location's tagged records |
| ApiClient.LocationsSpec | custom_components/adminislocuinte/api.py:390-398 | `get_locations` answers the cached ids, and with ids cached on an authenticated client it sends nothing and changes nothing |
| ApiClient.BillingSpec | custom_components/adminislocuinte/api.py:348-355 | `get_billing_info` answers the summary of the poll that follows its own login attempt, with `total_pending` 0.0 |
| ApiClient.Api.constructor | custom_components/adminislocuinte/api.py:35-43 | a new client has an empty jar, no flag, no ids, no entries, and has sent nothing |
| ApiClient.Api.Fetch | custom_components/adminislocuinte/api.py:280-287 | one GET of the resource's address with the jar, with the fetch rule applied to the answer |
| ApiClient.Api.Authenticate | custom_components/adminislocuinte/api.py:45-97 | updates the jar and the flag in place exactly as the authentication step does, and sends its requests |
| ApiClient.Api.LoginIfNeeded | custom_components/adminislocuinte/api.py:180-181 | authenticates only when not authenticated, and carries on whatever the boolean result |
| ApiClient.Api.RecordMatches | custom_components/adminislocuinte/api.py:118-139 | the match loop returns the first-seen ids and merges their caption entries into the info dictionary |
| ApiClient.Api.AttachAssociation | custom_components/adminislocuinte/api.py:146-147 | the association loop sets the id on exactly the entries of this call's ids |
| ApiClient.Api.ExtractLocationIds | custom_components/adminislocuinte/api.py:99-157 | one dashboard GET with the jar; the ids and the info written are those of discovery on the answer |
| ApiClient.Api.DiscoverIfNeeded | custom_components/adminislocuinte/api.py:184-186 | the new state and requests are those of the discovery step |
| ApiClient.Api.PollLocations | custom_components/adminislocuinte/api.py:196-258 | the location loop returns the entries and the running last payment of the reference loop, and sends its fetches |
| ApiClient.Api.GetData | custom_components/adminislocuinte/api.py:159-278 | the new state, the snapshot or exception, and the requests are those of the poll step |
| ApiClient.Api.AppendTagged | custom_components/adminislocuinte/api.py:380-382 | the inner loop appends the tagged records of one location |
| ApiClient.Api.AddLocationHistory | custom_components/adminislocuinte/api.py:376-384 | one history fetch, and appends what that location contributes |
| ApiClient.Api.CollectHistory | custom_components/adminislocuinte/api.py:375-384 | the location loop collects the reference merge and sends one fetch per target |
| ApiClient.Api.GetPaymentHistory | custom_components/adminislocuinte/api.py:357-388 | the new state, the sorted records or exception, and the requests are those of the history step |
| ApiClient.Api.GetLocations | custom_components/adminislocuinte/api.py:390-398 | the new state, the answer and the requests are those of the locations step |
| ApiClient.Api.GetBillingInfo | custom_components/adminislocuinte/api.py:348-355 | the new state, the summary or exception, and the requests are those of the billing step |
| Sensors.LocationName | sensor.py:50-59 | the friendly name is the entry's apartment, else the text after `", ap. "` in its name up to the next comma, else `"Unknown"` |
| Sensors.DiscoveredLocationName | sensor.py:50-59 | for an entry made by discovery, the name is the caption's apartment text, or `"Unknown"` when the caption has no `", ap. "` |
| Sensors.SetupEntry | sensor.py:39-66 | setup yields the four global sensors, then three (monthly bill, pending, last payment) for each location key, in order |
| Sensors.SensorAt | sensor.py:39-66 | reference definition of the sensor at each position of the setup list; tied to the setup loop by `SetupEntry` and characterised by `SensorAtKind` |
| Sensors.SensorAtKind | sensor.py:39-66 | the sensor at each position of the setup list has the kind of that position, and its unique id is the entry id, `_` and that kind's type |
| Sensors.SensorTypeInjective | sensor.py:83 | distinct sensor kinds over digit ids have distinct type strings |
| Sensors.KindAtInjective | sensor.py:39-66 | with distinct location keys, distinct positions of the setup list have distinct kinds |
| Sensors.SetupIdsDistinct | sensor.py:39-83 | when the location keys are distinct digit strings, no two created sensors share a unique id |
| Sensors.Keys | sensor.py:118 | the location ids of a snapshot, in order |
| Sensors.Lookup | sensor.py:264 | `locations.get(id)` is empty iff no location has that id, and otherwise is an entry stored under it |
| Sensors.LookupUnique | sensor.py:264 | with distinct keys, looking up a location's id finds that location's entry |
| Sensors.LocationCountValue | sensor.py:106-110 | the count sensor has a value iff there is data |
| Sensors.TotalPendingValue | sensor.py:138-142 | the total sensor has a value iff there is data |
| Sensors.LastPaymentAmountValue | sensor.py:174-178 | the last-payment amount is present iff the summary has a last payment |
| Sensors.LastPaymentDateValue | sensor.py:221-225 | the last-payment date is present iff the summary has a last payment |
| Sensors.LocationIdsAttribute | sensor.py:113-119 | `location_ids` is present iff there is data |
| Sensors.PendingValue | sensor.py:334-352 | the per-location pending value is always 0.0 when it does not raise, and `results.get` raises exactly when a stored truthy `results` is not a dictionary |
| Sensors.LatestRecord | sensor.py:265-268 | nothing when the history or its `results` are falsy; the head record when `results` is a non-empty list starting with a dictionary; otherwise it raises |
| Sensors.LatestAmount | sensor.py:262-275 | the monthly-bill and location last-payment value raises iff reaching the latest record raises, and is otherwise the conversion of its amount (default `"0"`) |
| Sensors.StatusFlags | sensor.py:148-154 | reference definition of the status-flag dictionary over the locations in order; characterised by `StatusFlagsOnly`, `StatusFlagsKeys` and `StatusFlagsValues` |
| Sensors.TotalPendingAttributes | sensor.py:145-155 | the status-flag loop builds exactly the reference flag dictionary |
| Sensors.StatusFlagsOnly | sensor.py:148-154 | every flag key is the status or the allow key of a location with truthy pending payments |
| Sensors.StatusFlagsKeys | sensor.py:148-154 | for distinct digit ids, a location has both flags iff its pending payments are truthy |
| Sensors.StatusFlagsValues | sensor.py:148-154 | a status is `"ok"` iff `error` equals 0, else `"error"`; the allow flag is `allowPayments` (absent gives null) |
| Sensors.Breakdown | sensor.py:198-203 | the breakdown raises iff some detail is not a dictionary or has an unhashable name; otherwise its keys are exactly the names (default `"Unknown"`), and each maps to the amount (default 0) of the last detail with that name |
| Sensors.BreakdownUnique | sensor.py:198-203 | that description allows one map only |
| Sensors.DetailsBreakdown | sensor.py:196-203 | no breakdown when `details` is falsy; truthy `details` that are not a list of usable details raise |
| Sensors.InfoOf | sensor.py:284-288 | `location_name` and `location_type` are present iff the entry has info, and are its name and type |
| Sensors.MonthlyBillAttributes | sensor.py:278-307 | the info attributes and `apartment` (default `"N/A"`) are present together; `date` and `receipt` (default `""`) and the breakdown come from the latest record when there is one; it raises iff reaching that record or its breakdown raises |
| Sensors.PendingAttributesOf | sensor.py:355-373 | `allow_payments` (default false) and `error_code` (default 0) are present iff the pending payments are truthy |
| Sensors.LastPaymentAttributesOf | sensor.py:416-436 | `date`, `receipt` and `payment_count` are present iff there is a latest record, and `payment_count` is the length of `results` |
| Sensors.LastPaymentAmountAttributes | sensor.py:181-204 | `date` and `location_id` are present iff there is data (null without a last payment); the breakdown is that of the paid location's latest record when its history and `results` are truthy, and it raises iff that breakdown raises |
| Sensors.DateAttributesOf | sensor.py:228-235 | `amount` and `location_id` are present iff there is data, and are null without a last payment |
| Integration.PollKeys | custom_components/adminislocuinte/api.py:196-273 | the locations of a polled snapshot are keyed by the client's ids, in order |
| Integration.PollSetupDistinct | sensor.py:39-83 | setting up on a polled snapshot creates 4 + 3 × (number of ids) sensors, and no two share a unique id |
| Integration.PollSummaryValues | custom_components/adminislocuinte/api.py:260-264 | on a polled snapshot the count sensor shows the number of ids, the total sensor 0.0, and `location_ids` the ids |
| Integration.PollPendingZero | sensor.py:334-352 | on a polled snapshot no pending sensor raises; each shows 0.0 |
| Integration.PollLastPayment | custom_components/adminislocuinte/api.py:234-242 | the summary's last payment names a snapshot location whose latest record is the payment's source; that location's last-payment sensor shows its date, and its amount when the record states one or the conversion reads the two defaults alike |

## Left out

- HTTP transport, `aiohttp` sessions, `async`/`await`, timeouts and
  logging are not modelled. Each call's answer is a `Response` value given
  by the `server` argument, and a transport failure is `ConnectionError`.
- `float()` is the parameter `parse: Json -> Option<real>`, left
  uninterpreted. No floating-point arithmetic is modelled.
- `re.findall` and `re.search` are replaced by a hand-written scanner. It
  recognises ASCII digits only, and `[^>]*` / `[^<]+` are read the way a
  backtracking engine settles them for these patterns.
- Only `authenticate` writes the cookie jar
  (custom_components/adminislocuinte/api.py:62, 79). The dashboard and
  `_fetch_*` calls send the jar but never merge response cookies
  (api.py:108, 283, 322, 331), and the model does the same.
- The portal is a function from request to response, so within one
  operation two identical requests get the same answer. In
  `get_billing_info` a login that is refused without a new cookie is
  retried by `get_data` with the same requests
  (custom_components/adminislocuinte/api.py:350-351, 180-181), and the
  model forces the same refusal. A portal that refuses first and accepts on
  the retry, or any answer that changes over time, is not modelled.
- The receipt fetch and `get_monthly_consumption` are not called by any
  operation (custom_components/adminislocuinte/api.py:289-314, 337-346).
  Only the receipt address choice is modelled (`Http.ReceiptUrl`).
- The `info` dictionaries are stored in the snapshot by value. The model
  does not capture that Python shares one dictionary object between
  `_location_info` and a snapshot, so mutating one would show in the other.
- PaymentHistory.SortOutcome: a mixed-type comparison is modelled as
  raising whenever two or more records are sorted and some date is not a
  string. Python may still compare some non-string pairs (two numbers, or
  two nulls, which raise) or skip a comparison. The model does not follow
  `list.sort`'s exact comparison sequence.
- Sensors.Breakdown: Python `dict` identity of keys is modelled as equality of JSON values.
  Python merges `1`, `1.0` and `True` into one breakdown key; the model
  keeps them apart.
- A snapshot's `locations` is a sequence of pairs. `get_data` makes the
  keys distinct, and `Sensors.Lookup` takes the last pair with the key, as
  repeated assignment to a dictionary would.
- Sensors read `summary` only through the typed `Summary` record, so the
  case of data without a `summary` key is not modelled. `get_data` never
  produces such data.
- Integration.PollLastPayment: when the latest record has no `amount`,
  the value's agreement is stated under the assumption that `parse` reads
  `0` and `"0"` alike, as Python's `float` does.
- Home Assistant setup, the coordinator's scheduling, entity metadata
  (icons, units, device classes, `device_info`) and the commented-out
  sensor classes (sensor.py:439-463) are not modelled.
