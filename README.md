# GTSE unshipped-orders monitor, modelled in Dafny

The GTSE monitor is a small Next.js application sitting in front of two BigCommerce stores (UK and US). It does five things:

- A scheduled endpoint, `GET /api/check`, fetches the orders awaiting shipment (status 9). It gives each order its age in whole hours and marks an order overdue once that age reaches `THRESHOLD_HOURS` (default 24). When any order is overdue it e-mails one HTML alert listing them.
- A dashboard endpoint, `GET /api/orders?store=uk|us`, returns three order lists.
  - It sorts the awaiting orders by hours open and the incomplete orders by minutes open, both descending.
  - It counts the overdue orders and the incomplete orders stuck for 15 minutes or more.
  - It collects the orders carrying a customer comment, each order id at most once.
- A password login sets the `gtse-auth` cookie. A middleware gate sends every request without that cookie to `/login`, except the cron endpoint and the login endpoints.
- A live sales map polls `GET /api/sales-map/orders`. That route asks the UK store for the orders created since a module-level cursor, `lastCheckTime`, and moves the cursor on as soon as it has parsed a 2xx body, even when projecting that body then fails. The page remembers the ids it has seen and geocodes each new order's postcode through a cache. For every located order it drops a marker and bumps the day and month counters.
- The dashboard page's two helpers choose the hours badge and the customer's display name.

The model has two parts:

- Pure code is written as datatypes, functions and lemmas.
- State that the source mutates is written imperatively:
  - the in-place `Array.prototype.sort` of the dashboard route is a method over an `array`;
  - the route's `seenIds` filter is a loop;
  - the feed route's `lastCheckTime` is a field of the class `SalesMapFeed.OrdersFeed`;
  - the page's refs and state are fields of the class `SalesMap.SalesMapPage`.

Each method is proved against a pure specification function, and the properties are proved about that function.

Everything outside the program is an input of the model:
- the HTTP answers of BigCommerce, postcodes.io and the feed;
- `JSON.parse`;
- the clock;
- the mail provider's outcome;
- locale date and time formatting;
- environment variables.

An unset environment variable is the empty string, or `None` for a parsed number.

Modules, each in its own file:
- `Wrappers`: Option and Result.
- `Text`: ECMAScript white space, `trim`, `replace(/\s+/g, '')`, `toUpperCase` on Basic Latin, and decimal rendering.
- `Seqs`: `filter`, its length, and subsequences.
- `Sorting`: a stable descending sort, with a reference function and an in-place array method.
- `BigCommerce`: src/lib/bigcommerce.ts.
- `Email`: src/lib/email.ts.
- `CheckRoute`: src/app/api/check/route.ts.
- `OrdersRoute`: src/app/api/orders/route.ts.
- `Middleware`: src/middleware.ts.
- `Login`: src/app/api/login/route.ts.
- `Dashboard`: the helpers of src/app/page.tsx.
- `SalesMapFeed`: src/app/api/sales-map/orders/route.ts.
- `SalesMap`: src/app/sales-map/page.tsx.

Behaviours of the code that the model keeps:

- The age of an order is not clamped at zero. A creation time in the future gives a negative number of hours, which is never overdue for a non-negative threshold.
- The clock is read once per order, inside the `map`. The model therefore takes one clock reading per order, not one for the whole list.
- The dashboard sort compares only the key. Equal keys keep their fetch order because ECMAScript's sort is stable; there is no tie-break on the order id.
- The three fetches of the dashboard route are awaited together. Any one failing gives the 500 answer, with no partial data.
- The check route consults only the one store configured for src/lib/bigcommerce.ts.
- A wrong cron secret is only logged. The check runs anyway (`CheckRoute.AuthorizationNotEnforced`).
- src/app/api/orders/route.ts imports `fetchAwaitingShipmentOrders(store)`, `fetchRecentOrders` and `fetchIncompleteOrders` with a store argument. src/lib/bigcommerce.ts takes no argument and defines only the first of them. The route's three lists are therefore inputs of the model, one function per list from the region to a result.

## Model

| member | source | states |
|---|---|---|
| Text.IsWhitespace | src/lib/bigcommerce.ts:54 | definition: the ECMAScript WhiteSpace and LineTerminator characters, the set `trim()` removes and `\s` matches; characterised by the Text.Trim and Text.StripWhitespace rows |
| Text.Trim | src/lib/bigcommerce.ts:54 | `trim()` gives the slice of the text that starts right after its leading white space, with only white space outside it; the empty string exactly for a blank text; otherwise a result that neither starts nor ends with ECMAScript white space |
| Text.TrimSlice | src/lib/bigcommerce.ts:54 | trimming both ends leaves the slice of the input that starts where the leading white space ends |
| Text.TrimEndsInWhitespace | src/lib/bigcommerce.ts:54 | every character of the input after that slice is white space |
| Text.TrimBlank | src/lib/bigcommerce.ts:54 | nothing is left exactly when the input is blank |
| Text.TrimStart | src/lib/bigcommerce.ts:54 | leading white space removed: the result is a suffix, all dropped characters are white space, and it does not start with white space |
| Text.TrimEnd | src/lib/bigcommerce.ts:54 | trailing white space removed: the result is a prefix, all dropped characters are white space, and it does not end with white space |
| Text.StripWhitespace | src/app/sales-map/page.tsx:37 | `replace(/\s+/g, '')` leaves no white space, never lengthens the text, and keeps exactly the characters of the text that are not white space |
| Text.StripWhitespaceSingleton | src/app/sales-map/page.tsx:37 | one character is dropped exactly when it is white space |
| Text.StripWhitespaceAppend | src/app/sales-map/page.tsx:37 | stripping a concatenation is concatenating the stripped parts, so the kept characters stay in order |
| Text.StripWhitespaceKeeps | src/app/sales-map/page.tsx:37 | stripping a text that has no white space is the identity |
| Text.UpperChar | src/app/sales-map/page.tsx:37 | a lower-case Basic Latin letter maps to its capital; every other character is unchanged |
| Text.ToUpper | src/app/sales-map/page.tsx:37 | `toUpperCase` keeps the length and upper-cases each character in place |
| Text.ToUpperProperties | src/app/sales-map/page.tsx:37 | upper-casing is idempotent and never creates white space |
| Text.UpperCharWhitespace | src/app/sales-map/page.tsx:37 | upper-casing a character neither creates nor removes white space |
| Text.ToUpperAppend | src/app/sales-map/page.tsx:37 | upper-casing a concatenation is concatenating the upper-cased parts |
| Text.StripToUpperCommute | src/app/sales-map/page.tsx:37 | stripping white space and upper-casing can be done in either order |
| Text.NatToString | src/lib/email.ts:39 | a count renders as a non-empty string of decimal digits with no leading zero |
| Text.NatToStringRoundTrip | src/lib/email.ts:70 | reading the digits back gives the number |
| Text.NatToStringInjective | src/lib/email.ts:70 | different counts render differently |
| Text.DigitsPrefixUnique | src/lib/email.ts:70 | a run of digits ended by a non-digit is fixed by the text it starts |
| Text.IntToString | src/lib/email.ts:22-25 | definition: a minus sign before the digits of a negative number, otherwise the digits as Text.NatToString renders them |
| Text.DigitChar | src/lib/email.ts:39 | a digit value renders as a character `0`..`9` |
| Text.DigitValue | src/lib/email.ts:39 | a digit character has a value below 10 |
| Seqs.Filter | src/lib/bigcommerce.ts:76 | `filter` keeps exactly the elements satisfying the predicate and never lengthens the list |
| Seqs.FilterAppend | src/lib/bigcommerce.ts:76 | filtering a concatenation is concatenating the filtered parts |
| Seqs.FilterSingleton | src/lib/bigcommerce.ts:76 | a single element is kept exactly when it satisfies the predicate |
| Seqs.FilterIsSubsequence | src/lib/bigcommerce.ts:76 | filtering keeps the relative order of the input |
| Seqs.SkipHead | src/lib/bigcommerce.ts:76 | a subsequence of the tail is a subsequence of the whole |
| Sorting.Insert | src/app/api/orders/route.ts:18 | inserting one element lengthens the list by one |
| Sorting.SortDesc | src/app/api/orders/route.ts:18 | the reference sort keeps the length |
| Sorting.InsertSorted | src/app/api/orders/route.ts:18 | inserting into a descending list keeps it descending |
| Sorting.InsertPermutes | src/app/api/orders/route.ts:18 | insertion adds exactly the inserted element to the multiset |
| Sorting.InsertStable | src/app/api/orders/route.ts:18 | insertion keeps the relative order of the elements of every key |
| Sorting.SortDescSorted | src/app/api/orders/route.ts:18 | the sort result is in descending key order |
| Sorting.SortDescPermutes | src/app/api/orders/route.ts:18 | the sort result is a permutation of the input |
| Sorting.SortDescStable | src/app/api/orders/route.ts:18 | equal keys keep their input order, as the stable `Array.prototype.sort` requires |
| Sorting.InsertCount | src/app/api/orders/route.ts:24 | insertion raises the count of a predicate by one exactly when the element satisfies it |
| Sorting.SortDescCount | src/app/api/orders/route.ts:24 | sorting does not change how many elements satisfy a predicate, so counting after the sort equals counting before |
| Sorting.InsertShift | src/app/api/orders/route.ts:18 | moving the insertion gap left past a smaller key keeps the equation with the reference insertion |
| Sorting.InsertStop | src/app/api/orders/route.ts:18 | where the scan meets a key at least the new one, the element goes right after the prefix |
| Sorting.ShiftGap | src/app/api/orders/route.ts:18 | the shifting loop moves the smaller keys one place right, leaves the rest of the array alone, and stops at the reference insertion point |
| Sorting.InsertAt | src/app/api/orders/route.ts:18 | the prefix up to `i` becomes the reference insertion of `a[i]` into the sorted prefix; later cells are unchanged |
| Sorting.SortInPlace | src/app/api/orders/route.ts:17-21 | the array ends as the reference sort of its old contents: descending, a permutation and stable |
| BigCommerce.HoursOpen | src/lib/bigcommerce.ts:64 | whole hours elapsed, rounded down and negative for a future creation time |
| BigCommerce.WithAge | src/lib/bigcommerce.ts:61-70 | definition: the order with its age in whole hours and overdue exactly when that age reaches the threshold; characterised by the BigCommerce.Enrich row |
| BigCommerce.Enrich | src/lib/bigcommerce.ts:61-71 | one entry per order in the same order, each keeping the order, with its age from its own clock reading and overdue exactly when the age reaches the threshold |
| BigCommerce.IsEmptyBody | src/lib/bigcommerce.ts:54 | definition: the body is empty or trims to the empty string, the empty text being covered by the trim test; characterised by Text.TrimBlank (empty exactly for a blank text) |
| BigCommerce.FetchAwaitingShipmentOrders | src/lib/bigcommerce.ts:26-72 | missing credentials fail before any request; a rejected request fails; 204 and a blank body give no orders; another non-2xx status is an API error; invalid JSON fails; otherwise the parsed orders are enriched with the threshold |
| BigCommerce.ConfigErrorBeforeFetch | src/lib/bigcommerce.ts:27-29 | without credentials, the upstream answer is never consulted |
| BigCommerce.FetchError.Describe | src/app/api/check/route.ts:38 | definition: `String(error)` for each failure, the `Error: ` prefix for the thrown errors of src/lib/bigcommerce.ts and the original text for a rejected request or invalid JSON; characterised by the CheckRoute.Check row |
| BigCommerce.IsOverdue | src/lib/bigcommerce.ts:76 | definition: the `is_overdue` flag the filter tests; characterised by the BigCommerce.GetOrdersExceedingThreshold row |
| BigCommerce.GetOrdersExceedingThreshold | src/lib/bigcommerce.ts:74-77 | a failed fetch fails the same way; on success, the result is the fetched list filtered to its overdue orders, so it holds exactly those, in fetch order |
| BigCommerce.OverdueKeepsOrder | src/lib/bigcommerce.ts:76 | the overdue orders keep their fetch order |
| Email.CustomerCell | src/lib/email.ts:23 | the company when it is non-empty, otherwise first name, one space and last name |
| Email.Row | src/lib/email.ts:21-27 | definition: one `<tr>` with the id after `#`, the customer cell, the formatted date, the hours followed by `h` and the total after `£` |
| Email.Rows | src/lib/email.ts:18-29 | definition: the rows of the orders joined in order; characterised by Email.RowsAppend |
| Email.RowsAppend | src/lib/email.ts:18-29 | the rows of two lists are the rows of each list in turn: one row per order, in input order |
| Email.Subject | src/lib/email.ts:70 | definition: warning sign, count, ` Unshipped Order`, `s` for more than one order, ` Require Attention`; characterised by Email.SubjectPlural, Email.SubjectSplit and Email.SubjectInjective |
| Email.SubjectPlural | src/lib/email.ts:70 | the subject says "Orders" exactly when there is more than one order |
| Email.SubjectSplit | src/lib/email.ts:70 | after the warning sign the subject holds the count's digits, then a space |
| Email.SubjectInjective | src/lib/email.ts:70 | the count can be read back from the subject |
| Email.OrderPhrase | src/lib/email.ts:39 | "orders have" exactly for more than one order, "order has" otherwise |
| Email.ThresholdText | src/lib/email.ts:39 | the configured threshold text, or "24" when it is unset |
| Email.Sentence | src/lib/email.ts:39 | definition: the count, the phrase for the count and the threshold text; characterised by Email.OrderPhrase, Email.ThresholdText and Text.NatToString |
| Email.Html | src/lib/email.ts:31-64 | definition: Email.Layout of the sentence, the rows and the store hash; characterised by Email.HtmlShowsContent |
| Email.Layout | src/lib/email.ts:31-64 | definition: heading, sentence, table head, rows, table end, link around the store hash, footer; characterised by Email.LayoutShowsParts |
| Email.HtmlShowsContent | src/lib/email.ts:31-64 | the body shows the sentence, then every row of the table, then the configured store hash in the order link, each right after the fixed text before it |
| Email.LayoutShowsParts | src/lib/email.ts:31-64 | the fixed frame of the body holds its three variable parts at fixed places |
| Email.AlertMessage | src/lib/email.ts:67-71 | the message goes from the fixed sender to `ALERT_EMAIL`, with the subject for the number of orders |
| Email.SendAlertEmail | src/lib/email.ts:6-78 | no recipient gives false without sending; no orders gives true without sending; otherwise exactly one alert is sent, and the result is true exactly when the send completes |
| CheckRoute.Check | src/app/api/check/route.ts:13-41 | a failed fetch is a 500 with the error's text and no e-mail; no overdue orders is a 200 with no e-mail; otherwise one e-mail for the overdue orders and the count and its outcome reported; 500 exactly on failure |
| CheckRoute.AuthorizationNotEnforced | src/app/api/check/route.ts:8-11 | the `Authorization` header never changes the outcome |
| CheckRoute.CronSecretMismatch | src/app/api/check/route.ts:9 | definition: a secret is configured and the header is not `Bearer` followed by it; characterised by CheckRoute.MismatchedSecretServed |
| CheckRoute.MismatchedSecretServed | src/app/api/check/route.ts:8-11 | a request without `Bearer CRON_SECRET` is answered exactly as one carrying it |
| CheckRoute.EmailSentMeansSendCompleted | src/app/api/check/route.ts:27-34 | `emailSent` is true exactly when a recipient is configured and the send call for the alert built from the overdue orders completed without throwing |
| OrdersRoute.ParseStore | src/app/api/orders/route.ts:5-8 | a missing or empty parameter means UK; exactly `uk` and `us` are accepted; everything else is the 400 answer |
| OrdersRoute.IsIncompleteAlert | src/app/api/orders/route.ts:36 | definition: an incomplete order open 15 minutes or more; characterised by the OrdersRoute.Get row |
| OrdersRoute.HasComment | src/app/api/orders/route.ts:32 | definition: a message is present and not blank; characterised by OrdersRoute.HasCommentIsTrimTest |
| OrdersRoute.HasCommentIsTrimTest | src/app/api/orders/route.ts:32 | an order has a comment exactly when its message is present and does not trim to empty |
| OrdersRoute.Dedup | src/app/api/orders/route.ts:29-32 | definition: the reference selection with a seen set, an id marked seen at its first occurrence whether or not it has a comment; characterised by the Dedup lemma rows below |
| OrdersRoute.OrdersWithComments | src/app/api/orders/route.ts:27-33 | definition: the selection over the concatenated lists starting with no id seen; characterised by OrdersRoute.CommentsCharacterised |
| OrdersRoute.DedupSound | src/app/api/orders/route.ts:27-33 | every selected order is from the input, has a comment and an unseen id, and no id is selected twice |
| OrdersRoute.DedupMembers | src/app/api/orders/route.ts:29-32 | every selected order is from the input, has a comment and an id not seen before |
| OrdersRoute.DedupDistinct | src/app/api/orders/route.ts:29-32 | no id is selected twice |
| OrdersRoute.DedupSubsequence | src/app/api/orders/route.ts:29-33 | the selection keeps input order |
| OrdersRoute.DedupComplete | src/app/api/orders/route.ts:29-33 | every first occurrence of an unseen id with a comment is selected |
| OrdersRoute.DedupOnlyFirst | src/app/api/orders/route.ts:30-31 | only the first occurrence of an id can be selected; a commented duplicate after an uncommented first occurrence is not |
| OrdersRoute.DedupAppend | src/app/api/orders/route.ts:27-33 | the selection of a concatenation is the first part's selection, then the second's with the first part's ids already seen |
| OrdersRoute.DedupAllSeen | src/app/api/orders/route.ts:30 | orders whose ids were all seen contribute nothing |
| OrdersRoute.RepeatedListCollapses | src/app/api/orders/route.ts:27-33 | an order list appearing twice in a row selects the same comments as once |
| OrdersRoute.SelectOrdersWithComments | src/app/api/orders/route.ts:28-33 | the one-pass `seenIds` loop computes the specified selection |
| OrdersRoute.Get | src/app/api/orders/route.ts:4-57 | invalid store is 400; any failed fetch is 500; otherwise the sorted lists, the counts of overdue and of stuck (15 min or more) incomplete orders, the comment selection over the three lists in order, the total and the threshold (24 by default) |
| OrdersRoute.DashboardListsSorted | src/app/api/orders/route.ts:17-21 | the two sorted lists are permutations of what was fetched, in descending key order, with equal keys in fetch order |
| OrdersRoute.CommentsCharacterised | src/app/api/orders/route.ts:26-33 | the comment list has unique ids, follows input order, holds only commented orders, and holds an order exactly when it is its id's commented first occurrence |
| Middleware.Authenticated | src/middleware.ts:11-13 | only the `gtse-auth` cookie with value `authenticated` authenticates |
| Middleware.Gate | src/middleware.ts:4-28 | `/api/check`, an authenticated request, `/api/login` and `/login` pass; every other request is redirected to the login page, and only those |
| Middleware.RedirectTargetPasses | src/middleware.ts:23-27 | following the redirect never redirects again |
| Middleware.OtherCookiesIgnored | src/middleware.ts:11-13 | cookies other than `gtse-auth` never change the decision |
| Login.ExpectedPassword | src/app/api/login/route.ts:6 | the configured password, or `gtse2026` when unset; never empty |
| Login.Post | src/app/api/login/route.ts:3-23 | success exactly for the expected password; success is 200 with the auth cookie, anything else 401 "Invalid password" with no cookie |
| Login.CookieLastsSevenDays | src/app/api/login/route.ts:16 | the cookie's max age is 604800 seconds |
| Login.IssuedCookieOpensGate | src/app/api/login/route.ts:12 | the issued cookie lets every later request through the middleware |
| Login.DefaultPasswordOnlyWhenUnset | src/app/api/login/route.ts:6 | with no configured password, exactly the default is accepted |
| Dashboard.HoursBadgeClass | src/app/page.tsx:63-67 | danger from twice the threshold, warning from the threshold, ok below; each class exactly in its range |
| Dashboard.BadgeMonotone | src/app/page.tsx:63-67 | an order open longer never gets a milder badge, for every threshold |
| Dashboard.FullName | src/app/page.tsx:168 | definition: first name, one space, last name, a missing name being the empty string, so no address gives a single space; characterised by Dashboard.DisplayName and its two single-name lemmas |
| Dashboard.Company | src/app/page.tsx:167 | definition: the billing company, or the empty string without an address; characterised by Dashboard.DisplayName |
| Dashboard.DisplayName | src/app/page.tsx:167-169 | the company when set; otherwise the trimmed full name when it is not blank, with no white space at either end; otherwise `N/A`; never empty |
| Dashboard.DisplayNameFirstOnly | src/app/page.tsx:168 | a first name alone is shown without the separating space |
| Dashboard.DisplayNameLastOnly | src/app/page.tsx:168 | a last name alone is shown without the separating space |
| Dashboard.TrimOfPadded | src/app/page.tsx:168 | trimming a word padded with one space gives the word |
| SalesMapFeed.StartOfDay | src/app/api/sales-map/orders/route.ts:4-5 | the last local midnight at or before the load time |
| SalesMapFeed.Project | src/app/api/sales-map/orders/route.ts:55-65 | keeps id, date, status and total; keeps only zip, city and country of a present address; `null` for an absent one |
| SalesMapFeed.ProjectAll | src/app/api/sales-map/orders/route.ts:45 | one projected order per order, in the same order |
| SalesMapFeed.BodyParsed | src/app/api/sales-map/orders/route.ts:39-42 | definition: the request got past the credentials, status and `response.json()` steps, the point where the cursor is reset; characterised by SalesMapFeed.PollOnce, SalesMapFeed.FailedPollsKeepCursor and SalesMapFeed.LateFailureMovesCursor |
| SalesMapFeed.PollOnce | src/app/api/sales-map/orders/route.ts:7-77 | missing credentials, a rejected request, a non-2xx status and invalid JSON each give an error answer with no orders, leaving the cursor; a parsed body that cannot be projected gives an error answer after the cursor has moved; a falsy body (`null`, `false`, `0` or `""`) gives an empty batch; otherwise the projected orders and their count; the cursor moves to the read time exactly when a body was parsed, and always on a batch |
| SalesMapFeed.FailedPollsKeepCursor | src/app/api/sales-map/orders/route.ts:34-42 | a series of polls that all fail before a body is parsed leaves the cursor where it was |
| SalesMapFeed.LateFailureMovesCursor | src/app/api/sales-map/orders/route.ts:39-75 | a 2xx body that fails in the projection gives an error answer and still moves the cursor, so the orders since the old cursor are not asked for again |
| SalesMapFeed.OrdersFeed.constructor | src/app/api/sales-map/orders/route.ts:4-5 | the cursor starts at the local midnight of the load day |
| SalesMapFeed.OrdersFeed.Get | src/app/api/sales-map/orders/route.ts:7-77 | answers as `PollOnce` on the current cursor and moves the cursor as it says |
| SalesMap.Truthy | src/app/sales-map/page.tsx:51 | an optional string is truthy exactly when present and non-empty |
| SalesMap.AreaOf | src/app/sales-map/page.tsx:51 | the district, else the region, else `UK`; never empty |
| SalesMap.CoordsOf | src/app/sales-map/page.tsx:43-60 | coordinates exactly for a status-200 body holding a result, taken from that result |
| SalesMap.NormalizePostcode | src/app/sales-map/page.tsx:37 | the cache key has no white space, is as long as the postcode without its white space, and is that text upper-cased character by character |
| SalesMap.NormalizeIgnoresWhitespace | src/app/sales-map/page.tsx:37 | inserting a white-space character anywhere in a postcode does not change its key |
| SalesMap.NormalizeIgnoresCase | src/app/sales-map/page.tsx:37 | spellings that differ only in Basic Latin letter case share one key |
| SalesMap.NormalizeIdempotent | src/app/sales-map/page.tsx:37 | normalising a key again changes nothing |
| SalesMap.Lookup | src/app/sales-map/page.tsx:34-61 | an empty postcode gives nothing; a cached key is answered from the cache; a failed lookup leaves the cache unchanged; a found one is cached under the normalised key |
| SalesMap.LookupTransparent | src/app/sales-map/page.tsx:34-61 | with a consistent cache a lookup gives what the service gives for the normalised postcode, and the cache stays consistent |
| SalesMap.Postcode | src/app/sales-map/page.tsx:111-113 | non-empty exactly when the billing address has a truthy zip |
| SalesMap.Step | src/app/sales-map/page.tsx:106-127 | the order's id becomes known; the status is unchanged; an already known id changes nothing |
| SalesMap.StepCountsNewSales | src/app/sales-map/page.tsx:106-127 | both counters rise by one and a marker is added at the located position exactly for a new, locatable order; otherwise they are unchanged |
| SalesMap.Run | src/app/sales-map/page.tsx:137-139 | definition: SalesMap.Step applied to the poll's orders one at a time, in feed order; characterised by the Run lemma rows below |
| SalesMap.IdSetSnoc | src/app/sales-map/page.tsx:137-139 | the ids of a batch with one more order are the batch's ids plus that order's id |
| SalesMap.RunKnownIds | src/app/sales-map/page.tsx:137-139 | after a poll the known ids are the old ones plus the poll's |
| SalesMap.RunKeepsStatus | src/app/sales-map/page.tsx:137-139 | processing orders leaves the status alone |
| SalesMap.RunAlreadyKnown | src/app/sales-map/page.tsx:107 | orders whose ids are all known change nothing, so orders a later poll delivers again are not counted twice |
| SalesMap.RunIdempotent | src/app/sales-map/page.tsx:107 | processing the same poll twice is processing it once |
| SalesMap.DuplicateInBatchIgnored | src/app/sales-map/page.tsx:107 | an id repeated within the batch is skipped |
| SalesMap.InitialInvariant | src/app/sales-map/page.tsx:27-32 | the initial state satisfies the map invariant |
| SalesMap.StepInvariant | src/app/sales-map/page.tsx:106-127 | processing one order keeps the invariant: equal counters equal to the number of markers, at most the number of known ids, and a consistent cache |
| SalesMap.RunInvariant | src/app/sales-map/page.tsx:137-139 | a whole poll keeps the invariant |
| SalesMap.RunCountsAtMostNewIds | src/app/sales-map/page.tsx:113-126 | a poll adds no more sales than it brings new ids |
| SalesMap.SubsetCardinality | src/app/sales-map/page.tsx:107 | a subset of the known ids is no larger |
| SalesMap.FetchOrdersStep | src/app/sales-map/page.tsx:129-147 | "Reconnecting..." exactly when the request or its JSON throws; otherwise "Live", with the poll's ids known |
| SalesMap.FeedErrorsShowLive | src/app/sales-map/page.tsx:134-141 | an error answer of the feed shows "Live" and changes nothing else |
| SalesMap.SalesMapPage.State | src/app/sales-map/page.tsx:27-32 | definition: the page's refs and state gathered as one SalesMap.MapState value, the state the method rows below speak of |
| SalesMap.SalesMapPage.constructor | src/app/sales-map/page.tsx:27-32 | the page starts with no known ids, an empty cache, zero counts, no markers and "Connecting..." |
| SalesMap.SalesMapPage.PostcodeToLatLng | src/app/sales-map/page.tsx:34-61 | the answer and the new cache are those of `Lookup` on the old cache; nothing else changes |
| SalesMap.SalesMapPage.ProcessOrder | src/app/sales-map/page.tsx:106-127 | the new page state is `Step` of the old |
| SalesMap.SalesMapPage.FetchOrders | src/app/sales-map/page.tsx:129-147 | the new page state is `FetchOrdersStep` of the old, with the orders processed one at a time in feed order |

## Left out

- Rendering: the JSX of the dashboard, the login page and the map page; Leaflet; the sound; the screen flash. None of them is program logic. The early return of `addMarker` when the map is not ready is not modelled: a marker is recorded as a `Marker` value whenever the order is located.
- Polling: the `useEffect`/`setInterval` timers and the overlapping asynchronous runs they can produce are left out (concurrency). `FetchOrders` processes a batch to completion, one order after another, as its `await` loop does without interference.
- Time and text formatting: `Date` parsing, `toISOString` and `toLocaleDateString`/`toLocaleTimeString`. Each is a parameter or an opaque string of the model. Instants are integer milliseconds, and `StartOfDay` takes the local UTC offset as a parameter.
- Coordinates are `real` because JavaScript numbers are floating point. No rounding is modelled.
- Upper-casing covers Basic Latin letters only; other scripts are unchanged in the model.
- `parseInt` of `THRESHOLD_HOURS`: the model takes the parsed number. The `NaN` of a non-numeric setting is not modelled; it would make every comparison false.
- I/O is replaced by inputs:
  - the HTTP requests and their URLs;
  - headers other than `Authorization`;
  - `fetch` options such as `cache` and `revalidate`;
  - the Resend client;
  - `console` logging;
  - environment access.
- Cookie attributes other than name, value and max age (`httpOnly`, `secure`, `sameSite`) and the middleware's path matcher are not modelled.
- `Email.Html`: the HTML body is kept as heading, sentence, table and link, without its inline styles, logo and layout white space. `Email.HtmlShowsContent` states where the sentence, the rows and the store hash sit in it. An unset `BIGCOMMERCE_STORE_HASH` renders as `undefined` in the order link; the model takes it as the empty string. In the check route this case cannot arise, because the fetch fails first without the store hash.
- `CheckRoute.CheckInputs`: the store hash and the threshold reach the check twice, once in `store` for the fetch and once in `emailConfig` for the alert, and both come from the same environment variables (`BIGCOMMERCE_STORE_HASH`, `THRESHOLD_HOURS`). The model keeps the two copies independent. It does not relate the parsed `thresholdHours` to the raw `thresholdSetting` text, because `parseInt` is not modelled.
- `fetchRecentOrders`, `fetchIncompleteOrders` and `StoreRegion`: the store-aware fetchers that src/app/api/orders/route.ts calls are not part of this model. Their answers are inputs.
