# Byorl key redemption — a Dafny model

Byorl sells Roblox gamepasses and hands each buyer a license key. This
project models the logic at the core of that system and proves properties of
it:

- **Redemption server** (`server.py`, module `Redemption`). The
  `/check-gamepass` endpoint has these parts:
  - a non-blocking lock;
  - request validation;
  - a per-key request throttle;
  - a time-to-live response cache wrapped around the two Roblox lookups
    (username → user id, user id × gamepass → owned);
  - a `user_data` document holding one "key issued" flag per user and
    gamepass. A key is issued only when the flag is false; the flag is reset
    when ownership is not confirmed.
- **Stock files on GitHub** (`github_stock.py`, module `GitHubStock`). This
  covers how a stock file's text is read back as a list of keys, and which
  commit the add/remove/sold operations send.
- **Stock-file validator** (`validate_stock_files.py`, module
  `StockValidator`). This covers path resolution, the de-duplicated list of
  files to check, and the exit status.
- **Purchase-history page** (`js/history.js`, module `PurchaseHistory`). This
  covers search, the sort orders, page clamping and slicing, the pagination
  controls, the page handlers and the total spent.
- **License page** (`js/license.js`, module `License`). This covers:
  - the per-username throttle and the attempt counter;
  - the purchase record and the claimed-transactions list in `localStorage`;
  - the 24-hour prefill rule and purchase-session reuse;
  - the bounded retry loop of `fetchGamepassCheck`;
  - the re-entrancy guard of `checkGamepassAndIssueKey`.
- **Admin panel** (`js/admin.js`, module `AdminConsole`). This covers key
  shortening, the paged purchases modal, the account order, the account
  drawer and its open/close bookkeeping.

Shared helpers live in `Wrappers` (option values, JavaScript/Python
truthiness), `Seqs` (filter, first-occurrence de-duplication, stable insertion
sort), `Text` (strip, lower-case, substring search, split/join, decimal
numerals) and `Paging` (12 entries a page).

Each source keeps its form in the model:

- **Updated in place becomes classes.** State the source updates in place is a
  Dafny class whose methods say exactly how it changes:
  - the server's module globals (`RedemptionServer`);
  - the history page's `state` (`HistoryView`);
  - the `LicenseManager` fields and its `localStorage` entries;
  - the admin panel's module variables (`AdminPanel`).
- **Loops stay loops.** Source loops are `while` loops with invariants: the
  new-user entry, the validator's two loops, and the retry loop.
- **Pure code becomes functions.** List and string transformations are
  functions with lemmas.

Things outside the model are inputs:

- what an HTTP request, the JSON parser or a Roblox lookup returned;
- the random token;
- the clock: microseconds on the server, milliseconds in the browser.

Some behaviour of the code differs from what a reader might expect. The model
follows the code in each case:

- `generate_key` is documented as producing "only letters/numbers". It only
  removes `_` from a URL-safe token, so `-` can appear in a key.
  `GenerateKeyKeepsToken` states exactly which characters survive.
- When the ownership lookup fails for a reason other than throttling,
  `has_gamepass` is `None`. The handler then treats the user as a non-owner
  and resets the flag to false, so the next successful check issues a second
  key. `Settled` states this reset: `NotOwned` sets the flag to false.
- `js/license.js` defines `trackSuccessfulPurchase` twice (lines 365 and
  828). The class body's later definition is the one in effect;
  `TrackSuccessfulPurchase` models it, and the two bodies are identical.
- The license page reads `response.hasGamepass`, while `server.py` answers
  with `hasGamePass`. Against this server the page would always take the
  "not purchased" branch. The model keeps the page's field as a boolean
  input (`CheckResponse.hasGamepass`) and does not connect the two ends.
- The history page's next button always increments the page and relies on
  the render to clamp it back. The admin panel's next button checks the page
  count first. Each handler is modelled as written.

## Model

| member | source | states |
|---|---|---|
| Redemption.GenerateKey | server.py:161-166 | the key starts with `ByorlHub_` and no `_` follows the prefix |
| Redemption.GenerateKeyKeepsToken | server.py:163-165 | after the prefix, every character of the token other than `_` survives as often as it occurs (`-` included); `_` never does |
| Redemption.GenerateKeyRoundTrip | server.py:163-165 | a token without `_` is used verbatim and can be read back from the key |
| Redemption.NewUserEntry | server.py:252-255 | a first-seen username gets exactly the configured products as keys, every one set to false |
| Redemption.RedemptionServer.constructor | server.py:19-21 | the server starts unlocked with empty throttle and response caches and the stored `user_data` |
| Redemption.RedemptionServer.IsRateLimited | server.py:65-73 | limited iff the key holds a time younger than the limit; when limited the map is unchanged, otherwise exactly that key is set to `now` |
| Redemption.CachedAnswer | server.py:75-81 | an answer is returned iff the key is cached and younger than the maximum age, and it is the cached answer |
| Redemption.UserLookup | server.py:87-126 | the lookup answers with an id exactly when it reports no error; an id comes from a fresh cached `UserFound` or is the first search result; a request failure is reported with the oracle's reason |
| Redemption.OwnershipLookup | server.py:128-159 | the lookup answers exactly when it reports no error; its only errors are throttling and a failed request, reported with the oracle's reason; "owned" comes only from an inventory reply or a cached "owned" |
| Redemption.RedemptionServer.CacheResponse | server.py:83-85 | the key is overwritten with the answer stamped `now`, and later lookups return it exactly while it is younger than their age limit |
| Redemption.RedemptionServer.FetchUserId | server.py:87-126 | the answer is `UserLookup`'s on the caches before the call. A fresh hit touches nothing. A throttled name gives `RATE_LIMITED`. Otherwise the name's throttle time becomes `now`, and then: 429 gives `RATE_LIMITED`; a match gives the first id, cached as found; no match gives `USER_NOT_FOUND`, cached as missing; a failure gives its reason, nothing cached |
| Redemption.RedemptionServer.CheckOwnership | server.py:128-159 | the answer is `OwnershipLookup`'s on the caches before the call. A fresh hit touches nothing. A throttled pair gives `RATE_LIMITED`. Otherwise the pair's throttle time becomes `now`, and then: 429 gives `RATE_LIMITED`; an inventory reply is the answer and is cached; a failure gives its reason, nothing cached |
| Redemption.RedemptionServer.CheckGamepass | server.py:189-314 | a busy server answers Busy and changes nothing; the lock is released on every path; a non-object body, missing fields and an unsupported gamepass get their own refusal, in that order, with nothing changed; an admissible request gets exactly the reply and new `user_data` that `Decides` gives from the state before it |
| Redemption.RedemptionServer.Redeem | server.py:199-302 | the same, for the body that runs under the lock |
| Redemption.RedemptionServer.Serve | server.py:210-249 | the user-id lookup: throttled gives 429, not found gives 404, failed gives 500 with the reason, each with the default gamepass link and no flag changed. Then the ownership lookup: throttled gives 429. Every other case is `Settled` on the ownership answer |
| Redemption.RedemptionServer.Settle | server.py:251-302 | an ownership answer other than a confirmed "owned" (a failed check included) resets the flag and redirects to the product's gamepass link; a confirmed owner whose flag is set gets `AlreadyRedeemed` and no change; otherwise the key made from the token is issued and the flag set, and a first-seen user gets an all-false entry first |
| Redemption.DecidesIssueOnlyOnce | server.py:264-295 | a key is issued only to a confirmed owner (inventory reply or cached "owned") whose flag was false; it is the token's key, the flag is then true, and no other user's entry changes |
| Redemption.DecidesKeepsFlags | server.py:210-295 | every decision is one of the six replies; only a key or a redirect changes `user_data`; a redirect leaves the flag false; `AlreadyRedeemed` comes only from a set flag |
| Redemption.NoSecondKey | server.py:275-287 | after a key is issued, the next decision for the same user and gamepass issues none, whatever the caches and oracles answer |
| Redemption.ConsecutiveChecksIssueOnce | server.py:275-295 | two checks in a row for the same request never both issue a key, whatever the lookups answer |
| GitHubStock.CleanLines | github_stock.py:52 | each kept line is non-blank and already stripped, and no more lines come out than went in |
| GitHubStock.GetFileContent | github_stock.py:27-56 | a missing file, a failed fetch or blank text gives no keys; a JSON list is returned as it is; other JSON gives no keys; otherwise the result is clean lines |
| GitHubStock.CleanLinesKeepsClean | github_stock.py:52 | clean lines are all kept, in order |
| GitHubStock.LinesRoundTrip | github_stock.py:40-52 | clean keys written one per line (text that is not JSON) are read back as the same list in the same order |
| GitHubStock.UpdateFileContent | github_stock.py:58-93 | a failed prior GET (a status from 400 up, or an exception) sends nothing and fails; a 404 or another status below 400 still sends the commit, without a sha; the commit carries the keys, the given message or `Update stock: N keys available`, and the sha exactly when the GET found a non-empty one |
| GitHubStock.AddKeysToStock | github_stock.py:95-107 | the written list has no duplicates and holds exactly the keys of current ∪ new, one each; the message counts the new keys and the total |
| GitHubStock.RemoveKeyFromStock | github_stock.py:109-125 | an absent key sends nothing and returns false; a present key is sent iff the prior GET did not fail, and the result is the PUT's; every copy of the key goes, every other key keeps its count and order, and the message names the key and the remainder |
| GitHubStock.GetStockCount | github_stock.py:127-130 | the count is the length of the parsed content, 0 when the fetch failed |
| GitHubStock.BoughtEntry | github_stock.py:137-140 | the entry is the key, followed by ` - buyer` exactly when a buyer is given |
| GitHubStock.AddBoughtKey | github_stock.py:132-149 | exactly one entry is appended after the unchanged current list; the message is `Key sold: <key>` |
| StockValidator.ResolveStockPath | validate_stock_files.py:31-34 | empty stays empty; a path with `/` is unchanged; otherwise `Stock/` is prefixed, so the result ends with the entry and contains `/` |
| StockValidator.ResolveStockPathIdempotent | validate_stock_files.py:31-34 | resolving twice is resolving once |
| StockValidator.StockPaths | validate_stock_files.py:66-70 | there are no more collected paths than products |
| StockValidator.StockPathsResolved | validate_stock_files.py:66-70 | every collected path is non-empty and names a directory |
| StockValidator.StockPathsNone | validate_stock_files.py:66-70 | products without a stock file contribute nothing |
| StockValidator.StockPathsComplete | validate_stock_files.py:66-70 | every configured stock file appears, resolved |
| StockValidator.ConfiguredFiles | validate_stock_files.py:66-74 | the stock paths come first, and a configured (or environment) bought file is appended after them |
| StockValidator.CollectFiles | validate_stock_files.py:66-76 | the loop's list is the first-occurrence de-duplication of the configured files |
| StockValidator.CollectedFilesShape | validate_stock_files.py:76 | the checked list has no duplicates, holds exactly the configured files, and keeps first-occurrence order |
| StockValidator.CheckAll | validate_stock_files.py:82-96 | exit 0 iff every file's probe is HTTP 200, else 1 |
| StockValidator.ValidateStockFiles | validate_stock_files.py:54-96 | missing repository settings or an unreadable configuration exit 1; an empty file list exits 0; otherwise 0 iff every listed file exists |
| PurchaseHistory.ShortKey | js/history.js:30-34 | a missing key gives `''`; a key of at most 18 characters is kept; a longer one becomes its first 8, `…` and its last 6 |
| PurchaseHistory.ShortKeyIdempotent | js/history.js:30-34 | a shortened key is shown unchanged when shortened again |
| PurchaseHistory.LexLeTotal | js/history.js:78 | the product-name order relates any two names |
| PurchaseHistory.LexLeTransitive | js/history.js:78 | the product-name order is transitive |
| PurchaseHistory.SortKeyOf | js/history.js:73-86 | a sort value other than `oldest`, `product` and `price` sorts newest first |
| PurchaseHistory.OrderIsTotalPreorder | js/history.js:73-86 | every sort order (oldest, product, price high to low, newest) is a total preorder |
| PurchaseHistory.ArrangeSorted | js/history.js:63-86 | the filtered list is ordered by the chosen sort |
| PurchaseHistory.ArrangeSelects | js/history.js:63-71 | the filtered list holds each purchase whose name, key, username or purchase id contains the trimmed lower-cased term, as often as the input does, and no other; a blank term keeps all |
| PurchaseHistory.ArrangeStable | js/history.js:73-86 | a list already in the chosen order is not rearranged |
| PurchaseHistory.TotalSpentConcat | js/history.js:167 | the total of two lists one after the other is the sum of their totals |
| PurchaseHistory.TotalSpentBounds | js/history.js:167 | with no negative prices, the total is at least any single price |
| PurchaseHistory.TotalSpentNonNegative | js/history.js:167 | with no negative prices, the total is not negative |
| PurchaseHistory.HistoryView.constructor | js/history.js:5-13 | the page starts on page 1, sorted newest first, with no search |
| PurchaseHistory.HistoryView.ApplyFilters | js/history.js:63-91 | `filtered` becomes the searched and sorted copy of the purchases, which stay unchanged; the page is clamped to the page count |
| PurchaseHistory.HistoryView.RenderPurchases | js/history.js:142-160 | the rendered slice is the current page of the filtered list: at most 12 entries, and at least one when the list is non-empty |
| PurchaseHistory.HistoryView.Pagination | js/history.js:93-110 | the bar shows iff there is more than one page; prev is disabled iff page ≤ 1 and next iff page ≥ page count |
| PurchaseHistory.HistoryView.OnSearch | js/history.js:172 | a new search resets the page to 1 and shows the first page of the new selection |
| PurchaseHistory.HistoryView.OnSort | js/history.js:173 | a new sort value re-orders the list by the order it names; the page stays, clamped to the new page count |
| PurchaseHistory.HistoryView.OnPrev | js/history.js:175 | on page 1 nothing happens; otherwise the list is re-arranged and the page goes down by one, clamped to the page count, and is shown |
| PurchaseHistory.HistoryView.OnNext | js/history.js:176 | the page goes up by one, clamped to the last page |
| PurchaseHistory.NextDisabledOnLastPage | js/history.js:108-109 | for a page that exists, next is disabled exactly when the following page would be empty |
| Paging.TotalPages | js/history.js:89 | the page count is at least 1, holds all entries, and is the smallest such count |
| Paging.PageSlice | js/history.js:147-148 | a page holds at most 12 entries, namely those from index `(page-1)*12` on, and is empty beyond the list |
| Paging.PageNotEmpty | js/admin.js:103-108 | every page up to the page count of a non-empty list shows at least one entry |
| Paging.EntryOnItsPage | js/history.js:147-148 | entry `i` is shown on page `i/12 + 1` at position `i mod 12` |
| Paging.PagesCoverAll | js/history.js:147-148 | walking pages 1 to the page count shows every entry exactly once, in order |
| Text.Strip | github_stock.py:52 | the stripped text neither starts nor ends with whitespace |
| Text.TrimStartSuffix | github_stock.py:52 | trimming the start leaves a suffix of the text |
| Text.TrimEndPrefix | github_stock.py:52 | trimming the end leaves a prefix of the text |
| Text.StripEmptyIffBlank | github_stock.py:42-43 | text strips to nothing iff it is all whitespace |
| Text.Lower | js/history.js:64 | lower-casing keeps the length and leaves no upper-case letter |
| Text.LowerIdempotent | js/history.js:64 | lower-casing twice is lower-casing once |
| Text.ContainsAt | js/history.js:70 | `includes` holds iff the term occurs at some position |
| Text.Without | server.py:164 | the removed character no longer occurs |
| Text.WithoutCounts | server.py:164 | every other character keeps its count |
| Text.Split | github_stock.py:52 | splitting gives at least one part, and no part contains the separator |
| Text.JoinSplit | github_stock.py:52 | joining the parts of a split gives back the text |
| Text.SplitJoin | github_stock.py:52 | splitting a join of separator-free parts gives back the parts |
| Text.NatToStringValue | github_stock.py:75 | the decimal numeral of a count denotes that count |
| Seqs.FilterMembers | github_stock.py:118 | every kept element satisfies the test and comes from the input, and every element that satisfies it is kept |
| Seqs.FilterConcat | github_stock.py:118 | filtering a concatenation filters each part, so the kept elements keep their relative order |
| Seqs.FilterCounts | github_stock.py:118 | a kept element keeps its count; a dropped one has count 0 |
| Seqs.Dedup | validate_stock_files.py:76 | the result has no duplicates |
| Seqs.DedupMembers | validate_stock_files.py:76 | the result holds exactly the elements of the input |
| Seqs.DedupFirstOccurrenceOrder | validate_stock_files.py:76 | elements come in the order of their first occurrences |
| Seqs.DedupKeepsDistinct | validate_stock_files.py:76 | a list without duplicates is kept as it is |
| Seqs.SortBy | js/history.js:73-86 | sorting is a permutation of the input |
| Seqs.SortBySorted | js/history.js:73-86 | with a total, transitive comparator the result is ordered |
| Seqs.SortByKeepsSorted | js/history.js:73-86 | an ordered list is left as it is |
| Seqs.InsertKeepsOrder | js/history.js:73-86 | inserting an element moves it only past elements not picked along with it by a selection whose members the comparator allows in either order |
| Seqs.SortByKeepsOrder | js/history.js:73-86 | sorting keeps the relative order of the elements of any such selection |
| Seqs.TiedInterchangeable | js/history.js:73-86 | with a transitive comparator, the elements tied with a given one form such a selection |
| Seqs.SortByStable | js/history.js:73-86 | the sort is stable: with a transitive comparator, the elements tied with any given one come out in their input order |
| License.FetchFrom | js/license.js:507-565 | at most three tries; the loop returns the first 429 or successful reply, and throws the last error only after the third failure |
| License.TooManyNotRetried | js/license.js:537-543 | a 429 on the first try is returned at once without retrying |
| License.ThrowsOnlyAfterThreeFailures | js/license.js:557-563 | the check throws iff all three tries failed |
| License.HintDoesNotMatter | js/license.js:545-553 | the server's `shouldRetry` hint changes only the delay: runs differing only in it end alike |
| License.Claims | js/license.js:333-341 | a transaction counts as claimed iff its id is truthy, the stored list parses, and the id is in it: false for a falsy id or an unreadable list |
| License.LicenseManager.constructor | js/license.js:11-16 | not checking, no throttle entries, no attempts and no pending session |
| License.LicenseManager.IsRateLimited | js/license.js:345-356 | limited iff the last attempt for `username_product` is set and under 5000 ms old; when not limited, exactly that key is set to `now` |
| License.LicenseManager.TrackPurchaseAttempt | js/license.js:358-363 | the key's counter goes up by exactly one from 0, and the username is remembered |
| License.LicenseManager.TrackSuccessfulPurchase | js/license.js:828-843 | the purchase record is written; a truthy id ends up in the claimed list, appended only when absent; a falsy id leaves the list unchanged |
| License.LicenseManager.ExistingPurchase | js/license.js:316-331 | the last username is prefilled iff its record parses, has a key issued and is under 24 h old |
| License.LicenseManager.StartPurchaseSession | js/license.js:912-937 | no product gives nothing; the session is reused iff it is for the same username (any case) and product; otherwise no connection fails `Network`, 401 fails `AUTH`, another non-2xx fails `Failed to start`, and a 2xx starts with the reply's `started_at`; the pending session changes only on a start carrying `started_at`; outcome and new session are those of `SessionStart` from the old session |
| License.LicenseManager.FetchGamepassCheck | js/license.js:507-565 | the loop ends exactly as `FetchFrom` describes |
| License.LicenseManager.HandleCheckResponse | js/license.js:459-486 | exactly `Handled`: a non-owner sees nothing; a claimed transaction is reported with the reply's key offered again; an issued new key is displayed, its purchase recorded and its truthy transaction id appended to a readable claimed list (a throw when that list does not parse); an issued old key is offered again; no key gives a retry; only a new key changes storage |
| License.LicenseManager.CheckGamepassAndIssueKey | js/license.js:421-457 | a check in progress makes a new one return at once without change; the flag is cleared on every path; otherwise the outcome, pending session and storage are exactly those of `Checked`; a new key is shown only from a received owner reply whose transaction was not claimed |
| License.LicenseManager.AnswerReply | js/license.js:443-450 | exactly `Answered`: a reply whose truthy transaction id is already claimed is reported with its key offered again and no storage change; any other reply is handled as `Handled` states; a new key comes only from an unclaimed owner reply |
| License.LicenseManager.CheckOnce | js/license.js:424-453 | exactly `Checked`: a first check that throws shows a failure; a reply without `needStart` is reported as claimed when its truthy transaction id is, and otherwise handled as `Handled` states; with `needStart` the session is started as `SessionStart` states, a failed start or a second check that throws asks for a login, and otherwise the second reply is acted on the same way |
| License.LicenseManager.ReplayReportsClaim | js/license.js:424-450 | after a run that displayed a new key over a readable claimed list, the same replies checked again report the transaction as claimed, offer the key and change no storage; only a reply without a transaction id has its key displayed again |
| License.LicenseManager.AnsweredTwice | js/license.js:443-450 | the same reply acted on twice, first displaying a new key, is reported as claimed the second time when it carries a transaction id |
| License.LicenseManager.SessionStartsAgain | js/license.js:912-937 | a session start that did not fail does not fail when asked again from the session it left |
| License.RecordThenRevisit | js/license.js:325-329 | a purchase recorded now is prefilled on a later visit iff less than a day has passed |
| License.RecordTwice | js/license.js:836-842 | recording the same transaction twice into a readable claimed list appends it at most once, and only when it was absent |
| AdminConsole.KeyShort | js/admin.js:112 | a key over 20 characters becomes its first 10, the separator and its last 6; otherwise it is shown as it is, or `-` when empty |
| AdminConsole.KeyShortIdempotent | js/admin.js:112 | a shortened key is shown unchanged when shortened again |
| AdminConsole.AccountOrder | js/admin.js:79 | the account table is a permutation of the accounts, ordered by purchase count descending (missing counts as 0) |
| AdminConsole.HistoryOrder | js/admin.js:169 | the drawer's purchases are a permutation of the history, newest first |
| AdminConsole.SortAccounts | js/admin.js:79 | the array is sorted in place into that order |
| AdminConsole.AdminPanel.constructor | js/admin.js:30-34 | the panel starts on page 1 with no purchases and no open account |
| AdminConsole.AdminPanel.CurrentView | js/admin.js:96-108 | `0/0` iff there are no purchases; a page that exists shows 1 to 12 cards |
| AdminConsole.AdminPanel.RenderPurchases | js/admin.js:94-127 | an empty list leaves the page alone; otherwise the page is clamped to the page count and its cards are shown |
| AdminConsole.AdminPanel.PrevPage | js/admin.js:136 | on page 1 nothing happens; otherwise the page goes down by one, is clamped to the page count when there are purchases, and is shown |
| AdminConsole.AdminPanel.NextPage | js/admin.js:137 | on the last page nothing happens; otherwise the page goes up by one and is shown |
| AdminConsole.AdminPanel.RenderDrawer | js/admin.js:149-194 | the account's purchases become the list, newest first, from page 1; at most 10 are listed; the purchases button is enabled iff there are any; "view all" shows iff there are more than 10 |
| AdminConsole.AdminPanel.ViewAccount | js/admin.js:196-205 | the account is remembered first; the drawer opens iff the request succeeds; a success with an account shows the drawer `renderDrawer` builds (newest first from page 1, the first 10, the two buttons); a success without one, or a failure, leaves the list and page as they were |
| AdminConsole.AdminPanel.CloseDrawer | js/admin.js:144 | the open account's id and name are cleared |

## Left out

- HTTP, Flask routing, the GitHub contents API, base64, `json.dumps`/`json.loads` and `JSON.parse` are left out. Their results are inputs, and the JSON parser is a classification function.
- GitHubStock.GetFileContent: a JSON list is modelled as a list of strings. The source returns a list as it is, non-string items included.
- Reading and writing `user_data.json` and `config/products.json` are left out; `user_data` and the product map are in-memory values.
- `threading.Lock` is modelled as a busy flag over one request at a time. Concurrent interleavings are not modelled.
- Redemption.RedemptionServer.CheckGamepass: one `now` serves a whole request, although the source reads the clock separately in each cache and throttle call.
- Redemption: the cache and throttle keys are datatypes rather than formatted strings. Distinct key kinds are therefore never confused, which the source's prefixes also ensure.
- Redemption: lookup errors are a datatype. In the source a failed request reports the exception's text, and a text equal to `RATE_LIMITED` or `USER_NOT_FOUND` would be taken for that error; the model keeps them apart.
- Redemption: the exception handler of `check_gamepass` (500 on an unexpected error) is not modelled beyond the non-object request body. No other operation of the model raises.
- Gamepass ids are strings throughout. The JSON key/number mismatch between `products.json` and requests is not modelled.
- GitHubStock.AddKeysToStock does not promise Python's `set` iteration order; it states only the elements and their uniqueness. The model uses first-occurrence order.
- Text.Strip and the search's `trim` treat only tab, line feed, vertical tab, form feed, carriage return and space as blank. The other characters Python's `strip` and JavaScript's `trim` remove (U+001C to U+001F for `strip`, U+0085, U+00A0 and the other Unicode spaces) are not modelled.
- Text.Lower folds only `A`–`Z`; Unicode case folding is not modelled.
- PurchaseHistory: `localeCompare` is replaced by code-unit order.
- PurchaseHistory.HistoryView: the `sort` field holds the order that the selector's value names (`SortKeyOf`), not the string itself. Only the `switch` reads the string, so nothing observable changes.
- PurchaseHistory and AdminConsole: purchase dates are integer timestamps. Unparseable dates (`NaN`), which make JavaScript's comparators inconsistent, are not modelled.
- PurchaseHistory: the grid/list view mode and the DOM rendering are left out.
- License: `manualCheck` and `_handleManualCheckResponse` (js/license.js:740-826) are left out. They are a second, UI-driven path over the same reply fields.
- License: status messages, `setTimeout` delays, the retry countdown, polling and all DOM updates are left out.
- License.LicenseManager.StartPurchaseSession: a reply body that is not JSON (a throw from `resp.json()`) is not modelled.
- License.LicenseManager.CheckOnce: when recording a new key throws on an unreadable claimed list, the key is already displayed and the model shows `NewKey`; the source then also sets the status line ("Login required" on the session path, the generic error otherwise), which is a status message and not modelled. The `expiryDate` shown beside an offered key is not modelled.
- AdminConsole: `deleteAccount`, toasts and the other admin API calls are left out.
- `test_github_connection` in `github_stock.py` is a manual connectivity script and is not modelled.
- script/Byorlhub7DayLicense.js and js/home.js are not part of this model.
