# ZC API stock sync — a Dafny model of the sync job

The plugin's `ZC_API_Sync` class runs a stock-synchronisation job. It takes
a token from a remote GraphQL catalogue, then reads the products in pages of
100. Each record sets the stock status of the matching local WooCommerce
product: `instock` when the catalogue's availability code is `A`,
`outofstock` otherwise. A managed product also gets a quantity sentinel,
100 or 0. The job keeps a bounded debug log of its last 100 lines and
persists it as the `zc_api_debug_log` option. The `zc_api_sync_status`
option records whether a run is in progress, and another request can write
`stopped` there to make the running loop stop at its next loop top.

The model has six modules, one file each:

- `common.dfy` (`Common`):
  - an optional value;
  - PHP's truthiness test on strings;
  - the run status;
  - the `Message` datatype, one constructor per `add_to_log` call site.
- `debug_log.dfy` (`DebugLog`):
  - the bounded log as a function on sequences (`Append`, and its fold `AppendAll`);
  - the window of the newest 100 entries;
  - the newest-first view of 20 entries that the status poller shows.
- `api.dfy` (`Api`):
  - the three outcomes of a products query and of the token mutation;
  - the case-sensitive substring search behind the rate-limit test;
  - `TokenStep`, the decision procedure of `get_token`.
- `stock.dfy` (`Stock`):
  - `update_wc_stock` as a function `ApplyRecord` over a product store;
  - its fold `ApplyAll` over one page;
  - a `ProductStore` class whose `products` map changes in place. Its SKU index and the products whose `save()` throws are fixed inputs.
- `pagination.dfy` (`Pagination`): the `do … while` loop of `sync_stock_price` as a function `Paginate` of scripted API answers and external stop requests, with these properties proved:
  - which offsets are fetched;
  - why the loop ends;
  - how many fetches there can be;
  - what the pages read do to the store and the counters;
  - what the loop logs.
- `sync.dfy` (`Sync`): the class `SyncJob` with the in-memory log, the persisted log option, the status option and the store. Its methods are:
  - `AddToLog`, `GetToken`, `UpdateWcStock`;
  - `ApplyBatch`, the `foreach` over one page;
  - `SyncStockPrice`, with the part after the token in `SyncWithToken`, its loop in `Loop` and one pass of the loop body in `Fetch`.

  Each method is proved against the functions of the other modules. A ghost field `trail` records every message the instance has logged, and the class invariant `Valid` states that the in-memory log is the newest 100 of them.

Inputs that the program reads from the outside become parameters:
- the answer to the token mutation;
- the answers to the products queries, in order (`pages`). Fetch `i` gets `pages[i]`, and past the end of the script the API gives no response;
- the stop requests (`stops`). `stops[i]` is a write of `stopped` by another request that lands just before loop top `i` reads the status.

Because the script is finite, every run of the loop ends.

Every run that gets past the entry check ends with the status `stopped` (main.php:248, 324), and the entry check (main.php:237) turns away any run that finds `stopped`. So after one run every later scheduled daily run only logs the manual-stop line, until the "sync now" button (main.php:136) writes `running` again. Because each request starts with an empty in-memory log (main.php:13), that one line also replaces the persisted log of the last real run. `SyncStockPrice`'s contract states both halves: the status on exit and the stopped-on-entry case.

Three details of the code are easy to misread; the model follows the code:
- `update_wc_stock` returns `false` for a record it skips: no SKU, a falsy SKU, an unknown SKU, or a product that does not load. The loop counts every `false` as an error, so skipped records count as errors.
- The rate-limit `continue` jumps to the loop condition, which tests the previous page's `$batch_count`. A rate limit on the very first fetch therefore ends the loop, because no page has set the count yet. A rate limit after a full page retries the same offset.
- `get_token` returns whatever token the response carried, even a falsy one such as `""`, rather than `null`. The caller's `if (!$token)` then aborts the run as for a missing token.

## Model

| member | source | states |
|---|---|---|
| Common.Truthy | main.php:246 | PHP's truthiness of a string, as in `if ($token)`, `if (!$token)` and `if (!$sku)`: false exactly for `""` and `"0"` |
| DebugLog.Append | main.php:189-197 | one `add_to_log`: the log then holds min(100, n+1) entries and the new entry is last |
| DebugLog.AppendEvictsOldest | main.php:191-195 | below the bound an append only adds the entry; on a full log it drops exactly the oldest entry and keeps the others in order |
| DebugLog.AppendToWindow | main.php:189-197 | appending to the newest-100 window of everything logged gives the newest-100 window of everything logged since |
| DebugLog.AppendAllWindow | main.php:189-197 | FIFO eviction over any number of appends: a log within the bound ends up holding exactly the newest 100 of everything appended |
| DebugLog.AppendAllConcat | main.php:189-197 | appending two runs of entries one after the other is the same as appending their concatenation |
| DebugLog.AppendAllBounded | main.php:193-195 | a log within the bound stays within it, however many entries are appended |
| DebugLog.Reversed | main.php:179 | `array_reverse` keeps the length; `ReversedIndex` gives its entries |
| DebugLog.ReversedIndex | main.php:179 | entry i of the reversed log is entry \|log\|-1-i of the log |
| DebugLog.Newest | main.php:179 | `array_slice(array_reverse($log), 0, n)` has min(n, \|log\|) entries, and entry i is the i-th newest of the log |
| DebugLog.RecentSurvivesEviction | main.php:179 | the newest 20 entries shown from the bounded log are the newest 20 entries ever logged: eviction never reaches them |
| Api.Contains | main.php:284 | `strpos($text, $needle) !== false` as a scan of the text; `ContainsIsSubstring` gives its meaning |
| Api.ContainsIsSubstring | main.php:284 | the `strpos … !== false` search holds exactly when the needle occurs somewhere in the text (both directions) |
| Api.IsRateLimited | main.php:284 | the rate-limit test on the encoded errors: either phrase occurs in them; `RateLimitRecognised` and `RateLimitIsCaseSensitive` state what it accepts and rejects |
| Api.RateLimitRecognised | main.php:281-284 | any error text holding "rate limit" or "too many requests" anywhere is classified as a rate limit |
| Api.RateLimitIsCaseSensitive | main.php:284 | the test is case-sensitive: "Rate limit" is not a rate limit |
| Api.HasToken | main.php:246 | a usable token: present and truthy, so that `if (!$token)` lets the run go on |
| Api.TokenStep | main.php:200-232 | a request is sent iff the secure key is truthy. A usable token results iff the response carries one, and it is that token. Each case logs its own line: the missing-key error when no request is sent, the connection error on no response, the API error carrying the encoded errors, the no-token error when the data has no usable token, and the success line iff there is a usable token. Without a usable token the result is null, except that a falsy token carried in the response's data is returned as it is |
| Stock.Sku | main.php:328 | the SKU is the record's first barcode, and there is none when the record has no barcodes |
| Stock.StockStatusFor | main.php:333-334 | the stock status is `instock` iff the availability code is exactly `A`, and `outofstock` otherwise, including a missing code |
| Stock.Resolves | main.php:328-346 | a record reaches a product when its first barcode is present and truthy, is indexed to a product id, and that product loads; `ApplyRecordFailures` states that every other record is skipped |
| Stock.ApplyRecord | main.php:327-371 | `update_wc_stock` keeps the set of products, changes nothing when it returns false, and logs at most one line |
| Stock.ApplyRecordFailures | main.php:327-371 | the result is true iff the SKU is present and truthy, is known, its product loads and its save does not throw. A skip logs nothing. A failed save logs exactly one error line naming the SKU and the exception's message |
| Stock.ApplyRecordUpdates | main.php:349-365 | on success only the target product changes, and of it only the stock status and, when stock is managed, the quantity (100 if in stock, else 0). The price and the manage flag are untouched. A line is logged iff the status changed |
| Stock.ApplyRecordIdempotent | main.php:349-365 | applying the same record again succeeds, changes nothing and logs nothing |
| Stock.ApplyAll | main.php:302-309 | the `foreach` over a page: each record in turn goes through `update_wc_stock` on the store the records before it left; its properties are the `ApplyAll…` lemmas |
| Stock.Tally | main.php:303-308 | one record counted: `true` adds one to the updated counter, `false` one to the error counter, and its lines follow the earlier ones |
| Stock.ApplyAllCounts | main.php:302-309 | every record of a page counts once, as updated or as an error: updated + errors equals the page size |
| Stock.ApplyAllKeys | main.php:302-309 | a page never adds or removes products |
| Stock.ApplyAllLogsRecords | main.php:302-309 | the `foreach` logs only per-record lines: status changes and failed saves |
| Stock.ApplyAllUntouched | main.php:302-309 | a product that no record of the page resolves to (a present, truthy SKU indexed to it, and the product loads) is left as it was |
| Stock.ApplyAllSplit | main.php:302-309 | processing two runs of records one after the other is processing their concatenation: the second starts from the store the first left, and the counters and lines add up |
| Stock.ProductStore.Save | main.php:358 | `save()` either persists the product under its id or throws its stored message and persists nothing |
| Pagination.Paginate | main.php:256-316 | the loop from a loop top as a function of the scripted answers and the stop requests: the offsets it fetches and why it ends; its properties are the `Paginate…` lemmas |
| Pagination.StopRequested | main.php:258 | the status read at loop top `i` finds `stopped` exactly when the stop script has a write of `stopped` landing before that top |
| Pagination.OffsetAfter | main.php:311 | the offset moves on by 100 only past a page with records; a break or a rate-limit `continue` leaves it; used by `PaginateUnfold` |
| Pagination.CountAfter | main.php:292-293 | `$batch_count` is set to the size of a page that was read and otherwise keeps the previous pass's value; used by `PaginateUnfold` |
| Pagination.GoesOn | main.php:274-316 | the loop goes back to its top after a full page, or after a rate-limit `continue` when the previous count is 100; every `break` ends it; `PaginateUnfold` and `LoopStep` state this of the run |
| Pagination.PaginateUnfold | main.php:256-316 | one loop top without a stop request. When the answer calls for another pass, the run is this offset followed by the run from the next top, with the new offset and count. Otherwise this offset is the run's last and the run does not end on a stop request |
| Pagination.PaginateBounded | main.php:256-316 | the loop fetches at most once per scripted answer plus one |
| Pagination.PaginateSteps | main.php:256-316 | the first fetch is at the starting offset, and no fetch happened at a loop top with a stop request. Each next fetch follows a rate limit at the same offset or a full page at offset + 100 |
| Pagination.PaginateEnds | main.php:256-316 | the loop ends on a stop request seen at a loop top, or on its last answer: no response, a non-rate-limit error, an empty page, a page that is neither empty nor full, or a rate limit before any page was read |
| Pagination.SyncLoop | main.php:252-316 | the whole loop, from offset 0 with no page read yet; `PaginationOffsets` gives its offsets |
| Pagination.PaginationOffsets | main.php:252-316 | fetch i asks for offset 100 × (number of full pages among the answers before it): offsets go 0, 100, 200, … and never move on a rate limit |
| Pagination.Effect | main.php:302-309 | the pages of the first n fetches processed one `foreach` after the other; `EffectIsOneForeach` and `EffectCounts` state what that amounts to |
| Pagination.EffectIsOneForeach | main.php:256-316 | the `foreach` loops of a run together are one `foreach` over every record read, in the order read |
| Pagination.EffectCounts | main.php:302-309 | over a whole run, total updated + total errors equals the number of records read |
| Pagination.FetchLog | main.php:274-300 | one pass after the stop check logs: the connection error; or the API error, followed by the wait line (3600 s shown as 60 minutes) when it is a rate limit; or the all-processed line on an empty page; or the batch range followed by the records' lines |
| Pagination.RunLog | main.php:256-316 | what the loop logs from a loop top: the stop line at a stop request, otherwise the pass's lines followed by those of the next loop tops while the loop goes on |
| Pagination.SyncLoopLog | main.php:256-316 | what a whole run of the loop logs; `RunLogStops` relates it to how the run ends |
| Pagination.RunLogStops | main.php:258-261 | the stop line is in the loop's log iff the run ended on a stop request (both directions) |
| Pagination.FullThenPartial | main.php:293-316 | a full page then a 30-record page are read at offsets 0 and 100, and the partial page ends the loop |
| Pagination.RateLimitRetriesSameOffset | main.php:284-287 | a rate limit after a full page retries offset 100 |
| Pagination.RateLimitOnFirstFetchEnds | main.php:284-316 | whatever the later answers are, a rate-limited first answer with no stop request ends the loop after that one fetch, because the loop condition reads a count no page has set |
| Pagination.LoopStep | main.php:256-316 | the fetch at loop top `top` extends the run so far and ends it exactly when the answer does not call for another pass |
| Pagination.StopExit | main.php:258-261 | a stop request at a loop top ends the run on a stop request: the offsets and the effect so far, and the log so far followed by the stop line, are the whole run's |
| Pagination.AdvanceOn | main.php:256-316 | a pass that goes on leaves the loop state consistent with the run at the next loop top: one more offset, one more page applied, the pass's lines logged |
| Pagination.AdvanceEnd | main.php:256-316 | a pass that ends the loop makes its offset the run's last, its page the last one applied and its lines the last ones logged, and the run does not end on a stop request |
| Sync.Summary | main.php:318-322 | the closing lines: the end line, the updated total, and the error total only when it is positive |
| Sync.SyncJob.constructor | main.php:13 | a new instance starts with an empty in-memory log; the options keep what earlier requests left |
| Sync.SyncJob.AddToLog | main.php:189-197 | the in-memory log becomes `Append(old log, message)` and stays the newest 100 of everything logged; the persisted option equals the in-memory log |
| Sync.SyncJob.GetToken | main.php:200-232 | returns the token `TokenStep` decides, and logs exactly its one line |
| Sync.SyncJob.UpdateWcStock | main.php:327-371 | result, new store and logged lines are those of `ApplyRecord` on the old store |
| Sync.SyncJob.ApplyBatch | main.php:302-309 | the store, both counters and the logged lines are those of `ApplyAll` on the page's records |
| Sync.SyncJob.ReadBatch | main.php:300-309 | logs the batch range (offset+1 to offset+n), then processes the page as `ApplyAll` |
| Sync.SyncJob.Fetch | main.php:272-311 | one pass after the stop check. Offset, count and whether to go on are those of the step functions. Store and counters follow the page's records, so a rate limit changes neither offset nor counters. The logged lines are `FetchLog` |
| Sync.SyncJob.Loop | main.php:252-316 | the offsets fetched are those of `SyncLoop` on the script. Store and totals are the `Effect` of that many fetches, and the lines logged are `SyncLoopLog`. The status is `stopped` iff the run ended on a stop request |
| Sync.SyncJob.SyncWithToken | main.php:252-324 | the loop as `Loop` states it, then the closing lines `Summary` of its totals, and the status ends `stopped` |
| Sync.SyncJob.LogSummary | main.php:318-322 | logs the end line and the updated total, and the error total only when it is positive |
| Sync.SyncJob.SyncStockPrice | main.php:235-325 | status ends `stopped` on every path. Stopped on entry: one line is logged and nothing else happens. No token: start line, token line, abort line, store unchanged. Otherwise: start line, token line, then the loop's offsets, store, totals and lines as `Loop` states them, then the summary |

## Left out

- WordPress glue is not modelled: admin page, settings form, nonce and capability checks, the jQuery poller, HTML rendering, the clear-log and stop buttons, and the registration hooks. Only the newest-20 view of the status endpoint is modelled, as `Newest`.
- `graphql_request` is left out: HTTP transport, headers, timeout, TLS and JSON decoding. A query's outcome is an input value (`PageResponse`, `TokenResponse`).
- The query strings and `esc_sql` are left out; the limit and offset they carry are modelled.
- `sleep` (the one-hour rate-limit cooldown and the one-second throttle) is a no-op; the cooldown constant appears only in the `RateLimitWait` log line.
- Log lines are `Message` values. The `date()` prefix and the literal text are not modelled.
- `json_encode` of an errors list is an input string; what the rate-limit test sees is that string.
- Barcodes are taken to be strings; a non-string JSON barcode is not modelled.
- WooCommerce is an abstract store: a SKU index, a map of products, and a fixed set of products whose `save()` throws with a fixed message. Other getters and setters are assumed not to throw.
- `wc_get_product_id_by_sku` and `wc_get_product` are total lookups that never throw. At main.php:337 the first is called outside the `try`, so an exception there, or a PHP `Error` anywhere (the `catch` at main.php:367 takes only `Exception`), would escape `sync_stock_price`, skip main.php:318-324 and leave the status `running`. An exception from `wc_get_product`, inside the `try`, would be logged and counted as an error. `SyncStockPrice`'s "status ends `stopped`" holds under this assumption. Fields other than stock status, manage flag and quantity are represented by `price`.
- Cron scheduling, plugin activation and deactivation, and races between a manual run and the scheduled one are concurrency and scheduling concerns. Writes of `stopped` by other requests are modelled only at loop tops, through `stops`.
- The offsets, totals and log lines that `SyncStockPrice` and `SyncWithToken` return are ghost outputs, because the PHP function returns nothing; they name what the run did.
- Sync.SyncJob.constructor: the persisted log starts as whatever earlier requests left. It equals the in-memory log only after the instance's first `add_to_log`. So `UpdateWcStock`, `ApplyBatch`, `ReadBatch`, `Fetch`, `Loop` and `SyncWithToken` require that equality. In `sync_stock_price` they run only after the run's first log line, as in the source.
- Pagination.PaginateBounded: rate-limit retries are bounded only by the length of the scripted answers. An unbounded sequence of rate limits is not represented.
