# Invoice analyser service: a Dafny model of its bookkeeping

The service answers questions about invoices over HTTP. It has two endpoints:

- `/analyze` sends a summary of the invoices to a language model.
- `/analyze-free` builds a report locally from counts and keyword routing.

Both endpoints share two steps. First they load the invoices, either from CSV text posted with the request or from `invoices.csv`. Then they derive a cache key. A process-wide dictionary holds the replies by key, so a repeated request gets the stored reply without any new analysis.

This project models the deterministic part of `api.py`:

- the `InvoiceData` record and how a CSV row becomes one (`Invoices`);
- the paid and partially-paid counts, the numeric-amount filter, the set of distinct customers and the `top_customers` loop (`Statistics`);
- the keyword routing of the free analysis (`Routing`);
- the free analysis, with its failure cases (`LocalAnalysis`);
- the invoice summary and the prompt of the paid endpoint (`Summary`);
- request loading, the cache keys, and the cache itself as a class with a map field (`Service.ResponseCache`).

Helpers: `Wrappers` (Option, Result) and `Text` (Python's `str(n)`, `lower`, `in`, `strip`, `split`, `join`).

Foreign parts are parameters:

- the rows that `csv.DictReader` yields;
- the file on disk (`Service.FileSnapshot`);
- the SHA-256 hash (`Service.Hasher`, any function from text to a 64-character lower-case hex string);
- the language model (a function from the prompt to a text or a failure);
- whether the sentence-transformers model is available (`LocalAnalysis.ModelState`).

`ResponseCache.AnalyzeInvoices` and `AnalyzeInvoicesFree` each return an `invoked` flag. It says whether the expensive step (the language model or the local analysis) ran.

Each endpoint method is proved equal to a pure transition function of the old cache: `Service.PaidStep` or `Service.FreeStep`. The idempotency and separation properties are lemmas about those functions.

No float arithmetic is modelled. Where the source adds `float(amount)`, the model keeps the amount strings that would be added, in order (`Report.summedAmounts`, and the per-customer sequences in `Report.customerAmounts`). The report is a datatype holding the figures the source's text template is filled from, not the text itself.

The scraper that produces `invoices.csv` (row extraction, deduplication, CSV writing) is not part of this model.

## Model

| member | source | states |
|---|---|---|
| `Invoices.LoadCsvData` | api.py:76-95 | No file gives no invoices. Otherwise there is one record per row, in row order, each built by `RowToInvoice`. |
| `Invoices.RowRecordRoundTrip` | api.py:88-92 | A loaded row that lacks a column gets `''` in that field. A row with all five columns keeps the same text under each of them. |
| `Invoices.RecordRowRoundTrip` | api.py:55-60 | Writing a record as a row and reading it back gives the record. |
| `Invoices.StrictRecords` | api.py:219-220 | `InvoiceData(**row)` for posted CSV is all-or-nothing. The list exists iff every row has all five columns. Then it has one record per row, in order, whose fields are that row's five cells. |
| `Invoices.StrictRecordsIgnoresExtra` | api.py:219-220 | Columns other than the five do not change the outcome: cutting every row down to the five columns gives the same result. |
| `Invoices.StrictRecordsAgree` | api.py:219-220 | When the strict list exists it equals the list `load_csv_data` (api.py:88-93) would build from the same rows. |
| `Text.SplitJoin` | api.py:215 | The pieces of `split('\n')` joined with `'\n'` give back the text, so no character is lost. |
| `Service.CsvTooShortIff` | api.py:215-217 | Posted CSV is rejected exactly when its stripped text holds no line break, that is, when it splits into fewer than 2 pieces. |
| `Service.LoadOutcome` | api.py:212-234 | Every loading outcome is classified. 400 comes iff CSV was posted and is short, whatever its rows. 500 comes iff posted CSV is long enough but some row lacks one of the five columns. Loading succeeds iff posted CSV is long enough and every row has all five columns, or, with no CSV posted, the file holds rows. 404 comes iff no CSV was posted (absent or empty) and the file is missing or holds no rows. On success there is one record per row, and the key text is the raw posted text or the file's text. |
| `Service.LoadRequestData` | api.py:212-234 | The loading code of both endpoints, with `load_csv_data`'s loop, computes `LoadInvoices`. |
| `Statistics.PaidCountsDisjoint` | api.py:109-110 | No invoice is counted as both paid and partially paid. The two counts add up to the paid-family count, which is at most the number of invoices. |
| `Statistics.CountStatusIgnoresCase` | api.py:109-110 | The status test ignores case: lowering every status changes no count. |
| `Statistics.NumericAmountExact` | api.py:108 | An amount passes `replace('.','').isdigit()` iff it is made only of ASCII digits and dots and holds at least one digit. |
| `Statistics.NumericAmountExamples` | api.py:108 | `"1200"`, `"10.50"` and `"1.2.3"` pass the filter. |
| `Statistics.NonNumericAmountExamples` | api.py:108 | `""`, `"."`, `"-5"` and `"$10"` do not pass the filter. |
| `Statistics.DecimalAmountExact` | api.py:108 | The corrected filter passes exactly the amounts that pass the source's test and that `float` can read (at most one dot). |
| `Statistics.NumericAmountsFiltered` | api.py:108 | Every amount kept for the sum passes the filter, and there are no more of them than invoices. |
| `Statistics.FiltersAgree` | api.py:108 | When no amount has two dots, both filters keep the same amounts, overall and per customer. |
| `Statistics.CustomersMembers` | api.py:113 | A name is in the customer set iff some invoice carries it. |
| `Statistics.CustomersBound` | api.py:113 | There are at most as many distinct customers as invoices, and there are none only when there are no invoices. |
| `Statistics.BuildCustomerAmounts` | api.py:122-127 | The `top_customers` loop ends with exactly one key per distinct customer, including customers with no numeric amount. Each key maps to that customer's filtered amounts in invoice order. |
| `Statistics.CustomersPrefix` | api.py:123-125 | One more invoice adds exactly its customer to the set of customers. |
| `Statistics.AmountsOfPrefix` | api.py:126-127 | One more invoice appends its amount to its own customer's amounts when the filter keeps it, and changes no other customer's amounts. |
| `Statistics.CustomerAmountsStep` | api.py:123-127 | One turn of the loop either adds the customer with an empty entry or extends its entry. Afterwards the map again matches the per-customer amounts of the invoices seen so far. |
| `Statistics.CustomerAmountsSize` | api.py:122-127 | The map has as many entries as there are distinct customers, so no more than invoices. |
| `Routing.RouteIsFirstMatch` | api.py:116-143 | The `if`/`elif` chain equals a first-match rule table over the lowered query: revenue, then customer, then status, then count. |
| `Routing.FirstMatchPicksFirst` | api.py:118-138 | The table picks the kind of the first matching group. |
| `Routing.FirstMatchNone` | api.py:141-143 | With no group matching, the table gives the overview. |
| `Routing.RouteCases` | api.py:116-143 | Each report is chosen iff its group matches and no earlier group does. The overview is chosen iff no group matches. |
| `Routing.RouteIgnoresCase` | api.py:116 | The query's case does not change the route. |
| `Routing.RouteMatchesInsideWords` | api.py:118 | Keywords match as substrings: "Monthly SUMMARY" is a revenue query because of "sum". |
| `LocalAnalysis.AsWrittenRejectsDottedAmount` | api.py:108 | As written, one amount `"1.2.3"` makes the free analysis fail with a float conversion error. |
| `LocalAnalysis.AsWrittenAgreesOtherwise` | api.py:97-143 | Without such an amount, the as-written analysis and the corrected one give the same result. |
| `LocalAnalysis.AnalysisOutcome` | api.py:97-143 | The corrected analysis (amounts `float` cannot read are left out of the sums) fails iff the model is unavailable, or there are no invoices and the report is one that divides by the invoice count (every report but the customer report). On success the kind follows the routing, the counts are consistent, and only the customer report carries the per-customer map, keyed by exactly the customers. |
| `LocalAnalysis.AnalyzeWithTransformers` | api.py:97-143 | The method, with the `top_customers` loop, computes `Analysis`. |
| `Summary.BuildSummary` | api.py:244-251 | The `+=` loop builds exactly the concatenation of the summary entries. |
| `Summary.SummaryLayout` | api.py:244-251 | There is a header, then `min(n,10)` invoice entries made from the first invoices in order, then the "more" entry only when `n > 10`. |
| `Summary.SummaryNumbering` | api.py:247-248 | Entry k starts with the number k iff 1 <= k <= min(n,10). No other entry starts with a number. That entry k is built from invoice k is stated once, by `Summary.SummaryLayout`. |
| `Summary.ListedEntryNotMore` | api.py:245-249 | The header and the numbered invoice entries never start with "... and ". |
| `Summary.MoreEntryIffOverLimit` | api.py:250-251 | A "... and N more invoices" entry exists iff n > 10, and then it states n - 10. |
| `Summary.HeaderStatesCount` | api.py:244-245 | The number read back from the header is the invoice count. |
| `Summary.PromptCarries` | api.py:254-261 | The prompt holds the summary and then the query verbatim, followed by the fixed instructions. |
| `Service.KeyMaterialAsWrittenCollides` | api.py:71-74 | Take posted CSV with no white space at either end and a line break, whose rows have the five columns. The requests ("q:y", csv) and ("q", "y:" + csv) differ, both load, and as written they hash the same text, so they share a cache key. |
| `Service.CsvLongEnough` | api.py:215-216 | Posted CSV holding a line break, with no white space at either end, passes the two-line check. |
| `Service.CollidingCsvLoads` | api.py:215-216 | The example CSV `z,invoice_id,customer,amount,paid_at,status` / `0,I1,Acme,10,,Paid` meets the collision's conditions on the text. |
| `Service.KeyMaterialInjective` | api.py:71-74 | With the query's length in front, different requests hash different texts. |
| `Service.KeysNeverCoincide` | api.py:319-333 | A paid key is a 64-character digest and a free key is "free_" plus a digest (69 characters), so the two never coincide. `query_hash` is the key's first 8 characters; for a free key that is "free_" and 3 hex digits. |
| `Service.CacheStepContract` | api.py:240-277 | A cached key returns the stored reply and skips the step. A success on a new key stores exactly that entry with `invoices_analyzed` = count and `query_hash` = key[:8]. A failure leaves the cache unchanged. No entry is ever removed or replaced. |
| `Service.CacheStepRepeat` | api.py:240-241 | After a success, the same key is served from the cache whatever the step would do next. |
| `Service.PaidRepeatIsCached` | api.py:236-277 | Repeating a successful `/analyze` request returns the same reply, leaves the cache unchanged and does not call the model. |
| `Service.FreeRepeatIsCached` | api.py:318-338 | Repeating a successful `/analyze-free` request returns the same reply, leaves the cache unchanged and does not run the analysis. |
| `Service.PaidKeepsApart` | api.py:263-277 | `/analyze` keeps the cache well formed and answers only with model text. A new reply counts the records loaded. |
| `Service.FreeKeepsApart` | api.py:325-338 | `/analyze-free` keeps the cache well formed and answers only with local reports. A new reply counts the records loaded. |
| `Service.ResponseCache.constructor` | api.py:43 | The cache starts empty. |
| `Service.ResponseCache.AnalyzeInvoices` | api.py:204-280 | The endpoint computes `PaidStep` on the old cache and keeps the cache invariant. |
| `Service.ResponseCache.AnalyzeInvoicesFree` | api.py:289-341 | The endpoint computes `FreeStep` on the old cache and keeps the cache invariant. |
| `Service.ResponseCache.Store` | api.py:268-277 | The miss path: on success, store the reply under the key and return it; otherwise return the error and leave the cache unchanged. |

## Findings

| source | as written | input that shows it | evidently intended | confidence | as-written member | corrected member |
|---|---|---|---|---|---|---|
| api.py:108 | amounts that pass `replace('.','').isdigit()` are given to `float`, which raises on more than one dot, so `/analyze-free` replies 500 | an invoice with amount `"1.2.3"` | the guard lets through only amounts `float` can read | not executed; high | `LocalAnalysis.AsWrittenRejectsDottedAmount` | `LocalAnalysis.AnalysisOutcome` |
| api.py:73 | the hashed text is `f"{query}:{csv_data}"`, so a colon in the query can shift into the CSV and two different requests share a cache entry | query "q:y" with CSV `z,invoice_id,customer,amount,paid_at,status\n0,I1,Acme,10,,Paid`, and query "q" with the same CSV behind "y:" (its first column becomes `y:z`). Both load, since the extra column is ignored, and both hash `q:y:z,invoice_id,…` | each (query, CSV) pair gets its own key | not executed; medium | `Service.KeyMaterialAsWrittenCollides` | `Service.KeyMaterialInjective` |

## Left out

- The FastAPI app, CORS middleware, route decorators, the `/`, `/invoices` and `/health` endpoints, and the `uvicorn` start-up: these are web plumbing.
- `call_llm`, the Anthropic and OpenAI clients and the `tenacity` retry policy: these are network calls. A function from the prompt to a text or a failure stands in for them, retries included.
- Loading the sentence-transformers model: this is a foreign ML library, reduced to `ModelState`.
- The SHA-256 computation: the hash is an uninterpreted function into 64-character digests.
- `csv.DictReader` and reading `invoices.csv`: this is a library and file I/O. The rows and the file's text are inputs. The file is modelled as one snapshot, so the source's separate existence checks at lines 81 and 230 cannot disagree.
- Rows shorter or longer than the header (`DictReader` puts `None` values or a `None` key in them) cannot be written as `map<string, string>`, so they are not modelled.
- All float work: `total_amount`, per-customer sums, averages, the payment rate, `:,.2f` formatting, the sort by revenue and the top-five cut. The report text itself is also not modelled. A `Report` value carries the counts and the amount strings instead.
- `LocalAnalysis.AnalyzeWithTransformers`: it uses the corrected amount filter, so an amount `float` cannot read (such as `"1.2.3"`) is left out of the sums instead of raising (see "## Findings", api.py:108). The as-written behaviour is `LocalAnalysis.AnalysisAsWritten`, and `AsWrittenAgreesOtherwise` shows the two differ only on amounts with two or more dots.
- `Service.ResponseCache.AnalyzeInvoicesFree`: it differs from api.py:289-341 in two ways. Through `FreeStep` it runs the corrected `LocalAnalysis.Analysis`, so an amount such as `"1.2.3"` gets a report where the source replies 500 (api.py:108, 340-341). Its key hashes the length-prefixed `KeyMaterial`, not `f"{query}:{csv}"` (api.py:73). Both follow "## Findings".
- `Service.ResponseCache.AnalyzeInvoices`: both endpoints derive keys from the corrected key text (`KeyMaterial`, length-prefixed), not from the source's `query:csv`, which `KeyMaterialAsWrittenCollides` models.
- The summary's shape is stated on entries, not on text lines. A field read from the file can hold a newline, so the text the source builds can have more lines than entries. "Lists exactly `min(n, 10)` invoices" holds for entries only.
- Case and digits are ASCII. `lower()` lowers only `A`-`Z`, and `isdigit()` accepts only `0`-`9`. Python's Unicode digits and case mappings are not modelled. `strip()` uses Python's full white-space set.
- HTTP error details are a `Reason` value, not the `detail` text. A strict-record failure on posted CSV is an unhandled exception in the source, so it is modelled as FastAPI's default status 500.
- Concurrent requests: the handlers are async, but the model runs one request at a time against the cache.
