# stock-analyzer core model

A Dafny model of the deterministic core of stock-analyzer, a Japanese-equity analysis
system. Its Python backend imports symbols and daily prices from the exchange listing
and a market-data provider into PostgreSQL, scores technical indicators, writes XML
reports, asks an LLM for recommendations and serves them through a web API. Its React
frontend collects the recommendation parameters, shows them for confirmation and pages
through the recommendation history.

The model covers, one module per concern:

- **Price ingestion.** `Prices` holds what the importers share: the trading-day gate over day numbers, the paced fetch with rate-limit retry and uncapped exponential backoff, row assembly, the insert-if-absent write and the watermark.
  - `BatchImporter` is the current per-symbol step in `backend/batch/stock_data_importer.py`, identical in `backend/src/batch/`.
  - `LegacyImporter` is the earlier step in `backend/stock_data_importer.py`.
  - `InitialImporter` is the original one-shot script, `stock_data_importer.py`.
  - The database is a class with a committed price table and watermarks.
  - Each step is a method proved against a function of the old state, and the run is a loop with a success counter.
- **Symbol catalog.**
  - `SymbolCatalog` is the batched insert-or-replace of the exchange listing, with its per-row fallback.
  - `SymbolSampler` is the required-plus-sampled selection and the profile upsert.
  - Both run over `Transactions`, a model of a psycopg2 connection: a failed statement aborts the transaction, a commit on an aborted transaction rolls back, and savepoints are supported.
- **Indicators.**
  - `Indicators` covers the golden/dead cross predicates, the MACD score, the per-symbol scoring loop and the upserting indicator store.
  - `LegacyIndicators` is the delete-then-insert writer.
- **Report.** `Report` is the XML element tree of one stock entry and the report file's header and footer.
- **AI glue.**
  - `LlmResponse` extracts the JSON candidate from an LLM reply.
  - `QualityRating` is the risk/return classifier.
  - `RecommendationData` covers symbol normalisation, the fetch helpers, prompt lookup and the rows a saved recommendation becomes.
  - `Recommender` is the result unwrapping and save dispatch of `recommend_stocks`.
- **Web API.** `Api` covers sort validation, the WHERE clauses of the stock list and of the recommendation preparation, with a row-level meaning of the SQL text, the history sort parser and the offset.
- **Frontend.**
  - `JsValues` models JavaScript values, truthiness and JSON.stringify.
  - `RequestTransform` is the request transform.
  - `ParamDisplay` is the two confirmation dialogs' parameter text.
  - `StockSelection` is the stock selection.
  - `RecommendationForm` is the form and its filter object.
  - `RecommendationHistory` is the history page's state and query.

The provider, the holiday calendar, the database's failures, the clock, random jitter and the browser's number formatting are parameters of the model. Dates are integer day numbers, with the weekday taken from the day number.

## Model

| member | source | states |
|---|---|---|
| Api.ValidateStockSort | backend/src/api.py:67-85 | a 400 exactly when sort_by is outside the nine listed columns or sort_order is not asc/desc in any case; a 500 when the order is missing (None has no lower()); otherwise the column is kept and the order becomes ASC or DESC according to the given text |
| Api.WhereText | backend/src/api.py:267 | the WHERE text is empty exactly when there are no clauses |
| Api.WhereTextSnoc | backend/src/api.py:98-101 | adding a clause starts the WHERE text or appends " AND " and the clause to it |
| Api.WhereTextIsTokens | backend/src/api.py:267 | the WHERE text is exactly the flat run of operands joined by AND and OR that SQL reads |
| Api.UnitsMeanConjunction | backend/src/api.py:267 | a WHERE text of single atoms or parenthesised groups selects a row exactly when every clause holds |
| Api.SearchFirstMeaning | backend/src/api.py:94 | with the unparenthesised search clause first, a row is selected when its symbol matches, or when its name matches and every later clause holds |
| Api.Grouped | backend/src/api.py:94 | the parenthesised form keeps every clause's atoms and their order |
| Api.GroupedMeansConjunction | backend/src/api.py:94 | with multi-atom clauses parenthesised, the text selects a row exactly when every clause holds |
| Api.SearchTerm | backend/src/api.py:92-93 | the bound search term is the stripped search between two '%', one character per character, each lower-cased; it has no upper-case letter and no white space at either end of the search text |
| Api.LikePattern | backend/src/api.py:93 | a text with no white space at either end, lower-cased between two delimiters (here '%'), keeps its characters one place along, lower-cased, with no upper-case letter and no white space at its ends |
| Api.StockClauses | backend/src/api.py:90-111 | no clause exactly when none of search, industry, scale is given (non-blank); the search clause comes first when given; the industry and scale clauses are present exactly when their parameter is given |
| Api.Bound | backend/src/api.py:97-111 | a filter value is bound exactly when the parameter is given, as its stripped text, which is then non-empty |
| Api.ParamsFor | backend/src/api.py:90-111 | the bound parameters: the search term exactly when a search is given, and the stripped industry and scale codes |
| Api.AddCondition | backend/src/api.py:97-110 | one filter block of get_stocks: the condition afterwards is the WHERE text of the clause list extended by the block's atom, whether the condition was empty or not |
| Api.BuildStockFilter | backend/src/api.py:88-111 | the condition built with `+=` is the WHERE text of the clause list StockClauses |
| Api.StockFilterAsWritten | backend/src/api.py:90-111 | with a search given, the condition selects a row whose symbol matches whatever its industry and scale, and otherwise a row whose name matches and which passes every given filter |
| Api.StockFilterGrouped | backend/src/api.py:90-111 | with the search clause parenthesised, a row is selected exactly when the search matches and every given filter holds |
| Api.SearchBypassesIndustry | backend/src/api.py:94-101 | a row of another industry whose symbol matches the search is listed as written and dropped once the search clause is parenthesised |
| Api.Str | backend/src/api.py:262 | Python's str(): a string is itself, True is "True", False "False" and None "None"; numbers, lists and dicts take the given rendering |
| Api.FilterClause | backend/src/api.py:244-265 | keys other than rsi and golden_cross add nothing; an rsi entry adds `ti.rsi op val` exactly when it is a two-element list with a truthy operator, a value that is neither None nor '' and that float() accepts; a golden_cross entry adds the golden-cross clause exactly when it is True, a pair whose second item reads "true" in any case, or a value whose text reads "true" |
| Api.FilterClauses | backend/src/api.py:245-265 | one clause at most per entry, in the dict's order, each a single atom |
| Api.PrepareClauses | backend/src/api.py:236-265 | a truthy search puts the search clause first; every other clause is a single atom from the filters |
| Api.PrepareClausesParts | backend/src/api.py:236-265 | the clause list is the search clause (when the search is truthy) followed by the filters' clauses (when the dict is non-empty) |
| Api.AppendFilters | backend/src/api.py:244-265 | the loop over technical_filters extends the clause list by exactly the clauses of the accepted entries, in the dict's order |
| Api.BuildRecommendationFilter | backend/src/api.py:236-267 | the loop builds where_sql as the WHERE text of PrepareClauses, and binds the search term exactly when the search is truthy |
| Api.RecommendationFilterAsWritten | backend/src/api.py:240-267 | with a search, a symbol match alone selects the row, and the RSI and golden-cross clauses bind to the name match only |
| Api.RecommendationFilterGrouped | backend/src/api.py:240-267 | with the search clause parenthesised, a row is selected exactly when the search matches and every filter clause holds |
| Api.FormFiltersAccepted | backend/src/api.py:244-265 | the RSI pair and the golden-cross pair ['==', 'true'] the form sends both yield their clause, in order |
| Api.OperatorNotValidated | backend/src/api.py:250-255 | any non-empty operator of an RSI entry is spliced into the SQL text as given |
| Api.BlankSearchDiffers | backend/src/api.py:91 | a whitespace-only search adds no clause in get_stocks but adds the search clause, with the term "%%", in prepare_recommendations |
| Api.ParseHistorySortAsWritten | backend/src/api.py:608-618 | an accepted sort has a whitelisted field and an asc/desc order; without '_' the sort is accepted exactly when the whole text is a whitelisted field; with '_' an accepted sort splits on '-' into exactly its field and order |
| Api.ParseHistorySort | backend/src/api.py:608-618 | the corrected parser accepts only whitelisted fields with an asc/desc order |
| Api.HistorySortRoundTrip | backend/src/api.py:608-618 | the corrected parser reads back every "field-order" the history page can send for a whitelisted field |
| Api.HistorySortExtends | backend/src/api.py:608-618 | the corrected parser accepts every sort the written one accepts, with the same result |
| Api.PageSortRejected | backend/src/api.py:608-618 | as written, "principal-…" and "strategy-…" are refused, while the corrected parser accepts them |
| Api.DefaultSortRejected | backend/src/api.py:597-618 | the endpoint's own default "date_desc" is refused by its parser |
| Api.UnderscoreFieldAccepted | backend/src/api.py:608-618 | "generated_at-…" and "risk_tolerance-…" are accepted as written |
| Api.HistoryFilters | backend/src/api.py:629-639 | each of start_date, end_date and strategy adds its clause (`generated_at >= :start_date`, `generated_at <= :end_date`, `strategy = :strategy`) and binds its value exactly when truthy, in that order, and no other parameter is bound |
| Api.Offset | backend/src/api.py:650 | the offset is never negative from page 1 on and is 0 on page 1 |
| Api.OffsetNextPage | backend/src/api.py:650 | consecutive pages start limit rows apart |
| Api.History | backend/src/api.py:603-686 | the history is listed exactly when the sort parses, the database does not fail and PostgreSQL accepts the LIMIT and OFFSET (neither negative), with the parsed sort and the page's non-negative offset; every failure, the sort's 400 and an unvalidated page or limit included, is answered with a 500 and an empty sessions list |
| Api.PagingRefusals | backend/src/api.py:650-666 | a page before the first with a positive limit, or a negative limit, ends in the 500; from page 1 on with a non-negative limit, and with limit 0 on any page, LIMIT and OFFSET are accepted |
| Api.RejectedSortIsServerError | backend/src/api.py:621-626 | the page's "principal-desc" is answered with a 500, never with the 400 the handler raises |
| BatchImporter.Decide | backend/batch/stock_data_importer.py:75-173 | a symbol's step ends in a read error, a same-day skip, a no-trading-day skip, a fetch error, no data, a bad volume, a write error, or stored rows, and every stored row belongs to that symbol |
| BatchImporter.OnlyStoreWrites | backend/batch/stock_data_importer.py:155-173 | only a committed step changes the database; every skip and failure leaves it as it was |
| BatchImporter.SameDaySkips | backend/batch/stock_data_importer.py:85-91 | a watermark dated today skips the symbol as a success without touching the database |
| BatchImporter.GateDecides | backend/batch/stock_data_importer.py:93-107 | with a watermark, the step skips for want of a trading day exactly when no trading day lies in (watermark, today]; a watermark after today always skips |
| BatchImporter.WeekendGate | backend/batch/stock_data_importer.py:98-107 | a Friday watermark skips on the Sunday after and fetches on the Monday when no holiday intervenes |
| BatchImporter.RequestShape | backend/batch/stock_data_importer.py:85-120 | without a watermark the gate is bypassed and three years are requested; with one, the request starts the day after it |
| BatchImporter.StoreFrame | backend/batch/stock_data_importer.py:155-172 | a committed step keeps every stored bar, adds bars of its own symbol only, and moves only its own watermark, to the stored outcome's date |
| BatchImporter.WatermarkIsLastRow | backend/batch/stock_data_importer.py:141-169 | the new watermark is the date of the provider's last row, and moves strictly forward when the provider honours the requested start day |
| BatchImporter.LastRowIsLatestWhenAscending | backend/batch/stock_data_importer.py:143-144 | the last row's date is the latest one when the answer is in ascending date order |
| BatchImporter.RestoreAddsNothing | backend/batch/stock_data_importer.py:156-162 | re-inserting the same rows after a committed step adds and changes nothing (ON CONFLICT DO NOTHING) |
| BatchImporter.ProcessCommutes | backend/batch/stock_data_importer.py:206-215 | the steps of two different symbols commute, in the database and in their outcomes, so the order the workers finish in does not matter |
| BatchImporter.ProgressLoggedAtEnd | backend/batch/stock_data_importer.py:191-218 | progress is logged after the last symbol, and after every symbol when there are fewer than 20 |
| BatchImporter.ProcessAsWritten | backend/batch/stock_data_importer.py:175-184 | as written, an exception leaves process_ticker exactly when the watermark read fails; otherwise its result is the step's success |
| BatchImporter.HandledAll | backend/batch/stock_data_importer.py:208-215 | one handled result per submitted symbol |
| BatchImporter.CountResultsAsWritten | backend/batch/stock_data_importer.py:229-252 | the result loop reports nothing exactly when some step's exception escaped; otherwise it reports the number of steps that returned True |
| BatchImporter.ReadFailureLosesReport | backend/batch/stock_data_importer.py:175-184 | one failing watermark read anywhere in the list makes its step escape, so the run ends without a success count |
| BatchImporter.ReadFailureCountsAsFailure | backend/batch/stock_data_importer.py:175-184 | with the handler corrected, a failed read is a failed step that leaves the database unchanged and counts 0 of 1 |
| BatchImporter.ProcessTicker | backend/batch/stock_data_importer.py:68-187 | with the exception handler as intended (a failed watermark read counts as a failure), the step's outcome and the new database are those of Decide and Commit on the old database; the result is True exactly for the skips and the committed store |
| BatchImporter.ImportAll | backend/batch/stock_data_importer.py:205-240 | with the intended handler, the database after the run and the success count are those of the steps taken one after another in query order |
| SymbolCatalog.Ticker | backend/batch/stock_symbol_importer.py:26 | the ticker is the code's text followed by ".T" |
| SymbolCatalog.Upsert | backend/batch/stock_symbol_importer.py:66-85 | INSERT ... ON CONFLICT (symbol) DO UPDATE stores the listing under its ticker, adds exactly that key, keeps an existing row's price watermark (NULL for a new row) and leaves every other ticker's row alone |
| SymbolCatalog.UpsertAllAppend | backend/batch/stock_symbol_importer.py:46-128 | upserting two runs of listings one after the other is upserting their concatenation |
| SymbolCatalog.UpsertAllLastWins | backend/batch/stock_symbol_importer.py:74-84 | the listing of a ticker's last occurrence is the one stored |
| SymbolCatalog.UpsertAllKeeps | backend/batch/stock_symbol_importer.py:74-84 | a ticker no listing mentions keeps its row |
| SymbolCatalog.Good | backend/batch/stock_symbol_importer.py:92-128 | a listing is kept exactly when it is in the input and its own statement does not fail; no more of them than input rows |
| SymbolCatalog.GoodCounts | backend/batch/stock_symbol_importer.py:92-128 | each listing whose statement does not fail is kept as many times as the input holds it, and a failing one never |
| SymbolCatalog.GoodAppend | backend/batch/stock_symbol_importer.py:92-128 | the kept listings of consecutive parts are those of each part in turn, so the input order is kept |
| SymbolCatalog.BatchAt | backend/batch/stock_symbol_importer.py:44-47 | the batch at offset i is rows [i, min(i + 100, total)): at most 100 rows, at least one while rows remain |
| SymbolCatalog.BatchesPartition | backend/batch/stock_symbol_importer.py:44-47 | the batches cover every row exactly once, in order, each holding 1 to 100 rows |
| SymbolCatalog.ExecuteMany | backend/batch/stock_symbol_importer.py:66-85 | executemany never commits by itself |
| SymbolCatalog.ExecuteManyOutcome | backend/batch/stock_symbol_importer.py:65-86 | on a usable transaction, executemany succeeds exactly when no statement of the batch fails, and then the whole batch is pending |
| SymbolCatalog.FallbackAsWrittenStopsAtFailure | backend/batch/stock_symbol_importer.py:92-128 | as written, the per-row fallback commits the rows before the first failing one and nothing after it, leaving the transaction aborted |
| SymbolCatalog.AbortedFallback | backend/batch/stock_symbol_importer.py:127-128 | once a fallback statement failed without a rollback, no later row of the batch changes anything |
| SymbolCatalog.FallbackAsWrittenLosesGoodRow | backend/batch/stock_symbol_importer.py:92-128 | with a failing listing followed by a sound new one, the sound one is lost as written and saved by the corrected fallback |
| SymbolCatalog.FallbackSavesGoodRows | backend/batch/stock_symbol_importer.py:92-128 | with each failed row rolled back, the fallback commits exactly the rows that do not fail themselves and leaves the connection clean |
| SymbolCatalog.BatchStepSavesGoodRows | backend/batch/stock_symbol_importer.py:64-128 | with the corrected fallback, a batch, whether executemany succeeds or the fallback runs, ends with exactly its good rows committed |
| SymbolCatalog.ImportFromSavesGoodRows | backend/batch/stock_symbol_importer.py:46-128 | with the corrected fallback, the batches from an offset on commit exactly the good rows from that offset, in order |
| SymbolCatalog.ImportSavesGoodRows | backend/batch/stock_symbol_importer.py:43-131 | with the corrected fallback, the whole import leaves the catalog holding every listing whose own statement succeeds, upserted in spreadsheet order, and the connection clean |
| SymbolCatalog.RunFallback | backend/batch/stock_symbol_importer.py:92-128 | the corrected fallback loop, which rolls back each failed row, leaves the connection in the state Fallback gives |
| SymbolCatalog.RunMany | backend/batch/stock_symbol_importer.py:66-85 | the executemany loop gives ExecuteMany's connection and result |
| SymbolCatalog.ImportListings | backend/batch/stock_symbol_importer.py:43-131 | with the corrected fallback, the batch loop and the final commit leave the connection in the state Import gives |
| RecommendationData.Normalize | backend/src/aiagent/data_access.py:162-166 | an empty symbol stays empty; a symbol ending in ".T" is kept; any other gets ".T" appended, so every non-empty result ends in ".T" |
| RecommendationData.NormalizeIdempotent | backend/src/aiagent/data_access.py:162-166 | normalising twice is normalising once |
| RecommendationData.QuerySymbols | backend/src/aiagent/data_access.py:15 | every entry of the query list is the normalisation of a non-empty string input, so falsy and non-string symbols are dropped; every non-empty string input appears in it normalised; it is never longer than the input |
| RecommendationData.QuerySymbolsStable | backend/src/aiagent/data_access.py:15 | filtering an already filtered list again changes nothing |
| RecommendationData.AsJson | backend/src/aiagent/data_access.py:15 | the symbols as JSON strings, one per symbol |
| RecommendationData.QuerySymbolsAppend | backend/src/aiagent/data_access.py:15 | filtering distributes over concatenation |
| RecommendationData.FetchText | backend/src/aiagent/data_access.py:9-28 | with no usable symbol no query is made and the text is ""; otherwise it is the query's rendered result, "" for an empty one |
| RecommendationData.FetchNews | backend/src/aiagent/data_access.py:30-66 | always one news item; the default market item exactly when no usable symbol remains or no company matches; otherwise an item titled after the first company |
| RecommendationData.GetPromptTemplate | backend/src/aiagent/data_access.py:120-156 | an unknown id gives the built-in default template; a stored one gives its texts, a NULL system role read as "" |
| RecommendationData.Confidence | backend/src/aiagent/data_access.py:212 | a falsy confidence (0 included) is stored as NULL; a non-zero number is divided by 100; a truthy value that is neither number nor boolean raises |
| RecommendationData.RowFor | backend/src/aiagent/data_access.py:204-214 | a result row is built exactly when the entry is a dict with a string symbol and a divisible confidence; it belongs to the session, carries the normalised symbol, and defaults name, allocation and reason to "" |
| RecommendationData.RowsFor | backend/src/aiagent/data_access.py:204-214 | the rows are built exactly when every entry's row is, one per entry in order |
| RecommendationData.Recommendations | backend/src/aiagent/data_access.py:203-204 | without the key nothing is iterated; a non-empty iteration is over the items of a list stored under the key |
| RecommendationData.SessionFor | backend/src/aiagent/data_access.py:186-194 | the session row carries the new id, the raw response, the total return estimate (-1 when missing) and the technical filter (NULL when missing) |
| RecommendationData.Saved | backend/src/aiagent/data_access.py:168-220 | a session is saved exactly when the parameters can be read, the recommendations can be iterated and every row can be built; then it is SessionFor with RowsFor's rows |
| RecommendationData.SavedRowsShape | backend/src/aiagent/data_access.py:203-214 | every saved row belongs to the new session and carries a normalised symbol; one row per recommendation, none without the key |
| RecommendationData.RecommendationStore.constructor | backend/src/aiagent/data_access.py:184 | the tables start with the given rows and the serial sequence at a value above every stored session id |
| RecommendationData.SaveRecommendation | backend/src/aiagent/data_access.py:168-220 | in one transaction: once the parameters are read, the session insert draws the next serial value, which is not returned on rollback; success exactly when Saved with that id gives rows and the database does not fail, then the session and its rows are appended and the new id exceeds every earlier one; otherwise both tables are unchanged; every stored id stays below the sequence |
| RecommendationForm.InitialState | frontend/src/RecommendationForm.tsx:16-27 | the form opens with principal 1000000, medium risk, the growth strategy, empty symbols and search, no RSI operator or value and the golden-cross box unticked |
| RecommendationForm.HandleChange | frontend/src/RecommendationForm.tsx:29-32 | the named input takes the new value and every other field and control keeps its value |
| RecommendationForm.ChangeKeepsFields | frontend/src/RecommendationForm.tsx:29-32 | editing one of the form's own inputs keeps exactly the same set of fields |
| RecommendationForm.TechFilters | frontend/src/RecommendationForm.tsx:35-47 | the filter object has an "rsi" entry [operator, parseFloat(value)] exactly when both RSI controls are filled, a "golden_cross" entry ['==', 'true'] exactly when the box is ticked, and no other entry |
| RecommendationForm.Submit | frontend/src/RecommendationForm.tsx:49-56 | the submitted parameters are the form's fields plus the filter object, with no agent type and no prompt id |
| RecommendationForm.SentFiltersShape | frontend/src/RecommendationForm.tsx:35-47 | once encoded as JSON the filters are the RSI pair, if set, followed by the golden-cross pair, if ticked |
| RecommendationForm.SubmittedFiltersApplied | frontend/src/RecommendationForm.tsx:35-56 | an RSI filter with a number reaches the backend's filter builder as an RSI comparison with the chosen operator, followed by the golden-cross clause exactly when the box is ticked |
| RecommendationForm.NaNRsiDropped | frontend/src/RecommendationForm.tsx:38-40 | an RSI value that parses to NaN is sent as null and the backend drops the RSI filter without an error, keeping only the golden cross if ticked |
| RecommendationForm.SubmittedFiltersShown | frontend/src/RecommendationForm.tsx:35-47 | with the form's '<' or '>' operator and a number, the current confirmation dialog shows the RSI comparison and then the golden cross exactly as chosen |
| RecommendationForm.HiddenOperatorStillApplied | frontend/src/RecommendationForm.tsx:135-137 | an operator other than the form's two is hidden by the current dialog yet still turned into a filter clause by the backend |
| RecommendationForm.InitialSubmission | frontend/src/RecommendationForm.tsx:16-56 | submitting the untouched form requests a principal of 1000000 with medium risk, the growth strategy, the direct agent, no symbol list and an empty filter object that yields no filter clause |
| RecommendationHistory.SortOrder | frontend/src/RecommendationHistory.tsx:75 | the order read back from a sort string is present exactly when splitting on '-' gives at least two parts |
| RecommendationHistory.NextSort | frontend/src/RecommendationHistory.tsx:74-78 | a header click sorts by the clicked column; another column is sorted descending, the same column flips asc to desc and anything else to asc |
| RecommendationHistory.ReadBack | frontend/src/RecommendationHistory.tsx:75-77 | a sort the page writes splits back into its column and its order |
| RecommendationHistory.SameColumnFlips | frontend/src/RecommendationHistory.tsx:76 | clicking the sorted column flips its order |
| RecommendationHistory.OtherColumnDescending | frontend/src/RecommendationHistory.tsx:76 | clicking another column sorts it descending |
| RecommendationHistory.ClickTwiceRestores | frontend/src/RecommendationHistory.tsx:74-78 | clicking the sorted column twice restores the sort |
| RecommendationHistory.ClickKeepsForm | frontend/src/RecommendationHistory.tsx:74-88 | a click on a listed column keeps the sort of the form column-asc or column-desc |
| RecommendationHistory.PageSortsRefused | frontend/src/RecommendationHistory.tsx:82-84 | every sort the page sends for the principal and strategy columns is refused by the endpoint as written and accepted by the intended parser |
| RecommendationHistory.UnlistedColumnsRefused | frontend/src/RecommendationHistory.tsx:80-88 | a column the endpoint does not list is refused by both parsers |
| RecommendationHistory.DefaultSortAccepted | frontend/src/RecommendationHistory.tsx:33 | the page's default sort "generated_at-desc" is accepted as written, as generated_at descending |
| RecommendationHistory.FilterLabel | frontend/src/RecommendationHistory.tsx:191-193 | no filter or an empty one reads なし; otherwise the label is the first at most 15 characters of the filter followed by "...", whatever its length |
| RecommendationHistory.HistoryPage.constructor | frontend/src/RecommendationHistory.tsx:28-36 | the page opens on page 0 with 10 rows, the default sort and no filters |
| RecommendationHistory.HistoryPage.ChangePage | frontend/src/RecommendationHistory.tsx:65-67 | only the page changes |
| RecommendationHistory.HistoryPage.ChangeRowsPerPage | frontend/src/RecommendationHistory.tsx:69-72 | the page size changes and the page returns to 0; sort and filters are kept |
| RecommendationHistory.HistoryPage.SortChange | frontend/src/RecommendationHistory.tsx:74-78 | the sort becomes the next sort for the clicked column and nothing else changes |
| RecommendationHistory.HistoryPage.ChangeFilters | frontend/src/RecommendationHistory.tsx:104-126 | the date and strategy filters take the chosen values (one control's setter is the call that passes the other two unchanged); page, size and sort are kept |
| RecommendationHistory.HistoryPage.Request | frontend/src/RecommendationHistory.tsx:42-49 | the query sent is the query of the current state |
| RecommendationHistory.QueryParams | frontend/src/RecommendationHistory.tsx:42-49 | the query holds the 1-based page, the page size and the sort first, then the start date, end date and strategy, each only when set |
| RecommendationHistory.Sent | frontend/src/RecommendationHistory.tsx:46-48 | a filter contributes its entry only when it is set |
| RecommendationHistory.QueryFilters | frontend/src/RecommendationHistory.tsx:42-49 | each optional filter is in the query exactly when it is set, and the strategy, when set, is the last entry with its value |
| RecommendationHistory.RequestedOffset | frontend/src/RecommendationHistory.tsx:43 | the 1-based page sent makes the endpoint skip exactly the rows of the earlier pages |
| RecommendationHistory.StrategyFilterApplied | frontend/src/RecommendationHistory.tsx:48 | the endpoint filters by strategy exactly when the page sends one, with the value sent |
| Indicators.Crosses | backend/technical_indicators.py:10-18 | one golden and one dead flag per row; a row is a golden cross exactly when it is not the first, its short average is above the long one, and on the row before it was at or below (a dead cross mirrors this), any NaN comparison being False |
| Indicators.CrossesExclusive | backend/technical_indicators.py:16-17 | no row is both a golden and a dead cross, and no two consecutive rows are both golden or both dead crosses |
| Indicators.GoldenIsUpwardCrossing | backend/technical_indicators.py:16-17 | with both averages known, a golden cross is exactly the short average moving from not-above to above the long one, and a dead cross from not-below to below |
| Indicators.MacdScore | backend/technical_indicators.py:45-74 | the score lies in 0..6 (0..5 without a previous histogram); a golden cross gives at least 3 and its absence at most 3; a non-positive histogram with no previous value scores only the cross |
| Indicators.GoldenAddsThree | backend/technical_indicators.py:60-61 | a golden cross adds exactly 3 whatever the histogram |
| Indicators.HistogramTerms | backend/technical_indicators.py:63-72 | with a previous value a rising histogram adds 2; without one a positive histogram counts twice |
| Indicators.PreviousHistogram | backend/technical_indicators.py:103 | the previous histogram is missing exactly on the first row and is the row before's otherwise |
| Indicators.ScoreOf | backend/technical_indicators.py:97-106 | every row's score lies in 0..6, the first row's in 0..5 |
| Indicators.ScoreSymbol | backend/technical_indicators.py:89-107 | the scoring loop writes the cells of exactly this symbol's dates, leaves every other cell alone, and gives each row that is the last of its date its own score |
| Indicators.ScoreAll | backend/technical_indicators.py:88-107 | over distinct symbols, the column holds exactly the cells of the symbols' dates, each row that is the last of its date holding its own score |
| Indicators.UpsertAll | backend/technical_indicators.py:114-128 | INSERT ... ON CONFLICT DO UPDATE stores exactly the old keys plus the records' keys |
| Indicators.UpsertAllLastWins | backend/technical_indicators.py:120-127 | a record's values are stored under its key when no later record has that key |
| Indicators.UpsertAllKeeps | backend/technical_indicators.py:114-128 | keys no record mentions keep their row |
| Indicators.UpsertAllIdempotent | backend/technical_indicators.py:111-129 | storing the same batch twice leaves the table as storing it once |
| Indicators.LastIndexOf | backend/technical_indicators.py:120-127 | the last record carrying a key lies at or after a known one and no later record carries it |
| Indicators.ToRecord | backend/technical_indicators.py:109 | the stored record is keyed by symbol and date and carries the histogram and the score |
| Indicators.IndicatorStore.constructor | backend/technical_indicators.py:111 | the table starts with the given rows |
| Indicators.IndicatorStore.BatchStore | backend/technical_indicators.py:111-132 | in one transaction: success exactly when nothing fails, and then the table is UpsertAll of the batch; a failure rolls everything back |
| InitialImporter.TickerRows | stock_data_importer.py:33-53 | a symbol contributes rows only when its call answers and every volume converts, and every row carries that symbol |
| InitialImporter.ImportAllShape | stock_data_importer.py:31-56 | the run reaches its commit exactly when every symbol's call and every row conversion succeed; then no stored bar is overwritten and every answered bar is stored |
| InitialImporter.ImportAllPresent | stock_data_importer.py:41-44 | when every answered bar is already stored, the run changes nothing |
| InitialImporter.RerunIdempotent | stock_data_importer.py:31-56 | a second run with the same answers leaves the table as the first left it |
| InitialImporter.InsertTicker | stock_data_importer.py:39-53 | the per-row inserts of one symbol succeed exactly when every volume converts, and then give InsertAll of its rows |
| InitialImporter.Run | stock_data_importer.py:21-56 | an empty symbol table ends the script; otherwise the commit happens exactly when nothing raises, storing ImportAll's table, and any exception leaves the stored prices untouched; watermarks are never written |
| JsValues.Lookup | frontend/src/components/RecommendationConfirmationDialog.tsx:132-144 | a property read gives undefined when no property has that name, and otherwise a value stored under that name |
| JsValues.Member | frontend/src/components/RecommendationConfirmationDialog.tsx:132-144 | reading `techFilters.rsi` or `techFilters.golden_cross` off anything but an object gives undefined |
| JsValues.At | frontend/src/components/RecommendationConfirmationDialog.tsx:133-145 | an array index gives the element inside the array and undefined past its end |
| JsValues.NumberText | frontend/src/components/RecommendationConfirmationDialog.tsx:139 | a number in a template literal reads "NaN" for NaN and the decimal text of the value otherwise |
| JsValues.ToJson | frontend/src/utils/requestTransform.ts:30-41 | the JSON the backend receives: null and NaN become null, finite numbers, booleans and strings keep their value, an array keeps its length |
| JsValues.ElementsJson | frontend/src/utils/requestTransform.ts:35-39 | array elements are encoded one for one, an undefined element as null |
| JsValues.Entries | frontend/src/utils/requestTransform.ts:39 | one entry per property whose value is not undefined, in the object's order, each its name with its value's JSON; undefined ones dropped |
| JsValues.EntriesFrom | frontend/src/utils/requestTransform.ts:39 | from a position on: one entry per remaining defined property, in order, each its name with its value's JSON |
| LegacyIndicators.RecordOf | technical_indicators.py:65-74 | a frame row becomes a record keyed by its symbol and index date, with histogram and score left NULL |
| LegacyIndicators.DeleteSymbol | technical_indicators.py:60-61 | the DELETE keeps exactly the rows of other symbols, unchanged |
| LegacyIndicators.InsertAll | technical_indicators.py:77-83 | a conflict-free plain INSERT adds exactly the records' keys, keeps every stored row, and stores each record's values |
| LegacyIndicators.Replace | technical_indicators.py:38-93 | the call reports success exactly when the frame is non-empty, the database does not fail and the insert after the DELETE has no conflicting key; a failure leaves the table unchanged |
| LegacyIndicators.Records | technical_indicators.py:64-74 | one record per frame row, in frame order |
| LegacyIndicators.ReplaceIsExact | technical_indicators.py:58-86 | after a successful replace of a one-symbol frame, that symbol's stored rows are exactly the frame's records and every other symbol's rows are untouched |
| LegacyIndicators.RepeatedDateFails | technical_indicators.py:77-90 | a frame that repeats a date can never be stored: the insert conflicts with itself and nothing changes |
| LegacyIndicators.ReplaceIdempotent | technical_indicators.py:58-86 | replacing twice with the same one-symbol frame gives the table of one replace |
| LegacyIndicators.BuildRecords | technical_indicators.py:64-74 | the loop builds exactly Records of the frame |
| LegacyIndicators.CalculateAndStore | technical_indicators.py:38-93 | the new table and the result are those of Replace on the old table |
| LlmResponse.KeptLines | backend/aiagent/deepseek_direct.py:96-97 | the kept lines are exactly the lines that are neither blank nor a `//` comment once stripped, in order |
| LlmResponse.KeptLinesAppend | backend/aiagent/deepseek_direct.py:96-97 | the filter keeps relative order: filtering a concatenation filters each part |
| LlmResponse.CleanedLines | backend/aiagent/deepseek_direct.py:96-97 | the lines of the cleaned candidate are exactly the kept lines of the extracted text, none of them blank or a comment |
| LlmResponse.ParseResponse | backend/aiagent/deepseek_direct.py:74-104 | a missing or blank reply gives the empty-response error; a non-blank reply reaches json.loads exactly when its cleaned candidate (the extracted text with comment and blank lines removed) starts with '{' and ends with '}', and that candidate is what json.loads gets; otherwise it is the invalid-structure error |
| LlmResponse.ExtractAfterMarker | backend/aiagent/deepseek_direct.py:85-88 | with the ```json marker, the candidate runs from the first '{' after the marker to the last '}' inclusive |
| LlmResponse.WholeReplyWithoutBraces | backend/aiagent/deepseek_direct.py:90-93 | without the marker, a reply lacking either brace is used whole |
| LlmResponse.MarkerWithoutBraceIsInvalid | backend/aiagent/deepseek_direct.py:85-102 | with the marker but no '{' after it, find returns -1, the slice starts at the last character, and the reply is always rejected |
| LlmResponse.NoBraceSurvives | backend/aiagent/deepseek_direct.py:96-100 | a text without '{' cannot start with one after comment removal |
| LlmResponse.Execute | backend/aiagent/deepseek_direct.py:24-44 | a missing or empty selection is refused before any data fetch or API call; otherwise the result is the call's answer, or the error it raised |
| ParamDisplay.Label | frontend/src/components/RecommendationConfirmationDialog.tsx:85-110 | a known code shows its label, an unknown string shows itself, a non-string goes through String() |
| ParamDisplay.Numeric | frontend/src/components/RecommendationConfirmationDialog.tsx:135 | a string value is parsed with parseFloat, any other value is kept |
| ParamDisplay.RsiParts | frontend/src/components/RecommendationConfirmationDialog.tsx:132-141 | the current dialog shows at most one RSI piece, and shows one exactly when the filter is an array whose operator is '>' or '<' and whose value is or parses to a number other than NaN; the piece carries ＞ for '>' and ＜ for '<' and the number's text |
| ParamDisplay.GoldenParts | frontend/src/components/RecommendationConfirmationDialog.tsx:144-150 | a golden-cross array is always shown: 有り exactly when its second element is a string reading "true" in any case or a truthy non-string, 無し exactly otherwise; a non-array shows nothing |
| ParamDisplay.JoinFilters | frontend/src/components/RecommendationConfirmationDialog.tsx:153 | the joined text is 指定なし exactly when there are no pieces, and the pieces joined with " / " otherwise |
| ParamDisplay.FiltersText | frontend/src/components/RecommendationConfirmationDialog.tsx:120-153 | 指定なし exactly when the value is not a truthy object or no filter piece is shown; otherwise the RSI piece then the golden-cross piece joined with " / " |
| ParamDisplay.LegacyRsiParts | frontend/src/components/ConfirmationDialog.tsx:80-86 | the earlier dialog shows an RSI piece exactly when the filter is an array with a truthy operator and a numeric value, NaN included, and writes ＞ only for '>' |
| ParamDisplay.LegacyFiltersText | frontend/src/components/ConfirmationDialog.tsx:68-98 | the earlier dialog's filter text: 指定なし exactly when the value is not a truthy object or no piece is shown, the pieces joined with " / " otherwise |
| ParamDisplay.Plain | frontend/src/components/RecommendationConfirmationDialog.tsx:154-155 | a falsy value shows 指定なし and a non-empty string shows itself |
| ParamDisplay.FormatParam | frontend/src/components/RecommendationConfirmationDialog.tsx:79-157 | null, undefined and '' show 指定なし for every key; risk, strategy and agent type show their labels; the principal shows its locale text followed by 円; prompt ids show "ID: n" for numbers and 指定なし otherwise; filters show FiltersText; symbols and search fall to the default case |
| ParamDisplay.LegacyFormatParam | frontend/src/components/ConfirmationDialog.tsx:43-102 | the earlier dialog: unset values show 指定なし; risk, strategy, principal and filters as the current one but with the looser RSI check; every other key, agent type and prompt ids included, falls to the default case |
| ParamDisplay.DialogsAgreeOnShownRsi | frontend/src/components/ConfirmationDialog.tsx:80-86 | whenever the current dialog shows an RSI piece the earlier one shows the same piece |
| ParamDisplay.LegacyShowsNaN | frontend/src/components/ConfirmationDialog.tsx:80-86 | an RSI value of NaN is hidden by the current dialog and shown by the earlier one as "RSI ＞ NaN" |
| ParamDisplay.LegacyMislabelsOperator | frontend/src/components/ConfirmationDialog.tsx:84 | the operator ">=" is hidden by the current dialog and shown as ＜ by the earlier one |
| ParamDisplay.GoldenFlagIgnoresCase | frontend/src/components/RecommendationConfirmationDialog.tsx:146-149 | the string "TRUE" counts as a set golden cross |
| ParamDisplay.EmptyFiltersNotSpecified | frontend/src/components/RecommendationConfirmationDialog.tsx:123-153 | the empty filter object passes the object test yet both dialogs show it as 指定なし |
| Prices.Weekday | backend/batch/stock_data_importer.py:101 | date.weekday() is always one of the seven days 0 (Monday) to 6 (Sunday) |
| Prices.ToRow | backend/batch/stock_data_importer.py:144-153 | a bar converts to an insert tuple exactly when its volume is a number (int() of NaN raises), keyed by the symbol and the bar's date |
| Prices.ToRows | backend/batch/stock_data_importer.py:141-153 | the whole answer converts exactly when every volume does, into one tuple per bar, in provider order, each keyed by the symbol and that bar's date |
| Prices.InsertAll | backend/batch/stock_data_importer.py:156-162 | INSERT ... ON CONFLICT (symbol, date) DO NOTHING keeps every stored bar and stores exactly the old keys plus the rows' keys |
| Prices.ToRowsKeys | backend/batch/stock_data_importer.py:145-147 | every key of the rows built for a symbol carries that symbol |
| Prices.InsertAllFirstWins | backend/batch/stock_data_importer.py:156-162 | a key that was free ends up holding the bar of the first row carrying it |
| Prices.InsertAllPresent | backend/batch/stock_data_importer.py:160 | rows whose keys are all stored change nothing |
| Prices.InsertAllAt | backend/batch/stock_data_importer.py:156-162 | after a batch a key holds its old bar if it had one, else the first row's bar, and is present exactly when it was stored or carried by a row |
| Prices.InsertAllCommutes | backend/batch/stock_data_importer.py:156-162 | batches with disjoint keys give the same table in either order |
| Prices.InsertAllIdempotent | backend/batch/stock_data_importer.py:156-162 | re-inserting the same batch changes nothing |
| Prices.AttemptsBounded | backend/batch/stock_data_importer.py:110-135 | the retry loop calls the provider at least once and at most MAX_RETRIES + 1 times |
| Prices.ExhaustedIffAllRateLimited | backend/batch/stock_data_importer.py:112-132 | the loop gives up without rows exactly when every permitted attempt raised a rate-limit error |
| Prices.RetryResultSource | backend/batch/stock_data_importer.py:112-135 | fetched rows and a re-raised error come from the first attempt that was not rate-limited, all earlier ones having been |
| Prices.BackoffUncapped | backend/batch/stock_data_importer.py:129 | the backoff 2^retries + jitter has no cap: for any bound, some retry waits longer |
| Prices.FetchWithRetry | backend/batch/stock_data_importer.py:110-135 | the loop's result and number of calls are those of Retry and Attempts; one backoff per rate-limit error, the r-th lying in [2^r, 2^r + 1) |
| Prices.HasTradingDaySince | backend/batch/stock_data_importer.py:94-103 | the day walk finds a trading day exactly when one lies in (last, today]; it stops at the first one and checks no day beyond today |
| Prices.AssembleRows | backend/batch/stock_data_importer.py:141-153 | the loop builds exactly ToRows, in order, and remembers the date of the last bar |
| Prices.InsertRows | backend/batch/stock_data_importer.py:156-162 | the row-by-row insert into the pending table is InsertAll |
| Prices.RequestFor | backend/batch/stock_data_importer.py:116-120 | three years are requested exactly when there is no watermark, otherwise history from the day after it |
| Prices.PriceDatabase.constructor | backend/batch/stock_data_importer.py:35-43 | the database starts in the given state |
| Prices.RunSteps | backend/batch/stock_data_importer.py:229-232 | the success count never exceeds the number of symbols |
| Prices.ProgressInterval | backend/batch/stock_data_importer.py:191 | progress is logged every tenth of the list, at least every symbol |
| Recommender.AgentType | backend/src/stock_recommender.py:17 | the agent type is the parameter's value, "direct" when it is missing |
| Recommender.Unwrap | backend/src/stock_recommender.py:30-37 | an answer holding both parsed_result and raw_response is unwrapped into them; any other answer is the result itself with no raw response |
| Recommender.Recommend | backend/src/stock_recommender.py:22-48 | a non-dict answer is rejected with the error dict and no save; an unwrapped result without `.get` raises; otherwise the parsed result is returned together with the raw response it was saved with |
| Recommender.SaveDispatch | backend/src/stock_recommender.py:41-45 | the saved result is the parsed result unless its status is "error", in which case an empty dict is saved; the caller gets the parsed result either way |
| Recommender.AgentErrorSavesEmpty | backend/src/stock_recommender.py:25-48 | an agent error dict is returned unchanged, and an empty result is saved without a raw response |
| QualityRating.Rank | backend/aiagent/evaluator_optimizer.py:10-13 | the ratings' values lie in 1..3 |
| QualityRating.FromScores | backend/aiagent/evaluator_optimizer.py:16-23 | BALANCED exactly when risk <= 3 and return >= 8; LOW_RISK exactly when risk <= 2 and return < 8; HIGH_RETURN exactly when risk >= 4 and return >= 9; no rating exactly for risk 3 with return < 8 or risk >= 4 with return < 9 |
| QualityRating.MeetsMinimum | backend/aiagent/evaluator_optimizer.py:10-55 | only the balanced rating reaches the optimizer's minimum, which happens exactly when risk <= 3 and return >= 8; LOW_RISK < HIGH_RETURN < BALANCED |
| QualityRating.BalancedMonotone | backend/aiagent/evaluator_optimizer.py:16-18 | a lower risk score and a higher return score keep a balanced rating |
| Report.Tags | backend/src/batch/report_generator.py:51-73 | the tags of a list of elements, one per element, in order |
| Report.RsiState | backend/src/batch/report_generator.py:58-59 | overbought exactly when the RSI is above 70, oversold exactly when below 30, neutral exactly for 30 to 70 inclusive and for NaN |
| Report.MacdTrend | backend/src/batch/report_generator.py:68 | bullish exactly when the MACD is strictly above the signal line (NaN on either side is bearish), bearish otherwise |
| Report.CrossText | backend/src/batch/report_generator.py:72-73 | "有" exactly when the cross flag is set, "無" exactly when it is not |
| Report.IndicatorsOf | backend/src/batch/report_generator.py:51-73 | the `Indicators` element holds Close, MA30, Volume, PriceRange, RSI, MACD, GoldenCross, DeadCross in that order, with the RSI state, the MACD trend and the two cross texts of the row |
| Common.GetField | backend/src/batch/report_generator.py:82-92 | dict.get: the stored value when the key is present, the default otherwise |
| Report.AiElement | backend/src/batch/report_generator.py:77-92 | the AI element holds RiskAssessment, ReturnAssessment, OverallRating, Recommendation, Reasoning in order; missing scores read "0" and a missing reasoning "N/A" |
| Report.StockChildren | backend/src/batch/report_generator.py:46-92 | the children of a Stock element: a ChartImage first exactly when a path is given, then the Indicators of the row, then the AI element last exactly when the recommendation dict is truthy |
| Report.StockEntry | backend/src/batch/report_generator.py:26-98 | no entry exactly when the frame is empty; otherwise a Stock element with symbol and name whose children are those of the last row |
| Report.EntryWithoutAi | backend/report_generator.py:26-78 | the earlier entry builder: no entry exactly for an empty frame, and never an AIRecommendation child |
| Report.EmptyRecommendationIsOmitted | backend/src/batch/report_generator.py:76 | an empty recommendation dict is falsy, so the entry equals the one built with no recommendation |
| Report.ReportFile.constructor | backend/src/batch/report_generator.py:4-24 | the report file starts with the given content |
| Report.ReportFile.Init | backend/src/batch/report_generator.py:4-14 | succeeds exactly when the write does not fail; on success the file holds the XML declaration and the opening tag, on failure it is unchanged |
| Report.ReportFile.Finalize | backend/src/batch/report_generator.py:16-24 | succeeds exactly when the append does not fail; on success the closing tag is appended, on failure the file is unchanged |
| RequestTransform.TrimmedSymbols | frontend/src/utils/requestTransform.ts:36 | trimming the pieces and dropping empty ones gives no more symbols than pieces, each non-empty and already trimmed |
| RequestTransform.SymbolList | frontend/src/utils/requestTransform.ts:35-37 | every symbol of a comma-separated list is non-empty and holds no comma |
| RequestTransform.Transform | frontend/src/utils/requestTransform.ts:18-42 | throws exactly when the principal parses to NaN or to a value not above zero, with the matching message; otherwise the principal is the parsed positive number, the other fields pass through, symbols are absent exactly for an empty list and are its trimmed pieces otherwise, and the agent type is the given one when non-empty and "direct" otherwise |
| RequestTransform.TrimmedHaveNoSeparator | frontend/src/utils/requestTransform.ts:36 | trimming a piece free of commas leaves it free of commas |
| RequestTransform.TrimmedMembers | frontend/src/utils/requestTransform.ts:36 | a symbol is in the list exactly when it is non-empty and some piece trims to it |
| Common.SplitJoin | frontend/src/utils/requestTransform.ts:36 | splitting the comma-joined pieces gives the pieces back when none holds a comma |
| RequestTransform.SymbolListRoundTrip | frontend/src/utils/requestTransform.ts:35-37 | a list of trimmed, non-empty, comma-free symbols survives joining with commas and parsing back |
| RequestTransform.TrimmedOfTrimmed | frontend/src/utils/requestTransform.ts:36 | trimming and filtering a list of trimmed non-empty symbols leaves it unchanged |
| RequestTransform.BlankListIsEmptyArray | frontend/src/utils/requestTransform.ts:35-37 | a list of only blanks and commas is truthy and so sends an empty array, not an absent list |
| SymbolSampler.RequiredRows | backend/stock_symbol_importer.py:35-38 | the required rows are exactly the listings whose ticker is 7203.T or 6753.T |
| SymbolSampler.OtherRows | backend/stock_symbol_importer.py:42 | the other rows are exactly the listings whose ticker is neither |
| SymbolSampler.SplitIsPartition | backend/stock_symbol_importer.py:38-42 | the required and the other rows together are the whole list, up to order |
| SymbolSampler.SampleSize | backend/stock_symbol_importer.py:41-46 | the sample size is 100 minus the required count, or all other rows when there are fewer |
| SymbolSampler.Picked | backend/stock_symbol_importer.py:49 | the sample holds the other rows at the drawn positions, one per position |
| SymbolSampler.SelectionShape | backend/stock_symbol_importer.py:38-52 | the selection keeps every required listing, samples only other listings, and has a hundred rows, or the whole list when it is shorter |
| SymbolSampler.NameAndIndustry | backend/stock_symbol_importer.py:74-76 | the name is the provider's longName when it has one, else the JPX name; the industry is the provider's or '' |
| SymbolSampler.UpsertProfile | backend/stock_symbol_importer.py:80-86 | the upsert sets name and industry under the ticker, keeps the row's price watermark, adds only that key and leaves every other row alone |
| SymbolSampler.OneFailureLosesAll | backend/stock_symbol_importer.py:79-92 | as written, one failing upsert anywhere leaves the transaction aborted and the final commit saves nothing from the run |
| SymbolSampler.AbortedSaveAsWritten | backend/stock_symbol_importer.py:79-92 | once the transaction is aborted, the rest of the loop and the final commit change nothing |
| SymbolSampler.SaveKeepsGoodTickers | backend/stock_symbol_importer.py:66-92 | with each upsert in a savepoint, the run completes exactly when every company lookup answers, and then commits the upserts of exactly the tickers that do not fail |
| SymbolSampler.FailureExample | backend/stock_symbol_importer.py:79-92 | two new tickers where only the first upsert fails: as written neither is saved, with savepoints the second one is |
| SymbolSampler.SaveProfiles | backend/stock_symbol_importer.py:66-92 | the loop completes exactly when every company lookup answers, then leaving the connection as Save gives; a lookup that raises ends the script with nothing committed |
| Transactions.Fresh | backend/stock_symbol_importer.py:56-63 | a new connection has nothing pending and no failed statement |
| Transactions.Executed | backend/batch/stock_symbol_importer.py:94-128 | a statement succeeds exactly when the transaction is not aborted and the statement does not fail; success applies its effect to the pending state, failure aborts the transaction; nothing is committed by it |
| Transactions.Committed | backend/batch/stock_symbol_importer.py:125-131 | a commit publishes the pending state, and on an aborted transaction rolls back instead |
| Transactions.RolledBack | backend/batch/stock_symbol_importer.py:89 | a rollback drops the pending changes and makes the transaction usable again |
| Transactions.ExecutedInSavepoint | backend/stock_symbol_importer.py:79-89 | a statement in its own savepoint applies its effect on success and leaves the transaction as it was on failure |
| Transactions.AbortedCommitsNothing | backend/stock_symbol_importer.py:88-92 | once a statement has failed, later statements and the commit publish nothing |
| Transactions.AbortedStaysAborted | backend/batch/stock_symbol_importer.py:127-128 | an aborted transaction ignores every later statement |
| Transactions.Connection.constructor | backend/batch/stock_symbol_importer.py:34-41 | a new connection is fresh over the given contents |
| Transactions.Connection.Execute | backend/batch/stock_symbol_importer.py:94-124 | cursor.execute changes the connection as Executed says |
| Transactions.Connection.ExecuteInSavepoint | backend/stock_symbol_importer.py:80-86 | a statement in a savepoint changes the connection as ExecutedInSavepoint says |
| Transactions.Connection.Commit | backend/batch/stock_symbol_importer.py:86 | conn.commit() changes the connection as Committed says |
| Transactions.Connection.Rollback | backend/batch/stock_symbol_importer.py:89 | conn.rollback() changes the connection as RolledBack says |
| StockSelection.Symbols | frontend/src/components/RecommendationConfirmationDialog.tsx:167 | the symbols of the listed stocks, one per stock, in list order |
| StockSelection.Without | frontend/src/components/RecommendationConfirmationDialog.tsx:161 | filtering out a symbol removes every occurrence of it and keeps every other element with its multiplicity |
| StockSelection.ToggleStock | frontend/src/components/RecommendationConfirmationDialog.tsx:159-164 | afterwards the symbol is selected exactly when it was not; other symbols keep their state; a selected symbol is removed, an unselected one appended at the end |
| StockSelection.ToggleAll | frontend/src/components/RecommendationConfirmationDialog.tsx:166-168 | a selection as long as the list becomes empty; any other becomes every listed symbol in list order |
| StockSelection.ToggleTwiceRestores | frontend/src/components/RecommendationConfirmationDialog.tsx:159-164 | ticking an unselected stock twice gives back the same selection |
| StockSelection.ToggleKeepsSelection | frontend/src/components/RecommendationConfirmationDialog.tsx:159-164 | ticking a listed stock keeps the selection a list of distinct listed symbols |
| StockSelection.ToggleTwiceKeepsSymbols | frontend/src/components/RecommendationConfirmationDialog.tsx:159-164 | ticking a selected stock twice keeps the same symbols, the ticked one moved to the end |
| StockSelection.LengthMeansAllSelected | frontend/src/components/RecommendationConfirmationDialog.tsx:315 | for distinct symbols, the header's length comparison holds exactly when every listed stock is selected |
| StockSelection.ToggleAllFlipsHeader | frontend/src/components/RecommendationConfirmationDialog.tsx:315 | on a non-empty list select-all flips the header checkbox, and clearing a full selection disables the confirm button |
| StockSelection.ToggleAllIsSelection | frontend/src/components/RecommendationConfirmationDialog.tsx:166-168 | select-all yields distinct listed symbols when the list's symbols are distinct |
| LegacyImporter.Decide | backend/stock_data_importer.py:63-135 | the step ends in a read error, a same-day skip, a fetch error, no data, a bad volume, a write error or stored rows, and every stored row belongs to the symbol |
| LegacyImporter.SkipOnlySameDay | backend/stock_data_importer.py:79-84 | only a watermark dated today skips; no symbol is ever skipped for want of a trading day |
| LegacyImporter.SingleCall | backend/stock_data_importer.py:86-135 | the outcome depends on the first provider answer only; a rate-limit error is not retried and fails the symbol without changing the database |
| LegacyImporter.AgreesWithBatch | backend/stock_data_importer.py:63-135 | where the batch job's gate lets the symbol through and its first call is not rate-limited, this step and the batch step give the same outcome and database |
| LegacyImporter.StoreFrame | backend/stock_data_importer.py:113-130 | a committed step keeps every stored bar, adds bars of its own symbol only, and leaves other symbols' watermarks alone |
| LegacyImporter.ProcessTicker | backend/stock_data_importer.py:63-138 | the outcome and the new database are those of Decide and Commit on the old database; the result is True exactly for the skip and the committed store |
| LegacyImporter.ImportAll | backend/stock_data_importer.py:144-174 | the database and the success count are those of the steps taken one after another |

## Left out

- Concurrency and process control in the ingestion scripts: the thread pool, the connection pool, futures and `as_completed`, the SIGINT handler with its shutdown flag, and the progress bar. The run is a sequential loop over the symbols with a success counter. `BatchImporter.ProcessCommutes` shows that two steps on different symbols give the same database in either order.
- The market-data provider, the holiday calendar, today's JST date and the database's failures are parameters. The provider is a scripted answer per attempt; the calendar is a predicate on day numbers.
- Timezone conversion of the watermark timestamp to a JST date: the watermark is a day number.
- `time.sleep` and `random.uniform`: only the computed backoff bound is modelled, with the jitter a parameter in [0, 1).
- Floating-point pandas computations: rolling means, RSI and the EWM/MACD series. The moving averages, histogram and RSI values arrive as given values.
- Float formatting in the report (`:.2f`, `:.4f`, `:,`) is a parameter. The element tree is returned as a value rather than serialised by ElementTree.
- Report.StockEntry: the entry is built as one value rather than by successive SubElement appends. The only failure modelled is the empty frame, where `iloc[-1]` raises; other exceptions inside the builder are not.
- LegacyIndicators.CalculateAndStore: the in-place addition of the indicator columns to the caller's frame is not modelled, because those columns are floating-point series; the frame arrives with them.
- SQL execution: the tables are maps and only the text and row-level meaning of the WHERE clauses are modelled. LIKE wildcards inside the search term are not interpreted, and the unvalidated RSI operator is carried as text, not executed.
- The endpoints' database I/O, response shaping and logging.
- The LLM and network calls: `json.loads` is foreign, so `LlmResponse` stops at the candidate text. The API call of `execute` is a parameter.
- RecommendationData.GetPromptTemplate: a database error is re-raised in the source; the model takes the template rows as a given map and has no error path.
- SymbolSampler.SelectionShape: the seeded draw `.sample(n=sample_size, random_state=42)` is repeatable, but pandas' generator is not modelled, so the lemma allows any distinct picks of the computed size. It requires at most a hundred required listings, because with more the sample size is negative and pandas raises.
- SymbolCatalog.ImportListings, SymbolCatalog.RunFallback and SymbolSampler.SaveProfiles run the corrected per-row behaviour (a rollback after a failed row, a savepoint per upsert). The behaviour as written is kept as the functions and lemmas listed under Findings.
- Browser conversions are parameters of the model: `parseFloat`, `String()`, `Number().toLocaleString()` and the text of a finite number. `parseInt` in the history page is taken as already giving an integer.
- JavaScript infinities, and the inherited prototype properties a label map would return for keys such as "constructor".
- Unicode whitespace and case mapping in JavaScript's `trim()` and `toLowerCase()` and in Python's `str.strip()` and `str.lower()`: only the six ASCII white-space characters and the ASCII letters are modelled. Python also strips U+001C-U+001F, U+0085 and the Unicode spaces; JavaScript U+00A0, U+FEFF and the Unicode spaces; both lower-case non-ASCII letters.
- The history page's date pickers: the dates are the strings `format('YYYY-MM-DD')` gives. React rendering, the fetch effect and the response handling are not part of this model.
- BatchImporter.ProcessTicker / ImportAll: model the handler as evidently intended, where a failed watermark read counts the symbol as a failure and the run goes on. As written, the handler's log line reads the unbound `last_fetched` and the run ends without a report; that behaviour is BatchImporter.ProcessAsWritten with BatchImporter.ReadFailureLosesReport (see Findings).
- RecommendationData.SaveRecommendation: a database failure is taken to happen after the session insert, so it always uses up a serial value; a connection failure before the insert would not. Concurrent sessions inserted between the insert and the read-back of the highest id are not modelled.
- backend/batch/stock_data_importer.py and backend/src/batch/stock_data_importer.py are byte-identical and modelled once as BatchImporter; the same holds for the two report_generator.py copies under backend/batch/ and backend/src/batch/, modelled once as Report. The earlier backend/stock_data_importer.py and backend/report_generator.py differ and are modelled separately as LegacyImporter and Report.EntryWithoutAi.

## Findings

| source | as written | input that shows it | evidently intended | confidence | as-written member | corrected member |
|---|---|---|---|---|---|---|
| backend/batch/stock_symbol_importer.py:127-128 | a failing row in the per-row fallback is only logged, with no rollback, so the transaction stays aborted and every later row of the batch is lost | a batch whose first listing fails, followed by a sound new listing | each row that does not fail is saved | not executed | SymbolCatalog.FallbackAsWrittenLosesGoodRow | SymbolCatalog.FallbackSavesGoodRows |
| backend/stock_symbol_importer.py:79-92 | a failed upsert is only logged and one commit follows at the end, so one failure aborts the transaction and the whole run is lost | two new tickers where only the first upsert fails | the tickers whose upsert succeeds are saved | not executed | SymbolSampler.OneFailureLosesAll | SymbolSampler.SaveKeepsGoodTickers |
| backend/src/api.py:94 | the search condition `symbol LIKE … OR name LIKE …` is joined to the other conditions with AND without parentheses, so a symbol match bypasses the industry and scale filters | search "7203" with industry "3700", and a row of another industry whose symbol matches | a row is listed only when the search matches and every filter holds | not executed | Api.SearchBypassesIndustry | Api.StockFilterGrouped |
| backend/src/api.py:608-618 | the sort text is split on '-' only when it contains '_', so "principal-desc" and the endpoint's own default "date_desc" are refused | sort "principal-desc" | every "field-order" text for a whitelisted field is accepted | not executed | Api.PageSortRejected | Api.HistorySortRoundTrip |
| backend/batch/stock_data_importer.py:175-184 | when reading the watermark fails, the handler reads `last_fetched` before it is bound, so an UnboundLocalError escapes and the run reports no success count | a symbol whose watermark read fails | the symbol counts as a failure and the run goes on | not executed | BatchImporter.ReadFailureLosesReport | BatchImporter.ReadFailureCountsAsFailure |
