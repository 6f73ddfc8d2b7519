# Customer segmentation: the decision layer, in Dafny

This project models the deterministic part of a PHP customer-segmentation
application and proves properties of it. Six areas are covered:

- **the REST API** (`api/index.php`): path normalisation, the routing chain,
  and the handlers for login, paginated segments, cluster listing, the
  clustering request, customer lookup, insights and export requests;
- **the export script** (`exports/export_handler.php`): request validation,
  the per-type column lists, the chart key field, radar-chart scaling, the
  CSV and spreadsheet layouts, chart placement, and the format switch;
- **the export helpers** (`exports/export_functions.php`): the filtered
  export query with its bound placeholders, and the export log;
- **the export history page** (`export_history.php`): the format colour, the
  segmentation type read back from a file name, the column summary, and the
  most-common-format and most-common-type statistics;
- **the column CSV export** (`export_csv.php`): the column allowlist, the
  query with its single optional placeholder, and its log record;
- **the executive dashboard** (`executive_dashboard.php`): rates, the CAC table
  and its fallback, revenue per cluster, the four alert rules, metric
  statuses and the forecast.

The model is organised as follows:

- One Dafny module per source file: `Api`, `ExportHandler`, `ExportFunctions`,
  `ExportHistory`, `ColumnCsvExport` and `ExecutiveDashboard`.
- `PhpLib` holds the PHP built-ins the code relies on, with PHP's own
  semantics: `??`, `empty()`, `str_replace`, `trim`, `ucfirst`, `strtolower`,
  `implode`/`explode`, `array_slice`, `array_count_values` key order, and an
  insertion-ordered array.
- `Vocabulary` holds the seven segmentation types and the three export formats.

A database row is a `map<string, Option<string>>`: every selected column is a
key, and SQL NULL is `None`. Reads through `??` (`Vocabulary.FieldOr`) treat
NULL and a missing key alike. `array_column` keeps a NULL as a null entry. A
record of the exports table has a `None` for each column its insert leaves
unset. Query results, the clock, and the set of chart
images the external renderer produced are parameters. The export log is the
class `ExportFunctions.ExportsTable`, whose rows `LogExport` appends to.
Loops in the source are methods with loop invariants, proved against
specification functions.

Several behaviours of the code differ from what its names suggest, and the
model keeps the code's behaviour:

- Login reads the clock twice, so a token lives at least an hour, and
  exactly an hour only when both readings fall in the same second.
- The history page reads an "unknown" capture as "Unknown", the same as a
  file name that does not match.
- The CSV and spreadsheet scripts log files named `export_<timestamp>.<ext>`.
  Those names have no second underscore, so the history page reads them as
  "Unknown".
- The churn-rate alert fires above 7%, but the churn status stays good
  below 8%.
- An empty column list is logged as "" and reads back as one empty column.
- The column CSV download logs its format as 'CSV' in `export_format` and
  leaves `export_type` and `export_file` NULL. The history page reads
  `export_type`, so such a row gets the neutral badge colour and "Unknown".
  It is also skipped by the most-common-format count, which prints a blank
  " ()" when every type is NULL.
- With no allowed column, that download's query has an empty select list. The database refuses it, and nothing is written or logged.
- That download logs `json_encode` of the filtered column array. Because
  `array_intersect` keeps the request's keys, an allowed column that follows
  a refused one is logged as a JSON object such as `{"1":"region"}`, not as a
  list.

## Model

| member | source | states |
|---|---|---|
| Api.NormalizePath | api/index.php:30-32 | the routed path never starts or ends with `/` |
| Api.NormalizeUnderPrefix | api/index.php:30-32 | a URL `/csapp/api/p` routes on `p` when `p` is already trimmed and holds no further prefix |
| Api.NormalizeSinglePass | api/index.php:31 | str_replace makes one pass, so `/csapp/a/csapp/apipi` routes as `csapp/api` |
| Api.MatchTail | api/index.php:92 | `#^prefix(.+)$#` yields a non-empty capture after the prefix (PCRE `$` also accepts a final newline) |
| Api.MatchTailComplete | api/index.php:92 | every path of that shape is accepted, with the tail as its capture |
| Api.MatchCustomer | api/index.php:110 | `#^customers/(\d+)/segment$#` yields a non-empty digit string |
| Api.MatchCustomerComplete | api/index.php:110 | every path of that shape is accepted, with its digits as the capture |
| Api.RuleShape | api/index.php:92-127 | each pattern rule requires its literal prefix |
| Api.RulesExclusive | api/index.php:55-127 | no request satisfies two rules of the chain |
| Api.RouteChainCorrect | api/index.php:55-137 | the chain picks the one rule that accepts the path, and gives 404 exactly when none does |
| Api.DispatchCorrect | api/index.php:18-21 | OPTIONS is always the preflight; otherwise as RouteChainCorrect on the normalised path |
| Api.HandleHealth | api/index.php:153-166 | status 200 with the health payload and the API version, and no `success` field |
| Api.HandleLogin | api/index.php:168-208 | 400 with its message iff username or password is empty in PHP's sense; else a token for that user with iat the first clock reading and exp the second plus 3600, so its lifetime is at least 3600 s when the clock does not go back |
| Api.EffectiveLimit | api/index.php:211 | limit 50 by default, otherwise min(limit, 500) |
| Api.BuildSegmentationQueryFallsThrough | api/index.php:486-519 | the bare count query is used iff the type is not gender, region, clv or age_group; the dedicated queries are distinct |
| Api.KeyFieldRenames | api/index.php:521-532 | the key field differs from the type name iff the type is cluster or clv |
| Api.HandleGetSegments | api/index.php:210-267 | an unknown type gives 400 whatever the database holds; a database error gives 500; otherwise the page is array_slice(rows, offset, limit), reported with the unsliced count |
| Api.SegmentPageSize | api/index.php:211-245 | a page holds min(limit, n - offset) rows, at most 500, and at most 50 by default |
| Api.HandleListClusters | api/index.php:269-300 | 500 on a database error; else 200 with every row and their count |
| Api.HandleRunClustering | api/index.php:302-335 | 202 iff n_clusters (default 5) is in [2, 20]; else 400 with the range message |
| Api.HandleGetCustomerSegment | api/index.php:337-390 | 404 when there is no row, 500 on a database error; else the row's customer_id (NULL kept) and the nine fields name, email, gender, region, age_group, income_bracket, purchase_tier, clv_tier, calculated_clv in that order, each the stored value or, when missing or NULL, 'N/A' (0 for calculated_clv) |
| Api.HandleGetInsights | api/index.php:392-443 | 400 iff the type is not one of the seven; else two insights titled after the capitalised type |
| Api.HandleRequestExport | api/index.php:445-480 | 202 iff the format (default csv) is csv, excel or pdf; the path's type is not checked |
| Api.Serve | api/index.php:18-137 | OPTIONS answers 200 with no body; an unmatched route gives 404 naming the path; a 404 comes only from an unmatched route or a missing customer |
| Vocabulary.ParseSegType | exports/export_handler.php:31 | a name parses iff it is one of the seven types, and parsing inverts SegName |
| Vocabulary.ParseSegName | exports/export_handler.php:31 | every type's name parses back to it |
| Vocabulary.ParseFormat | exports/export_handler.php:32 | a name parses iff it is csv, excel or pdf, and parsing inverts FormatName |
| Vocabulary.ParseFormatName | exports/export_handler.php:32 | every format's name parses back to it |
| ExportHandler.ValidateRequest | exports/export_handler.php:21-36 | "Missing required parameters" iff the type or format after `??` is empty in PHP's sense; accepted iff both are present and valid, with those names; every other request is "Invalid parameters" |
| ExportHandler.EmptyGetShadowsPost | exports/export_handler.php:21-28 | an empty `type` in the query string shadows a valid form value and rejects the request |
| ExportHandler.ColumnsLeadWithKeyField | exports/export_handler.php:145-163 | each type's columns start with its grouping field and then total_customers, the field the API groups by |
| ExportHandler.ChartKeyFieldAsWrittenDiffers | exports/export_handler.php:273-287 | the chain as written agrees with the grouping field on six types; for purchase_tier it gives `purchase_tier_tier`, which is not among that type's columns |
| ExportHandler.ArrayColumn | exports/export_handler.php:289-290 | array_column skips rows that lack the key and keeps a NULL value as null: the result is empty when no row has the key, and holds every row's value when all rows have it |
| ExportHandler.ChartSeriesAsWritten | exports/export_handler.php:289-290 | the chart labels and values as written are each at most one per row |
| ExportHandler.ChartSeries | exports/export_handler.php:289-290 | with the corrected key field there is one label per value, each label its row's group and a NULL group a null label |
| ExportHandler.PurchaseTierChartLabels | exports/export_handler.php:273-290 | as written, a purchase_tier chart has no labels but one value per row; corrected, labels and values line up |
| ExportHandler.ChartsToAdd | exports/export_handler.php:696-706 | clv gets three distinct charts, cluster four, every other type two |
| ExportHandler.Present | exports/export_handler.php:708-709 | no more charts are placed than are listed |
| ExportHandler.PresentMembers | exports/export_handler.php:708-709 | a chart is placed iff it is listed for the type and exists |
| ExportHandler.ChartLayout | exports/export_handler.php:712-723 | one drawing per placed chart |
| ExportHandler.ChartsStayInOneBand | exports/export_handler.php:692-724 | at most four charts, so all sit in the first band, at columns 1, 5, 9, 13 |
| ExportHandler.PlaceCharts | exports/export_handler.php:692-724 | the placement loop, including its wrap at column 26, produces exactly ChartLayout of the present charts |
| ExportHandler.ScaleBounded | exports/export_handler.php:391-400 | a scaled radar value never exceeds 100, and is the plain quotient below the cap |
| ExportHandler.RadarData | exports/export_handler.php:391-400 | three values per cluster, each at most 100 |
| ExportHandler.BuildRadar | exports/export_handler.php:379-410 | the labels are the three metrics iff there is a cluster; there is one dataset per cluster, named by cluster_name, else "Cluster " and the id or "Unknown" |
| ExportHandler.HeaderLabel | exports/export_handler.php:634-637 | a heading has the column's length, no `_`, and an upper-case first letter |
| ExportHandler.CsvRow | exports/export_handler.php:641-645 | one cell per column: the row's value, or "" when the column is missing or NULL |
| ExportHandler.ExportToCsv | exports/export_handler.php:620-651 | a header of headings, then one record per result row |
| ExportHandler.WriteRow | exports/export_handler.php:659-684 | writes the values at columns 1.. of one row and changes no other cell, in that row or another |
| ExportHandler.ExportToExcel | exports/export_handler.php:653-724 | row 1 holds the headings, rows 2..n+1 the data, and nothing else is written; charts are placed from row n+4 |
| ExportHandler.RunExport | exports/export_handler.php:905-940 | refused iff validation fails, the query fails ("Database query failed: " + message) or returns no rows; otherwise the file matches the format; the CSV has the type's headings and one record of cells per row; the spreadsheet has the headings in row 1, the cells in rows 2..n+1, nothing else, and the generated charts that rendered |
| ExportFunctions.GetExportQuery | exports/export_functions.php:22-41 | the SQL selects the columns, adds a WHERE clause only when there are filters, and binds each filter's value to `:col`, in filter order |
| ExportFunctions.QueryTextWhere | exports/export_functions.php:24-33 | the query starts with the SELECT of the requested columns and has nothing after it iff there are no filters |
| ExportFunctions.BoundPlaceholdersAppear | exports/export_functions.php:29-38 | every bound placeholder occurs in the SQL text |
| ExportFunctions.ExportsTable.constructor | exports/export_functions.php:44-52 | the exports table starts empty |
| ExportFunctions.ExportsTable.LogExport | exports/export_functions.php:44-52 | appends exactly one record (type, columns joined by ",", file; no format) and keeps the earlier ones |
| ExportFunctions.ExportsTable.LogColumnExport | export_csv.php:42-45 | appends exactly one record with format 'CSV', the column JSON, and NULL type and file, and keeps the earlier ones |
| ExportFunctions.LoggedColumnsRoundTrip | exports/export_functions.php:49 | comma-free column names read back unchanged by explode |
| ExportFunctions.EmptyColumnListReadsAsOne | exports/export_functions.php:49 | an empty column list is logged as "" and reads back as one empty column |
| ExportHistory.FormatColorCaseInsensitive | export_history.php:11-23 | the colour depends only on the lower-cased format; secondary iff that is not csv, excel or pdf |
| ExportHistory.FormatColorOfFormats | export_history.php:11-23 | csv is primary, excel success, pdf danger, in any letter case |
| ExportHistory.MatchAt | export_history.php:27 | a match at i is `export_`, then word characters, then `_` |
| ExportHistory.MatchAtGreedy | export_history.php:27 | the capture runs to the last `_` of the word run, as PCRE's backtracking greedy `\w+` does |
| ExportHistory.FindFromLeftmost | export_history.php:27 | the search returns the first position from which a match exists |
| ExportHistory.FindExportLeftmostGreedy | export_history.php:27 | the match found is the leftmost and the greedy one, and there is none iff no position matches |
| ExportHistory.Capture | export_history.php:27-28 | the capture is non-empty word characters, present iff the name matches |
| ExportHistory.SegmentationFromFile | export_history.php:26-31 | "Unknown" when nothing matches; else the capitalised capture |
| ExportHistory.SegmentationUnknown | export_history.php:26-31 | the result is "Unknown" iff nothing matches or the capture is "unknown" or "Unknown" |
| ExportHistory.SegmentationExample | export_history.php:26-31 | `export_cluster_20240101_1.csv` reads as "Cluster_20240101" |
| ExportHistory.TimestampFileNameUnknown | exports/export_excel.php:51 | a logged name `dir/export_<digits>.<ext>` never matches, so it reads as "Unknown" |
| ExportHistory.SummarizeColumns | export_history.php:116-121 | "+k" is shown iff the exploded list has more than three names, k being the count beyond three |
| ExportHistory.LoggedRecordShown | export_history.php:97-124 | a logExport record shows its file's segmentation, its type's colour and the summary of its columns |
| ExportHistory.ColumnExportRecordShown | export_history.php:97-124 | a column-download record shows "Unknown" and the neutral colour, and its "+k" counts the kept columns beyond three |
| ExportHistory.LoggedColumnsSummary | export_history.php:116-121 | for a logged list of n comma-free columns the summary shows its first min(3, n) names joined by ", " and "+(n-3)" iff n > 3 |
| ExportHistory.OccurrencesPositive | export_history.php:152 | a value is counted iff it occurs |
| ExportHistory.CountValues | export_history.php:152 | array_count_values: each distinct value once, in first-occurrence order, with its number of occurrences |
| ExportHistory.MostCommon | export_history.php:153-154 | arsort then key(): found iff nonempty; the top value's count is its frequency, no value is more frequent, and among ties the first to occur wins |
| ExportHistory.CountableMembers | export_history.php:152 | array_count_values counts exactly the non-NULL export types; nothing is counted iff every type is NULL |
| ExportHistory.MostCommonFormat | export_history.php:150-155 | never N/A; blank iff every export_type is NULL; else the capitalised most frequent non-NULL export_type and its count, which no other type exceeds |
| ExportHistory.CapturesEmpty | export_history.php:161-166 | no capture is collected iff no file name matches |
| ExportHistory.CollectTypes | export_history.php:161-166 | the loop collects exactly the captures of the matching names, in order |
| ExportHistory.MostCommonType | export_history.php:159-174 | N/A iff no file name matches (a NULL name reads as ""); else the capitalised most frequent capture and its count |
| ColumnCsvExport.ArrayIntersect | export_csv.php:13 | the result holds exactly the requested columns that are allowlisted |
| ColumnCsvExport.ArrayIntersectAppend | export_csv.php:13 | filtering works column by column: the result for a + b is the result for a followed by the result for b |
| ColumnCsvExport.ArrayIntersectKeys | export_csv.php:13 | the kept keys increase and are exactly the positions of allowed columns, and each holds the column requested there: request order and repetitions are kept |
| ColumnCsvExport.ArrayIntersectIdempotent | export_csv.php:13 | filtering twice is filtering once |
| ColumnCsvExport.ArrayIntersectKeepsAllowed | export_csv.php:13 | a request made only of allowed columns passes unchanged |
| ColumnCsvExport.ColumnQueryPlaceholders | export_csv.php:14-22 | the query holds one `?` iff the segment filter is applied, none otherwise |
| ColumnCsvExport.BuildColumnExport | export_csv.php:8-33 | the header is the allowlisted columns; every selected column is allowlisted; the segment parameter is bound iff it is non-empty in PHP's sense; the number of `?` equals the number of parameters |
| ColumnCsvExport.ColumnsJsonPieces | export_csv.php:42-45 | the logged JSON splits on "," into one piece per kept column, or one piece when none is kept |
| ColumnCsvExport.ColumnsJsonLeading | export_csv.php:13-44 | when the allowed columns lead the request, the log holds a JSON list of them |
| ColumnCsvExport.ColumnsJsonGap | export_csv.php:13-44 | `user_id, region` is logged as the JSON object `{"1":"region"}` |
| ColumnCsvExport.EmptySelectList | export_csv.php:13-16 | with no allowed column the query text is `SELECT  FROM ...`, an empty select list |
| ColumnCsvExport.RunColumnExport | export_csv.php:8-45 | the query and parameters of BuildColumnExport; the header is written iff the SELECT runs, which never happens with no allowed column; one log record holding the JSON of the kept columns iff the header was written and the insert runs; otherwise the exports table is unchanged |
| ExecutiveDashboard.Rate | executive_dashboard.php:30 | 0 when there are no customers; otherwise rate * total == count * 100 |
| ExecutiveDashboard.RateBounds | executive_dashboard.php:30-39 | a rate of a part of the customers lies in [0, 100] and grows with the count |
| ExecutiveDashboard.UpsellProbabilityBounds | executive_dashboard.php:82-85 | when the low-value customers are some of the customers, the upsell probability is in [0, 100]: 0 with no customers, 100 when all are low-value |
| ExecutiveDashboard.Units | executive_dashboard.php:48 | the whole number nearest x * scale: within half of it, and a tie goes away from zero |
| ExecutiveDashboard.Round | executive_dashboard.php:48 | the result is a whole number (Units) of units of 1 / scale, within half a unit of x, on x's side of zero, and a tie goes away from zero |
| ExecutiveDashboard.BuildCacData | executive_dashboard.php:42-62 | no rows gives the four fallback segments; otherwise one entry per distinct segment (NULL read as ""), in first-occurrence order, each from the segment's last row |
| ExecutiveDashboard.RevenueByCluster | executive_dashboard.php:96-105 | one entry per row, missing counts and averages read as 0, total = count * average |
| ExecutiveDashboard.RevenueEntrySigns | executive_dashboard.php:103 | a non-negative count and average give a non-negative total |
| ExecutiveDashboard.BuildAlerts | executive_dashboard.php:118-159 | at most four alerts in rule order, each with its rule's severity; an alert is raised iff its rule fires |
| ExecutiveDashboard.EmptyBaseAlerts | executive_dashboard.php:121-142 | with no customers the revenue-anomaly alert fires, the churn-rate alert does not, and the churn-risk alert fires iff any customer is at critical risk |
| ExecutiveDashboard.ChurnAlertAndStatus | executive_dashboard.php:142-176 | the churn alert fires while the status is still good iff 7 < rate < 8; a warning status always comes with the alert |
| ExecutiveDashboard.BuildMetrics | executive_dashboard.php:162-187 | churn is good iff below 8, stability good iff at least 80; rounded values are within half a unit; the estimated previous revenue is below a positive current one |
| ExecutiveDashboard.ForecastRevenue | executive_dashboard.php:78 | a positive revenue forecasts a higher one |
| PhpLib.RemoveAllPrefix | api/index.php:31 | str_replace with "" deletes a leading occurrence and goes on after it |
| PhpLib.RemoveAllNoOccurrence | api/index.php:31 | str_replace leaves a string without the pattern unchanged |
| PhpLib.TrimCharacterization | api/index.php:32 | trim removes exactly the leading and trailing run of the character |
| PhpLib.Ucfirst | export_history.php:28 | same length; only the first character changes, a lower-case letter becoming upper case |
| PhpLib.ReplaceChar | exports/export_handler.php:636 | same length, and every occurrence of the character is replaced |
| PhpLib.SplitJoin | export_history.php:116-117 | explode(sep, implode(sep, parts)) == parts for parts without sep |
| PhpLib.JoinSplit | export_history.php:116-117 | implode(sep, explode(sep, s)) == s |
| PhpLib.SplitLength | export_history.php:117 | explode gives one more piece than there are separators |
| PhpLib.ArraySlice | api/index.php:245 | the slice is a contiguous piece of xs from PHP's start index; for a non-negative offset and length it holds min(length, n - offset) elements, and none past the end |
| PhpLib.FirstSeenSpec | export_history.php:152 | array_count_values keys are distinct and are exactly the values that occur |
| PhpLib.FirstSeenPrefix | executive_dashboard.php:46-51 | keys already inserted keep their places as the loop goes on |

## Left out

- The k-means engine and the PDF layout (TCPDF) are not part of this model. The PDF branch of the export is `PdfFile(type)`, with no contents.
- The external chart renderer (`node generate_chart.js`) is modelled only by the set of chart images it produced. Chart colours come from `rand` and are left out.
- SQL semantics are left out: queries are values, and their results are inputs. `Api.QueryResult` stands for a PDOException and its message. In the column CSV download, two flags say whether the SELECT and the log insert run; the one failure the model derives itself is the empty select list.
- File and header I/O is left out: output buffering, `header()`, the temporary spreadsheet file, `readfile` and `unlink`.
- fputcsv quoting is left out. A CSV record is its list of cell strings.
- The spreadsheet's styles (bold header, fill, auto-size, drawing width and height) are left out, and so is the sheet title.
- Session checks, CORS headers, `db.php`, logging and request ids are left out.
- PHP's `(int)` cast of query parameters and `FILTER_SANITIZE_STRING` are applied before the model: the model receives the values they produce.
- Only the path component of `parse_url` is modelled.
- The clock is two parameters `t1` and `t2`, one per `time()` call in handleLogin, in no assumed order. Date-formatted file names are left out.
- generateInsights and the insight and alert message texts (`number_format`, `round` in messages) are left out. Alerts keep their kind and severity.
- The log insert of `export_csv.php` is modelled without its `user_id` and its `filters_applied` (`json_encode` of the filters); the history page reads neither. The request's column list is taken to be a list; other keys, and non-array values, are left out.
- The history model reads only `export_type`, `export_format`, `exported_columns` and `export_file` of a record; `id`, `created_at`, the `ORDER BY created_at DESC LIMIT 100` and the badge's `strtoupper` text are left out.
- ExportHandler.RunExport: the "Export failed: " catch-all for exceptions other than the failed query is not modelled. The "Invalid export format" default is unreachable once validation has passed.
- ExecutiveDashboard.Round: rounds half away from zero on exact reals. PHP's pre-rounding of binary floating-point values is not modelled.
- Money and rates are `real`, not binary floating point.
- ExportHistory.MostCommonFormat: for an empty table it returns Blank, a branch the page never reaches, since the statistics card sits inside the `else` of `if (empty($exports))`. The warnings that array_count_values and the undefined index raise are left out.
- Api.HandleRunClustering: `n_clusters` is an integer or absent. A JSON `true`, a float such as 2.5, a string or an array goes through PHP's loose `<` and `>`: `true` and 2.5 pass, an array fails. That comparison is not modelled.
- Api.HandleRequestExport: `format` is a string or absent. The loose `in_array` that lets a JSON `true` through as a valid format is not modelled.
- Api.HandleGetCustomerSegment: `calculated_clv` defaults to the string "0", where the source gives the integer 0 (JSON `0`, not `"0"`). The seven segment fields sit in a nested `segments` object in the source; the model lists them flat after name and email, in the same order.
- Api.HandleLogin: `username` and `password` are strings or absent. empty() on other JSON values (`false`, `0`, `[]`, `true`) is not modelled.
- `export_history.php`'s delete form and its HTML rendering are left out.

## Findings

| source | as written | input that shows it | evidently intended | confidence | as-written member | corrected member |
|---|---|---|---|---|---|---|
| exports/export_handler.php:273-290 | the key-field chain's last branch appends `_tier`, so purchase_tier charts read the column `purchase_tier_tier` | a purchase_tier export whose rows hold `purchase_tier` and `total_customers`: array_column gives no labels but one value per row | label the bars with `purchase_tier`, the first column of the type's query | not executed | ExportHandler.ChartKeyFieldAsWritten (ExportHandler.ChartKeyFieldAsWrittenDiffers, ExportHandler.PurchaseTierChartLabels) | ExportHandler.ChartKeyField (ExportHandler.ColumnsLeadWithKeyField, ExportHandler.ChartSeries) |
