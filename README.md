# Monday BI agent: table building, insights and query routing

This project models the core of a small business-intelligence chat agent.
The agent reads two monday.com boards, a work-order board and a deal board.
It turns each board into a pandas table and cleans the table. Then it answers
a chat question by routing the lower-cased question through an ordered chain
of keyword tests to one insight function.

The model has six modules:

- `Seqs` (seqs.dfy): `Option`, distinctness, and first-seen de-duplication.
- `Strings` (strings.dfy): Python's `in` on strings, `lower()`, `strip()`, and one-character `replace`.
- `Tables` (tables.dfy): the table shape. A table is an ordered list of named columns. Each column has one dtype (text, numeric or datetime) and one cell per row. It also defines pandas' NaN-skipping `sum`.
- `DataProcessor` (data_processor.dfy):
  - `convert_to_dataframe`: each item becomes a row dict, built by a loop (`BuildRow`, `BuildRecords`). The rows become a table whose columns are the union of all keys in first-seen order.
  - `clean_dataframe`: a `DataFrame` class whose four methods change its columns in place (trim names, strip `,`/`₹`/`%`, `to_numeric`, `to_datetime`). Each method is proved against a function on the table's value.
- `Insights` (insights.dfy):
  - The three column detectors, one of them as the early-return loop of the source.
  - Group-by-sum, `idxmax`, and `sort_values(ascending=False)`.
  - Every insight function. Each returns a tagged response that carries the exact amounts, or raises (`Outcome.Raised`) where the source raises.
- `App` (app.dfy): the routing chain of the chat handler, the chart flag, the table load, and the dispatch from route to insight. The chain is also written as an ordered table of rules, and the two are proved equal.

pandas' parsers are parameters of the model. `pd.to_numeric` is `parse: string -> Parsed`. `pd.to_datetime` is `parseDate: Cell -> Option<Date>`. So every cleaning property holds whatever those parsers return.

Two points of the code are easy to misread:

- `clean_dataframe` converts to datetime every column whose name contains "date" *or "month"*, although its comment (data_processor.py:34) speaks only of date-like columns. The month column that `quarter_revenue` reads is therefore a datetime column at query time, not text. The chat turn calls `quarter_revenue` as written (`App.Dispatch`); the consequence is under "## Findings".
- The row dicts of `convert_to_dataframe` need not share their keys: each row has only the keys of its own item. The table fills the missing keys with NaN (`DataProcessor.CellOf`).

## Model

| member | source | states |
|---|---|---|
| Strings.Lower | app.py:68 | lower-casing keeps the length and maps each character on its own |
| Strings.LowerIdempotent | app.py:68 | lower-casing an already lower-cased query changes nothing |
| Strings.Strip | data_processor.py:22 | `strip()` returns a block of the input that neither starts nor ends with whitespace, with only whitespace before and after it |
| Strings.StripRightTrims | data_processor.py:22 | right-stripping a text that starts with no whitespace leaves it trimmed at both ends |
| Strings.PrefixOfSuffix | data_processor.py:22 | what `strip()` keeps is one contiguous block of the original name |
| Strings.StripUnique | data_processor.py:22 | the contract of `strip()` determines it: a trimmed block with only whitespace around it is the result |
| Strings.StripRightSpaces | data_processor.py:22 | dropping trailing whitespace from a text followed by spaces gives that text, when it ends in no space |
| Strings.StripTrimmed | data_processor.py:22 | a name with no surrounding whitespace is left unchanged by `strip()` |
| Strings.StripIdempotent | data_processor.py:22 | trimming column names twice is trimming them once |
| Strings.StripLeadingSpaces | insights.py:182 | a month text preceded by spaces strips to the text itself |
| Strings.StripLeftSpaces | insights.py:182 | dropping leading whitespace from spaces followed by a text starting with no space gives that text |
| Strings.Without | data_processor.py:26-28 | `replace(c, "")` removes every `c` and keeps every other character as often as it occurs; a text without `c` is unchanged |
| Strings.WithoutOne | data_processor.py:26-28 | one character is dropped iff it is the removed one |
| Strings.WithoutAppend | data_processor.py:26-28 | removal works piece by piece, so the kept characters stay in order |
| Strings.StripNoise | data_processor.py:26-28 | after the three replacements no `,`, `₹` or `%` remains, and every other character is kept as often as it occurs |
| Strings.StripNoiseAppend | data_processor.py:26-28 | the three replacements work piece by piece, so the kept characters stay in order |
| Strings.StripNoiseOne | data_processor.py:26-28 | one character is dropped iff it is `,`, `₹` or `%` |
| Strings.StripNoiseAmount | data_processor.py:26-28 | example: "₹1,000" becomes "1000", the text `to_numeric` then reads |
| Strings.StripNoiseFixes | data_processor.py:26-28 | a text free of `,`, `₹` and `%` is left unchanged |
| Strings.StripNoiseIdempotent | data_processor.py:26-28 | stripping the three characters again changes nothing |
| Strings.Contains | app.py:72-117 | `w in q`: `w` occurs as a contiguous block of `q`; used by every test of the chain |
| Seqs.DedupElements | data_processor.py:17 | the column union holds each key once, and exactly the keys that occur |
| Seqs.DedupPrefix | data_processor.py:17 | the columns contributed by the first rows come first, in first-seen order |
| Tables.TotalAppend | insights.py:38 | the sum of a column is the sum of its two parts |
| DataProcessor.Titles | data_processor.py:11-12 | the titles of an item's column values, in order |
| DataProcessor.Start | data_processor.py:8-9 | the dict `{"Item Name": name}` a row starts from; stated through `RowKeys` and `RowCells` |
| DataProcessor.Put | data_processor.py:13 | `row[k] = v`: a new key goes to the end, an existing key keeps its place; stated through `FillKeys` and `FillLast` |
| DataProcessor.Fill | data_processor.py:11-13 | the assignments `row[title] = text`, in order; its keys, cells and last-write-wins are stated by `FillKeys` and `FillCells` |
| DataProcessor.RowOf | data_processor.py:8-13 | the row dict of one item; stated by `RowKeys` and `RowCells` |
| DataProcessor.FillKeys | data_processor.py:8-13 | a row's keys are "Item Name" followed by the distinct titles, in first-assignment order |
| DataProcessor.RowKeys | data_processor.py:8-13 | every row is a well-formed dict whose first key is "Item Name", with the titles in first-seen order |
| DataProcessor.FillCells | data_processor.py:11-13 | a key is in the row iff it is "Item Name" or some title; its value is the text of the last column value with that title |
| DataProcessor.FillHas | data_processor.py:9-13 | a key is in the row iff it is "Item Name" or the title of some column value |
| DataProcessor.FillLast | data_processor.py:11-13 | the value under a title is the text of its last column value: the last write wins |
| DataProcessor.FillName | data_processor.py:9-13 | with no title "Item Name", that key keeps the item's name |
| DataProcessor.RowCells | data_processor.py:9-13 | "Item Name" holds the item's name unless a column title is literally "Item Name", which then overwrites it; a repeated title keeps its last text |
| DataProcessor.BuildRow | data_processor.py:8-13 | the nested loop builds exactly the row dict of the item |
| DataProcessor.BuildRecords | data_processor.py:5-15 | one record per item, in input order, each the row dict of its item |
| DataProcessor.AllKeysElements | data_processor.py:17 | a key is among the collected keys iff some row has it |
| DataProcessor.AllKeysPrefix | data_processor.py:17 | the keys of the first rows are a prefix of the keys of all rows |
| DataProcessor.RowsOf | data_processor.py:5-15 | one row per item, in input order |
| DataProcessor.AllKeys | data_processor.py:17 | the keys of all rows, row after row; stated by `AllKeysElements` and `AllKeysPrefix` |
| DataProcessor.CellOf | data_processor.py:17 | a row's entry for a column, or NaN when the row lacks the key; stated by `ConvertedRows` |
| DataProcessor.FromRecords | data_processor.py:17 | `pd.DataFrame(records)`: columns are the keys in first-seen order, a missing key is NaN; stated by `ConvertedRows` and `ConvertedHasColumn` |
| DataProcessor.Converted | data_processor.py:4-18 | `convert_to_dataframe`; stated by `ConvertedRows`, `ConvertedHasColumn`, `ConvertedColumns` and `ConvertedFirstColumn` |
| DataProcessor.ConvertedRows | data_processor.py:4-18 | the table has one row per item, in order; every column is text; every cell is the row's entry for the column, or NaN |
| DataProcessor.ConvertedHasColumn | data_processor.py:9-17 | a name is a column iff it is "Item Name" (given at least one item) or the title of some item's column value |
| DataProcessor.ConvertedColumns | data_processor.py:9-17 | column names are distinct, and the columns of a prefix of the items are a prefix of the columns |
| DataProcessor.ConvertedFirstColumn | data_processor.py:9 | "Item Name" is the first column of any non-empty table |
| DataProcessor.MapColumns | data_processor.py:24-37 | a per-column step keeps the height and the column count and acts on each column separately |
| DataProcessor.TrimName | data_processor.py:22 | step 1 on one column: the stripped name; stated by `CleanColumnShape` |
| DataProcessor.DenoiseColumn | data_processor.py:24-28 | step 2: the three replacements on a text column, other columns untouched; stated by `DenoiseShape` and `CleanedIsDenoised` |
| DataProcessor.NumericColumn | data_processor.py:31-32 | step 3: `to_numeric(errors="ignore")`, all cells parse or the column stays; stated by `NumericShape` and `CleanedIsNumeric` |
| DataProcessor.IsDateName | data_processor.py:36 | the lower-cased name contains "date" or "month" |
| DataProcessor.DateColumn | data_processor.py:35-37 | step 4: `to_datetime(errors="coerce")` on a date- or month-named column; stated by `DateShape` and `CleanedDateColumn` |
| DataProcessor.CleanColumn | data_processor.py:21-39 | the four cleaning steps on one column, in source order; stated by `CleanColumnShape` and `CleanColumnIdempotent` |
| DataProcessor.Clean | data_processor.py:21-39 | `clean_dataframe` on the table's value; stated by `CleanShape`, `CleanIdempotent` and `CleanedDateColumn`, and `DataFrame.CleanInPlace` is proved to compute it |
| DataProcessor.CleanColumnShape | data_processor.py:21-39 | one cleaned column has a trimmed name, the same height, cells fitting its dtype, no noise characters in text cells, and datetime dtype when named like a date or month |
| DataProcessor.DenoiseShape | data_processor.py:24-28 | the replacements keep the name and the height and leave no noise character in a text cell |
| DataProcessor.NumericShape | data_processor.py:31-32 | `to_numeric` keeps the name and the height, cells fit the new dtype, and it adds no noisy text cell |
| DataProcessor.DateShape | data_processor.py:35-37 | `to_datetime` keeps the name and the height and gives a column named like a date or month the datetime dtype |
| DataProcessor.CleanShape | data_processor.py:21-39 | cleaning neither adds nor removes rows or columns, keeps the table well formed, trims every name and leaves no `,`, `₹`, `%` in any text cell |
| DataProcessor.CleanColumnIdempotent | data_processor.py:21-39 | cleaning a column twice is cleaning it once |
| DataProcessor.CleanedIsDenoised | data_processor.py:24-28 | a cleaned column has nothing left for the replacements to change |
| DataProcessor.CleanedIsNumeric | data_processor.py:31-32 | a cleaned column has nothing left for `to_numeric` to change |
| DataProcessor.CleanedDateColumn | data_processor.py:35-37 | after cleaning, a column named like a date or month has datetime dtype, one cell per row and no text cell |
| DataProcessor.CleanedDateCells | data_processor.py:35-37 | the same, for one cleaned column |
| DataProcessor.CleanIdempotent | data_processor.py:21-39 | `clean_dataframe` applied twice equals applying it once |
| DataProcessor.DataFrame.constructor | data_processor.py:17 | the new frame holds the given table |
| DataProcessor.DataFrame.StripColumnNames | data_processor.py:22 | the names are replaced by their stripped forms, positionally |
| DataProcessor.DataFrame.StripNoiseCells | data_processor.py:24-28 | the loop strips the noise characters from every text column and leaves other columns alone |
| DataProcessor.DataFrame.ToNumeric | data_processor.py:31-32 | the loop turns each text column whose cells all parse into a numeric column and leaves the rest as they were |
| DataProcessor.DataFrame.ToDates | data_processor.py:35-37 | the loop turns every column named like a date or month into dates or NaT |
| DataProcessor.DataFrame.CleanInPlace | data_processor.py:21-39 | the four in-place passes leave the frame equal to the cleaned value of the old frame |
| DataProcessor.ConvertToDataFrame | data_processor.py:4-18 | builds a fresh frame equal to the table of the items' rows |
| Insights.FirstNamed | insights.py:8-19 | the first column whose lower-cased name contains the word: no earlier column matches, and None iff no column matches |
| Insights.FirstColumnContaining | insights.py:8-19 | the early-return scan returns the name of the first matching column, or None iff no column matches |
| Insights.DetectSectorColumn | insights.py:8-12 | `detect_sector_column` is the first-match scan for "sector" |
| Insights.DetectMonthColumn | insights.py:15-19 | `detect_month_column` is the first-match scan for "month" |
| Insights.SectorIndex | insights.py:8-12 | `detect_sector_column` as a column index; stated by `FirstNamed` and `DetectSectorColumn` |
| Insights.MonthIndex | insights.py:15-19 | `detect_month_column` as a column index; stated by `FirstNamed` and `DetectMonthColumn` |
| Insights.ValueIndex | insights.py:22-26 | the first numeric column: no earlier column is numeric, and None iff no column is |
| Insights.Groups | insights.py:61 | one group per distinct non-missing key, holding the sum of that key's rows |
| Insights.GroupsBy | insights.py:61 | `groupby(key)[value].sum()` on a table; stated by `BreakdownLines` and `GroupsPartition` |
| Tables.Total | insights.py:38 | `.sum()` skipping NaN; stated by `TotalAppend` |
| Insights.ValueTotal | insights.py:38 | the sum of the value column; used by every summary |
| Insights.Share | insights.py:65 | `top/total*100`, or 0 when the total is 0; bounded by `ShareIsPercentage` |
| Insights.GroupKeys | insights.py:61 | the keys of `groupby`, distinct and non-missing; stated by `GroupKeysElements` |
| Insights.GroupSum | insights.py:61 | the NaN-skipping sum of one key's rows; stated by `GroupSumAbsent`, `SumOverStep` and `GroupsPartition` |
| Insights.GroupKeysElements | insights.py:61 | the group keys are distinct and are exactly the non-missing keys that occur |
| Insights.GroupSumAbsent | insights.py:61 | a key no row carries sums to 0 |
| Insights.SumOverStep | insights.py:61 | adding a row adds its value to exactly the group of its key |
| Insights.GroupsPartition | insights.py:61-62 | the group sums add up to the total of the rows that have a key: no row lost, none counted twice |
| Insights.KeyedTotalAll | insights.py:61-62 | with no missing key, the group sums add up to the column total |
| Insights.TopIndex | insights.py:64 | `idxmax`: a group whose sum is maximal, the first such |
| Insights.InsertElements | insights.py:139 | inserting a line into the sorted list keeps all lines and their sum |
| Insights.DescendingCons | insights.py:139 | a line no smaller than the rest can head a non-increasing list |
| Insights.InsertDescending | insights.py:139 | inserting into a non-increasing list keeps it non-increasing |
| Insights.SortDescending | insights.py:139 | `sort_values(ascending=False)`; stated by `SortDescendingProperties` |
| Insights.SortDescendingProperties | insights.py:139 | `sort_values(ascending=False)` gives a non-increasing permutation of the groups with the same sum |
| Insights.GroupSumBounds | insights.py:61-62 | with no negative value, a group sum lies between 0 and the column total |
| Insights.PipelineSummary | insights.py:33-48 | the diagnostic iff no column is numeric; otherwise always the health overview, with the row count and the value total |
| Insights.Dominance | insights.py:54-65 | not detected iff a column is missing; no leader iff there is no group; otherwise a group of maximal sum and share `top/total*100`, or 0 when the total is 0 |
| Insights.SectorDominance | insights.py:54-74 | the "not detected" notice iff a column is missing, and no other notice; raises (`idxmax` of an empty summary) iff both columns exist and there is no group; otherwise a sector whose group sum is maximal, with share `sum/total*100`, or 0 when the total is 0 |
| Insights.ConcentrationClassification | insights.py:81-107 | the diagnostic iff a column is missing; "High" iff the share is strictly above 50; exactly 50 or a zero total give "No Significant"; same leader and share as `sector_dominance`; raises exactly when it raises |
| Insights.ConcentrationRisk | insights.py:81-107 | the "not detected" notice iff a column is missing, and no other notice; raises iff there is no group; otherwise a high or no-significant risk answer, classified by `ConcentrationClassification` |
| Insights.ShareIsPercentage | insights.py:65 | with no negative value the share lies between 0 and 100 |
| Insights.LeaderHeadsChart | insights.py:61-65 | the largest line of the sector breakdown has the leading sector's sum |
| Insights.PartOfWhole | insights.py:65 | a non-negative part of a whole is between 0 and 100 percent of it |
| Insights.RevenueSummary | insights.py:113-125 | the diagnostic iff no column is numeric; otherwise always the revenue snapshot with the value total |
| Insights.BreakdownLines | insights.py:132-165 | each distinct non-missing key listed exactly once with its sum, non-increasing, a permutation of the groups, the sums adding up to the keyed total |
| Insights.SectorRevenueBreakdown | insights.py:132-145 | the diagnostic iff a column is missing; otherwise the breakdown of the sector groups sorted largest first, whose lines `BreakdownLines` characterises |
| Insights.MonthWiseRevenue | insights.py:152-165 | the diagnostic iff a column is missing; otherwise the breakdown of the month groups sorted largest first, whose lines `BreakdownLines` characterises |
| Insights.SortedGroupsKeys | insights.py:139-143 | the sorted groups name every distinct non-missing key and no other |
| Insights.SortedGroupsSums | insights.py:139-143 | each listed key carries the sum of the rows with that key |
| Insights.SortedGroupsDistinct | insights.py:139-143 | no key is listed twice |
| Insights.SortedGroupsTotal | insights.py:139-143 | the listed sums add up to the total of the rows that have a key |
| Insights.GroupsTotals | insights.py:139-143 | the listed sums add up to the sum over the listed keys |
| Insights.TotalsAppend | insights.py:142-143 | appending a line adds its sum |
| Insights.DistinctKeysInLines | insights.py:142-143 | no key is listed twice |
| Insights.MultisetOfDistinctKeys | insights.py:142-143 | a group with a distinct key occurs once among the groups |
| Insights.QuarterTable | insights.py:184-189 | only Q1-Q4 have lists; the lists are pairwise disjoint and together hold every full and three-letter month name and nothing else; Q2 has five entries |
| Insights.QuarterNames | insights.py:184-189 | `quarter_map`; stated by `QuarterTable` and its four parts |
| Insights.QuarterKeys | insights.py:184-189 | exactly Q1, Q2, Q3 and Q4 have month lists |
| Insights.QuartersDisjoint | insights.py:184-189 | no month name is in two quarters |
| Insights.QuartersCover | insights.py:184-189 | every full and three-letter month name is in some quarter |
| Insights.QuartersHoldMonths | insights.py:184-189 | the lists hold only month names |
| Insights.PickedTotalNone | insights.py:191-192 | rows the filter does not pick contribute nothing to the quarter total |
| Insights.QuarterAnswer | insights.py:172-207 | `quarter_revenue` with the month filter as a parameter; stated by `QuarterAnswerCases` |
| Insights.QuarterRevenueAsWritten | insights.py:172-207 | `quarter_revenue` as written, matching the stripped, lower-cased text; stated by `QuarterAnswerCases` and `App.QuarterRevenueAsWrittenAfterClean` |
| Insights.QuarterRevenue | insights.py:172-207 | `quarter_revenue` with the corrected filter; stated by `QuartersSplitDates` and `QuarterRevenueSplitsDates` |
| Insights.QuarterAnswerCases | insights.py:172-207 | the diagnostic iff a column is missing; raises iff the quarter is not Q1-Q4; "no matching records" exactly when the picked values sum to 0; otherwise that sum |
| Insights.QuarterAnswerNothingPicked | insights.py:191-194 | when no month cell is picked, no quarter reports a total |
| Insights.InQuarterDates | insights.py:182-191 | the corrected filter puts a dated row in the quarter of its month and agrees with the written filter on text |
| Insights.QuartersSplitDates | insights.py:184-192 | under the corrected filter the four quarter totals add up to the total of the dated rows |
| Insights.QuarterSumStep | insights.py:191-192 | the last row adds its value to a quarter sum exactly when the filter picks it |
| Insights.QuarterRevenueSplitsDates | insights.py:172-207 | on a month column without text, the corrected answers of Q1-Q4 report totals adding up to the total of the dated rows |
| Insights.PickedTotalThree | insights.py:191-192 | the quarter sum of three rows, row by row |
| Insights.QuarterAnswerThreeRows | insights.py:172-207 | the quarter answer on a three-row table, row by row |
| Insights.MonthTextOf | insights.py:182 | the compared text of a cell is its stripped, lower-cased text |
| Insights.MonthText | insights.py:182 | `astype(str).str.strip().str.lower()` of a text cell; stated by `MonthTextOf` |
| Insights.NamedIn | insights.py:191 | `isin(quarter_map[quarter])` of one cell's compared text; stated by `FirstQuarterName` and `InQuarterDates` |
| Insights.MonthNameTableColumns | insights.py:15-26 | the example table's month and value columns are detected |
| Insights.FirstQuarterName | insights.py:182-191 | a cell whose compared text is a Q1 name is picked for Q1 and not for Q2 |
| Insights.MonthTextJan | insights.py:182 | " Jan" compares as "jan" |
| Insights.MonthTextFeb | insights.py:182 | "FEB" compares as "feb" |
| Insights.MonthTextMarch | insights.py:182 | "march" compares as "march" |
| Insights.QuarterByNameExample | insights.py:172-207 | on a text month column, " Jan", "FEB" and "march" give a Q1 total of 175 and no Q2 records |
| Insights.DealTableGroups | insights.py:61-62 | example: sectors A and B sum to 700 and 300 of 1000 |
| Insights.DealTableKeys | insights.py:61 | example: the sector groups are A then B |
| Insights.DealTableSums | insights.py:61-62 | example: A sums to 700, B to 300, the column to 1000 |
| Insights.ConcentrationExample | insights.py:54-100 | example: A at 700 of 1000 leads with 70%, a high concentration risk |
| Insights.LeadershipUpdateOf | insights.py:214-225 | the update combines the pipeline summary and concentration risk of the deals and the revenue summary of the work orders; it raises exactly when concentration risk raises |
| Insights.PipelineAnswersAgree | insights.py:227-234 | `deal_count` is the row count; `pipeline_value` returns iff a numeric column exists, then with the same total as the summaries |
| Insights.DealCountOf | insights.py:227-229 | `deal_count`: the row count; stated by `PipelineAnswersAgree` |
| Insights.PipelineValueOf | insights.py:231-234 | `pipeline_value`: raises when no column is numeric, else the value total; stated by `PipelineAnswersAgree` |
| Insights.BreakdownAddsUpToRevenue | insights.py:132-145 | when every row has a sector, the breakdown lines add up to the revenue total |
| App.FirstMatchSpec | app.py:72-120 | first-match evaluation returns the route of a rule that holds with no earlier rule holding; it falls back exactly when no rule holds |
| App.RouteLowered | app.py:72-120 | the if/elif chain on the lower-cased query; stated by `ChainIsFirstMatch` and the routing lemmas |
| App.RouteQuery | app.py:68-120 | `query = user_query.lower()` then the chain; stated by `CaseInsensitive`, `HelpIffNoRule` and the routing lemmas |
| App.FirstMatch | app.py:72-120 | first-match evaluation of an ordered rule table; stated by `FirstMatchSpec`, and the chain is this over the table `Rules` |
| App.FirstMatchAt | app.py:72-120 | one step of first-match evaluation |
| App.OneWord | app.py:75-85 | a one-word rule holds iff the word occurs |
| App.TwoWords | app.py:72-73 | a two-word rule holds iff both (all-of) or either (one-of) occur |
| App.ChainRules0To5 | app.py:72-88 | the first five tests of the chain are the first five rules |
| App.ChainRules5To10 | app.py:87-102 | the next five tests are the next five rules |
| App.ChainRules10To15 | app.py:104-120 | the last five tests and the fallback are the last five rules |
| App.ChainIsFirstMatch | app.py:72-120 | the if/elif chain is first-match evaluation of the ordered rule table |
| App.NoRuleIsHelp | app.py:72-118 | no rule routes to the help message |
| App.CaseInsensitive | app.py:68 | the route depends only on the lower-cased query |
| App.HelpIffNoRule | app.py:119-120 | the help message answers exactly when no rule's test holds |
| App.SectorRevenueFirst | app.py:72-73 | "sector" with "revenue" always gives the sector revenue breakdown |
| App.MonthThenQuarters | app.py:75-88 | "month" beats every quarter keyword; quarters are tried q1, q2, q3, then "q4" or "this quarter", both giving Q4 |
| App.BreakdownMeansDominance | app.py:90-92 | "breakdown" without earlier keywords gives sector dominance with a chart, never the revenue summary |
| App.RiskBeforePipeline | app.py:98-102 | a risk word with "pipeline", without earlier keywords, gives concentration risk |
| App.DeadBranches | app.py:101-117 | the deal-count branch and the second "pipeline" branch never answer |
| App.ChartRule | app.py:90-96 | the chart is requested iff one of the two dominance rules is the first to hold |
| App.SectorChart | app.py:34-45 | the chart is drawn iff both columns are detected and the value column's name is not empty, and shows the sector groups largest first |
| App.Dispatch | app.py:72-117 | the insight each branch calls, on the table it names, with `quarter_revenue` as written; stated through `Answer` |
| App.Answer | app.py:68-120 | a turn answers with the routed insight; the chart is drawn iff a dominance rule fired, `sector_dominance` returned, and the chart has data |
| App.ChartBesideExposure | app.py:90-96 | a drawn chart stands beside a sector exposure answer naming the leading sector, and its first bar equals that sector's sum |
| App.QuarterTurnAfterLoad | app.py:78-88 | on a loaded work-order table a quarter question never gets a total, because the chat calls `quarter_revenue` as written |
| App.RoutedQuartersKnown | app.py:78-88 | every routed quarter is in the quarter table, so routing never raises on the quarter key |
| App.LoadedTable | app.py:19-20 | a loaded table is well formed with one row per item |
| App.LoadTable | app.py:19-20 | build then clean one board's table; stated by `LoadedTable` |
| App.CleanedMonthColumn | data_processor.py:35-37 | after cleaning, the detected month column holds only dates and NaT |
| App.QuarterRevenueAsWrittenAfterClean | insights.py:181-194 | on a cleaned table, `quarter_revenue` as written never reports a total |
| App.QuarterRevenueAfterClean | insights.py:172-207 | on a cleaned table, the corrected `quarter_revenue` of the four quarters accounts for every dated row |

## Left out

- The board fetch (monday_client.py) is left out: it is an HTTP call to the monday.com API. `LoadTable` starts from the fetched items.
- Streamlit is left out: page setup, chat history in `st.session_state`, spinner, banners and `st.cache_data`. It is UI and framework state. `Answer` models one turn without the history.
- The chart drawing (matplotlib) is left out. Only the bar data `show_sector_chart` would plot is modelled (`SectorChart`).
- The response text is left out: markdown, emoji, `round(x/1e9, 2)` and the "Billion" label. Responses carry the exact amounts as `real`. Only the fixed diagnostic strings are kept literally.
- Floating-point arithmetic is left out: sums and shares are exact reals.
- `pd.to_numeric` and `pd.to_datetime` are parameters, because their parsing rules belong to pandas. `to_numeric(errors="ignore")` is modelled as "all cells parse, or the column is unchanged".
- The model follows pandas 1.x: text columns have the `"object"` dtype that data_processor.py:25 tests, and `to_numeric(errors="ignore")` exists. pandas 2.2 deprecates `errors="ignore"` and pandas 3.0 removes it, and pandas 3.0 stores text in a dedicated string dtype, so under 3.0 the replacements at data_processor.py:26-28 would not run and `to_numeric` would raise.
- Insights.MonthWiseRevenue: groups by calendar day. `Tables.Date` has a year, a month and a day and no time of day, while `pd.to_datetime` keeps the time and `groupby` (insights.py:159) keeps "2024-01-15 09:00" and "2024-01-15 17:00" apart as two lines. The model lists them as one line with their summed value.
- App.LoadTable: a board with no items loads as an empty table with no columns. That is pandas 1.x behaviour. From pandas 2.0, `pd.DataFrame([])` has a RangeIndex as its columns, and `df.columns.str.strip()` (data_processor.py:22) then raises AttributeError. The source pins no pandas version, so the model does not model that raise.
- `pd.to_datetime` is modelled cell by cell (`parseDate`). pandas infers one date format per column from its first element, so a cell's date can depend on the other cells; no proved property depends on how a cell is parsed.
- Strings.Lower: lower-cases ASCII letters only. Python's `lower()` also folds non-ASCII letters, and some of them to ASCII: the Kelvin sign U+212A becomes "k", so "RIS\u212A" routes to concentration risk in Python but not in the model. Python may also change the length (`'\u0130'.lower()` has two characters), which the model does not.
- Insights.TopIndex: among equal group sums it picks the first in first-seen order. pandas' `groupby` sorts the keys, so `idxmax` picks the smallest key among ties. `Dominance`'s contract states only that the leader's sum is maximal, which holds for both.
- Insights.SortDescending: ties keep the insertion order. pandas' default sort is not stable. `BreakdownLines` states only order by sum and permutation.
- Insights.BreakdownLines: the `response +=` loop is modelled as the ordered list of lines it would print.
- Insights.MonthText: gives no month name for a non-text cell. pandas renders such a cell as "nan", "NaT", a date or a number, and none of these is a month name.
- Duplicate column names after trimming are left out. With two columns of the same name, `df[col]` at data_processor.py:25 is a DataFrame, which has no `.dtype`, so `clean_dataframe` raises AttributeError before any detection runs. The model cleans such a table column by column instead and always reads the detected column by position.
- `quarter_revenue`'s `work_df.copy()` is implicit: tables are values, so the caller's table is never modified.

## Findings

| source | as written | input that shows it | evidently intended | confidence | as-written member | corrected member |
|---|---|---|---|---|---|---|
| insights.py:181-191 with data_processor.py:35-37 | `quarter_revenue` matches `astype(str).str.strip().str.lower()` of the month column against month names. But `clean_dataframe` has already converted every column whose name contains "month" to datetime, so the texts are dates or "NaT" | a work-order board with a "Month" column holding "Jan", "Feb", "March" and a numeric value column; after loading, every Q1 question answers "No matching revenue records found" | rows count toward the quarter of their month, whether the month cell holds a month name or a parsed date | not executed | Insights.QuarterRevenueAsWritten, App.QuarterRevenueAsWrittenAfterClean, App.QuarterTurnAfterLoad | Insights.QuarterRevenue, App.QuarterRevenueAfterClean |
