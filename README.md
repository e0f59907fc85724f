# ImmoViz France: cleaning, aggregation and dashboard logic in Dafny

This project models the data core of ImmoViz France, a dashboard of 2023
French property sales (the DVF "demandes de valeurs foncières" file). It
covers three parts:

- **The national build** (`src/utils/clean_data.py`). The raw file is read
  in chunks of 100 000 rows. Each chunk goes through the same filter chain:
  - a sale (`Vente`) of a house or an apartment;
  - value, surface and commune code present;
  - surface > 9 and value > 1000;
  - the commune code passed through `fix_plm_codes`;
  - `prix_m2 = valeur_fonciere / surface_reelle_bati`, kept only inside the
    open band (500, 25000).

  The kept chunks are concatenated, and the `mois` period is added.
- **The Ile-de-France build** (`process_data.py`). It is the same chain with
  these differences:
  - the eight Ile-de-France departments come first;
  - the commune code is not required;
  - the band is (1000, 40000).

  It then aggregates per (code, name) commune to a mean and a count, and
  keeps only the communes with more than 10 sales.
- **The dashboard** (`main.py`). It covers:
  - the department centres computed from the commune GeoJSON;
  - the two day pickers that clamp the day to the month's length;
  - the non-plotting logic of the update callback:
    - the date fallbacks and the row mask;
    - the "no data" sentinel;
    - the price, volume and surface KPIs;
    - the top city (at least 5 sales);
    - the top ten (more than 10 sales, ascending);
    - the per-commune map aggregate with its minimum-sales threshold;
    - the monthly series;
    - the map centre and zoom.

The model works as follows. The pandas filter chains are one row-wise
function, `Cleaning.Clean`, with one `Config` per build. A group-by is a map
from key to a (count, sum) bucket, and a key with a missing column puts the
row in no group, as pandas does. The two imperative parts of the source are
methods with loops proved against specification functions:
`CleanData.Process` (the chunk loop) and `Centroids.DeptCenters` (the
centroid loops). Arithmetic is exact (`real`).

Files:
- `wrappers.dfy`: Option and Result.
- `calendar.dfy`: dates and the `YYYY-MM` period.
- `records.dfy`: the rows.
- `cleaning.dfy`: the shared chain.
- `clean_data.dfy`: the national build.
- `aggregation.dfy`: group-by and means.
- `process_data.dfy`: the Ile-de-France build.
- `centroids.dfy`: the department centres.
- `day_picker.dfy`: the day pickers.
- `ranking.dfy`: top city and top ten.
- `dashboard.dfy`: the callback.

Three behaviours of the code are worth stating plainly:

- **Dates are not clamped by the update callback.** Only the day pickers
  (`update_start_day` and `update_end_day`) clamp the day to the month's
  length. The update callback replaces an invalid start date with
  2023-01-01 and an invalid end date with 2023-12-31, each independently
  (`Dashboard.DateFallbacks`, `Dashboard.UnclampedFebruaryFallsBack`).
- **Rows with a missing commune code or name stay in the Ile-de-France
  detail file.** Neither the code nor the name is among the columns that
  must be present. The group-by leaves such rows out of every commune, so
  the commune counts add up to the detail rows that have both a code and a
  name (`ProcessData.CountsBeforeThreshold`). In the same way, a selected
  row without a name counts toward the dashboard's volume and mean price
  but toward no city and no map commune.
- **The blank-map branch fails as written.** See "## Findings".

## Model

| member | source | states |
|---|---|---|
| Calendar.DaysInMonth | main.py:208-209 | the calendar the date parser checks against: month lengths lie in 28..31, and 29 is the length exactly for February of a leap year |
| Calendar.DateLeTotalOrder | main.py:220 | the date comparison used by the mask is a total order: reflexive, total, antisymmetric and transitive |
| Calendar.MonthOf | src/utils/clean_data.py:74-75 | the `mois` period carries the year and month of the sale date |
| Calendar.MonthOfDependsOnYearMonth | src/utils/clean_data.py:75 | two dates share a period exactly when they agree on year and month |
| Calendar.PeriodText | src/utils/clean_data.py:75 | the period text is seven characters with a dash at position 4 (`YYYY-MM`) |
| Calendar.ParsePeriodText | src/utils/clean_data.py:75 | supporting inverse of PeriodText: any text that parses gives a valid year and month |
| Calendar.PeriodTextRoundTrip | src/utils/clean_data.py:75-78 | reading a period's text back gives the same period |
| Calendar.PeriodTextInjective | main.py:27 | two periods have the same text exactly when they are equal, so grouping by text is grouping by period |
| Cleaning.FixPlmCodes | src/utils/clean_data.py:14-21 | the arrondissement code is kept unchanged |
| Cleaning.FixPlmCodesIdempotent | src/utils/clean_data.py:52 | applying the code fix twice is the same as once |
| Cleaning.Clean | src/utils/clean_data.py:45-57 | the output is no longer than the input, and every output row satisfies all the cleaning rules of its configuration (department, Vente, dwelling type, required fields, surface > 9, value > 1000, prix_m2 = value / surface, price strictly inside the band) |
| Cleaning.CleanMembership | process_data.py:24-36 | a sale is in the cleaned output exactly when it was derived from some accepted input row |
| Cleaning.CleanConcat | src/utils/clean_data.py:43-66 | cleaning a concatenation equals concatenating the cleaned parts, in order |
| Cleaning.AsRawRows | src/utils/clean_data.py:78 | writing sales back as raw rows keeps their number and fields |
| Cleaning.CleanKeepsCleanRows | process_data.py:24-36 | re-cleaning rows that already satisfy the rules keeps all of them, unchanged |
| Cleaning.CleanIdempotent | process_data.py:24-36 | the chain is idempotent on its own output |
| Cleaning.BoundsAreStrict | src/utils/clean_data.py:48-57 | a row exactly at surface 9, at value 1000, or with a price on a band edge is dropped |
| Cleaning.Accepts | src/utils/clean_data.py:45-57 | an accepted row passes every filter, and the row derived from it satisfies all the cleaning rules of its configuration |
| Cleaning.Derive | src/utils/clean_data.py:52-55 | the kept row carries the raw row's columns unchanged (the code fix is the identity) plus prix_m2 = value / surface |
| Cleaning.KeptIffInBand | process_data.py:34-36 | a row that passes every filter is kept, with its derived prix_m2, exactly when its price is strictly inside the band |
| CleanData.SplitIntoChunks | src/utils/clean_data.py:37-39 | the reader's chunks concatenate back to the file, and each holds between 1 and CHUNK_SIZE rows |
| CleanData.FlattenConcat | src/utils/clean_data.py:66 | concatenating two lists of frames equals concatenating their concatenations |
| CleanData.CleanEach | src/utils/clean_data.py:43-60 | one cleaned chunk per input chunk, each the chain applied to that chunk |
| CleanData.ChunkInvariance | src/utils/clean_data.py:43-66 | for any split into chunks, concatenating the per-chunk results equals cleaning the whole input at once |
| CleanData.Process | src/utils/clean_data.py:34-75 | the loop's final `total_rows` is the number of detail rows; the detail rows are exactly the national chain applied to the whole input, in order, each with its `mois` period |
| CleanData.NationalRowRules | src/utils/clean_data.py:45-57 | every national detail row is a sale of a house or an apartment, has a commune code, surface > 9, value > 1000, prix_m2 = value / surface and 500 < prix_m2 < 25000 |
| CleanData.ProcessOnReaderChunks | src/utils/clean_data.py:37-66 | cleaning the reader's chunks of 100000 rows gives the same rows as cleaning the whole file |
| Aggregation.GroupBy | process_data.py:46 | every group that exists has at least one sale |
| Aggregation.GroupBySpec | process_data.py:46 | a group exists exactly for the keys that occur, and its bucket holds the group's size and the sum of its prix_m2 |
| Aggregation.MembersConcat | src/utils/clean_data.py:66 | supporting lemma of GroupByConcatAt: the members of a group in a concatenation are those of the first part followed by those of the second |
| Aggregation.SumPrixConcat | src/utils/clean_data.py:66 | supporting lemma of GroupByConcatAt: the prix_m2 sum of a concatenation is the sum of the parts' sums |
| Aggregation.Summarize | process_data.py:46-47 | one (mean, count) row per group, with the group's count and mean × count equal to the group's sum |
| Aggregation.Aggregate | main.py:254-255 | every aggregate row has a positive count |
| Aggregation.AggregateSpec | process_data.py:46-47 | one aggregate row per distinct key among the rows, whose count is the group size and whose mean is the group's mean prix_m2 |
| Aggregation.SumPrixBounds | process_data.py:36 | if every price lies in (lo, hi), the sum of n prices lies in (n·lo, n·hi) |
| Aggregation.MembersInBand | process_data.py:46 | the members of a group keep any bound that holds for every row |
| Aggregation.GroupMeanInBand | process_data.py:36-46 | a group's mean lies strictly inside any open band that holds every prix_m2 |
| Aggregation.MeanOfBand | process_data.py:36-46 | the mean of a non-empty list of prices in an open band lies in that band |
| Aggregation.MeanBetween | process_data.py:46 | a mean whose n-fold lies strictly between n·lo and n·hi lies strictly between lo and hi |
| Aggregation.SumPrixClosedBounds | main.py:222 | if every price lies in [lo, hi], the sum of n prices lies in [n·lo, n·hi] |
| Aggregation.MeanInClosedRange | main.py:222-234 | the mean price of a non-empty selection lies in the closed price range every row passed |
| Aggregation.TotalCountRemove | process_data.py:46-47 | the total count is one bucket's count plus the total of the others |
| Aggregation.TotalCountAddTo | process_data.py:46 | adding one value to a bucket raises the total count by one |
| Aggregation.TotalCountGroupBy | process_data.py:46-47 | before thresholds, the group counts add up to the number of rows whose key columns are present |
| Aggregation.KeyedAll | process_data.py:46 | when no row has a missing key column, every row belongs to a group |
| Aggregation.MergeCommutative | src/utils/clean_data.py:66 | supporting property of GroupByConcat: merging bucket sets is commutative |
| Aggregation.MergeAssociative | src/utils/clean_data.py:66 | supporting property of GroupByConcat: merging bucket sets is associative |
| Aggregation.GroupByConcatAt | src/utils/clean_data.py:66 | supporting lemma of GroupByConcat: for each key, the bucket of a concatenation is the merge of the parts' buckets |
| Aggregation.GroupByConcat | src/utils/clean_data.py:66 | grouping the concatenated frame equals merging the groupings of its chunks (the source itself groups once, after the concatenation, in main.py) |
| ProcessData.Process | process_data.py:24-49 | the detail rows are the Ile-de-France chain applied to the input, and every kept commune has more than 10 sales |
| ProcessData.DetailRowRules | process_data.py:24-36 | every detail row is in one of the eight departments, is a sale of a house or an apartment, has surface > 9 and value > 1000, and has 1000 < prix_m2 = value / surface < 40000 |
| ProcessData.CommuneTable | process_data.py:46-49 | a commune is in the table exactly when it has more than 10 detail rows (so exactly 10 is left out); nb_ventes is that number and prix_moyen the mean of their prix_m2 |
| ProcessData.CommuneMeansInBand | process_data.py:36-49 | every prix_moyen lies strictly inside (1000, 40000) |
| ProcessData.CountsBeforeThreshold | process_data.py:29-46 | before the threshold, the counts add up to the number of detail rows with both a commune code and a name, and to all detail rows when none lacks either |
| Centroids.DeptKey | main.py:91-94 | the department key is a prefix of the code, of length 3 for a code starting with "97" and 2 otherwise, or the whole code when shorter |
| Centroids.OuterRing | main.py:96-101 | there is no ring exactly when the indexing would fail (a Polygon without rings, a MultiPolygon without polygons or whose first polygon has no ring); otherwise it is the Polygon's first ring (`coordinates[0]`) or the first ring of the first polygon (`coordinates[0][0]`); any other geometry gives no vertex |
| Centroids.Contributions | main.py:88-116 | a department receives no more points than there are features |
| Centroids.ContributionsMembership | main.py:88-116 | a point is listed for a department exactly when some feature contributes that point to that department |
| Centroids.ContributionsSound | main.py:88-116 | every point listed for a department is the contribution of some feature to that department |
| Centroids.ContributionsComplete | main.py:88-116 | every feature that contributes to a department has its point listed for that department |
| Centroids.DeptKeyShape | main.py:91-94 | the department key is a prefix of the code; for codes of three or more characters it has three characters exactly for "97…" codes and two otherwise |
| Centroids.Contribution | main.py:89-116 | a feature is skipped exactly when it has no code, no geometry, no outer ring, an empty ring or a vertex with fewer than two coordinates; otherwise it contributes, to the department of its code, the mean latitude and mean longitude of its outer ring's vertices |
| Centroids.ContributionWithinRing | main.py:103-107 | a feature's point lies in the latitude and longitude ranges of its outer ring's vertices |
| Centroids.DeptCenters | main.py:85-123 | a department has a centre exactly when some feature contributes a point to it, and its centre is the mean latitude and mean longitude of those points |
| Centroids.SumBounds | main.py:121-122 | a sum of n values in [lo, hi] lies in [n·lo, n·hi] |
| Centroids.AverageBetween | main.py:106-107 | an average lies between the smallest and largest bound of its values |
| Centroids.CenterWithinRange | main.py:118-123 | a department centre lies in the latitude and longitude ranges of its features' points |
| Centroids.AverageOfTwo | main.py:106-107 | the average of two values is their midpoint |
| Centroids.ParisContributions | main.py:96-113 | the Polygon and the MultiPolygon Paris features contribute their first ring's vertex mean to department 75, and a feature without geometry is skipped |
| Centroids.ParisExample | main.py:88-123 | two Paris features, one Polygon and one MultiPolygon, give department 75 the mean of their ring means; a feature without geometry adds nothing |
| DayPicker.MaxDays | main.py:146-152 | max_days is 28, 30 or 31: 28 exactly for February, 30 exactly for April, June, September and November |
| DayPicker.MaxDaysIsMonthLength | main.py:146-152 | for a real month, max_days is that month's length in 2023 |
| DayPicker.UpdateDay | main.py:145-182 | the options are 1..max_days; the new day never exceeds max_days, is the current day when that fits and max_days otherwise |
| DayPicker.UpdateDayGivesValidDate | main.py:145-160 | after a month change, at least-1 day selections name a real 2023 date that is one of the options |
| DayPicker.FebruaryThirtieth | main.py:156-158 | day 30 in February is clamped to 28 |
| Ranking.RemoveOne | main.py:241 | supporting lemma of MaximalExists: removing a present city lowers the count of cities by one |
| Ranking.MaximalExists | main.py:241-242 | a non-empty set of cities has one of maximal mean |
| Ranking.TopCityOf | main.py:240-245 | the top city exists exactly when some city is eligible; it has a maximal mean, and its price is its mean |
| Ranking.EntriesStep | main.py:313 | appending the best remaining city keeps every entry a city of the table with its own statistics |
| Ranking.DistinctStep | main.py:313 | appending the best remaining city keeps the listed names distinct |
| Ranking.AscendingStep | main.py:313 | appending the best remaining city keeps the list in ascending order of mean |
| Ranking.LargestStep | main.py:313 | appending the best remaining city keeps every left-out city no larger than any listed one |
| Ranking.RanksTopStep | main.py:313 | a top-(n−1) list of the other cities plus the best city is a top-n list |
| Ranking.TopAscending | main.py:313 | the list holds min(n, number of cities) distinct cities with their own statistics, in ascending order of mean, and no left-out city has a larger mean than a listed one |
| Dashboard.ParseDate | main.py:208-209 | the date text parses exactly when the triple is a real 2023 date, and then to that date |
| Dashboard.StartDate | main.py:208-218 | the start of the window is always a real 2023 date: the entered one or 2023-01-01 |
| Dashboard.EndDate | main.py:208-218 | the end of the window is always a real 2023 date: the entered one or 2023-12-31 |
| Dashboard.InMask | main.py:220-225 | a selected row is dated in 2023, has a selected type, a prix_m2 inside the inclusive price range and, unless "all", the selected department |
| Dashboard.ViewFor | main.py:263-278 | the choropleth's zoom is 5 exactly for "all", 11 exactly for Paris with a centre, 6 exactly for a department without a centre, and 8.5 for any other department with a centre; its centre is the department's centre when there is one and France's otherwise |
| Dashboard.MapFigure | main.py:260-297 | a blank map (at zoom 5) exactly when no commune reaches min_sales |
| Dashboard.MapFigureAsWritten | main.py:260-297 | the figure as written fails exactly when no commune reaches min_sales, and otherwise is the corrected figure |
| Dashboard.Filtered | main.py:220-227 | the selection is no longer than the rows, and every selected row passes the mask |
| Dashboard.FilteredMembership | main.py:220-227 | a sale is selected exactly when it is one of the rows and passes the mask |
| Dashboard.UpdateDashboard | main.py:206-325 | the sentinel is returned exactly when nothing is selected, and the volume KPI is the positive number of selected rows otherwise |
| Dashboard.UpdateDashboardAsWritten | main.py:206-325 | when the callback as written succeeds, it gives the corrected report |
| Dashboard.DateFallbacks | main.py:208-218 | an invalid start date becomes 2023-01-01 and an invalid end date 2023-12-31, each on its own; a valid one is used as it is |
| Dashboard.ClampedDayIsUsed | main.py:145-214 | a day clamped by the day picker never triggers the fallback |
| Dashboard.UnclampedFebruaryFallsBack | main.py:208-214 | 30 February is not a date, so the window falls back to 1 January and 31 December |
| Dashboard.NoDataIffNothingSelected | main.py:229-231 | the sentinel outputs are produced exactly when no row passes the mask |
| Dashboard.OverallKpis | main.py:234-236 | volume is the number of selected rows; the price and surface KPIs are their means; the price KPI lies in the selected price range |
| Dashboard.CityStats | main.py:238 | a city has a statistics row exactly when it has a selected sale, with its mean and count |
| Dashboard.TopCityRule | main.py:238-245 | the top city has at least 5 sales and no city with at least 5 has a larger mean; there is none exactly when no city reaches 5 |
| Dashboard.TopTenRule | main.py:313 | at most 10 distinct cities, each with more than 10 sales and its own mean and count, ascending by mean; as many as there are such cities up to 10; no unlisted city with more than 10 has a larger mean than a listed one |
| Dashboard.MapAggregateRule | main.py:254-258 | a commune is on the map exactly when it has at least min_sales selected sales, with its mean and count; a cleared min_sales keeps every commune |
| Dashboard.EvolutionRule | main.py:302 | the monthly series has a point exactly for each month with a selected sale, at that month's mean prix_m2 |
| Dashboard.ViewRule | main.py:260-297 | map view: "all" gives France at zoom 5; a department with a centre gives its centre at 8.5 (11 for Paris); any other department gives France at 6; with no commune, a blank map at zoom 5 |
| Dashboard.AsWrittenFailsOnBlankMap | main.py:260-297 | the callback as written fails exactly when some row is selected but no commune reaches min_sales |
| Dashboard.LoneSaleSelected | main.py:220-258 | the counterexample's one sale is selected, and its commune falls below min_sales = 2 |
| Dashboard.BlankMapCounterexample | main.py:297 | one selected sale with min_sales = 2: the corrected callback gives a blank map, the one as written raises |
| Dashboard.ScenarioFiltered | main.py:220-227 | four sales inside the window, the types and the price range are all selected |
| Dashboard.ScenarioSums | main.py:234 | the prix_m2 sums of the scenario: 9000 for commune A, 18000 overall |
| Dashboard.ScenarioGroups | main.py:254 | the scenario's commune A has three sales and commune B one |
| Dashboard.ScenarioMap | main.py:254-258 | with min_sales = 2, commune A is on the map with mean 3000 and count 3, and commune B is not |
| Dashboard.ThresholdScenario | main.py:229-258 | the map threshold drops commune B but the KPIs still count it: volume 4, mean price 4500 |

## Left out

- File I/O is left out: the CSV, gzip and parquet reads and writes, the directory creation, and the progress messages. The rows are taken as already read, and the date columns as already parsed.
- Plotting is left out: the figure objects, the colour scales, the pie chart and the histogram (main.py:304-323). The model keeps the map view, the monthly series and the top-ten list as data.
- The KPI text formatting is left out (main.py:247-251): rounding with `:.0f` and the thousands separator. The KPIs are exact reals.
- Floating-point arithmetic is left out. Means and prices are exact `real`s, so results that round differently in IEEE doubles are not modelled.
- Dashboard.ParseDate: it models `pd.to_datetime(..., errors='coerce')` on integer month and day only. Non-integer or missing inputs, and the bare `except` that falls back to both defaults (main.py:216-218), are not modelled.
- The GeoJSON arrondissement table and its two helpers (main.py:51-78) are left out: nothing calls them. `apply_geojson_logic` (main.py:136-138) is left out because it only copies the commune code into the key column.
- The filter option lists and ranges built at start-up (main.py:31-47) are left out. They only feed the layout, and the layout module is not part of this model.
- The per-row dataframe the dashboard reads at start-up adds a `month_date` column. The model uses the `mois` period of the sale date instead, which has the same `YYYY-MM` text (`Calendar.PeriodTextInjective`).
- DayPicker.UpdateDay: `update_end_day` is the same code as `update_start_day`, so one function models both.
- Ranking.TopCityOf: when two cities tie for the largest mean, the model does not say which city is chosen. pandas `idxmax` takes the first one in the group order.
- Ranking.TopAscending: when means tie, the model does not fix which cities are chosen or in what order. It only states the ranking properties that `nlargest` and the ascending sort give for any tie order.
- Dashboard.UpdateDashboard: it is a ghost function because the top city and the top ten are chosen by `:|`. Because of that, its contract states only the sentinel and the volume. Each of its other outputs has its own rule lemma (`OverallKpis`, `TopCityRule`, `TopTenRule`, `MapAggregateRule`, `EvolutionRule`, `ViewRule`).
- CleanData.SplitIntoChunks: every chunk holds at least one row. For a file with a header only, the pandas reader yields one empty frame, where the model has no chunk; the cleaned result is empty either way. The source's `pd.concat` of an empty chunk list would raise, which is not modelled.
- Centroids.DeptCenters: Python dict insertion order is not modelled, because the second loop's result does not depend on it. A vertex with fewer than two coordinates, which makes the source skip the feature through its exception handler, is modelled as a skipped feature.

## Findings

| source | as written | input that shows it | evidently intended | confidence | as-written member | corrected member |
|---|---|---|---|---|---|---|
| main.py:297 | the blank-map branch calls `px.scatter_mapbox(bs="carto-positron", zoom=5)`; `bs` is not a keyword argument of `scatter_mapbox`, so the call raises `TypeError` and the whole callback fails | a selection with one sale and min_sales = 2 (`Dashboard.BlankMapCounterexample`): rows are selected, but no commune reaches 2 sales | an empty map at zoom 5 (presumably `mapbox_style="carto-positron"`), with the KPIs and charts still shown | not executed | Dashboard.UpdateDashboardAsWritten (with Dashboard.MapFigureAsWritten; Dashboard.AsWrittenFailsOnBlankMap shows it fails exactly in that case) | Dashboard.MapFigure (giving BlankMap(5.0)) used by Dashboard.UpdateDashboard, with Dashboard.ViewRule |
