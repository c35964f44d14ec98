# Claims and visits dashboards: the filter-and-aggregate pipeline

Two Streamlit dashboards, `Claims.py` (insurance claims) and `Visits.py`
(patient visits), run the same pipeline inline:

1. keep the rows whose timestamp lies in the picked date window;
2. narrow them with the sidebar multiselects, where an empty multiselect
   admits everything;
3. build the filter description shown on the average metric;
4. compute headline metrics and grouped tables of what is left, or show
   "No data available for this selection" when nothing is left.

This project models that pipeline in Dafny and proves what each step
promises.

- A frame is a `seq` of rows, and a row is a datatype holding the columns the
  dashboard reads (`Claims.Claim`, `Visits.Visit`).
- A boolean mask `df[mask]` is `Frames.Keep`, which keeps row order.
- `groupby` is written over the distinct keys in order of first appearance
  (`Groups.Grouped`). pandas lists the groups in sorted key order instead;
  every grouped table the model keeps is then re-sorted, counted per
  group or read as a map, so no contract depends on this order (see
  "Left out").
- `value_counts()` and `sort_values(ascending=False)` are a sort by
  non-increasing count or sum (`Groups.SortDesc`).
- `sort_index()` on string labels uses Python's string order (`Order.StrBelow`).
- `idxmax()` takes the first largest entry (`Groups.FirstMax`).
- `head(10)` is `Groups.Top`.

Both dashboards follow the same imperative steps, each written as a method
and proved against a specification function:

- the filter chain re-binds the frame one multiselect at a time
  (`ApplyFilters`);
- the description grows by `+=` (`AppendSegments`, `BuildDescription`);
- one run of the page is `Dashboard`.

The visits dashboard also overwrites its `MonthName` column in place with
"%b %Y" labels. That step is modelled as a method over an array of rows
(`Visits.AddMonthLabels`).

Module layout:

| file | module | contents |
|---|---|---|
| frames.dfy | Frames | masks, columns, column sums, `unique()`, the date window |
| groups.dfy | Groups | group totals, `value_counts`, sorting, `head`, `idxmax`, percentages, means |
| order.dfy | Order | Python string order, `sorted(unique())` for strings and integers |
| text.dfy | Text | `str.join`, `str(int)`, the filter description |
| calendar.dfy | Calendar | month names, calendar order, "%b %Y" labels and their parsing |
| claims.dfy | Claims | the claims dashboard |
| visits.dfy | Visits | the visits dashboard |

## Model

| member | source | states |
|---|---|---|
| Frames.Between | Claims.py:111 | the window keeps exactly the rows with date1 <= timestamp <= date2 (Claim Created Date here, visit_date at Visits.py:74), every copy of each, as an order-preserving subsequence; an inverted window keeps nothing |
| Frames.Keep | Claims.py:128 | `df[mask]` keeps exactly the rows the mask admits and never adds rows |
| Frames.KeepIsSubsequence | Claims.py:128 | a mask keeps the surviving rows in their original order |
| Frames.KeepOccurrences | Claims.py:128 | a mask keeps every copy of a row it admits and none of a row it rejects |
| Frames.KeepCopies | Claims.py:128 | for every row value, the masked frame holds as many copies as the frame when the mask admits it and none otherwise |
| Frames.NarrowStep | Claims.py:127-128 | one step `if selected: df = df[df[f].isin(selected)]` leaves the frame of the mask that adds this multiselect; with nothing selected the step is a no-op |
| Frames.KeepAllIff | Visits.py:183-185 | a mask keeps all rows exactly when it admits every one of them |
| Frames.Distinct | Claims.py:118 | `unique()` lists each value of the column exactly once and nothing else |
| Frames.DistinctInFirstAppearanceOrder | Claims.py:118 | `unique()` lists the values in order of first appearance |
| Frames.FirstAt | Claims.py:118 | the position found is the first occurrence of the value, or the length when it does not occur |
| Frames.FirstAtAppend | Claims.py:118 | appending a row moves no first occurrence, and a new value is first found at the end |
| Frames.FirstAppearanceStep | Claims.py:118 | values in order of first appearance stay so when a row is appended, and so does the list extended by a new value |
| Frames.SumOfBounds | Claims.py:165 | a column whose values lie in [lo, hi] sums to between lo and hi times the row count |
| Order.SortedUniqueInts | Claims.py:116 | `sorted(df['Year'].unique())` is strictly increasing and holds exactly the years that occur |
| Order.SortedUniqueStrings | Claims.py:117 | `sorted(df['Month'].unique())` is strictly ascending in string order and holds exactly the month names that occur |
| Order.StrBelowIrreflexive | Claims.py:117 | Python's string `<` is irreflexive |
| Order.StrBelowTransitive | Claims.py:117 | Python's string `<` is transitive |
| Order.StrBelowTotal | Claims.py:117 | any two distinct strings are ordered one way or the other |
| Order.StrBelowPrefix | Visits.py:255 | two different strings of equal length decide the string order of anything written after them |
| Order.AscendingHasNoDuplicates | Visits.py:255 | a strictly ascending list of labels has no repeated label |
| Groups.GroupTotals | Claims.py:369 | the table over a key list has exactly those keys, in order, each holding the sum of its group's values |
| Groups.CountIsOccurrences | Claims.py:248 | counting a group's rows gives the number of times its key occurs in the column |
| Groups.TotalsCover | Claims.py:369 | when every row's key is listed once, the group sums add up to the column total |
| Groups.CountsOverKeys | Visits.py:255 | over the distinct values that occur, each count is the number of occurrences and at least 1, and the counts add up to the row count |
| Groups.GroupedFacts | Claims.py:369 | `groupby(key)[val].sum()` has one entry per distinct key, each holding its group's sum, and the entries add up to the column total |
| Groups.Grouped | Claims.py:369 | `groupby(key)[val].sum()` has at most one entry per row |
| Groups.ValueCounts | Claims.py:248 | `value_counts()` has at most one entry per row and lists them by non-increasing count |
| Groups.SumsDescending | Claims.py:369 | `groupby(key)[val].sum().sort_values(ascending=False)` has at most one entry per row and lists them by non-increasing sum |
| Groups.SortBy | Claims.py:326 | `sort_values` by a rank orders the rows by non-decreasing rank and is a permutation of them |
| Groups.SortByKeepsColumn | Claims.py:326 | sorting keeps each column's values and keeps a duplicate-free column duplicate-free |
| Groups.SortDesc | Claims.py:369 | `sort_values(ascending=False)` is non-increasing and a permutation |
| Groups.SortDescKeeps | Claims.py:369 | sorting descending keeps the total, the entries and distinct keys |
| Groups.SumsDescendingFacts | Claims.py:369-398 | the provider and employer tables (lines 369, 378, 388, 398) have one row per distinct name holding its claimed sum, in non-increasing order, and the sums add up to the total claimed |
| Groups.ValueCountsFacts | Claims.py:248 | `value_counts()` (Claim Type here; Source at Claims.py:289, visit_type at Visits.py:349) has one entry per distinct value, with count = occurrences >= 1, in non-increasing order, and the counts add up to the row count |
| Groups.CountsByColumn | Visits.py:252-255 | row counts over any keys depend on the key column alone, so rewriting other columns leaves them unchanged |
| Groups.ValueCountsByColumn | Visits.py:349 | `value_counts()` depends on the key column alone |
| Groups.Top | Visits.py:370 | `head(n)` is the first min(n, length) entries of the table |
| Groups.TopHoldsLargest | Visits.py:370 | from a non-increasing table, `head(n)` stays non-increasing and every entry kept is at least every entry dropped |
| Groups.TopCountsFacts | Visits.py:370 | `value_counts().head(n)` has at most n entries with distinct values, in non-increasing order, each a value that occurs with its true count; when it has fewer than n entries it lists every value that occurs |
| Groups.TopOfCounts | Visits.py:370 | the head of a count table keeps its distinct keys, order and true counts, and is full or lists every value |
| Groups.TopKeepsDistinctKeys | Visits.py:370 | the head of a table with distinct keys has distinct keys |
| Groups.TopCovers | Visits.py:370 | the head has n entries or all the keys of the table |
| Groups.TopLeavesOutFewer | Visits.py:370 | no value left out of `value_counts().head(n)` occurs more often than any value kept |
| Groups.FirstMax | Visits.py:258 | `idxmax()` picks an entry no other entry exceeds, and every entry before it is strictly smaller |
| Groups.PercentagesSum | Claims.py:250 | the percentages of a table relative to a whole add up to its total over that whole times 100 |
| Groups.PercentagesOfTotal | Claims.py:250 | the percentages of a table relative to its own total add up to 100 |
| Groups.ShareOfWhole | Claims.py:168 | a part of a whole, in percent, lies in [0, 100]; it is 0 exactly when the part is 0 and 100 exactly when the part is the whole |
| Groups.Mean | Visits.py:160 | the mean times the number of groups gives the total back |
| Groups.MeanWithin | Claims.py:169 | a mean of values bounded by lo and hi lies between lo and hi |
| Text.AddSegment | Claims.py:154-155 | one `if selected: description += ", ".join(selected) + " "` step appends the segment of that multiselect |
| Text.Join | Claims.py:155 | `", ".join(parts)` is empty for no parts, and otherwise starts with the first part and ends with the last |
| Text.Segment | Claims.py:155 | a multiselect adds nothing exactly when it is empty; otherwise its segment starts with its first value and ends with a space |
| Text.SegmentsEmpty | Claims.py:161 | the accumulated description is empty exactly when no described multiselect has a value |
| Text.SegmentsEndWithSpace | Claims.py:155 | a non-empty description ends with the space its last segment adds |
| Text.DescribeAllDataIff | Claims.py:161-162 | the description is "All Data" exactly when nothing is selected, and otherwise it is the accumulated segments |
| Calendar.CalendarRank | Claims.py:324-325 | the categorical rank of a name is its place in `months_order`, or last (NaN) for a name outside it |
| Calendar.NamesDistinct | Claims.py:324 | the twelve month names differ, and so do their "%b" abbreviations |
| Calendar.CalendarRankOfMonth | Claims.py:324-326 | under `months_order`, month m sorts at position m - 1 |
| Calendar.ParseDecimal | Visits.py:261 | reading back the decimal digits of a year gives that year |
| Calendar.Label | Visits.py:252 | a "%b %Y" label is the three-letter abbreviation of its month, one space and the four digits of its year |
| Calendar.MonthOfAbbreviation | Visits.py:261 | parsing a "%b" abbreviation gives the month it abbreviates |
| Calendar.AbbreviationsName | Visits.py:261 | each month's abbreviation parses back to that month |
| Calendar.LabelRoundTrip | Visits.py:261 | `pd.to_datetime` of a "%b %Y" label gives back the year and month it was written from |
| Calendar.Reformat | Visits.py:261-264 | `pd.to_datetime(s).strftime("%b %Y")` fails exactly when s does not parse, and otherwise names the same month of the same year |
| Calendar.ReformatLabel | Visits.py:261-264 | parsing a label and writing it with "%b %Y" again gives the same label |
| Calendar.LabelsSortAlphabetically | Visits.py:255 | `sort_index()` on labels is string order: within a year, labels sort as their month abbreviations do, so "Apr 2024" precedes "Jan 2024" |
| Claims.SidebarOptions | Claims.py:116-121 | the Year and Month options are sorted without repeats; the Status, provider type, employer and provider options are listed once each; every option occurs in the date-filtered claims and every value that occurs is offered |
| Claims.StagesAdd | Claims.py:126-138 | each filter step adds one multiselect to the mask, in the order year, month, status, provider type, employer, provider |
| Claims.FilteredFacts | Claims.py:126-138 | the filtered frame holds exactly the claims every multiselect admits, every copy of each, in their original order |
| Claims.ApplyFilters | Claims.py:126-138 | the six steps, applied one after the other, leave the frame of claims every multiselect admits; with nothing selected the frame is unchanged |
| Claims.DescribedNothing | Claims.py:154-161 | the description's lists are all empty exactly when no Year, Month or Status is selected |
| Claims.AppendSegments | Claims.py:153-160 | `+=` accumulation gives the Year, Month and Status segments, in that order |
| Claims.BuildDescription | Claims.py:153-162 | the description is "All Data" exactly when Year, Month and Status are all empty, and otherwise their comma-joined segments; provider type, employer and provider never appear |
| Claims.ApprovalPercentage | Claims.py:168 | the approval percentage lies in [0, 100]; it is 100 exactly when every claim's status is "Approved" and 0 exactly when none is |
| Claims.AverageClaimAmount | Claims.py:169 | the average times the claim count is the claimed total, and it is 0 for no claims |
| Claims.AverageWithinAmounts | Claims.py:169 | the average claim lies between the smallest and the largest claim amount |
| Claims.ClaimTypePercentages | Claims.py:248-250 | there is one percentage per Claim Type row, and the percentages add up to 100 |
| Claims.GroupRow | Claims.py:315-325 | a (month, claim type) group's row carries the categorised month, the claim type and a count of at least 1 |
| Claims.Categorised | Claims.py:325 | `pd.Categorical` keeps a month name of `months_order` and turns any other name into NaN |
| Claims.GroupRows | Claims.py:315-319 | there is one row per listed pair, in order |
| Claims.GroupRowCount | Claims.py:317 | a row's Number of Claims is the number of claims of its pair |
| Claims.GroupRowMean | Claims.py:316 | a row's Average Claim Amount is the mean amount of its pair's claims |
| Claims.ClaimsByMonthType | Claims.py:315-326 | the month-by-type table has at most one row per claim |
| Claims.RowsOfPairs | Claims.py:315-325 | every row of the month-by-type table is the row of a (month, claim type) pair that occurs |
| Claims.SortedMonths | Claims.py:325-326 | rows of categorised months sorted by rank run through the calendar with NaN last |
| Claims.ClaimsByMonthTypeOrder | Claims.py:324-326 | the month-by-type table runs January to December, and the rows whose month became NaN come last |
| Claims.ClaimsByMonthTypeGroups | Claims.py:315-326 | the table has one row per distinct (month, claim type) pair, and the row of every pair that occurs is in it |
| Claims.ClaimsByMonthTypeRows | Claims.py:315-325 | each row is the row of a pair that occurs: its month is that pair's month categorised (NaN outside the calendar), and it counts the pair's claims and holds their mean amount |
| Claims.Dashboard | Claims.py:111-169 | "No data" is shown exactly when no windowed claim passes the filters, and always for an inverted window; otherwise every metric and table is the one computed from the filtered claims (description, approval percentage, type and source counts, type percentages, month-by-type table, provider and employer sums), total_claims >= 1 so the average is the claimed total over the count (the fallback 0 is unreachable), the approval percentage lies in [0, 100], the description is "All Data" exactly when year, month and status are empty, the type and source counts add up to total_claims, the type percentages to 100, and the provider and employer sums to the total claimed, all in non-increasing order |
| Visits.SidebarOptions | Visits.py:127-130 | the year, month and quarter options are sorted without repeats, the visit type options are listed once each, and each offers exactly the values that occur |
| Visits.StagesAdd | Visits.py:134-151 | each filter step adds one multiselect to the mask, in the order year, quarter, month, visit type |
| Visits.FilteredFacts | Visits.py:134-151 | the filtered frame holds exactly the visits every multiselect admits, every copy of each, in their original order |
| Visits.ApplyFilters | Visits.py:134-151 | the four steps, applied one after the other, leave the frame of visits every multiselect admits; with nothing selected the frame is unchanged |
| Visits.DescribedNothing | Visits.py:169-177 | the description's lists are all empty exactly when no year, quarter, month or visit type is selected |
| Visits.AppendSegments | Visits.py:168-176 | `+=` accumulation gives the year, quarter, month and visit type segments, in that order |
| Visits.BuildDescription | Visits.py:168-178 | the description is "All Data" exactly when all four selections are empty, and otherwise their comma-joined segments |
| Visits.AverageVisits | Visits.py:157-165 | average_visits is 0 exactly when no visit is left; otherwise it is the visit count over the number of distinct (year, quarter) periods, between 1 and the visit count |
| Visits.PeriodGroups | Visits.py:159 | a non-empty frame has between 1 and one-per-visit (year, quarter) groups, one per distinct period, whose counts add up to the visit count |
| Visits.DayAndNightVisits | Visits.py:183-185 | day_visits + night_visits <= total_visits, with equality exactly when every visit is "Day" or "Night" |
| Visits.AddMonthLabels | Visits.py:252 | writing "%b %Y" of the creation date into MonthName in place turns the frame into its relabelled copy |
| Visits.RelabelCopy | Visits.py:252 | relabelling a copy of the frame gives the relabelled frame |
| Visits.RelabelLabels | Visits.py:252 | afterwards every MonthName is its visit's creation-month label |
| Visits.RelabelFixesLabelled | Visits.py:252 | relabelling changes nothing exactly when every MonthName already is its label |
| Visits.RelabelIdempotent | Visits.py:252 | relabelling twice is relabelling once |
| Visits.RelabelKeepsColumns | Visits.py:252 | relabelling leaves the visit type, specialisation, day and (visit type, month) columns unchanged |
| Visits.VisitsByMonth | Visits.py:255 | visits_by_month lists each MonthName that occurs, and only those, in strictly ascending string order |
| Visits.VisitsByMonthFacts | Visits.py:255 | visits_by_month lists each label that occurs once, in string order, with its count (at least 1), and the counts add up to total_visits |
| Visits.MaxMonth | Visits.py:258 | max_month is a MonthName that occurs |
| Visits.MaxMonthFacts | Visits.py:258 | max_month is a label that occurs, no label has more visits, and every label sorting before it has strictly fewer |
| Visits.MaxMonthStr | Visits.py:261-264 | max_month_str fails exactly when max_month does not parse, and otherwise names the same month as max_month |
| Visits.MaxMonthStrFacts | Visits.py:261-264 | once MonthName holds "%b %Y" labels, max_month_str equals max_month |
| Visits.TopSpecialisations | Visits.py:370 | top_specializations has at most 10 entries, never more than the visits, largest first |
| Visits.TopSpecialisationsFacts | Visits.py:370 | top_specializations has at most 10 distinct specialisations, largest first, each with its true count, all of them when fewer than 10 are listed, and no specialisation left out has more visits than one kept |
| Visits.DailyVisits | Visits.py:426 | daily_visits lists each day with a visit, and only those, in strictly increasing date order |
| Visits.DailyVisitsFacts | Visits.py:426 | the daily table lists each day with a visit once, in date order, with its count, and the counts add up to total_visits |
| Visits.Pivot | Visits.py:481-490 | the count pivot has a cell exactly for each (visit type, month) pair that occurs, and each cell is at least 1 |
| Visits.PivotFacts | Visits.py:481-490 | the count pivot has a cell exactly for each (visit type, month) pair that occurs, holding its count (at least 1); a pair that never occurs has no cell; the cells add up to total_visits |
| Visits.PivotByColumn | Visits.py:481-490 | the count pivot depends on the (visit type, month) column alone |
| Visits.RelabelledMonths | Visits.py:252-264 | on the relabelled frame the month table counts the visits of each creation-month label of the filtered frame, in string order, and adds up to total_visits; max_month is some visit's creation-month label, printed back unchanged |
| Visits.RelabelledCounts | Visits.py:252-490 | rewriting MonthName changes none of the visit type, specialisation, daily and pivot tables: each equals the table of the filtered frame |
| Visits.Dashboard | Visits.py:74-495 | "No data" is shown exactly when no windowed visit passes the filters, and always for an inverted window; otherwise the average, the description and the visit type, specialisation, daily and pivot tables are those computed from the filtered visits, visits_by_month and max_month those of the relabelled frame; the day, night and total counts, the average per (year, quarter), the description and every table satisfy the properties above, and max_month_str equals max_month |

## Left out

- Page layout, CSS, widgets, metric cards, expanders and all charts: these are presentation with no stated behaviour.
- File loading and caching (`read_excel`, `read_csv`, `st.cache_data`): these are I/O. The frame is a parameter of `Dashboard`.
- Parsing of timestamps: dates are integer points in time, and a visit's calendar parts (day, creation year and month) are given fields. The only date text modelled is the "%b %Y" label and its parse.
- Floating point: percentages and means are exact `real`s, and no rounding or display formatting is modelled.
- int64 overflow of sums: integers are unbounded.
- The try/except around the per-period groupby (Claims.py:143-148, Visits.py:158-163): the only failures it catches come from inside pandas.
- The first average_claim_amount (Claims.py:142-150) is computed per (Year, Month) and then overwritten at Claims.py:169. Only the value that is displayed is modelled.
- `pct_change` of the monthly counts (Visits.py:273): float division with a NaN first element, used only by a chart.
- The Year sum table (Claims.py:264, shown as a table at 270), the average amount by claim type (Claims.py:277, shown at 284), the 2023/2024 time series (Claims.py:403-419) and the mean amount pivot (Claims.py:455-462, shown at 463): they are displayed, but are not part of the modelled pipeline.
- The order of `groupby` groups: pandas sorts them by key, and the model lists them in order of first appearance. No modelled contract depends on it. The provider and employer sums and the month-by-type table are re-sorted with a sort that pandas does not promise to be stable (`sort_values`), the per-period counts are only averaged, and the pivot is a map. The order of entries with equal sums, and of the rows within one month of the month-by-type table, is left unspecified.
- The `visit_month` column (Visits.py:246-249) and the re-conversion of `visit_created_on` (Visits.py:154, 246, 418) feed no modelled table. The pivot's `month` column (Visits.py:481) is read as the month name of the creation month, without being stored.
- Groups.SortDesc: the order among entries with equal counts or sums is not claimed, since pandas does not promise a stable sort there. The model breaks ties by first appearance.
- Visits.PivotFacts: the pivot is a map from (visit type, month) to its count. The order in which pandas lays out its rows and columns is not modelled.
- NaN values in the data: rows are assumed to have every column, so `count` and `isin` never meet a missing value.
- Calendar.ParseLabel: text that is not an abbreviation, a space and four digits is None. pandas would try other formats or raise instead.
- Claims.ApprovalPercentage: requires a non-empty frame. The dashboard only computes it inside its non-empty branch.
