# BearCart analytics core in Dafny

This project models the analytics pipeline of BearCart, a Maven Fuzzy Factory
e-commerce dashboard. The pipeline has two halves.

- **Dashboard backend** (`BearCart/backend/`):
  - cleans the raw tables and builds the normalized `sessions`, `orders` and
    `refunds` tables (`data_cleaning.py`);
  - computes the headline KPIs over an inclusive date window with optional
    channel and device filters (`kpis.py`);
  - builds the grouped tables the charts show (`analysis.py`);
  - formats numbers for display and finds a column's date range (`utils.py`).
- **API server** (`server/services/`):
  - cleans the tables while keeping a `cleaning_report` and builds the
    per-session master table (`BearCartDataCleaner`, `data_cleaner.py`);
  - adds the channel, segment, product-risk and time features
    (`BearCartFeatureEngineer`, `feature_engineer.py`);
  - computes the dashboard KPIs (`BearCartMetrics`, `metrics.py`).

Conventions:

- A pandas frame is a `seq` of row records.
- Money is an integer number of cents (`int`). Means and rates are `real`.
- Timestamps are integer seconds. A calendar day is `t / 86400`.
- A missing cell is `Option`. A column that may be absent from a frame is
  tracked through the frame's `set<string>` of column names.
- A rate is written `IsRatio(q, k, n)` (`q * n == k`), so no property relies
  on real division being computed.

Modules follow the source files:

- `Seqs`, `Grouping`, `Sorting` and `Text` (`seqs.dfy`, `grouping.dfy`, `sorting.dfy`, `text.dfy`) hold the shared machinery: filter, map, count, sum, keep-first `drop_duplicates`, `groupby`, `sort_values`, ASCII case mapping and decimal digits.
- `Tables` (`tables.dfy`) holds the normalized tables and the date window.
- `BackendCleaning` (`backend_cleaning.dfy`) models `data_cleaning.py`.
- `Kpis` (`kpis.dfy`) models `kpis.py`.
- `Analysis` (`analysis.dfy`) models `analysis.py`.
- `Formatting` (`formatting.dfy`) models `utils.py`.
- `ServerCleaner` (`server_cleaner.dfy`) models `data_cleaner.py`. Its class `DataCleaner` has a field `cleaningReport` that the cleaning methods update. Its class `Frame` stands for argument frames the source mutates.
- `Features` (`features.dfy`) models `feature_engineer.py`, as class `FeatureEngineer` with field `featureReport`.
- `Metrics` (`metrics.dfy`) models `metrics.py`, as class `Metrics` holding the master, order and item tables.

`get_conversion_funnel` does not ensure that its "Orders" stage is at most
its "Sessions" stage: it counts in-window orders and in-window sessions
separately. `Analysis.FunnelMayWiden` gives a funnel with more orders than
sessions, and `Analysis.FunnelNarrows` states a condition under which the
funnel does narrow.

## Model

| member | source | states |
|---|---|---|
| `Seqs.DropDuplicates` | BearCart/backend/data_cleaning.py:61 | keep-first de-duplication returns a subsequence of the input with pairwise distinct keys and the same set of keys |
| `Seqs.DropDuplicatesKeepsFirst` | BearCart/backend/data_cleaning.py:93 | every surviving row is the first row of the input with its key |
| `Seqs.DropDuplicatesCount` | server/services/data_cleaner.py:45-46 | survivors plus the rows `duplicated(subset=…)` marks equal the input length |
| `Grouping.GroupBy` | BearCart/backend/analysis.py:32-34 | `groupby(key).agg(count, sum)`: one row per distinct non-missing key with that group's size (at least 1) and sum; the sizes add up to the rows with a key and the sums add up to their total |
| `Grouping.SortedGroupBy` | BearCart/backend/analysis.py:32-34 | the grouped table after `sort_values` is still a grouped table of the same rows and is ordered by the sort key |
| `Sorting.SortBy` | BearCart/backend/analysis.py:34 | `sort_values` returns a permutation of its rows ordered by the key, ascending or descending |
| `BackendCleaning.DeriveChannel` | BearCart/backend/data_cleaning.py:23-52 | `_derive_channel` always yields a non-empty label |
| `BackendCleaning.DeriveChannelLabels` | BearCart/backend/data_cleaning.py:34-52 | on the lower-cased source: gsearch/bing give "Paid Search", email gives "Email", facebook/twitter give "Social", an empty source gives "Referral" or "Direct", and any other source gives its title-cased form, which lower-cases back to the source |
| `BackendCleaning.DeriveChannelReferral` | BearCart/backend/data_cleaning.py:46-49 | with no source, the result is "Referral" exactly when the referer is non-empty and lacks "mavenfuzzyfactory", and otherwise "Direct" |
| `BackendCleaning.DeriveChannelCaseInsensitive` | BearCart/backend/data_cleaning.py:34 | the channel does not depend on the case of the source |
| `BackendCleaning.CleanSessionRow` | BearCart/backend/data_cleaning.py:65-78 | a session row survives exactly when its `created_at` and `user_id` are present, and it keeps its id |
| `BackendCleaning.CleanWebsiteSessions` | BearCart/backend/data_cleaning.py:55-85 | no more rows than the input; session ids unique; every survivor is the cleaned form of the first input row with its id |
| `BackendCleaning.CleanWebsiteSessionsKeeps` | BearCart/backend/data_cleaning.py:61-71 | the first row of an id that has a timestamp and a user survives |
| `BackendCleaning.ClipLower` | BearCart/backend/data_cleaning.py:107-111 | `clip(lower=lo)` gives at least `lo` and leaves a value already at least `lo` alone |
| `BackendCleaning.ClipCell` | BearCart/backend/data_cleaning.py:110-111 | clipping keeps a cell missing or present, and a present cell becomes at least the bound |
| `BackendCleaning.CleanOrderRow` | BearCart/backend/data_cleaning.py:97-111 | an order survives exactly when `created_at` and `price_usd` are present, and it keeps its id |
| `BackendCleaning.CleanOrders` | BearCart/backend/data_cleaning.py:88-114 | order ids unique; every survivor has `price_usd >= 0`, `items_purchased >= 1` and a non-negative `cogs_usd` if present; every survivor is the cleaned first row of its id |
| `BackendCleaning.CleanOrdersKeeps` | BearCart/backend/data_cleaning.py:93-106 | the first row of an order id that has `created_at` and `price_usd` survives, as its cleaned row |
| `BackendCleaning.CleanOrderRowDefaults` | BearCart/backend/data_cleaning.py:106-111 | a missing `items_purchased` becomes 1; a non-negative price is kept and a negative one becomes 0; a missing cost stays missing |
| `BackendCleaning.CleanProducts` | BearCart/backend/data_cleaning.py:117-128 | keep-first de-duplication on `product_id`: a subsequence, ids unique, no id lost |
| `BackendCleaning.FillClip` | BearCart/backend/data_cleaning.py:143 | `fillna(0).clip(lower=0)` gives a present, non-negative cell: 0 for a missing cell, unchanged for a non-negative one |
| `BackendCleaning.CleanOrderItems` | BearCart/backend/data_cleaning.py:131-145 | the loop over `price_usd` and `cogs_usd` gives the de-duplicated rows with each row's two cells filled and clipped; item ids unique; both cells present and non-negative in every row |
| `BackendCleaning.CleanItemRowDefaults` | BearCart/backend/data_cleaning.py:142-143 | a missing price or cost becomes 0 and the row's ids are untouched |
| `BackendCleaning.CleanItemRefundRow` | BearCart/backend/data_cleaning.py:157-162 | an item refund survives exactly when its date and amount are present |
| `BackendCleaning.CleanOrderItemRefunds` | BearCart/backend/data_cleaning.py:148-164 | refund ids unique; amounts non-negative; every survivor is the cleaned first row of its id |
| `BackendCleaning.CleanOrderItemRefundsKeeps` | BearCart/backend/data_cleaning.py:153-161 | the first row of an item-refund id that has `created_at` and `refund_amount_usd` survives, as its cleaned row |
| `BackendCleaning.BuildNormalizedSessions` | BearCart/backend/data_cleaning.py:167-187 | one normalized session per cleaned session, in order, with the renamed id, the user, the timestamp, the channel, the device and the repeat flag |
| `BackendCleaning.ToOrder` | BearCart/backend/data_cleaning.py:211-214 | an order is normalized exactly when it has a `user_id` |
| `BackendCleaning.BuildNormalizedOrders` | BearCart/backend/data_cleaning.py:190-218 | order ids stay unique; every output row is a renamed input order with a user; every input order with a user appears |
| `BackendCleaning.EarliestDate` | BearCart/backend/data_cleaning.py:241 | the `min` of a non-empty group's dates is one of them and at most each of them |
| `BackendCleaning.OrderAmount` | BearCart/backend/data_cleaning.py:247-250 | the left merge finds an order amount exactly when the order exists, and it is that order's price |
| `BackendCleaning.RefundAggRows` | BearCart/backend/data_cleaning.py:237-250 | one aggregated row per group: its order id, summed amount, earliest date and merged order amount |
| `BackendCleaning.AggregateRefunds` | BearCart/backend/data_cleaning.py:237-250 | the per-order aggregate is in ascending order id, each row describes its order's item refunds, and every item refund's order has a row |
| `BackendCleaning.GroupedRefundsFacts` | BearCart/backend/data_cleaning.py:237-244 | the sorted groups have strictly ascending order ids, each group's count and sum are those of its order's item refunds, and every order with a refund has a group |
| `BackendCleaning.RefundAggRowsFacts` | BearCart/backend/data_cleaning.py:237-250 | the aggregated rows are strictly ascending, describe their orders and cover every group |
| `BackendCleaning.RefundAggRowsCover` | BearCart/backend/data_cleaning.py:237-244 | every group key has an aggregated row |
| `BackendCleaning.RefundAggRowDescribes` | BearCart/backend/data_cleaning.py:237-250 | each aggregated row holds its order's refund sum, earliest date and order amount |
| `BackendCleaning.EarliestOfOrder` | BearCart/backend/data_cleaning.py:241 | an order's refund date is the date of one of its item refunds and no later than any of them |
| `BackendCleaning.ValidateRefunds` | BearCart/backend/data_cleaning.py:252-257 | when some refund exceeds its order amount, exactly the rows with a known order amount not below the refund survive; otherwise every row stays |
| `BackendCleaning.ValidateRefundsSubsequence` | BearCart/backend/data_cleaning.py:252-257 | validation only deletes rows |
| `BackendCleaning.ValidatedAscending` | BearCart/backend/data_cleaning.py:252-262 | after validation the refunds are still in strictly ascending order id and their `refund_id`s are distinct |
| `BackendCleaning.ValidatedMatchItems` | BearCart/backend/data_cleaning.py:252-262 | every validated refund still matches its order's item refunds |
| `BackendCleaning.ValidatedWithinOrder` | BearCart/backend/data_cleaning.py:252-257 | when validation runs, every remaining refund has an order amount at least the refund |
| `BackendCleaning.UnvalidatedKeepsAll` | BearCart/backend/data_cleaning.py:252-257 | when no refund exceeds its order, every aggregated order keeps its refund row |
| `BackendCleaning.BuildNormalizedRefunds` | BearCart/backend/data_cleaning.py:221-262 | every row has reason "Refund" and `refund_id == str(order_id)`, and belongs to an order that has at least one item refund |
| `BackendCleaning.BuildNormalizedRefundsDistinct` | BearCart/backend/data_cleaning.py:221-262 | at most one refund row per order, in strictly ascending order id, with distinct `refund_id`s |
| `BackendCleaning.BuildNormalizedRefundsRows` | BearCart/backend/data_cleaning.py:237-262 | every row has reason "Refund" and `refund_id == str(order_id)`; its amount is the sum of the order's item refunds and its date is the earliest of them |
| `BackendCleaning.MatchesItemsUnfold` | BearCart/backend/data_cleaning.py:259-262 | a refund row that matches the item refunds has the reason, id, sum and earliest date above |
| `BackendCleaning.BuildNormalizedRefundsWithinOrder` | BearCart/backend/data_cleaning.py:252-257 | when some aggregated refund exceeds its order, every output refund is at most its order amount and the order exists |
| `BackendCleaning.BuildNormalizedRefundsComplete` | BearCart/backend/data_cleaning.py:250-257 | when no refund exceeds its order, every order with an item refund has a row, including orders missing from the orders table |
| `BackendCleaning.CompleteFromAggregate` | BearCart/backend/data_cleaning.py:252-257 | skipping validation keeps a row for every refunded order |
| `Kpis.FilteredSessionsIsSelected` | BearCart/backend/kpis.py:29-41 | applying the date, channel and device filters one after another keeps exactly the sessions that pass all active filters at once |
| `Kpis.TotalSessions` | BearCart/backend/kpis.py:10-43 | the count is the number of filtered sessions and never exceeds the table |
| `Kpis.TotalSessionsMonotone` | BearCart/backend/kpis.py:32-43 | adding any one filter never increases the count; with no filter every session counts |
| `Kpis.TotalSessionsCounts` | BearCart/backend/kpis.py:32-43 | a session passing every filter is among the filtered sessions, so the count is at least 1 |
| `Kpis.TotalOrders` | BearCart/backend/kpis.py:46-68 | the in-window order count; every order with no window |
| `Kpis.SessionIds` | BearCart/backend/kpis.py:126 | `set(session_id)` holds exactly the ids of the given sessions |
| `Kpis.ConvertedOrders` | BearCart/backend/kpis.py:100-127 | exactly the in-window orders whose session passes all session filters |
| `Kpis.ConversionRate` | BearCart/backend/kpis.py:71-129 | 0.0 with no filtered session; otherwise 100 × converted orders / filtered sessions; never negative |
| `Kpis.PercentOf` | BearCart/backend/kpis.py:129 | `k / n * 100` is non-negative and at most 100 when `k <= n` |
| `Kpis.ConversionRateAtMost100` | BearCart/backend/kpis.py:87-129 | the rate is at most 100 when no two converted orders share a session |
| `Kpis.Revenue` | BearCart/backend/kpis.py:132-154 | the sum of `total_amount` over in-window orders; over all orders with no window |
| `Kpis.AverageOrderValue` | BearCart/backend/kpis.py:157-182 | 0.0 for an empty window; otherwise AOV × order count == revenue |
| `Kpis.AverageOrderValueBounds` | BearCart/backend/kpis.py:179-182 | the mean lies between the smallest and the largest order amount |
| `Kpis.RevenuePerSession` | BearCart/backend/kpis.py:185-206 | 0.0 with no session; otherwise the date-window revenue divided by the fully filtered session count |
| `Kpis.RefundedOrderIds` | BearCart/backend/kpis.py:248 | `unique()` of the in-window refunds' order ids |
| `Kpis.RefundRate` | BearCart/backend/kpis.py:209-249 | 0.0 with no in-window order; otherwise 100 × distinct refunded order ids / in-window orders; never negative |
| `Kpis.RefundRateAtMost100` | BearCart/backend/kpis.py:221-249 | at most 100 when every in-window refund's order is an in-window order |
| `Kpis.RefundValue` | BearCart/backend/kpis.py:252-274 | the sum of in-window refund amounts; every row with no window |
| `Kpis.TotalsNonNegative` | BearCart/backend/kpis.py:149-154 | with non-negative amounts, windowed revenue and refund value are non-negative and at most their unfiltered totals |
| `Analysis.SessionsByChannel` | BearCart/backend/analysis.py:10-36 | a grouped table of in-window sessions by channel: one row per present channel, counts sum to the sessions with a channel, sorted by count descending |
| `Analysis.SessionsByDevice` | BearCart/backend/analysis.py:39-65 | the same table by device |
| `Analysis.SessionsByChannelMatchesKpi` | BearCart/backend/analysis.py:28-36 | each non-empty channel's count equals `calculate_total_sessions` with that channel filter, and the counts add up to the in-window sessions with a channel |
| `Analysis.ChannelGroupIsKpi` | BearCart/backend/analysis.py:32-34 | a channel's group size is the KPI with that channel filter |
| `Analysis.SessionsByDeviceMatchesKpi` | BearCart/backend/analysis.py:57-65 | each non-empty device's count equals the KPI with that device filter, and the counts add up |
| `Analysis.DeviceGroupIsKpi` | BearCart/backend/analysis.py:61-63 | a device's group size is the KPI with that device filter |
| `Analysis.DailySessions` | BearCart/backend/analysis.py:86-96 | sessions grouped by calendar day, in strictly ascending day |
| `Analysis.SessionsTimeTrend` | BearCart/backend/analysis.py:68-103 | strictly ascending dates; the counts sum to the in-window session count for daily and resampled trends; a daily row counts its day's sessions, at least one, and every in-window day has a row |
| `Analysis.DailySessionsFacts` | BearCart/backend/analysis.py:94-96 | each daily count is that day's sessions and at least one, and every in-window session's day has a row |
| `Analysis.DailyTotal` | BearCart/backend/analysis.py:94-103 | the daily counts add up to the window's sessions |
| `Analysis.DailyRevenue` | BearCart/backend/analysis.py:293-303 | in-window orders grouped by day with revenue sums, in strictly ascending day |
| `Analysis.RevenueTrends` | BearCart/backend/analysis.py:274-313 | strictly ascending dates; revenues sum to the window's revenue and order counts to its order count; daily rows hold their day's revenue and order count, at least one order, and every in-window day has a row |
| `Analysis.DailyBins` | BearCart/backend/analysis.py:299-304 | the daily revenue table with the same totals, per-day values (each day with at least one order) and coverage |
| `Analysis.DailyBinsGroups` | BearCart/backend/analysis.py:300-303 | each daily bin holds its day's revenue and order count, which is at least one |
| `Analysis.DailyBinsCover` | BearCart/backend/analysis.py:300-303 | every in-window order's day has a bin |
| `Analysis.ResampledBins` | BearCart/backend/analysis.py:306-313 | resampling into buckets keeps ascending dates, the revenue total and the order total |
| `Analysis.DailyRevenueTotals` | BearCart/backend/analysis.py:300-303 | daily revenues add up to the window's revenue and daily counts to its orders |
| `Analysis.ConversionFunnel` | BearCart/backend/analysis.py:106-151 | exactly two stages, "Sessions" then "Orders", with the in-window session and order counts |
| `Analysis.FunnelMayWiden` | BearCart/backend/analysis.py:142-151 | an order with no in-window session gives more orders than sessions |
| `Analysis.FunnelNarrows` | BearCart/backend/analysis.py:142-151 | if each in-window order has its own in-window session, orders ≤ sessions |
| `Analysis.SessionKeyOf` | BearCart/backend/analysis.py:196-200 | the left merge gives an order the key of a session with its id, and no key when none matches |
| `Analysis.SessionKeyOfUnique` | BearCart/backend/analysis.py:196-200 | with unique session ids, the merged key is that session's key |
| `Analysis.ConvRows` | BearCart/backend/analysis.py:201-208 | one row per session group with its session count, its order count (0 when none) and rate = orders / sessions × 100 |
| `Analysis.ConversionBy` | BearCart/backend/analysis.py:190-209 | keys distinct; each row has sessions ≥ 1, the group's session and order counts and their percentage; every in-window key has a row; sorted by rate descending |
| `Analysis.ConvRowsFacts` | BearCart/backend/analysis.py:190-208 | the unsorted rows have distinct keys, the group counts and cover every key |
| `Analysis.SortedConvRows` | BearCart/backend/analysis.py:209 | sorting keeps all of those facts |
| `Analysis.ConversionByChannel` | BearCart/backend/analysis.py:154-211 | every row has at least one session and a non-negative rate; sorted by rate descending |
| `Analysis.ConversionByDevice` | BearCart/backend/analysis.py:214-271 | the same for devices |
| `Analysis.RateNonNegative` | BearCart/backend/analysis.py:208 | a percentage of counts is non-negative |
| `Analysis.ConversionByChannelSessions` | BearCart/backend/analysis.py:191-193 | each channel's session count is the KPI with that channel filter |
| `Analysis.ConversionByChannelCountsOrder` | BearCart/backend/analysis.py:196-207 | an in-window order of an in-window session gives its channel's row at least one order |
| `Analysis.AovByCategory` | BearCart/backend/analysis.py:316-352 | one row "All Categories"; NaN (None) exactly for an empty window; otherwise the mean amount, equal to `calculate_average_order_value` |
| `Analysis.RefundAnalysis` | BearCart/backend/analysis.py:355-411 | a per-reason grouped table sorted by value descending and a per-day grouped table in strictly ascending day, both over in-window refunds |
| `Analysis.RefundAnalysisTotals` | BearCart/backend/analysis.py:393-406 | both tables' counts sum to the in-window refunds and their values to the refund value |
| `Formatting.WholeDigits` | BearCart/backend/utils.py:53 | the integer part is a non-empty digit string whose value is the whole part |x| / 10^decimals |
| `Formatting.IntPart` | BearCart/backend/utils.py:53 | the printed integer part starts with a digit, has no point, and loses only commas against the digits |
| `Formatting.FracPart` | BearCart/backend/utils.py:53 | no fraction for 0 decimals; otherwise a point and exactly `decimals` digits whose value is the remainder |
| `Formatting.FractionDigits` | BearCart/backend/utils.py:53 | exactly `decimals` digits holding the value modulo 10^decimals |
| `Formatting.FormatCurrency` | BearCart/backend/utils.py:41-43 | "$", then "-" exactly for negative values, and a point followed by exactly two digits at the end |
| `Formatting.FormatCurrencyValue` | BearCart/backend/utils.py:41-43 | the text denotes the amount: "$", then "-" for a negative amount, then the whole dollars, which give `str(abs(cents) // 100)` once the commas are deleted, then a point and two digits whose value is `abs(cents) % 100` |
| `Formatting.FormatPercentage` | BearCart/backend/utils.py:46-48 | ends in "%"; with decimals the point precedes exactly `decimals` digits before the "%"; a point appears exactly when decimals > 0 |
| `Formatting.FormatPercentageValue` | BearCart/backend/utils.py:46-48 | the percentage text denotes the value: "-" exactly for a negative value, then digits whose value is the whole part, then for decimals > 0 a point and `decimals` digits whose value is the remainder, then "%" |
| `Formatting.PercentSignShape` | BearCart/backend/utils.py:48 | appending "%" shifts the point and fraction digits by one place |
| `Formatting.FormatNumber` | BearCart/backend/utils.py:51-53 | a point with exactly `decimals` digits after it, and a point exactly when decimals > 0 |
| `Formatting.GroupLength` | BearCart/backend/utils.py:53 | grouping adds one comma per full group of three beyond the first |
| `Formatting.GroupCommas` | BearCart/backend/utils.py:53 | grouped digits have a comma exactly at every fourth place from the right |
| `Formatting.GroupRoundTrip` | BearCart/backend/utils.py:53 | deleting the commas of grouped digits gives the digits back |
| `Formatting.FormatNumberRoundTrip` | BearCart/backend/utils.py:51-53 | with 0 decimals, deleting the commas gives the integer's plain decimal form, and the digits after the sign are grouped in threes |
| `Formatting.FormatNumberWhole` | BearCart/backend/utils.py:51-53 | with 0 decimals the output is the sign and the grouped decimal digits of the magnitude |
| `Formatting.FormatFixedShape` | BearCart/backend/utils.py:43-53 | a fixed-point rendering has the point and digit layout above |
| `Formatting.FormatFixedSign` | BearCart/backend/utils.py:43 | it starts with "-" exactly for negative values |
| `Formatting.FormatFixedFraction` | BearCart/backend/utils.py:43-53 | its last `decimals` digits are the value's fraction |
| `Formatting.ParseColumn` | BearCart/backend/utils.py:67 | `pd.to_datetime` on a column succeeds exactly when every text cell parses; it then keeps the length, parses every text cell and leaves other cells alone |
| `Formatting.Extent` | BearCart/backend/utils.py:68 | NaT for both ends exactly when the column has no timestamp; otherwise min ≤ max, both occur in the column and every timestamp lies between them |
| `Formatting.DateFrame.constructor` | BearCart/backend/utils.py:56 | the frame holds the given column |
| `Formatting.DateFrame.GetDateRange` | BearCart/backend/utils.py:56-68 | on a parse failure the column is untouched and the call errs; otherwise the column is overwritten by its parsed form and the result is its extent, with min ≤ max |
| `ServerCleaner.Renamed` | server/services/data_cleaner.py:38-42 | `rename(columns=…)` maps each renamed column and keeps the others, and adds nothing else |
| `ServerCleaner.DedupedSessions` | server/services/data_cleaner.py:45-46 | session ids unique; survivors plus counted duplicates equal the input length |
| `ServerCleaner.BotsRemoved` | server/services/data_cleaner.py:63-73 | `sessions_removed_bots` plus the duplicates is at most the input; it is 0 exactly when there is no duration column or no de-duplicated session is a bot |
| `ServerCleaner.CleanSessionRows` | server/services/data_cleaner.py:38-68 | session ids unique; every traffic source present when the column exists; no bot survives when `session_duration` exists; survivors + duplicates + bots removed == input length |
| `ServerCleaner.CleanSessionsKeeps` | server/services/data_cleaner.py:46-68 | the first row of an id that is not a bot survives, with the "Direct" default applied |
| `ServerCleaner.CleanSessionsFirst` | server/services/data_cleaner.py:46-54 | every survivor is the defaulted first row of its id |
| `ServerCleaner.ToServerOrder` | server/services/data_cleaner.py:90 | an order row is kept exactly when its id is present and its value is present and non-negative |
| `ServerCleaner.InvalidDates` | server/services/data_cleaner.py:96-117 | `orders_removed_date` plus the null ids is at most the input; it is 0 exactly when the sessions have no date column or no order with an id is dated before its known session |
| `ServerCleaner.NegativeOrders` | server/services/data_cleaner.py:122-123 | `orders_removed_negative` is at most the input, and 0 exactly when no order that passes the id and date rules has a known negative value |
| `ServerCleaner.CleanOrderRows` | server/services/data_cleaner.py:83-124 | survivors have `order_value >= 0` and come from input rows; when sessions have dates, no survivor is dated before its session |
| `ServerCleaner.CleanOrdersAccounting` | server/services/data_cleaner.py:90-124 | survivors + null ids + date removals + negative removals + missing values == input length |
| `ServerCleaner.CleanOrdersKeeps` | server/services/data_cleaner.py:106-114 | a valid order that is not before its session, or has no matching session, survives |
| `ServerCleaner.InvalidRefunds` | server/services/data_cleaner.py:148-161 | `refunds_removed` is at most the input, and 0 exactly when the orders have no date column or no refund is dated before its known order |
| `ServerCleaner.CleanRefundRows` | server/services/data_cleaner.py:141-158 | a subsequence; survivors + invalid refunds == input length; with order dates no survivor predates its order; every refund not before its order survives |
| `ServerCleaner.CleanRefundsKeepsUnmatched` | server/services/data_cleaner.py:151-158 | a refund with no matching order is kept |
| `ServerCleaner.CleanProductRows` | server/services/data_cleaner.py:174-180 | exactly the products with a numeric id, each kept |
| `ServerCleaner.FillItemCosts` | server/services/data_cleaner.py:191-195 | missing price and cost become 0, margin = price − cost, ids unchanged |
| `ServerCleaner.CleanItemRows` | server/services/data_cleaner.py:191-204 | margin = price − cost; every item belongs to a known order; exactly the enriched items of known orders; an unmatched product is named "Unknown Product" |
| `ServerCleaner.ItemRowsAfterFill` | server/services/data_cleaner.py:191-204 | the items are filled, then merged with product names, then filtered to known orders |
| `ServerCleaner.EnrichItem` | server/services/data_cleaner.py:191-199 | an enriched item keeps its ids, has the filled price and cost and their difference as margin, is "Unknown Product" when no product has its id, and carries its product's name when product ids are unique |
| `ServerCleaner.MergedItems` | server/services/data_cleaner.py:198-199 | the product merge keeps every item and adds none |
| `ServerCleaner.MaxFlag` | server/services/data_cleaner.py:238-243 | the `max` of a 0/1 flag over a group is 1 exactly when some row has it |
| `ServerCleaner.SessionFunnel` | server/services/data_cleaner.py:236-244 | a session's `total_pageviews` is the number of its pageviews that have a pageview id |
| `ServerCleaner.SessionFunnelFlags` | server/services/data_cleaner.py:228-244 | each step flag is 0 or 1, and is 1 exactly when some pageview of the session hits the step; `total_pageviews` is at most the session's pageviews; the exact count is stated by `ServerCleaner.SessionFunnel` |
| `ServerCleaner.FunnelKeys` | server/services/data_cleaner.py:236 | the group keys are ascending and are exactly the sessions with a pageview |
| `ServerCleaner.CleanPageviewRows` | server/services/data_cleaner.py:217-246 | one row per session in ascending id, holding the session's aggregated funnel; only sessions with a non-null URL pageview, and every such session |
| `ServerCleaner.FunnelRowsFacts` | server/services/data_cleaner.py:236-246 | the aggregated rows are ascending, hold each session's funnel and cover every session with pageviews |
| `ServerCleaner.FirstKnown` | server/services/data_cleaner.py:266 | `first` gives the earliest non-missing value of the group (every earlier cell is missing), and none exactly when all are missing |
| `ServerCleaner.MasterRowOf` | server/services/data_cleaner.py:263-299 | a master row counts its session's orders; its total is the sum of their values, its mean exists exactly when there is an order and is that total over the count, its first date is the first known date among them in order; converted iff that count > 0; conversion flag is its indicator; `was_refunded` is 1 exactly when an order of the session is refunded, is 0/1, and implies converted; a session with no order has value 0 and no mean or first date; with a funnel table, a session with no funnel row gets zero counts and, when the table has one row per session, a session with a row gets that row's counts |
| `ServerCleaner.FunnelCellOf` | server/services/data_cleaner.py:280-284 | a session's merged funnel counts: zero counts when the table has no row for it, that row's counts when the table has one row per session, and otherwise either zero counts or the counts of a row of that session |
| `ServerCleaner.RefundedHasOrder` | server/services/data_cleaner.py:289-295 | a refunded order of the session means the session has an order |
| `ServerCleaner.MasterRows` | server/services/data_cleaner.py:260-299 | one master row per session, in order |
| `ServerCleaner.CleanPageviewRowsBinary` | server/services/data_cleaner.py:238-243 | every aggregated funnel flag is 0 or 1 |
| `ServerCleaner.MasterRowsConsistent` | server/services/data_cleaner.py:276-295 | with 0/1 funnel flags, every master row is consistent: flag matches `converted`, a 0/1 refund flag that implies converted, 0/1 funnel flags |
| `ServerCleaner.StampedRefundFlag` | server/services/data_cleaner.py:288-295 | the max of the per-order refund flag over a session is 1 exactly when one of its orders is refunded |
| `ServerCleaner.StampedRefundedIf` | server/services/data_cleaner.py:288-292 | a refunded order of the session shows as a refunded stamped order |
| `ServerCleaner.StampedRefundedOnlyIf` | server/services/data_cleaner.py:288-292 | a refunded stamped order comes from a refunded order |
| `ServerCleaner.StagedMaster` | server/services/data_cleaner.py:260-299 | the successive merges give the master rows above |
| `ServerCleaner.StagedRow` | server/services/data_cleaner.py:273-295 | for one session the three merges give its master row |
| `ServerCleaner.DataCleaner.constructor` | server/services/data_cleaner.py:14-15 | the report starts empty |
| `ServerCleaner.DataCleaner.CleanSessions` | server/services/data_cleaner.py:33-76 | renamed columns, the cleaned session rows, and the report's bot and duplicate counts set |
| `ServerCleaner.DataCleaner.CleanOrders` | server/services/data_cleaner.py:78-134 | renamed columns plus the two feature columns, the cleaned orders, and the report's date and negative counts set |
| `ServerCleaner.DataCleaner.CleanRefunds` | server/services/data_cleaner.py:136-167 | renamed columns, the cleaned refunds, and the report's removed count set |
| `ServerCleaner.DataCleaner.CleanProducts` | server/services/data_cleaner.py:169-184 | renamed columns and the products with a numeric id |
| `ServerCleaner.DataCleaner.CleanOrderItems` | server/services/data_cleaner.py:186-210 | the caller's items frame has its price and cost filled and gains the margin column in place; the result adds the product name and keeps items of known orders |
| `ServerCleaner.DataCleaner.CleanPageviews` | server/services/data_cleaner.py:212-249 | the session funnel table with its columns |
| `ServerCleaner.DataCleaner.CreateMasterDataset` | server/services/data_cleaner.py:251-302 | the caller's orders frame gains `was_refunded` in place; the master frame has the session, order-aggregate, funnel and refund columns and the master rows |
| `Features.DefineChannel` | server/services/feature_engineer.py:40-52 | the result is one of the five labels |
| `Features.NonbrandContainsBrand` | server/services/feature_engineer.py:47 | a campaign containing "nonbrand" contains "brand" |
| `Features.DefineChannelRules` | server/services/feature_engineer.py:41-52 | on the lower-cased source and campaign: Direct iff source is "direct"; Paid Search iff a non-direct search source and a campaign containing "brand", else Organic Search; Social iff a non-search source containing "social"; Other otherwise |
| `Features.DefineChannelMissingSource` | server/services/feature_engineer.py:41 | a missing source ("nan" or "") gives Other |
| `Features.Segment` | server/services/feature_engineer.py:64-65 | 0 maps to "New", 1 to "Returning", anything else to NaN |
| `Features.ProductRisk` | server/services/feature_engineer.py:92-93 | no value when the product has no item with a known flag; otherwise the mean refund flag over its items |
| `Features.ProductRiskInUnit` | server/services/feature_engineer.py:92-93 | with 0/1 flags the risk lies in [0, 1] |
| `Features.MaxOrZero` | server/services/feature_engineer.py:103-107 | `max` of a group, filled with 0.0 when empty |
| `Features.MaxProductRiskFacts` | server/services/feature_engineer.py:99-107 | a session's risk is 0.0 when none of its products has a risk; otherwise at least each product's risk and, when non-zero, equal to one of them; in [0, 1] with 0/1 flags |
| `Features.MaxProductRisk` | server/services/feature_engineer.py:99-107 | 0.0 when no item of the session has a risk; at least the risk of each of its items; when non-zero, the risk of one of them |
| `Features.CampaignOf` | server/services/feature_engineer.py:56-58 | the master's own `utm_campaign` when it has the column; otherwise a value of a session with the same id, none when no session matches, and that session's value when session ids are unique |
| `Features.FeatureRow` | server/services/feature_engineer.py:40-113 | a featured row keeps its master row; its campaign is `CampaignOf`'s (the master's own cell or the merged session's), and its channel, one of the five labels, is `define_channel` of the source and that campaign; the segment exists only with `is_repeat_session`; the max product risk is `MaxProductRisk`'s; the hour, the day name and the weekend flag come from the calendar of a known session date, and are missing (weekend false) without one |
| `Features.FeatureEngineer.constructor` | server/services/feature_engineer.py:11-12 | the report starts empty |
| `Features.FeatureEngineer.EngineerFeatures` | server/services/feature_engineer.py:24-116 | needs `utm_campaign` in the master or the sessions, `was_refunded` in the orders and `session_date` in the master; returns one featured row per master row, in order, with the added columns; when the master already has `utm_campaign`, the caller's frame gains `traffic_channel` (and `customer_segment` when `is_repeat_session` is present), and otherwise it is unchanged; the report's `features_added` is the four names |
| `Metrics.Share` | server/services/metrics.py:62 | `k / n if n > 0 else 0`: 0 for no rows, a ratio otherwise, in [0, 1] when `0 <= k <= n` |
| `Metrics.GroupMeans` | server/services/metrics.py:64-65 | one mean per group, with its key, equal to the group's sum over its size |
| `Metrics.GroupMeansIsMeanTable` | server/services/metrics.py:64-65 | the means of a grouped table have distinct keys, one per keyed row's key, and each is its group's sum over its (non-zero) size computed from the rows |
| `Metrics.GroupMeansOfFlags` | server/services/metrics.py:64-65 | means of 0/1 flags lie in [0, 1] |
| `Metrics.ProductRows` | server/services/metrics.py:89-95 | one record per product name with its item count, price sum and margin sum |
| `Metrics.Head` | server/services/metrics.py:118 | `head(n)` is the prefix of exactly min(n, length) rows |
| `Metrics.HeadIsTop` | server/services/metrics.py:118 | of a table sorted by count descending, no omitted group outnumbers a kept one |
| `Metrics.ProductRowsDistinct` | server/services/metrics.py:89-93 | product names are distinct |
| `Metrics.ProductRowsTotals` | server/services/metrics.py:89-95 | each record's count is its item rows (≥ 1) and its sums are its revenue and margin |
| `Metrics.ProductRowsCover` | server/services/metrics.py:89-93 | every item's product has a record |
| `Metrics.Metrics.constructor` | server/services/metrics.py:11-31 | the report object holds the given master, order and item tables |
| `Metrics.Metrics.UniqueUsers` | server/services/metrics.py:38 | `nunique` of `user_id`, at most the row count |
| `Metrics.Metrics.SessionsByChannel` | server/services/metrics.py:39 | value counts of the channel sorted descending; the counts sum to the row count |
| `Metrics.Metrics.TrafficMetrics` | server/services/metrics.py:33-41 | total sessions is the row count; unique users as above or 0 without the column; sessions by channel as above; page views summed or 0 without the column |
| `Metrics.Metrics.Funnel` | server/services/metrics.py:50-59 | the funnel exists exactly when `step_home` does; each of the six steps is the sum of its flag column; on a consistent table each lies between 0 and the row count |
| `Metrics.Metrics.StepSumsBounded` | server/services/metrics.py:51-59 | every step sum of a consistent table is between 0 and the row count |
| `Metrics.Metrics.ConversionMetrics` | server/services/metrics.py:43-67 | total conversions is the flag sum; the rate is 0 for no rows and a ratio otherwise; on a consistent table conversions are the converted rows and the rate lies in [0, 1]; the channel table holds, for each channel present, the mean conversion flag of its rows, and so does the device table when the column exists; no device table without the column; the funnel above |
| `Metrics.Metrics.ConvertedCount` | server/services/metrics.py:47 | on a consistent table the flag sum is the converted-row count, at most the row count |
| `Metrics.Metrics.ConversionRatesInUnit` | server/services/metrics.py:64-65 | per-channel and per-device conversion rates lie in [0, 1] on a consistent table |
| `Metrics.Metrics.RevenueMetrics` | server/services/metrics.py:69-81 | total revenue is the value sum; revenue per session is 0 or a ratio; AOV is 0 without converted rows, otherwise their mean; revenue by channel is a grouped table whose sums add to the total |
| `Metrics.Metrics.ProductMetrics` | server/services/metrics.py:83-104 | `{}` exactly when there are no items; otherwise distinct product names sorted by revenue descending, with counts ≥ 1 and sums as above, covering every item |
| `Metrics.Metrics.ProductRowsFacts` | server/services/metrics.py:89-98 | the sorted product records keep their distinctness, totals and coverage |
| `Metrics.Metrics.NamesCoverItems` | server/services/metrics.py:89 | every item's name is a group key |
| `Metrics.Metrics.SortedProductRows` | server/services/metrics.py:98 | sorting the records keeps those facts |
| `Metrics.Metrics.QualityMetrics` | server/services/metrics.py:106-119 | refund rate is 0 when nothing converted, otherwise refunded / converted; total refunds is the flag sum; repeat rate is 0 without the column, NaN for no rows, otherwise the share of "Returning"; the at-risk channels are the first min(5, number of channels) rows of the refunded channels ranked by count, each with its refunded-row count, sorted descending |
| `Metrics.Metrics.AtRiskGroups` | server/services/metrics.py:118 | the value counts of the refunded rows' channels, sorted descending |
| `Metrics.Metrics.AtRiskAreTop` | server/services/metrics.py:118 | no channel left out of the at-risk list has more refunds than one in it |
| `Metrics.Metrics.QualityRatesInUnit` | server/services/metrics.py:110-115 | on a consistent table the refund rate lies in [0, 1] and refunded sessions ≤ converted sessions |
| `Metrics.Metrics.DashboardData` | server/services/metrics.py:121-129 | exactly the five sections; on a consistent table refunds ≤ conversions ≤ sessions |
| `Metrics.PipelineConsistent` | server/services/data_cleaner.py:276-295 | the master table `create_master_dataset` builds (with `clean_pageviews`' funnel), once featured, is consistent, so the unit bounds above hold for it |

## Left out

- I/O and logging are not modelled: `load_data` in `utils.py`, `clean_all_data`, `load_and_profile`, `BearCartFeatureEngineer.load_data` and `BearCartMetrics.load_data`. The latter includes the raw-items fallback at server/services/metrics.py:20-31. The tables are parameters instead.
- `pd.to_numeric(errors="coerce")` and `pd.to_datetime` on text are taken as already applied: raw numeric and date cells are `Option<int>`, so the one-time in-place date conversions of the caller's frames (server/services/data_cleaner.py:97 and 149) change nothing here. `get_date_range` is the exception: its parser is a parameter, and its in-place overwrite is modelled.
- Calendar semantics are abstract: `.dt.date` is `t / 86400`, and `.dt.hour` and `.dt.dayofweek` come from a `Calendar` parameter. The bucket function of `resample('W'/'M')` is a parameter too.
- `resample` also emits zero rows for empty buckets between dates. The model emits only non-empty buckets, so totals and ordering are modelled but those empty rows are not.
- Floating point is not modelled: `log1p` and the 0.75-quantile `high_value_order` flag (server/services/data_cleaner.py:127-129) appear only as column names; `.round(2)` on conversion rates is not applied; formatting works on fixed-point integers. For `format_currency`, cents give exactly two digits.
- pandas NaN quirks are not modelled. `str(nan)` becoming "nan" in `_derive_channel` is modelled only by treating a missing cell as empty. Merges after which rows are aligned by index (server/services/data_cleaner.py:114 and 157) are modelled row by row.
- Join keys are assumed unique (`Lookup` takes the first match). A left merge that would duplicate rows on a repeated key is not modelled.
- `groupby` emits keys in ascending order; the model uses first appearance, or sorts when the order matters (dates, order ids). Ties after `sort_values` and `value_counts` are in no particular order here, as in pandas' unstable sort.
- Unused parameters are left out. `get_aov_by_category` never reads its products table. `get_refund_analysis` copies and filters its orders table but never reads the result, and never reads its products table.
- `Text.Title` and `Text.Lower` follow `str.title` and `str.lower` on ASCII letters only; Unicode case rules are not modelled.
- BackendCleaning.DeriveChannelCaseInsensitive: holds for ASCII case only. `Text.Lower` maps A–Z alone, while `str.lower` is Unicode-aware (U+212A, the Kelvin sign, lowers to "k"), so sources written with non-ASCII letters are not covered.
- `BackendCleaning.DeriveChannel`: its own contract states only that the label is non-empty; the rules are stated by `DeriveChannelLabels` and `DeriveChannelReferral`.
- BackendCleaning.CleanWebsiteSessions, BackendCleaning.CleanOrders and `BackendCleaning.CleanOrderItemRefunds`: each contract states membership and first-occurrence, and the matching `…Keeps` lemma states that every eligible first row survives; neither states that survivors keep their relative order. That order follows from `Seqs.DropDuplicates` being a subsequence.
- `Analysis.ConversionByChannel` and `Analysis.ConversionByDevice`: their own contracts state sessions ≥ 1, non-negative rates and the sort; the group counts are stated by `Analysis.ConversionBy`.
- `Features.FeatureEngineer.EngineerFeatures` requires `utm_campaign` in the master or the sessions frame, `was_refunded` in the orders and `session_date` in the master, because the source raises a `KeyError` otherwise (server/services/feature_engineer.py:56-58, 92 and 110). The other columns it reads (`session_id`, `order_id`, `product_id`) are fields of every row here. In `define_channel`, an absent column reads as "" and a missing cell as "nan", as `str(row.get(col, ''))` gives.
- ServerCleaner.DataCleaner.CleanSessions: requires `session_id` and `session_date` among the renamed columns (server/services/data_cleaner.py:45, 50), because pandas raises a `KeyError` otherwise; that error path is not modelled.
- ServerCleaner.DataCleaner.CleanOrders: requires `order_id`, `order_date` and `order_value` among the renamed columns (server/services/data_cleaner.py:90, 93, 120), and `session_id` in both frames when the sessions have a date (100-104), because pandas raises a `KeyError` otherwise; that error path is not modelled.
- ServerCleaner.DataCleaner.CleanRefunds: requires `refund_date` among the renamed columns (server/services/data_cleaner.py:146), and `order_id` in both frames when the orders have a date (151-155), because pandas raises a `KeyError` otherwise; that error path is not modelled.
- ServerCleaner.DataCleaner.CleanProducts: requires `product_id` (server/services/data_cleaner.py:179), because pandas raises a `KeyError` otherwise; that error path is not modelled.
- ServerCleaner.DataCleaner.CleanOrderItems: requires the items' `price_usd`, `cogs_usd`, `product_id` and `order_id`, the products' `product_id` and `product_name`, and the orders' `order_id` (server/services/data_cleaner.py:191-204), because pandas raises a `KeyError` otherwise; that error path is not modelled.
- ServerCleaner.DataCleaner.CleanPageviews: requires `website_session_id`, `pageview_url` and `website_pageview_id` (server/services/data_cleaner.py:217, 236), because pandas raises a `KeyError` otherwise; that error path is not modelled.
- ServerCleaner.DataCleaner.CreateMasterDataset: requires the orders' `session_id`, `order_id`, `order_value` and `order_date`, the sessions' `session_id`, the refunds' `order_id` and the funnel table's `session_id` (server/services/data_cleaner.py:263-267, 273, 281, 288), because pandas raises a `KeyError` otherwise; that error path is not modelled.
- Frames are modelled as column names plus rows of a fixed record type. When the master already has `utm_campaign`, the source writes `traffic_channel` and `customer_segment` into the caller's frame (server/services/feature_engineer.py:60 and 65); `Features.FeatureEngineer.EngineerFeatures` models that write as the new column names on the caller's frame, whose cells are the result rows' `trafficChannel` and `customerSegment`, since a master row has no field for them. After the merge at line 106 the source works on a new frame, which the model returns.
- `day_of_week` (`day_name()`) is a name looked up from the calendar's weekday and is not otherwise constrained.
