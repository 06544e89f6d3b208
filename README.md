# stock_analysis scoring engine — a Dafny model

The stock_analysis app downloads the quarterly balance sheet, income
statement and cash-flow statement of a company. It prepares them as tables
with one row per quarter, in date order. It then rates the company on a 0–10
scale with three scorers:

- the "Financial Health" scorer (`score.py`): tiered scores per statement,
  averaged;
- two Buffett-style scorers (`buffett_score.py`): continuous ranges and
  tiered percentages;
- a Peter Lynch-style scorer (`lynch.py`).

The app turns the Financial Health score into a BUY / HOLD / SELL verdict
(`app.py`). The analysis helpers (`analysis.py`) add year-over-year and
margin columns to a table. `format_metric` (`utils.py`) renders a metric as
text.

The model has these modules:

| module | file | models |
|---|---|---|
| `Wrappers` | wrappers.dfy | `Option` |
| `Statements` | statements.dfy | a statement table as a value: ordered column labels, one column of cells per label, a row count. A cell is `Option<real>`: `None` is a missing or NaN cell. Also the cell arithmetic of pandas (a division by zero gives a missing cell), `Scalar` (Python `None`, NaN or a number) and sums of scores. |
| `Frames` | frames.dfy | the mutable pandas DataFrame as a class. `Assign` is `df[c] = …` and `Rename` is `df.rename(…, inplace=True)`. |
| `DataFetcher` | data_fetcher.dfy | `_prepare_df` and the derivations and renames of the three `get_*_data` fetchers |
| `Analysis` | analysis.dfy | `compute_yoy_change`, `add_all_yoy`, `add_income_statement_ratios`, `add_cash_flow_ratios` |
| `HealthScore` | score.dfy | `score_full_company`, `pct_change`, `average_scores` and the eight tier functions |
| `BuffettScore` | buffett_score.dfy | `score_buffett_company`, `score_buffett` and all their scoring helpers |
| `Lynch` | lynch.dfy | `safe_num` and `score_lynch_company` |
| `Format` | utils.dfy | `format_metric` |
| `App` | app.dfy | `simple_recommendation` and how the app feeds it |

Where the code does something in place, the model is imperative:

- The fetchers build a `Frames.Frame`, then assign and rename its columns
  step by step.
- `add_all_yoy` is a loop over the column labels.
- `score_lynch_company` appends each row to its breakdown and adds its
  score to a running total (`Lynch.ScoreLynchCompany`).
- `score_buffett` appends each metric to its breakdown, then averages the
  scores (`BuffettScore.ScoreBuffett`).
- The Financial Health category scorers are methods that build each
  category's rows as one list and average them
  (`HealthScore.ScoreBalanceSheet`, `ScoreIncomeStatement`,
  `ScoreCashFlow`). `score_buffett_company` builds one dictionary update
  and is a function (`BuffettScore.ScoreBuffettCompany`).

Each such method is proved against a function on table values. The
properties the source promises are then proved about those functions.

Where the code does something its docstrings, comments or names do not
suggest, the model follows the code, with one exception: the alias renames
keep only the first alias (see "Left out" and "Findings"). The places are:

- `safe_num` returns NaN unchanged, although its docstring (lynch.py:2)
  says NaN becomes 0 (`Lynch.SafeNumNaN`).
- `add_cash_flow_ratios` follows its docstring (analysis.py:34-37) and
  subtracts the signed capital expenditure (analysis.py:39). The fetcher's
  "Free Cash Flow" subtracts its absolute value (data_fetcher.py:85).
- `buffett_score.py` defines `_score_positive` twice. The second definition
  (buffett_score.py:156-159) replaces the first (buffett_score.py:69-72)
  for both Buffett scorers, so a NaN value scores 0, not 3.
- The comment at buffett_score.py:29 calls EPS growth a placeholder "unless
  EPS history is available", but `score_buffett_company` never computes
  it. Its row is always "N/A" with score 3.
- The branches of `_score_range` do not meet at the lower bound: just
  below it the score approaches 10, at it the score is 5
  (buffett_score.py:54-58, `BuffettScore.RangeNotMonotone`). The branches
  of `_score_inverse_range` do not meet at the upper bound: 5 at it, close
  to 10 just above it (buffett_score.py:65-67,
  `BuffettScore.InverseRangeNotMonotone`).

Two consequences across modules are proved:

- The Financial Health overall score always lies in [3, 6.5]. So the app's
  verdict is never BUY (`App.Recommend`).
- The fetched cash-flow table never carries "Capital Expenditures" unless it
  also has "Capital Expenditure" (`DataFetcher.CashFlowDerived`,
  `DataFetcher.CapexRenamedAway`). `score_buffett_company` reads
  "Capital Expenditures", so on such a table it finds no owner earnings.

## Model

| member | source | states |
|---|---|---|
| Statements.Table.With | data_fetcher.py:23 | assigning a column keeps the row count, sets that one column and appends its label only when it is new |
| Statements.Relabel | data_fetcher.py:35 | renaming relabels exactly the matching positions and keeps every other label and the order |
| Statements.WithValid | data_fetcher.py:23 | an assignment of a full-height column keeps the table well formed and leaves every other column unchanged |
| Statements.RenamedValid | data_fetcher.py:35 | renaming to a fresh label keeps the table well formed, moves the column's cells to the new label and removes the old label |
| Statements.RelabelDistinct | data_fetcher.py:35 | renaming to a fresh label keeps the labels pairwise distinct |
| Statements.RelabelMembers | data_fetcher.py:35 | after a rename, the label list and the column map hold the same labels |
| Statements.LatestOf | score.py:15-16 | the latest cell of a column is available exactly when the table exists and has the column |
| Statements.Quotient | analysis.py:26 | a quotient of cells is present iff both cells are and the divisor is non-zero, and then quotient × divisor = dividend |
| Statements.OfCell | lynch.py:6-7 | a float cell is NaN or a number, never None, and keeps its value |
| Statements.CellOf | lynch.py:46 | only numbers survive as a cell value; None and NaN both become a missing cell |
| Statements.SumOfFive | lynch.py:47-114 | the total of five scores is their sum in breakdown order |
| Statements.SumOfEight | buffett_score.py:46 | the total of eight scores is their sum in breakdown order |
| Frames.Frame.constructor | data_fetcher.py:12 | a frame built from a prepared table shows exactly that table |
| Frames.Frame.Assign | data_fetcher.py:23 | `df[c] = cells` changes the frame's table to the table with that column set, and the frame stays well formed |
| Frames.Frame.Rename | data_fetcher.py:35 | `df.rename(columns={from: to}, inplace=True)` changes the frame's table to the renamed table |
| Frames.Ratio | data_fetcher.py:23 | a column division divides row by row |
| Frames.Difference | analysis.py:39 | a column subtraction subtracts row by row |
| Frames.Magnitudes | data_fetcher.py:85 | `abs` of a column takes the absolute value of each row |
| DataFetcher.Insert | data_fetcher.py:108 | inserting a row position keeps the positions in range and adds exactly that position |
| DataFetcher.InsertSorted | data_fetcher.py:108 | inserting into a date-sorted list of rows keeps it sorted by date |
| DataFetcher.SortByDate | data_fetcher.py:108-109 | sorting returns a permutation of the rows, in ascending date order |
| DataFetcher.DateOrder | data_fetcher.py:108-109 | the date order is a permutation of all rows, in ascending date order |
| DataFetcher.KeptRows | data_fetcher.py:108-109 | `head(num_quarters)` keeps min(num_quarters, rows) rows, in ascending date order; kept and dropped rows together are all rows; no dropped row is later than a kept one |
| DataFetcher.Pick | data_fetcher.py:108 | the trimmed column holds the original cells of the kept rows, in order |
| DataFetcher.DateCells | data_fetcher.py:110 | the reset index becomes a "Date" column of the kept dates |
| DataFetcher.PrepareDf | data_fetcher.py:97-111 | returns None exactly for an empty frame; otherwise a well-formed table with "Date" first, then the original labels, each column restricted to the latest quarters in date order |
| DataFetcher.Trimmed | data_fetcher.py:108-110 | the trimmed table is well formed, has one row per kept row and gives every original column its kept cells |
| DataFetcher.PreparedDatesAscend | data_fetcher.py:109 | in a prepared table, the "Date" column never decreases from row to row |
| DataFetcher.FirstPresent | data_fetcher.py:19-20 | `next(…, None)` gives a candidate the table has; it gives None iff the table has no candidate |
| DataFetcher.FirstPresentIsFirst | data_fetcher.py:19-20 | the candidate found is no later in the list than any candidate the table has |
| DataFetcher.FirstPresentAgrees | data_fetcher.py:19-20 | the candidate found depends only on which candidates are present |
| DataFetcher.Standardized | data_fetcher.py:32-35 | a table that has the canonical label, or no alias, is unchanged; otherwise the first alias present is renamed to the canonical label |
| DataFetcher.StandardizedLabels | data_fetcher.py:32-35 | after standardising, the canonical label is present iff it was or some alias was; no label outside the aliases changes; no new label but the canonical appears |
| DataFetcher.Standardize | data_fetcher.py:32-35 | the loop over the aliases, renaming only while the canonical label is still absent, leaves the frame showing the standardised table (first alias only; see Left out) |
| DataFetcher.AliasLabelsAsWritten | data_fetcher.py:32-35 | the rename loop as written leaves the labels alone when the canonical label is present |
| DataFetcher.AsWrittenDuplicatesTotalAssets | data_fetcher.py:33-35 | as written, the labels "Total Asset" and "TotalAssets" both become "Total Assets" |
| DataFetcher.CorrectedKeepsOneTotalAssets | data_fetcher.py:32-35 | the corrected standardisation gives one "Total Assets" and leaves the second alias |
| DataFetcher.Derived | data_fetcher.py:23 | a derived column is added with its cells, the labels are the old ones plus that one, and every other column is kept |
| DataFetcher.DebtToEquityAdded | data_fetcher.py:16-23 | "Debt_to_Equity" is the first liability column over the first equity column when both exist, and the only label added; otherwise the table is unchanged |
| DataFetcher.RatioAdded | data_fetcher.py:25-29 | a ratio column ("Current_Ratio", "Cash_to_Assets") is numerator over denominator cell by cell when both source columns exist, with no other column changed and exactly that label added; otherwise the table is unchanged |
| DataFetcher.BalanceSheetRatios | data_fetcher.py:16-29 | the three ratios are computed from the columns as they were before any ratio was added; no other column changes |
| DataFetcher.BalanceSheetRatiosPresence | data_fetcher.py:16-29 | each ratio column is present afterwards iff it was before or its two input columns were |
| DataFetcher.BalanceSheetDerived | data_fetcher.py:14-35 | the balance sheet has "Total Assets" iff it had it or one of its aliases; each ratio column is present iff it was or its inputs were (so no "Cash_to_Assets" without a "Total Assets" under that exact label); every column outside the asset aliases is as the ratio step left it; no other label appears |
| DataFetcher.DeriveBalanceSheet | data_fetcher.py:14-35 | the in-place steps leave the frame showing the derived balance sheet |
| DataFetcher.IncomeStandardized | data_fetcher.py:50-65 | "Total Revenue", "Gross Profit" and "Net Income" are each present iff they were or one of their aliases was; every column outside the three alias lists, an existing canonical column included, keeps its cells; no other label appears |
| DataFetcher.DeriveIncomeStatement | data_fetcher.py:50-65 | the in-place renames leave the frame showing the standardised income statement |
| DataFetcher.FreeCashFlowAdded | data_fetcher.py:83-85 | a missing "Free Cash Flow" is filled in as operating cash flow minus the absolute capital expenditure when both exist; existing columns are kept |
| DataFetcher.CashFlowDerived | data_fetcher.py:81-91 | free cash flow is present iff it was or could be derived, and a derived one is operating cash flow minus the absolute "Capital Expenditures" read before the rename; "Capital Expenditure" is present iff it or an alias was; "Capital Expenditures" survives only beside "Capital Expenditure"; every column outside the capex aliases keeps its cells and no other label appears |
| DataFetcher.CapexRenamedAway | data_fetcher.py:88-91 | after the rename, "Capital Expenditures" remains only when "Capital Expenditure" was already there |
| DataFetcher.DeriveCashFlow | data_fetcher.py:81-91 | the in-place steps leave the frame showing the derived cash-flow statement |
| DataFetcher.GetBalanceSheetData | data_fetcher.py:5-37 | returns null exactly when preparation fails; otherwise a fresh frame showing the derived prepared balance sheet |
| DataFetcher.GetIncomeStatementData | data_fetcher.py:41-67 | returns null exactly when preparation fails; otherwise a fresh frame showing the standardised prepared income statement |
| DataFetcher.GetCashFlowData | data_fetcher.py:71-93 | returns null exactly when preparation fails; otherwise a fresh frame showing the derived prepared cash-flow statement |
| Analysis.YoYAt | analysis.py:7 | `pct_change(periods=4)` is missing in the first four rows and where either cell is missing or the base is zero; otherwise change × base = (now − base) × 100 |
| Analysis.ChangeInPercent | analysis.py:7 | (now / before − 1) × 100 is the change relative to the base |
| Analysis.YoY | analysis.py:7 | the YoY column has the input's length and the YoYAt meaning in every row |
| Analysis.YoYOfSteadySeries | analysis.py:7 | a value equal to the one four quarters earlier gives a 0% change |
| Analysis.YoYColumn | analysis.py:1-8 | an object column leaves the table unchanged; otherwise "<column>_YoY_%" holds its YoY, no other column changes and no other label appears |
| Analysis.ComputeYoYChange | analysis.py:1-8 | the in-place assignment leaves the frame showing YoYColumn of the old table |
| Analysis.VisitColumn | analysis.py:15-16 | one loop step keeps the table well formed, its height and all its labels |
| Analysis.AllYoY | analysis.py:10-17 | the whole loop keeps the table well formed, its height and all its labels |
| Analysis.AddAllYoY | analysis.py:10-17 | the loop over the original labels leaves the frame showing AllYoY of the old table |
| Analysis.SuffixCancels | analysis.py:7 | two columns with the same YoY label are the same column |
| Analysis.AllYoYUntouched | analysis.py:10-17 | every column that is not the YoY label of a visited column is unchanged |
| Analysis.AllYoYAdded | analysis.py:10-17 | every visited column other than "Date" and object columns gets "<col>_YoY_%" holding the YoY of its original cells |
| Analysis.AllYoYOnlyAdds | analysis.py:10-17 | every label after the loop was there before or is the YoY label of a visited numeric column other than "Date"; nothing else is added |
| Analysis.GrossMarginAdded | analysis.py:25-26 | "Gross_Margin" is gross profit over revenue when both exist; otherwise the table is unchanged |
| Analysis.NetMarginAdded | analysis.py:28-29 | "Net_Margin" is net income over revenue when both exist; otherwise the table is unchanged |
| Analysis.IncomeRatios | analysis.py:19-31 | both margins as above; nothing else changes; a margin column is present afterwards without its inputs only if it was before; with neither pair of inputs the table is unchanged |
| Analysis.AddIncomeStatementRatios | analysis.py:19-31 | the in-place assignments leave the frame showing IncomeRatios of the old table |
| Analysis.CashFlowRatios | analysis.py:33-41 | "Free_Cash_Flow" is operating cash flow minus the signed capital expenditure when both exist; otherwise the table is unchanged |
| Analysis.AddCashFlowRatios | analysis.py:33-41 | the in-place assignment leaves the frame showing CashFlowRatios of the old table |
| HealthScore.ScoreLiquidity | score.py:150-157 | 10 iff the ratio is ≥ 2, 7 iff in [1.5, 2), else 3; a missing value scores 3 |
| HealthScore.ScoreLeverage | score.py:159-168 | 10 iff < 0.5, 7 iff in [0.5, 1), 5 iff in [1, 2), else 3; a missing value scores 3 |
| HealthScore.StrictTiers | score.py:170-213 | 10 iff above the high bound, 7 iff in (low, high], 3 iff at or below low; a missing value scores 3 |
| HealthScore.ScorePositiveFcf | score.py:215-220 | 10 iff positive, otherwise 3; a missing value scores 3 |
| HealthScore.TierValues | score.py:150-220 | each tier function only gives its listed tier values |
| HealthScore.TierBoundaries | score.py:150-220 | which tier each boundary value falls into (inclusive or strict as written) |
| HealthScore.TiersMonotone | score.py:150-220 | every tier is monotone in its input: leverage decreasing, all others increasing |
| HealthScore.PctChange | score.py:136-142 | None for fewer than two values, a missing cell or a zero base; otherwise its sign is that of the last change and change × abs(base) = (last − prev) × 100 |
| HealthScore.AverageScores | score.py:144-148 | an empty or all-None list averages to 3 |
| HealthScore.ScoresOf | score.py:145 | the score list is the breakdown's scores, all present |
| HealthScore.SumBounds | score.py:144-148 | a sum of scores in [lo, hi] lies in [n·lo, n·hi] |
| HealthScore.PresentWithin | score.py:144-148 | dropping the None scores keeps only scores in the given bounds |
| HealthScore.AverageWithin | score.py:144-148 | the average of scores in [lo, hi] lies in [lo, hi] (with 3 inside when all are None) |
| HealthScore.PresentAll | score.py:144-148 | when no score is None, none is dropped |
| HealthScore.MeanTimesCount | score.py:144-148 | the average times the count of present scores is their sum |
| HealthScore.AverageExamples | score.py:144-148 | [8] averages to 8; [None, None] and [] average to 3 |
| HealthScore.LatestMetric | score.py:15-43 | a metric is (latest value, its tier score) when the column exists, else (None, 3) |
| HealthScore.GrowthMetric | score.py:59-84 | a growth metric is the PctChange of the column, scored, when the column exists, else (None, 3) |
| HealthScore.MarginMetric | score.py:66-77 | a margin is latest numerator over latest revenue, scored, when both columns exist, else (None, 3) |
| HealthScore.BalanceSheetMetricsWithin | score.py:10-52 | the three computed balance-sheet scores lie in [3, 10] and are (None, 3) without a balance sheet |
| HealthScore.IncomeMetricsWithin | score.py:56-90 | the four computed income scores lie in [3, 10] and are (None, 3) without an income statement |
| HealthScore.CashFlowMetricsWithin | score.py:92-118 | the FCF score lies in [3, 10] and is (None, 3) without a cash-flow statement |
| HealthScore.ScoreBalanceSheet | score.py:10-53 | the six balance-sheet rows in order: liquidity, leverage and cash safety scored, the other three fixed at (None, 3); the section score is their average and lies in [3, 6.5] |
| HealthScore.ScoreIncomeStatement | score.py:56-90 | the five income rows in order, "Earnings Quality" fixed at (None, 3); the section score is their average and lies in [3, 8.6] |
| HealthScore.ScoreCashFlow | score.py:92-118 | the five cash-flow rows in order, only FCF scored; the section score is their average and lies in [3, 4.4] |
| HealthScore.BalanceSheetMean | score.py:32-53 | six scores, three in [3, 10] and three fixed at 3, average within [3, 6.5], and to 3 when all are 3 |
| HealthScore.FiveScoreMean | score.py:88-90 | five scores, `computed` of them in [3, 10] and the rest fixed at 3, average at least 3 and at most (10·computed + 3·(5 − computed)) / 5 |
| HealthScore.MeanOfSix | score.py:53 | the average of six present scores is their sum over 6 |
| HealthScore.MeanOfFive | score.py:90 | the average of five present scores is their sum over 5 |
| HealthScore.ScoreFullCompany | score.py:1-132 | every breakdown row with its label and metric; each section score is the average of its rows; the overall score is the mean of the three section scores, lies in [3, 6.5] and is 3 when no statement exists |
| BuffettScore.ScoreRange | buffett_score.py:51-58 | 3 for None; 0 at or below zero; 10·v/low below low; on [low, high] the linear segment (r − 5)(high − low) = 5(v − low), from 5 at low to 10 at high; 10 from high on; always in [0, 10] |
| BuffettScore.ScoreInverseRange | buffett_score.py:60-67 | 3 for None; 10 up to low; on [low, high] the segment (10 − r)(high − low) = 5(v − low); above high up to twice high the segment (10 − r)·high = 10(v − high); 0 from twice high on; always in [0, 10] |
| BuffettScore.RangeMonotoneFromLow | buffett_score.py:51-58 | from the low bound on, the range score increases with the value |
| BuffettScore.RangeMonotoneBelowLow | buffett_score.py:54-55 | below the low bound, the range score increases with the value |
| BuffettScore.RangeNotMonotone | buffett_score.py:54-58 | the range score drops at the low bound: 0.14 scores more than 0.15 on the ROE range |
| BuffettScore.InverseRangeNotMonotone | buffett_score.py:65-67 | the inverse range jumps up just above its high bound: D/E 2.0 scores 5, 2.2 scores 9 |
| BuffettScore.InverseRangeExample | buffett_score.py:67 | D/E 0.5 on the [0, 2] range scores 8.75 |
| BuffettScore.ScorePositive | buffett_score.py:156-159 | 3 for None; 10 iff positive and 0 iff not (NaN included) |
| BuffettScore.ScorePercentage | buffett_score.py:161-173 | 3 for None; 10 iff ≥ 0.20, 7 iff in [0.10, 0.20), 5 iff in [0.05, 0.10), 3 iff in [0, 0.05), 0 iff negative; NaN scores 0 |
| BuffettScore.ScoreInverse | buffett_score.py:175-185 | 3 for None and for NaN; 10 iff ≤ 0.5, 7 iff in (0.5, 1], 5 iff in (1, 2], 3 iff above 2 |
| BuffettScore.ScoreGrowth | buffett_score.py:187-197 | 3 for None; 10 iff ≥ 0.15, 7 iff in [0.05, 0.15), 5 iff in (0, 0.05), 0 iff ≤ 0; NaN scores 0 |
| BuffettScore.TiersMonotone | buffett_score.py:156-197 | the percentage, growth and positive tiers increase with the value; the inverse tier decreases |
| BuffettScore.OwnerEarnings | buffett_score.py:11-17 | owner earnings are None unless net income, depreciation and capital expenditures all exist; a number iff the three latest cells are present, and then ni + da − abs(capex) |
| BuffettScore.Roe | buffett_score.py:19-21 | ROE is None without equity or with zero equity; present iff equity is present and non-zero and net income is present, and then ROE × equity = net income |
| BuffettScore.Roic | buffett_score.py:23-26 | ROIC is None without assets or liabilities, or with zero invested capital; present iff both columns and net income exist with present cells and non-zero invested capital, and then ROIC × (assets − liabilities) = net income |
| BuffettScore.RevenueShare | buffett_score.py:32-33 | a margin is None without its numerator; present iff the numerator and revenue cells are present and revenue is non-zero, and then margin × revenue = numerator |
| BuffettScore.LatestDebtToEquity | buffett_score.py:28 | None without a "Debt_to_Equity" column; otherwise its latest cell |
| BuffettScore.Fcff | buffett_score.py:31 | None iff there is no "Free Cash Flow" column; a number iff its latest cell is present, and then that cell |
| BuffettScore.Entry | buffett_score.py:36-43 | a row keeps its label and score and shows "N/A" for a missing value |
| BuffettScore.ReturnRows | buffett_score.py:36-39 | the first four rows in order: owner earnings shown as currency and scored positive; ROE and ROIC shown as percentages and scored on the [0.15, 0.25] range; the latest "Debt_to_Equity" shown plain and scored on the inverse [0, 2] range |
| BuffettScore.GrowthAndMarginRows | buffett_score.py:40-43 | the last four rows in order: EPS growth ("N/A", 3); the latest FCF shown as currency and scored positive; gross and net margin shown as percentages and scored on [0.4, 0.6] and [0.1, 0.3] |
| BuffettScore.CompanyBreakdown | buffett_score.py:35-44 | the eight rows in order, each the formatted metric with the flags and the scoring curve the source gives it; EPS growth is always ("N/A", 3); scores in [0, 10] |
| BuffettScore.ScoreBuffettCompany | buffett_score.py:4-47 | the overall score is the mean of the eight row scores and lies in [0.375, 9.125] |
| BuffettScore.DraftOwnerEarnings | buffett_score.py:83-90 | (None, 3) without free cash flow; otherwise FCF minus the latest "Capital Expenditure" (0 when absent), present iff the cells it uses are, scored as positive |
| BuffettScore.DraftRoe | buffett_score.py:92-99 | (None, 3) unless net income and equity exist or when equity is zero; otherwise present iff both cells are, ROE × equity = net income, scored as a percentage |
| BuffettScore.DraftRoic | buffett_score.py:101-107 | (None, 3) unless assets, current liabilities and net income exist, or when invested capital is zero; otherwise present iff net income and invested capital are, ROIC × invested capital = net income, scored as a percentage |
| BuffettScore.DraftDebtToEquity | buffett_score.py:109-116 | (None, 3) unless liabilities and equity exist or when equity is zero; otherwise present iff both cells are, ratio × equity = liabilities, scored inversely |
| BuffettScore.DraftEpsGrowth | buffett_score.py:118-125 | (None, 3) without five quarters of net income and shares; otherwise present iff both EPS are and the old one is non-zero, growth × abs(old EPS) = new − old EPS, scored as growth |
| BuffettScore.GrowthSign | buffett_score.py:122 | EPS growth is positive iff EPS rose |
| BuffettScore.DraftFcff | buffett_score.py:127-132 | (None, 3) without free cash flow; otherwise the latest FCF, scored as positive |
| BuffettScore.DraftMargin | buffett_score.py:134-146 | (None, 3) unless numerator and revenue exist; otherwise present iff both cells are and revenue is non-zero, margin × revenue = numerator, scored as a percentage |
| BuffettScore.DraftMetrics | buffett_score.py:83-146 | the eight rows carry the eight labels in order |
| BuffettScore.DraftMean | buffett_score.py:148-150 | the mean of the eight scores lies in [0, 10] and is 3 when no statement exists |
| BuffettScore.ScoreBuffett | buffett_score.py:75-150 | each breakdown row is its Draft metric, in order; overall × 8 = total; overall in [0, 10]; 3 when no statement exists |
| Lynch.SafeNum | lynch.py:1-10 | None gives 0; a float is returned as is; text is parsed, and 0 when parsing fails |
| Lynch.SafeNumNaN | lynch.py:1-10 | safe_num returns NaN only for a NaN float or text that parses to NaN, against its docstring |
| Lynch.LynchEpsGrowth | lynch.py:22-31 | None without net income; present iff the first and last net income are present and the first is non-zero, and then growth × abs(first) = (last − first) × 100 |
| Lynch.EpsGrowthScore | lynch.py:33-44 | 3 for None; 10 iff ≥ 20, 7 iff in [10, 20), 5 iff in [5, 10), 4 iff in (0, 5), 1 iff ≤ 0; NaN scores 1 |
| Lynch.PercentOf | lynch.py:29 | a percentage of a positive base has the sign of the difference |
| Lynch.LynchPeg | lynch.py:50-66 | a PEG exists iff a price, net income, revenue, a positive approximate EPS and positive growth exist; then PEG × EPS × growth = price |
| Lynch.PegScore | lynch.py:52-64 | 3 without a PEG; 10 iff < 1, 7 iff in [1, 2), 3 iff ≥ 2 |
| Lynch.LynchDebtToEquity | lynch.py:71-74 | None iff there is no "Debt_to_Equity" column; otherwise the safe latest value |
| Lynch.DebtScore | lynch.py:75-84 | 3 for None; 10 iff < 0.5, 7 iff in [0.5, 1), 5 iff in [1, 2), 1 iff ≥ 2; NaN scores 1 |
| Lynch.NetCash | lynch.py:96-101 | None iff cash or total liabilities are missing; a number iff both latest cells are present, and then cash minus liabilities |
| Lynch.NetCashScore | lynch.py:102-109 | 3 for None; 10 iff positive, 5 iff in (−1e9, 0], 1 iff ≤ −1e9; NaN scores 1 |
| Lynch.LynchTiersMonotone | lynch.py:33-109 | EPS-growth and net-cash scores increase with the value; PEG and debt scores decrease |
| Lynch.MeanOfFiveWithin | lynch.py:114 | five scores in their tier ranges, one fixed at 3, average within [1.8, 8.6] |
| Lynch.ScoreLynchCompany | lynch.py:12-115 | the five rows in order with their values and scores, dividend fixed at (None, 3); overall × 5 = total; overall in [1.8, 8.6]; 3 when neither balance sheet nor income statement exists |
| Format.FormatMetric | utils.py:4-37 | "N/A" for None/NaN; percentage ×100 with "%" wins over currency; currency "$…B" from 1e9, "$…M" from 1e6, else "$" and a grouped integer; plain numbers grouped with two decimals; other values as text |
| Format.FromCell | utils.py:16 | a missing cell is formatted as missing, a number as that number |
| Format.PercentageWins | utils.py:20-21 | the percentage flag overrides the currency flag and the result ends in "%" |
| Format.CurrencyShape | utils.py:24-31 | currency text starts with "$" and ends with the unit its magnitude selects; the unit is the same for x and −x |
| Format.CurrencyThresholdsInclusive | utils.py:26-31 | exactly 1e9 is "B", exactly 1e6 is "M", just under 1e6 has no unit |
| App.Rank | app.py:10-16 | orders SELL < HOLD < BUY |
| App.SimpleRecommendation | app.py:10-16 | BUY iff score ≥ 7.5; SELL iff score < 5 |
| App.HoldBand | app.py:13-14 | HOLD iff 5 ≤ score < 7.5 |
| App.RecommendationMonotone | app.py:10-16 | a higher score never gives a lower verdict |
| App.Recommend | app.py:58-81 | `simple_recommendation` of `score_full_company`'s overall: never BUY; SELL iff that overall is below 5; SELL when `score_full_company` is given no statement |

## Left out

- Downloading from yfinance, the transposition of the downloaded frame and
  `pd.to_datetime`. A prepared statement is given as a table, with its dates
  as numbers that order like the timestamps.
- DataFetcher.PrepareDf: the order of rows with equal dates after the two
  sorts. The model proves a permutation in ascending date order, not
  pandas' tie order.
- DataFetcher.RawValid: excludes a downloaded table that already has a
  column named "Date". There `rename(columns={"index": "Date"})` gives the
  frame a second "Date" label without complaint, and a table here has
  distinct labels.
- DataFetcher.Standardize: the fetchers rename only the first alias
  present, as the loop stops once the canonical label exists. The loops as
  written (data_fetcher.py:33-35, 53-65, 89-91) rename every alias present
  and can give a frame two columns with one label, which a table here
  cannot hold. That behaviour is modelled only as
  DataFetcher.AliasLabelsAsWritten and
  DataFetcher.AsWrittenDuplicatesTotalAssets (see Findings).
  DataFetcher.DeriveBalanceSheet, DataFetcher.DeriveIncomeStatement,
  DataFetcher.DeriveCashFlow, DataFetcher.GetBalanceSheetData,
  DataFetcher.GetIncomeStatementData and DataFetcher.GetCashFlowData
  inherit this.
- NaN and `None` in a cell are one missing cell in `Statements`. A division
  by zero gives a missing cell, where pandas gives ±inf or NaN. `Scalar`
  keeps NaN apart from None wherever a scorer treats them differently
  (`lynch.py`, `score_buffett`, `_score_positive`).
- Column dtypes are simplified to numeric, object and timestamp.
  `compute_yoy_change` on a timestamp column is excluded by its requires.
- Format.FormatMetric: the digits of Python's format specifications come
  from a renderer parameter. Only the branch, the prefix, the unit and the
  suffix are modelled. Its requires excludes a non-numeric value with the
  percentage or currency flag set: there the `:.2f` format of utils.py:21 or
  the `abs(value)` of utils.py:25 raises, and raising is not modelled.
- Statements.Ready: requires at least one row. It excludes a zero-row
  table, on which `score_full_company` and `score_buffett_company` do not
  raise as long as none of the columns they read is present. Ready is
  required by HealthScore.ScoreFullCompany, App.Recommend and
  BuffettScore.CompanyScorable. The fetchers with the default
  `num_quarters=8` produce no such table: an empty download gives None,
  and a non-empty one keeps at least one quarter.
- BuffettScore.CompanyBreakdown: the same renderer is a parameter. The shown
  value strings are stated only through Format.FormatMetric.
- Lynch.SafeNum: `float(text)` is a parse parameter. Exceptions other than a
  failed parse are not modelled.
- BuffettScore.CompanyScorable: states the inputs on which
  `score_buffett_company` does not raise. These are a missing statement, a
  margin without "Total Revenue", and a ROE or ROIC division without net
  income. The raising inputs are not modelled.
- Lynch.LynchScorable: excludes an empty balance sheet that has the
  unguarded debt or net-cash columns. There `iloc[-1]` raises.
- HealthScore.ScoreFullCompany: the breakdown rows that the source fills
  with fixed placeholders are stated as (None, 3) rows, as written.
- App.Recommend: composes `score_full_company` and `simple_recommendation`
  only. The page calls `score_buffett_company` between them (app.py:59),
  and that raises when any statement is missing, so on such input the page
  shows no verdict at all; the no-statement clause is about the composed
  functions, not about what the page displays.
- The Streamlit page, charts, the GPT summary and the OpenAI test
  (`app.py` apart from `simple_recommendation` and its use of the score,
  `visualize.py`, `gpt_summary.py`, `test_openai.py`) are not part of this
  model.
- Floating-point rounding: scores and ratios are exact reals.

## Findings

| source | as written | input that shows it | evidently intended | confidence | as-written member | corrected member |
|---|---|---|---|---|---|---|
| data_fetcher.py:33-35 (also 53-55, 58-60, 63-65, 89-91) | the loop renames every alias present to the canonical label | a balance sheet with columns "Total Asset" and "TotalAssets" and no "Total Assets" | rename only the first alias present, so the canonical label occurs once | not executed | DataFetcher.AsWrittenDuplicatesTotalAssets | DataFetcher.CorrectedKeepsOneTotalAssets |
