# Seven-year financial projection engine

This project models `calculate_financials`, the projection engine of a small business-planning
tool, and proves properties of it in Dafny.

The engine takes a parameter dictionary and folds over years 1 to 7. Each year it does the following:

- splits that year's new customers 40/60 between the direct and the affiliation channel;
- retains a year-dependent fraction of the previous year's channel totals;
- computes revenue from three streams: direct, affiliation, and a flat referral stream;
- adds the financing cost for that year from a fixed table to the operating expenses;
- takes 25% tax and an 8% bonus, each only from a strictly positive base;
- adds the net profit to a running cash balance seeded with the loan principal.

The result is one 22-column row per year.

Files:

- `wrappers.dfy`: the `Option` and `Result` datatypes.
- `business_logic.dfy`, module `BusinessLogic`:
  - the parameter dictionary `Params`. Every key may be absent, so every field is an `Option`.
  - the ledger row `YearRecord` and the lookup error `Error`, which models Python's `KeyError`.
  - the pure step of one year, `Step`, built from `Gather` (the lookups, in the source's
    evaluation order) and `Book` (the arithmetic).
  - the specification fold `Ledger` / `Projection`.
  - the imperative loop `CalculateFinancials`, proved equal to `Projection`.
- `projection_properties.dfy`, module `ProjectionProperties`: lemmas about `Projection`.
  - row count and year order;
  - carry-forward of retained customers and cash;
  - the per-row rules: the channel split, the totals, the tax and bonus guards, and the financing table;
  - exactly when the projection fails, and that the error names a lookup that really misses;
  - the year-1 retention rates are never read;
  - the first two rows of the form's default scenario, computed exactly.

Arithmetic is over Dafny `real`. A missing dictionary key, or a missing year in a map indexed
with `[...]`, is a `Failure` carrying the key, and for a missing map entry also the year. Python's `KeyError`
carries only the missing key or year itself, so the model's error says more than the source's does.

## Model

| member | source | states |
|---|---|---|
| `BusinessLogic.CalculateFinancials` | src/business_logic.py:4-89 | The loop over years 1..7 returns exactly what the specification fold `Projection` returns. That is the row sequence on success, or the first lookup error, with nothing returned after a failure. |
| `BusinessLogic.Step` | src/business_logic.py:19-87 | One year succeeds exactly when every key it reads is present (`StepReady`). A failure names a lookup that really misses. A success is a row that keeps every promise of its year (`RowOf`): the split, the totals, tax/bonus, the inputs and financing table, and the carry-forward. |
| `BusinessLogic.Gather` | src/business_logic.py:20-50 | The lookups of one year succeed exactly when the year's keys and entries are present. `new_customers` defaults to 0 for a missing year. Retention is 0 in year 1 and `prev * rate[year]` after it. The financing cost follows the year table. |
| `BusinessLogic.Book` | src/business_logic.py:21-83 | The arithmetic of a year. New customers are split 40/60 and the two halves sum to the year's new customers. All derived totals add up. Tax and bonus are guarded. Cumulative cash is the cash before plus net profit. |
| `BusinessLogic.BookedRow` | src/business_logic.py:20-83 | A row booked from successfully gathered inputs takes its values from the dictionary and its retained customers and cash from the carried state. |
| `BusinessLogic.Retained` | src/business_logic.py:24-25 | The retained count succeeds exactly when the rate map and the year's entry exist, and is then `prev * rate`. Otherwise it fails with `MissingKey` or `MissingYear`. |
| `BusinessLogic.FinancingCost` | src/business_logic.py:40-48 | Year 1: repayment + payout 1. Year 2: repayment + payout 2. Years 3-5: repayment. Years 6 and later: 0. It fails exactly when a key the year's branch reads is absent. |
| `BusinessLogic.AfterTaxAndBonus` | src/business_logic.py:52-56 | Tax and bonus are never negative. A base ≤ 0 gives zero tax, zero bonus and net = base. A positive base gives net = 0.75 × 0.92 × base, strictly between 0 and the base. |
| `BusinessLogic.Ledger` | src/business_logic.py:9-19 | A successful fold over years 1..n has exactly n rows. |
| `BusinessLogic.FailureIsFinal` | src/business_logic.py:19-89 | Once the fold has failed at some year, the whole projection is that failure. |
| `ProjectionProperties.LedgerChained` | src/business_logic.py:19-87 | Every row of a successful fold keeps the promises of its year, given the previous row's totals and cash, or the seed for year 1. |
| `ProjectionProperties.ProjectionChained` | src/business_logic.py:9-87 | A successful projection has seven rows, each chained to the row before it. |
| `ProjectionProperties.ProjectionShape` | src/business_logic.py:9-61 | A successful projection has exactly 7 rows, and row i has Year = i + 1, so years 1..7 come in ascending order. |
| `ProjectionProperties.FirstYearRetainsNothing` | src/business_logic.py:24-29 | In year 1, Retained Direct and Retained Affiliation are 0, so each channel total equals its new customers. |
| `ProjectionProperties.RetentionCarriesForward` | src/business_logic.py:24-25 | A successful projection has years 2..7 in both retention maps. From year 2 on, Retained Direct and Retained Affiliation are the previous row's channel totals times that year's rates. |
| `ProjectionProperties.RowRetains` | src/business_logic.py:86-87 | In chained rows, each row after the first retains the previous row's totals at its year's rates. |
| `ProjectionProperties.CumulativeCashRunningSum` | src/business_logic.py:13-58 | Year 1's Cumulative Cash is the loan principal (2,500,000 when absent) plus Net Profit. Each later year's value is the previous row's Cumulative Cash plus its own Net Profit. |
| `ProjectionProperties.RunningSumClosedForm` | src/business_logic.py:58 | A running sum seeded with s equals s plus the sum of the net profits so far. |
| `ProjectionProperties.CumulativeCashClosedForm` | src/business_logic.py:13-58 | Each year's Cumulative Cash is the loan principal plus every Net Profit up to and including that year. |
| `ProjectionProperties.EveryRowAddsUp` | src/business_logic.py:21-56 | In every row, New Direct + New Affiliation = New Customers at 40/60. The totals add up: channel totals, customers, revenue, expenses, profit, post-tax profit and net profit. |
| `ProjectionProperties.EveryRowTaxAndBonusGuarded` | src/business_logic.py:52-56 | In every row, Tax ≥ 0 and Bonus ≥ 0. A loss year has Tax = Bonus = 0 and Net Profit = Profit Before Tax. A profit year has Net Profit = 0.75 × 0.92 × Profit Before Tax. |
| `ProjectionProperties.RowFollowsParams` | src/business_logic.py:20-50 | Row i reads year i + 1's keys. Its inputs are the dictionary's values. Its financing cost follows the table, and Total Expenses = Operating + Financing. |
| `ProjectionProperties.FinancingCostsByYear` | src/business_logic.py:40-50 | Financing Costs for years 1..7 are: repayment + payout 1, repayment + payout 2, repayment three times, then 0 twice. Total Expenses = operating expenses + Financing Costs in every row. |
| `ProjectionProperties.EveryRowFollowsParams` | src/business_logic.py:20-36 | A year missing from `new_customers` gives 0 new customers. Otherwise the row takes that year's entry. Revenues are channel totals × fees and referrals × `channel_b_new_rev`. |
| `ProjectionProperties.LedgerSucceedsIffReady` | src/business_logic.py:19-50 | The fold over years 1..n succeeds if and only if every one of those years finds its keys. |
| `ProjectionProperties.LedgerErrorIsGenuine` | src/business_logic.py:20-50 | A failing fold reports a key that is absent, or a year that the key's map lacks and that the engine does read. |
| `ProjectionProperties.CompleteIffEveryYearReady` | src/business_logic.py:24-50 | The dictionary is complete if and only if every year 1..7 finds its keys. Complete means: both retention maps cover 2..7, the referral map covers 1..7, and every scalar is present. |
| `ProjectionProperties.ProjectionSucceedsIffComplete` | src/business_logic.py:19-50 | The projection succeeds if and only if the dictionary is complete. Otherwise the error names a genuinely missing key or year. |
| `ProjectionProperties.MissingNewCustomersYearIsHarmless` | src/business_logic.py:20 | Removing any year from `new_customers` never changes whether the projection succeeds. |
| `ProjectionProperties.DroppedReferralYearFails` | src/business_logic.py:35 | Removing any year 1..7 from `additional_referrals_per_year` makes the projection fail. If the dictionary was otherwise complete, the failure is exactly `MissingYear(AdditionalReferralsPerYear, y)`, the model of the `KeyError(y)` at that lookup. |
| `ProjectionProperties.DroppedRetentionYearFails` | src/business_logic.py:24-25 | Removing any year 2..7 from either retention map makes the projection fail. If the dictionary was otherwise complete, the failure is exactly `MissingYear` of that map and year, the model of the `KeyError(y)` at that lookup. |
| `ProjectionProperties.RetainedIgnoresYearOne` | src/business_logic.py:24-25 | From year 2 on, the retained count does not depend on a year-1 rate. |
| `ProjectionProperties.StepIgnoresYearOneRetention` | src/business_logic.py:24-25 | A year's step gives the same result with or without the year-1 retention entries. |
| `ProjectionProperties.LedgerIgnoresYearOneRetention` | src/business_logic.py:24-25 | The fold over years 1..n gives the same result with or without the year-1 retention entries. |
| `ProjectionProperties.YearOneRetentionIgnored` | src/business_logic.py:24-25 | Removing the year-1 retention entries changes neither the projection nor its failure. |
| `ProjectionProperties.SampleFirstYear` | src/business_logic.py:19-83 | With the form's defaults, year 1 is the exact row with Total Revenue 424,000 and Financing 1,078,750. It is a loss of 1,178,750 with no tax or bonus, and leaves Cumulative Cash at 1,321,250. |
| `ProjectionProperties.SampleSecondYear` | src/business_logic.py:19-87 | With the same defaults, year 2 retains 3.6 direct and 4.5 affiliation customers. It loses 907,350 and leaves Cumulative Cash at 413,900. |

## Left out

- src/ui.py is not part of this model. It holds the form widgets, the table display and the chart; it is presentation. Its one derivation, the affiliation net fee as gross fee × (1 − referral %), belongs to the caller.
- src/utils.py is not part of this model. It loads configuration from the environment and a `.env` file, which is I/O.
- The pandas `DataFrame` construction is not modelled. The result is a `seq<YearRecord>` in append order, with one field per column.
- Floating point is not modelled. The arithmetic is exact over `real`, so the model does not reproduce IEEE-754 rounding of the 0.4, 0.6, 0.25 and 0.08 multiplications.
- Python's mix of `int` and `float` values is not modelled. For example, year 1's retained count is the integer `0`. Every number is a `real`, which is the same value numerically.
- Dictionary keys the engine never reads are not modelled: `affiliation_gross_fee`, `affiliation_referral_fee`, `channel_b_retained_rev`, the scalar retention rates and `affiliation_referral_pct`.
- Wrongly shaped values are not modelled, such as a scalar where a map is expected. The datatype's field types rule them out, so only absent keys and absent years can fail.
- A year missing from `new_customers` counts as 0 new customers and does not fail (`.get(year, 0)` at src/business_logic.py:20). Every other year-indexed lookup the engine performs fails on a missing year.
- A missing key and a missing year both raise the same `KeyError`. The model splits them into `MissingKey` and `MissingYear`.
- A key that only one year reads, such as `owner_payout_year2`, fails only when that year is reached.
