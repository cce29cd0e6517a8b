# Table validators

A Dafny model of three validation helpers for labelled numeric tables
(`software_tests.py`). Each makes one read-only pass over its input and either
returns `True` or fails an assertion whose message says what was wrong:

- `check_df_sum` — every row sum (or column sum) of a table, over absolute
  values by default, must round to 1 at four decimals;
- `check_date` — a date must be in an index; with no date given, the previous
  business day (Monday to Friday, no holiday calendar) is used, and with
  `string` set the date's text form is looked up;
- `df_value_comparison` — two tables must have the same sets of row and column
  labels, and a value must be missing in one exactly where it is missing in the
  other; the present values themselves are never compared.

Files:

- `outcomes.dfy` (`Outcomes`): `Option` (a missing cell is `None`) and
  `Outcome` (`Pass` for returning `True`, `Fail(e)` for the assertion error).
- `tables.dfy` (`Tables`): a table is its row labels, its column labels and
  the cell at every (row, column) pair; plus `LabelSet` and small builders of
  example tables.
- `sum_check.dfy` (`SumCheck`): `check_df_sum` as the method `CheckDfSum`,
  the specification functions it is proved against (`AbsTable`, `AxisSums`,
  `Sums`, `Round4`, `Passes`) and lemmas about them.
- `date_check.dfy` (`DateCheck`): `check_date` as the function `CheckDate`,
  the business-day calendar over day numbers, and lemmas.
- `value_comparison.dfy` (`ValueComparison`): `df_value_comparison` as the
  method `DfValueComparison` with its nested scan, the predicates it is
  proved against (`SameLabels`, `NullsAligned`, `Comparable`,
  `FirstMisaligned`) and lemmas.

Where the code and its own documentation part ways, the model follows the
code:

- The docstring of `check_df_sum` (software_tests.py:25-27) says it returns
  `True` when every element sums to `target`, but the assertion compares each
  rounded sum with the literal 1 (software_tests.py:64); `target` appears only
  in the failure message. A table whose sums all equal some `target` away
  from 1 fails (`SumCheck.SumsAtOtherTargetFail`), and the pass condition
  `Passes` does not mention `target` at all.

Modelling choices:

- Cells are a total map from (row, column) to `Option<V>`: one value per
  label pair. This matches a pandas table whose labels are distinct; a table
  with repeated labels holding different values cannot be represented (see
  "## Left out"). Labels are sequences,
  compared as sets where the code builds `set(...)`.
- The failure messages of `df_value_comparison` (software_tests.py:173, 178)
  name the table holding the unpartnered missing value but not its position,
  so `AlignError` carries no position. The method's contract still pins down
  the position the scan stops at (`FirstMisaligned`, unique by
  `FirstMisalignedUnique`).
- The Python defaults are Dafny default-valued parameters: `CheckDfSum(t)`
  means `target = 1`, `absolute = true`, `axis = Columns`; `CheckDate` takes
  `date := None` and `asString := false`.
- Numbers are exact `real`s. `round(x, 4)` is `Round4`: nearest multiple of
  1/10000, ties to even, as Python rounds. `sum` skips missing values, as
  pandas does by default, so an all-missing row sums to 0.
- `axis` is `Axis.Index` (0, one sum per column) or `Axis.Columns` (1, the
  default, one sum per row).
- Dates are day numbers counted from 1970-01-01, a Thursday. The clock
  reading `datetime.now()` is the parameter `today`; `str(date)` is the
  parameter `render`, a caller-supplied text form (injective where a lemma
  needs it).
- The validators only read their inputs, so tables are values; taking
  absolute values builds a new table (`AbsTable`) and the caller's table
  cannot change.

## Model

| member | source | states |
|---|---|---|
| `ValueComparison.DfValueComparison` | software_tests.py:128-185 | passes exactly when the label sets match and every position is null in A iff null in B; fails with `LabelsDiffer` exactly when a label set differs; otherwise fails at the first misaligned position in column-then-row order, naming the side whose null has no partner |
| `ValueComparison.CellError` | software_tests.py:170-178 | at a misaligned cell the error is `NullOnlyInA` iff A is null and B is not, `NullOnlyInB` iff B is null and A is not |
| `ValueComparison.FirstMisalignedUnique` | software_tests.py:165-178 | the first misaligned position of the scan is unique, so the reported error is determined |
| `ValueComparison.ComparableSymmetric` | software_tests.py:162-178 | swapping the two tables does not change whether the check passes |
| `ValueComparison.LabelOrderIrrelevant` | software_tests.py:162 | reordering either table's row or column labels (same label sets) does not change whether the check passes; which error a failing check reports can change, since the scan follows A's label order |
| `ValueComparison.PresentValuesNeverCompared` | software_tests.py:171-178 | replacing B's present values by any other present values, keeping where values are missing at A's labelled positions, does not change whether the check passes |
| `ValueComparison.AllOnesAgainstAllTwos` | software_tests.py:191-195 | a 100-row table of 1s and one of 2s over columns A and B pass although their values differ |
| `ValueComparison.ExtraColumnFails` | software_tests.py:162 | tables whose shared positions all align still fail when one has an extra column |
| `ValueComparison.NullOnlyInAReported` | software_tests.py:171-173 | A missing at (row 3, column B) where B is not: the check fails there, with `NullOnlyInA` |
| `SumCheck.CheckDfSum` | software_tests.py:18-68 | passes exactly when every sum along the axis (over absolute values when asked) rounds to 1, `target` playing no part; otherwise fails at the first sum that does not, reporting `target` and that rounded sum |
| `SumCheck.SumPresent` | software_tests.py:58 | a sum skipping missing values; a line of only missing values sums to 0 |
| `SumCheck.AxisSums` | software_tests.py:58 | one sum per row for axis 1, one per column for axis 0 |
| `SumCheck.Round4` | software_tests.py:64 | the rounded value is a whole number of ten-thousandths within 0.00005 of the input; at an exact tie it is the even one |
| `SumCheck.AbsTable` | software_tests.py:53-55 | the absolute copy keeps the labels and which cells are missing, and each present value becomes non-negative with the same magnitude |
| `SumCheck.RoundsToOneBand` | software_tests.py:64 | a sum rounds to 1 at four decimals exactly when it lies in [0.99995, 1.00005] |
| `SumCheck.SumsAtOtherTargetFail` | software_tests.py:62-64 | a non-empty reduction whose sums all equal a `target` outside that band fails |
| `SumCheck.UnitSumsPass` | software_tests.py:62-68 | sums that are all exactly 1 pass |
| `SumCheck.EmptyReductionPasses` | software_tests.py:58-68 | with no rows (axis 1) or no columns (axis 0) the check passes vacuously |
| `SumCheck.SumPresentNonNegative` | software_tests.py:58 | a sum that skips missing values is non-negative when every present value is |
| `SumCheck.AbsoluteSumsNonNegative` | software_tests.py:53-58 | every sum over absolute values is non-negative |
| `SumCheck.AbsoluteIrrelevantWhenNonNegative` | software_tests.py:53-58 | on a table without negative values, the sums with and without absolute values are equal |
| `SumCheck.HalfAndHalfRowsPass` | software_tests.py:58-64 | rows of two columns holding 0.5 each pass, with or without absolute values |
| `SumCheck.OffsettingRowPassesOnlySigned` | software_tests.py:53-64 | a row of 1.5 and -0.5 passes with signed values and fails over absolute values |
| `DateCheck.Weekday` | software_tests.py:109 | the day of the week, 0 for Monday up to 6 for Sunday, day 0 (1970-01-01) a Thursday |
| `DateCheck.PreviousBusinessDay` | software_tests.py:107-109 | the default date is a business day strictly before today with no business day in between |
| `DateCheck.PreviousBusinessDayUnique` | software_tests.py:109 | any business day before today with none in between is that default |
| `DateCheck.PreviousBusinessDayByWeekday` | software_tests.py:109 | from a Monday, Saturday or Sunday the default is a Friday; from Tuesday to Friday it is the day before |
| `DateCheck.AsText` | software_tests.py:112 | the `string` conversion returns a string unchanged and writes a date through its text form |
| `DateCheck.AsTextIdempotent` | software_tests.py:112 | converting twice is converting once |
| `DateCheck.LookupKey` | software_tests.py:107-112 | a given string is looked up as it is; a given date as it is, or as its text form when `string` is set; with no date, the previous business day (its text when `string` is set) |
| `DateCheck.TextDateIgnoresStringFlag` | software_tests.py:112-115 | a date given as a string passes exactly when that string is in the index, whether or not `string` is set |
| `DateCheck.CheckDate` | software_tests.py:78-118 | passes exactly when the looked-up key (the date or its default, as text when `string` is set) is in the index; the failure names that key |
| `DateCheck.DefaultIsPreviousBusinessDay` | software_tests.py:107-109 | omitting the date is the same as passing the previous business day |
| `DateCheck.TextLookupMatchesDateLookup` | software_tests.py:112-115 | with an injective text form, a date looked up as text in the text index passes iff it passes as a date in the date index |
| `DateCheck.TextNeverInDateIndex` | software_tests.py:112-115 | with `string` set, an index holding only date objects always fails |
| `DateCheck.TenDayIndex` | software_tests.py:115 | over ten business days, a listed day passes and an unlisted Saturday fails naming it |

## Left out

- The `isinstance(df, pd.DataFrame)` assertion (software_tests.py:50): the
  model's types admit only tables.
- An `axis` other than 0, 1, `'index'` or `'columns'`, which makes pandas
  raise at software_tests.py:58: the `Axis` type admits only the two valid
  axes.
- Floating-point summation and the binary representation of floats: sums
  and `round(x, 4)` are exact over `real`.
- `datetime.now()` and pandas' `BDay` offset: the clock is the parameter
  `today` and the business-day step is written out over day numbers; the
  time-of-day part of `now()` is dropped, as `.date()` drops it.
- The textual format of `str(date)`: the text form is the parameter `render`.
- The distinction between `datetime`, `date` and pandas `Timestamp` objects
  in an index: a date object is a `DateKey` holding a day number. In Python
  a `date` never equals a `datetime` of the same day, and whether it equals
  a `Timestamp` depends on the pandas version, so `date in idx` can fail
  where the model's `DateKey` lookup passes.
- Duplicate row or column labels. In `df_value_comparison`, pandas' `.loc`
  then returns a sub-table and `pd.isnull` an array whose truth value raises
  (software_tests.py:171, 176); the model looks up one cell per label pair
  and passes or fails instead of raising. In `check_df_sum`, pandas sums
  every physical row or column (software_tests.py:58), so columns `A`, `A`
  holding 0.3 and 0.7 sum to 1; the model keeps one value per label pair and
  covers only tables whose repeated labels hold equal values.
- The failure message text beyond the values it names.
- The unused `koala` import and running the module-level demo
  (software_tests.py:191-195); the demo's tables are the lemma
  `AllOnesAgainstAllTwos`.
