# Expense planner, modelled in Dafny

This project models an in-memory personal expense planner. The repository
implements it twice: in Python (`Main.py`) and in Java
(`src/main/java/org/example/ExpensePlanner.java`). Each planner keeps three
pieces of state:

- an insertion-ordered list of expenses (id, trimmed description, positive
  amount, category, date);
- a budget per category, pre-filled with 0.0 for all seven categories;
- one monthly budget.

Its operations are:

- add an expense, with validation;
- remove expenses by id;
- set the monthly budget and a category's budget;
- total the spending over an inclusive date range;
- list a category's expenses;
- compute the remaining monthly budget;
- check whether a category is over budget;
- compute per-category statistics over a range;
- list the top expenses by amount;
- summarise the planner (Python only).

Layout:

- `results.dfy` (`Results`): `Option`, `Result` and `Outcome`. A raised
  `ValueError`, `IllegalArgumentException` or `DateTimeException` (from
  `LocalDate.of`) is an `Err`/`Fail` carrying an `Error` value.
- `dates.dfy` (`Dates`): proleptic Gregorian dates, chronological order, the
  first and last day of a month.
- `text.dfy` (`Text`): trimming. It has two whitespace rules: Python's
  `str.strip` uses `isspace`, and Java's `String.trim` strips every char ≤ U+0020.
- `ledger.dfy` (`Ledger`):
  - the `Category`, `Expense` and `Error` types;
  - one filter `Select` driven by a `Criterion`, and the sum `Sum`;
  - per-category statistics and the budget-exceeded rule, with their lemmas.
- `ranking.dfy` (`Ranking`): a stable sort by decreasing amount, and the
  top-N query.
- `py_planner.dfy` (`PyPlanner`): the Python class. `get_total_expenses` and
  `get_category_statistics` are loops with invariants, proved against `Sum`
  and `Statistics`.
- `java_planner.dfy` (`JavaPlanner`): the Java class. Its queries are stream
  pipelines and are modelled as functions.

The state-changing operations are methods of a class. The class invariant
`Valid()` says three things:

- every category has a non-negative budget, and the monthly budget is
  non-negative;
- every stored expense is well formed: non-empty id, description already
  trimmed and not blank, positive amount;
- the ids are distinct.

The two versions differ as follows, and the model keeps each one's behaviour:

- Where validation happens. Python validates in `Expense.__init__`, modelled
  as `PyPlanner.NewExpense`. Java validates in `addExpense`, modelled as
  `JavaPlanner.CheckNewExpense`, and its `Expense` constructor checks nothing.
- What counts as blank. Python strips Unicode whitespace. Java strips every
  character up to U+0020: the C0 controls and the space. `Text.BlankRulesDiffer` shows a string
  that is blank for one and not for the other, in each direction.
- Removing by id. Python rejects an empty or `None` id (both are the empty
  string in the model, see Left out). Java rejects a null id and also a
  whitespace-only one.
- Missing dates. Java reports a null expense date as "in the future". Python
  has no separate null path for the expense date.
- The month end in `get_remaining_monthly_budget`. Python's code fails for
  January to November (see Findings). Java uses `lengthOfMonth`.
- The years a date can hold. Python's `date` accepts 1 to 9999. Java's
  `LocalDate.of` accepts −999,999,999 to 999,999,999.

Inputs and how they are modelled:

- `None`/`null` and non-`Category` values are `Option` parameters, wherever
  the source has an error for them.
- The clock (`date.today()`, `LocalDate.now()`) is the parameter `today`.
- The fresh UUID is the parameter `freshId`. It must be non-empty and differ
  from every stored id, as a UUID does.

## Model

| member | source | states |
|---|---|---|
| Dates.IsLeapYear | src/main/java/org/example/ExpensePlanner.java:148 | no contract: the Gregorian leap-year rule; it decides February's length in Dates.DaysInMonth |
| Dates.DaysInMonth | src/main/java/org/example/ExpensePlanner.java:148 | a month has 28 to 31 days; February has 29 exactly in leap years and 28 otherwise; April, June, September and November have exactly 30, so the other months have 31 |
| Dates.Before | Main.py:127 | no contract: chronological order on dates, `a < b` in Python and `a.isBefore(b)` in Java; used by Dates.EmptyWindow and Dates.NextDay |
| Dates.Within | Main.py:132 | no contract: `start <= d <= end`, the inclusive range test of src/main/java/org/example/ExpensePlanner.java:120-121 as well; pinned down by Dates.EmptyWindow and Dates.MonthWindow |
| Dates.FirstOfMonth | src/main/java/org/example/ExpensePlanner.java:147 | day 1 lies in the given month and no date of that month precedes it |
| Dates.LastOfMonth | src/main/java/org/example/ExpensePlanner.java:148 | `withDayOfMonth(lengthOfMonth())` lies in the given month and no date of that month follows it |
| Dates.NextDay | Main.py:170-171 | the next day is later than `d` and no date lies strictly between them |
| Dates.LastOfMonthPrecedesNextMonth | Main.py:167-171 | the day after a month's last day is the first of the next month (January of the next year after December), which is the month end the Python code aims at |
| Dates.MonthWindow | src/main/java/org/example/ExpensePlanner.java:147-150 | the inclusive range from the 1st to the last day holds exactly the dates of that month |
| Dates.EmptyWindow | Main.py:212 | when the end precedes the start, no date is in the inclusive range |
| Text.IsPythonSpace | Main.py:19 | no contract: the characters `str.isspace` accepts; Text.BlankRulesDiffer separates it from Java's rule |
| Text.IsSpace | src/main/java/org/example/ExpensePlanner.java:56 | no contract: picks Python's rule or Java's `trim` rule (every char up to U+0020); used by Text.LeadingSpaces and Text.TrailingSpaces |
| Text.Trim | Main.py:29 | no contract: `strip()` / `trim()`; pinned down by Text.TrimIsSlice, Text.TrimCutsOnlySpace, Text.TrimEnds and Text.TrimIdempotent |
| Text.IsBlank | Main.py:19 | no contract: `not s.strip()` / `s.trim().isEmpty()`; pinned down by Text.BlankIffAllSpace |
| Text.LeadingSpaces | Main.py:29 | counts exactly the whitespace run at the start of the string |
| Text.TrailingSpaces | Main.py:29 | counts exactly the whitespace run at the end of the string |
| Text.TrimIsSlice | src/main/java/org/example/ExpensePlanner.java:69 | the trimmed string is the contiguous slice of the original that starts after its leading whitespace |
| Text.TrimCutsOnlySpace | src/main/java/org/example/ExpensePlanner.java:69 | only whitespace follows the trimmed slice |
| Text.TrimEnds | Main.py:29 | a non-empty trimmed string starts and ends with non-whitespace |
| Text.BlankIffAllSpace | Main.py:19 | a string trims to empty exactly when every character is whitespace, under either rule |
| Text.TrimIdempotent | Main.py:29 | trimming an already trimmed description changes nothing |
| Text.BlankRulesDiffer | src/main/java/org/example/ExpensePlanner.java:56 | U+00A0 is blank for Python's `strip` but not for Java's `trim`; U+0000 is blank for Java and not for Python |
| Ledger.EveryCategoryListed | Main.py:51-52 | the category list that budgets are initialised from holds every category |
| Ledger.AllCategoriesDistinct | Main.py:7-14 | the category list names each category once |
| Ledger.Sum | Main.py:239 | no contract: the sum of amounts (also Main.py:133, Main.py:193 and src/main/java/org/example/ExpensePlanner.java:122-123); pinned down by Ledger.SumSnoc, Ledger.SumAppend and Ledger.SumOfPositives |
| Ledger.Select | Main.py:149 | filtering never lengthens the list |
| Ledger.SelectMembers | Main.py:149 | an expense is in the filtered list exactly when it is in the list and matches |
| Ledger.SelectSnoc | Main.py:131-133 | one more expense is kept at the end exactly when it matches |
| Ledger.SumSnoc | Main.py:133 | one more expense adds its amount to the sum |
| Ledger.SelectAppend | src/main/java/org/example/ExpensePlanner.java:134-136 | filtering distributes over concatenation, so order is kept |
| Ledger.SumAppend | src/main/java/org/example/ExpensePlanner.java:119-123 | the sum of a concatenation is the sum of its parts |
| Ledger.SelectNone | Main.py:130-134 | when nothing matches, the filter is empty and the total is 0 |
| Ledger.SelectAll | Main.py:85 | when everything matches, the filter keeps the list unchanged |
| Ledger.SelectShrinks | Main.py:84-86 | the filtered list is shorter exactly when some expense fails the criterion, which is when `remove_expense` returns true |
| Ledger.SelectSame | src/main/java/org/example/ExpensePlanner.java:147-150 | two criteria that agree on every expense select the same list |
| Ledger.DistinctIdsSnoc | Main.py:67-69 | appending an expense whose id is fresh keeps the ids distinct |
| Ledger.SelectKeepsDistinct | Main.py:85 | filtering keeps the ids distinct |
| Ledger.RemoveUniqueId | Main.py:81-86 | with distinct ids, removing a present id removes exactly one expense |
| Ledger.SumOfPositives | Main.py:130-134 | a total of positive amounts is non-negative, and positive when the list is non-empty |
| Ledger.SumBelow | Main.py:239-240 | if every amount is below `b`, the sum is below the count times `b` |
| Ledger.SumAbove | Main.py:239-240 | if every amount is above `b`, the sum is above the count times `b` |
| Ledger.SomeAmountAtLeast | Main.py:239-240 | some expense is at least the average |
| Ledger.SomeAmountAtMost | Main.py:239-240 | some expense is at most the average |
| Ledger.Average | Main.py:240 | the average is 0 for no expenses; otherwise the count times the average is the total |
| Ledger.Grouped | src/main/java/org/example/ExpensePlanner.java:183-186 | the grouped map's keys are exactly the categories that occur |
| Ledger.GroupedValue | src/main/java/org/example/ExpensePlanner.java:183-186 | each entry of the grouped map is the total spent in that category |
| Ledger.CategorySpendSnoc | Main.py:193 | one more expense adds its amount to its own category's total and leaves the others alone |
| Ledger.CategorySpendAbsent | Main.py:213 | a category with no expense has a total of 0 |
| Ledger.Statistics | Main.py:207-214 | a category is a key exactly when it has an in-range expense |
| Ledger.StatisticsValue | Main.py:211-213 | each category's value is that category's in-range spend |
| Ledger.CategoriesOfSnoc | Main.py:213 | one more expense adds its category to the set of categories present |
| Ledger.AddTo | Main.py:213 | no contract: `statistics[c] = statistics.get(c, 0.0) + amount`; Ledger.GroupedSnoc states that grouping one more expense is this step |
| Ledger.GroupedSnoc | Main.py:213 | one more expense adds its amount to its category's entry, starting from 0.0 when absent |
| Ledger.StatisticsSnoc | Main.py:211-213 | one loop step adds an in-range expense to its category and ignores an out-of-range one |
| Ledger.StatisticsOfInvertedRange | Main.py:207-214 | an inverted range gives empty statistics, because the bound order is not checked |
| Ledger.SumByCategoryOfNothing | Main.py:210 | with no expenses, every category's total is 0 |
| Ledger.SumByCategorySnoc | Main.py:213 | one more expense adds its amount to the per-category total exactly once |
| Ledger.SumByAllCategories | Main.py:7-14 | splitting the expenses by category and adding up the parts gives the overall sum |
| Ledger.MapTotalOfGrouped | src/main/java/org/example/ExpensePlanner.java:183-186 | the grouped map's values add up to the per-category totals, with absent keys as 0 |
| Ledger.StatisticsAddUpToTotal | Main.py:207-214 | the statistics' values add up to the total spent in the same range |
| Ledger.CategorySpend | Main.py:193 | no contract: the all-time total of one category; pinned down by Ledger.CategorySpendSnoc and Ledger.CategorySpendAbsent |
| Ledger.OverBudget | Main.py:189-194 | no contract: the budget-exceeded rule (a budget of 0 means unset, otherwise strictly greater); both IsCategoryBudgetExceeded members return it, and Ledger.OverBudgetPersists is about it |
| Ledger.OverBudgetPersists | Main.py:189-194 | adding a positive expense never brings a category back under its budget |
| Ranking.InsertPos | Main.py:229 | the insert position comes after every amount ≥ x and before every amount < x |
| Ranking.Insert | Main.py:229 | insertion keeps the list sorted by decreasing amount and adds exactly x |
| Ranking.SortByAmountDesc | Main.py:229 | `sorted(..., reverse=True)` returns a permutation, sorted by decreasing amount |
| Ranking.InsertStable | src/main/java/org/example/ExpensePlanner.java:198 | inserting x puts it after every earlier expense of the same amount |
| Ranking.SortIsStable | Main.py:229 | among expenses of equal amount, the sort keeps the original order |
| Ranking.PrefixHoldsLargest | Main.py:230 | a prefix of the sorted list is sorted, is drawn from the list, and no expense left out is larger than one kept |
| Ranking.TopExpenses | src/main/java/org/example/ExpensePlanner.java:193-200 | fails exactly when limit ≤ 0; otherwise returns min(limit, count) expenses, the prefix of the stable sort, holding the largest amounts |
| PyPlanner.NewExpense | Main.py:19-32 | checks run in order (blank description, amount ≤ 0, non-Category, date after today); each error occurs exactly when it is the first check that fails; on success the description is stored stripped and the rest verbatim |
| PyPlanner.ReplaceDay | Main.py:171 | `replace(day=d)` succeeds exactly when d is a day of that month |
| PyPlanner.MonthEndAsWritten | Main.py:167-171 | the month end as written exists only for December, and then it is the month's last day |
| PyPlanner.RemainingMonthlyBudgetAsWritten | Main.py:162-174 | as written, the method succeeds only for December of years 1 to 9999 |
| PyPlanner.AsWrittenRejectsEveryMonthButDecember | Main.py:167-171 | for January to November the code raises, although the month's last day exists |
| PyPlanner.AsWrittenAgreesInDecember | Main.py:167-168 | in December the code as written gives the corrected result |
| PyPlanner.ExpensePlanner.constructor | Main.py:43-47 | starts with no expenses, a 0 monthly budget and every category budget at 0.0 |
| PyPlanner.ExpensePlanner.InitializeCategoryBudgets | Main.py:49-52 | every category gets a 0.0 budget entry |
| PyPlanner.ExpensePlanner.AddExpense | Main.py:67-69 | appends exactly the validated expense and returns its id; a failed validation leaves the list unchanged |
| PyPlanner.ExpensePlanner.RemoveExpense | Main.py:81-86 | the empty id is an error; otherwise keeps, in order, exactly the expenses with another id; returns whether one was present; afterwards none has that id, so a second call returns false |
| PyPlanner.ExpensePlanner.SetMonthlyBudget | Main.py:95-97 | a negative budget is rejected and changes nothing; otherwise the budget is set |
| PyPlanner.ExpensePlanner.SetCategoryBudget | Main.py:107-112 | a non-Category value or a negative budget is rejected and changes nothing; otherwise only that category's entry changes |
| PyPlanner.ExpensePlanner.GetTotalExpenses | Main.py:125-134 | missing dates and an inverted range are errors; otherwise the loop's total is the sum over expenses dated in the inclusive range, ≥ 0, and 0 when none match |
| PyPlanner.ExpensePlanner.GetExpensesByCategory | Main.py:146-149 | a non-Category value is an error; otherwise returns, in insertion order, exactly that category's expenses |
| PyPlanner.ExpensePlanner.GetRemainingMonthlyBudget | Main.py:162-174 | month outside 1..12 and year outside 1..9999 are errors; otherwise returns the monthly budget minus that month's spending (corrected month end) |
| PyPlanner.ExpensePlanner.IsCategoryBudgetExceeded | Main.py:186-194 | false whenever the budget is 0; otherwise true exactly when the category's all-time spend is strictly above the budget; the result is Ledger.OverBudget |
| PyPlanner.ExpensePlanner.GetCategoryStatistics | Main.py:207-214 | missing dates are errors; otherwise the loop builds the in-range statistics, which are empty for an inverted range |
| PyPlanner.ExpensePlanner.GetTopExpenses | Main.py:226-230 | fails exactly when limit ≤ 0; otherwise returns min(limit, count) expenses, a prefix of the stable descending sort, holding the largest amounts |
| PyPlanner.Summary | Main.py:242-248 | no contract: the summary record with its five fields; PyPlanner.ExpensePlanner.GetExpensesSummary states what each holds |
| PyPlanner.ExpensePlanner.GetExpensesSummary | Main.py:239-248 | total and count of all expenses; the average is 0 for no expenses, and otherwise times the count gives the total and lies between the smallest and largest amount; budgets are reported as stored |
| PyPlanner.ExpensePlanner.Expenses | Main.py:252-253 | the stored list, with distinct ids and every entry well formed |
| PyPlanner.ExpensePlanner.GetCategoryBudget | Main.py:259-260 | every category has a budget, and it is never negative |
| JavaPlanner.IsSupportedYear | src/main/java/org/example/ExpensePlanner.java:147 | no contract: the years `LocalDate.of` accepts, -999,999,999 to 999,999,999 |
| JavaPlanner.CheckNewExpense | src/main/java/org/example/ExpensePlanner.java:56-69 | checks run in order (null or blank description, amount ≤ 0, null category, null or future date); each error occurs exactly when it is the first check that fails; on success the expense holds the trimmed description |
| JavaPlanner.ExpensePlanner.constructor | src/main/java/org/example/ExpensePlanner.java:39-44 | starts with no expenses, a 0 monthly budget and every category budget at 0.0 |
| JavaPlanner.ExpensePlanner.InitializeCategoryBudgets | src/main/java/org/example/ExpensePlanner.java:46-50 | every category gets a 0.0 budget entry |
| JavaPlanner.ExpensePlanner.AddExpense | src/main/java/org/example/ExpensePlanner.java:55-71 | appends exactly the validated expense; a failed validation leaves the list unchanged |
| JavaPlanner.ExpensePlanner.RemoveExpense | src/main/java/org/example/ExpensePlanner.java:76-82 | a null or blank id is an error; otherwise removes every expense with that id, keeping the others in order, and returns whether one was present |
| JavaPlanner.ExpensePlanner.SetMonthlyBudget | src/main/java/org/example/ExpensePlanner.java:87-92 | a negative budget is rejected and changes nothing; otherwise the budget is set |
| JavaPlanner.ExpensePlanner.SetCategoryBudget | src/main/java/org/example/ExpensePlanner.java:97-106 | a null category or a negative budget is rejected and changes nothing; otherwise only that category's entry changes |
| JavaPlanner.ExpensePlanner.GetTotalExpenses | src/main/java/org/example/ExpensePlanner.java:111-124 | null dates and an inverted range are errors; otherwise returns the sum over expenses dated in the inclusive range, ≥ 0, and 0 when none match |
| JavaPlanner.ExpensePlanner.GetExpensesByCategory | src/main/java/org/example/ExpensePlanner.java:129-137 | null is an error; otherwise returns, in insertion order, exactly that category's expenses |
| JavaPlanner.ExpensePlanner.GetRemainingMonthlyBudget | src/main/java/org/example/ExpensePlanner.java:142-152 | month outside 1..12 and a year `LocalDate` cannot hold are errors; otherwise returns the monthly budget minus the spending from the 1st to the month's last day (possibly negative) |
| JavaPlanner.ExpensePlanner.IsCategoryBudgetExceeded | src/main/java/org/example/ExpensePlanner.java:157-170 | false whenever the budget is 0; otherwise true exactly when the category's sum is strictly above the budget; the result is Ledger.OverBudget |
| JavaPlanner.ExpensePlanner.GetCategoryStatistics | src/main/java/org/example/ExpensePlanner.java:175-187 | null dates are errors; otherwise the keys are exactly the categories with an in-range expense, each value is that category's in-range spend, the values add up to the in-range total, and an inverted range gives an empty map |
| JavaPlanner.ExpensePlanner.GetTopExpenses | src/main/java/org/example/ExpensePlanner.java:192-201 | fails exactly when limit ≤ 0; otherwise returns min(limit, count) expenses, a prefix of the stable descending sort, holding the largest amounts |
| JavaPlanner.ExpensePlanner.GetAllExpenses | src/main/java/org/example/ExpensePlanner.java:204-206 | the stored list, with distinct ids and every entry well formed |
| JavaPlanner.ExpensePlanner.GetCategoryBudget | src/main/java/org/example/ExpensePlanner.java:212-214 | every category has a budget, and it is never negative |

## Left out

- UUID generation (`uuid.uuid4()`, `UUID.randomUUID()`). Ids are the `freshId`
  parameter. They are assumed non-empty and distinct from the stored ids, which
  UUIDs are in practice.
- Clock reads (`date.today()`, `LocalDate.now()`). They are the `today` parameter.
- Floating point. Amounts and budgets are `real`, so rounding, summation order
  and `double` comparison with 0 are not modelled.
- Defensive copies (`self._expenses.copy()`, `new ArrayList<>(expenses)`,
  `self._category_budgets.copy()`). Without aliasing, returning the stored
  value is the same.
- Runtime type checks beyond the one error each produces. Any non-`Category`
  value, and Java's `null`, is `None`. Python's `not start_date` is the
  `None` case, since a `date` is always truthy.
- Python `None` as a description or an expense id. The model takes a string
  there, and the empty string stands for every falsy value.
- PyPlanner.ExpensePlanner.GetCategoryStatistics: returns a `map`, so the
  first-occurrence key order of the Python dict is not modelled. Nothing in
  the planner depends on that order.
- Java's string-keyed budget map (`category.name()`). It is a map keyed by
  the category.
- The `monthly_budget` property and `getMonthlyBudget()` getter. They read the
  `monthlyBudget` field directly and have no member.
- JavaPlanner.ExpensePlanner.GetCategoryBudget: takes a `Category`, so the
  `NullPointerException` that `getCategoryBudget(null)` throws is not modelled.
- PyPlanner.ExpensePlanner.GetCategoryBudget: takes a `Category`, so the
  `KeyError` for a non-Category key is not modelled.
- `Expense.__repr__`, the test suites, and printing.

## Findings

| source | as written | input that shows it | evidently intended | confidence | as-written member | corrected member |
|---|---|---|---|---|---|---|
| Main.py:167-171 | for months 1 to 11, the month end is `date(year, month + 1, 1).replace(day=0)`, and day 0 does not exist, so it raises `ValueError` | `get_remaining_monthly_budget(2024, 1)` | the last day of the month, e.g. 2024-01-31, as the Java version computes with `lengthOfMonth` | high; not executed | PyPlanner.RemainingMonthlyBudgetAsWritten (see PyPlanner.AsWrittenRejectsEveryMonthButDecember) | PyPlanner.ExpensePlanner.GetRemainingMonthlyBudget (uses Dates.LastOfMonth; see Dates.MonthWindow) |
