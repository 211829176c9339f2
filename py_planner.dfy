/** The Python planner (`Main.py`): `Expense` validates itself on
    construction, the planner's running totals are for-loops, and its other
    queries are comprehensions and `sorted` expressions. */
module PyPlanner {
  import opened Results
  import opened Dates
  import opened Text
  import opened Ledger
  import opened Ranking

  /** `Expense.__init__`: the checks run in order (description, amount,
      category, date) and the first failing one is raised; on success the
      description is stored stripped and the rest verbatim. `id` stands for
      the fresh `uuid4` string and `today` for `date.today()`; `None` stands
      for any value that is not a `Category`. */
  function NewExpense(id: string, description: string, amount: real, category: Option<Category>,
                      date: Date, today: Date): (r: Result<Expense, Error>)
    requires id != []
    ensures r.Ok? <==> !IsBlank(description, PythonSpace) && amount > 0.0 && category.Some? && !Before(today, date)
    ensures r == Err(EmptyDescription) <==> IsBlank(description, PythonSpace)
    ensures r == Err(NonPositiveAmount) <==> !IsBlank(description, PythonSpace) && amount <= 0.0
    ensures r == Err(InvalidCategory)
            <==> !IsBlank(description, PythonSpace) && amount > 0.0 && category.None?
    ensures r == Err(FutureDate)
            <==> !IsBlank(description, PythonSpace) && amount > 0.0 && category.Some? && Before(today, date)
    ensures r.Ok? ==> WellFormed(r.value, PythonSpace)
    ensures r.Ok? ==> r.value.id == id && r.value.description == Trim(description, PythonSpace)
                      && r.value.amount == amount && r.value.category == category.value && r.value.date == date
  {
    if IsBlank(description, PythonSpace) then Err(EmptyDescription)
    else if amount <= 0.0 then Err(NonPositiveAmount)
    else if category.None? then Err(InvalidCategory)
    else if Before(today, date) then Err(FutureDate)
    else
      TrimIdempotent(description, PythonSpace);
      Ok(Expense(id, Trim(description, PythonSpace), amount, category.value, date))
  }

  /** The record `get_expenses_summary` returns. */
  datatype Summary = Summary(totalExpenses: real, expenseCount: nat, averageExpense: real,
                             monthlyBudget: real, categoryBudgets: map<Category, real>)

  /** `date.replace(day=d)`: fails unless `d` is a day of the date's month. */
  function ReplaceDay(d: Date, day: int): (r: Result<Date, Error>)
    ensures r.Ok? <==> 1 <= day <= DaysInMonth(d.year, d.month)
    ensures r.Ok? ==> r.value.year == d.year && r.value.month == d.month && r.value.day == day
  {
    if 1 <= day <= DaysInMonth(d.year, d.month) then Ok(Ymd(d.year, d.month, day))
    else Err(DayOutOfRange)
  }

  /** The month-end computation of `get_remaining_monthly_budget` as written:
      December ends on the 31st; any other month takes the 1st of the next
      month and replaces its day by `1 - 1`, which is no day at all. */
  function MonthEndAsWritten(year: int, month: int): (r: Result<Date, Error>)
    requires 1 <= month <= 12
    ensures r.Ok? <==> month == 12
    ensures r.Ok? ==> r.value == LastOfMonth(year, month)
  {
    if month == 12 then Ok(Ymd(year, 12, 31))
    else
      var next: Date := Ymd(year, month + 1, 1);
      ReplaceDay(next, next.day - 1)
  }

  /** `get_remaining_monthly_budget` as written, over a planner's state. */
  function RemainingMonthlyBudgetAsWritten(expenses: seq<Expense>, monthlyBudget: real,
                                           year: int, month: int): (r: Result<real, Error>)
    ensures r == Err(MonthOutOfRange) <==> !(1 <= month <= 12)
    ensures r == Err(YearOutOfRange) <==> 1 <= month <= 12 && !(1 <= year <= 9999)
    ensures r.Ok? <==> month == 12 && 1 <= year <= 9999
  {
    if !(1 <= month <= 12) then Err(MonthOutOfRange)
    else if !(1 <= year <= 9999) then Err(YearOutOfRange)
    else
      match MonthEndAsWritten(year, month)
      case Err(e) => Err(e)
      case Ok(end) => Ok(monthlyBudget - Sum(Select(expenses, DatedWithin(FirstOfMonth(year, month), end))))
  }

  /** The discrepancy: for every month but December the code as written
      raises, although the month has a last day (28 to 31). */
  lemma AsWrittenRejectsEveryMonthButDecember(expenses: seq<Expense>, monthlyBudget: real,
                                               year: int, month: int)
    requires 1 <= year <= 9999 && 1 <= month <= 11
    ensures RemainingMonthlyBudgetAsWritten(expenses, monthlyBudget, year, month) == Err(DayOutOfRange)
    ensures IsValid(Ymd(year, month, DaysInMonth(year, month)))
  {
  }

  /** In December the code as written and the corrected month end agree. */
  lemma AsWrittenAgreesInDecember(expenses: seq<Expense>, monthlyBudget: real, year: int)
    requires 1 <= year <= 9999
    ensures RemainingMonthlyBudgetAsWritten(expenses, monthlyBudget, year, 12)
            == Ok(monthlyBudget - Sum(Select(expenses, InMonth(year, 12))))
  {
    forall e: Expense ensures Matches(e, DatedWithin(FirstOfMonth(year, 12), LastOfMonth(year, 12)))
                              <==> Matches(e, InMonth(year, 12)) {
      MonthWindow(e.date, year, 12);
    }
    SelectSame(expenses, DatedWithin(FirstOfMonth(year, 12), LastOfMonth(year, 12)), InMonth(year, 12));
  }

  /** `ExpensePlanner` in `Main.py`. */
  class ExpensePlanner {
    var expenses: seq<Expense>
    var categoryBudgets: map<Category, real>
    var monthlyBudget: real

    ghost predicate Valid()
      reads this
    {
      && BudgetsWellFormed(categoryBudgets)
      && monthlyBudget >= 0.0
      && (forall e :: e in expenses ==> WellFormed(e, PythonSpace))
      && DistinctIds(expenses)
    }

    constructor ()
      ensures Valid()
      ensures expenses == [] && monthlyBudget == 0.0
      ensures forall c: Category :: c in categoryBudgets && categoryBudgets[c] == 0.0
    {
      expenses := [];
      categoryBudgets := map[];
      monthlyBudget := 0.0;
      new;
      InitializeCategoryBudgets();
    }

    /** `_initialize_category_budgets`: one 0.0 entry per category. */
    method InitializeCategoryBudgets()
      modifies this`categoryBudgets
      ensures forall c: Category :: c in categoryBudgets && categoryBudgets[c] == 0.0
    {
      for i := 0 to |AllCategories|
        invariant forall j :: 0 <= j < i ==> AllCategories[j] in categoryBudgets
                                             && categoryBudgets[AllCategories[j]] == 0.0
      {
        categoryBudgets := categoryBudgets[AllCategories[i] := 0.0];
      }
      forall c: Category ensures c in categoryBudgets && categoryBudgets[c] == 0.0 {
        EveryCategoryListed(c);
      }
    }

    /** `add_expense`: builds the expense (raising what its constructor
        raises) and appends it; returns its id. */
    method AddExpense(description: string, amount: real, category: Option<Category>, date: Date,
                      today: Date, freshId: string) returns (r: Result<string, Error>)
      requires Valid()
      requires freshId != [] && forall e :: e in expenses ==> e.id != freshId
      modifies this`expenses
      ensures Valid()
      ensures var made := NewExpense(freshId, description, amount, category, date, today);
              && (r.Ok? <==> made.Ok?)
              && (r.Ok? ==> r.value == freshId && expenses == old(expenses) + [made.value])
              && (r.Err? ==> r.error == made.error && expenses == old(expenses))
    {
      var made := NewExpense(freshId, description, amount, category, date, today);
      if made.Err? {
        return Err(made.error);
      }
      DistinctIdsSnoc(expenses, made.value);
      expenses := expenses + [made.value];
      r := Ok(made.value.id);
    }

    /** `remove_expense`: an empty id is an error; otherwise keeps exactly the
        expenses with a different id and reports whether the list shrank. */
    method RemoveExpense(id: string) returns (r: Result<bool, Error>)
      requires Valid()
      modifies this`expenses
      ensures Valid()
      ensures id == [] ==> r == Err(EmptyId) && expenses == old(expenses)
      ensures id != [] ==> expenses == Select(old(expenses), IdOtherThan(id))
      ensures id != [] ==> r == Ok(exists e :: e in old(expenses) && e.id == id)
      ensures r == Ok(true) ==> |expenses| == |old(expenses)| - 1
      ensures forall e :: e in expenses ==> e.id != id || id == []
    {
      if id == [] {
        return Err(EmptyId);
      }
      var initialCount := |expenses|;
      SelectShrinks(expenses, IdOtherThan(id));
      SelectMembers(expenses, IdOtherThan(id));
      SelectKeepsDistinct(expenses, IdOtherThan(id));
      if exists e :: e in expenses && e.id == id {
        RemoveUniqueId(expenses, id);
      }
      expenses := Select(expenses, IdOtherThan(id));
      r := Ok(|expenses| < initialCount);
    }

    /** `set_monthly_budget`. */
    method SetMonthlyBudget(budget: real) returns (r: Outcome<Error>)
      requires Valid()
      modifies this`monthlyBudget
      ensures Valid()
      ensures budget < 0.0 ==> r == Fail(NegativeBudget) && monthlyBudget == old(monthlyBudget)
      ensures budget >= 0.0 ==> r == Pass && monthlyBudget == budget
    {
      if budget < 0.0 {
        return Fail(NegativeBudget);
      }
      monthlyBudget := budget;
      r := Pass;
    }

    /** `set_category_budget`: only the targeted category's entry changes. */
    method SetCategoryBudget(category: Option<Category>, budget: real) returns (r: Outcome<Error>)
      requires Valid()
      modifies this`categoryBudgets
      ensures Valid()
      ensures category.None? ==> r == Fail(InvalidCategory) && categoryBudgets == old(categoryBudgets)
      ensures category.Some? && budget < 0.0
              ==> r == Fail(NegativeBudget) && categoryBudgets == old(categoryBudgets)
      ensures category.Some? && budget >= 0.0
              ==> r == Pass && categoryBudgets == old(categoryBudgets)[category.value := budget]
    {
      if category.None? {
        return Fail(InvalidCategory);
      }
      if budget < 0.0 {
        return Fail(NegativeBudget);
      }
      categoryBudgets := categoryBudgets[category.value := budget];
      r := Pass;
    }

    /** `get_total_expenses`: a running total over the expenses dated within
        the inclusive range. */
    method GetTotalExpenses(start: Option<Date>, end: Option<Date>) returns (r: Result<real, Error>)
      requires Valid()
      ensures start.None? || end.None? ==> r == Err(MissingDate)
      ensures start.Some? && end.Some? && Before(end.value, start.value) ==> r == Err(RangeInverted)
      ensures start.Some? && end.Some? && !Before(end.value, start.value)
              ==> r == Ok(Sum(Select(expenses, DatedWithin(start.value, end.value))))
      ensures r.Ok? ==> r.value >= 0.0
      ensures r.Ok? && (forall e :: e in expenses ==> !Within(e.date, start.value, end.value))
              ==> r.value == 0.0
    {
      if start.None? || end.None? {
        return Err(MissingDate);
      }
      var lo, hi := start.value, end.value;
      if Before(hi, lo) {
        return Err(RangeInverted);
      }
      var total := 0.0;
      for i := 0 to |expenses|
        invariant total == Sum(Select(expenses[..i], DatedWithin(lo, hi)))
      {
        var x := expenses[i];
        assert expenses[..i + 1] == expenses[..i] + [x];
        SelectSnoc(expenses[..i], x, DatedWithin(lo, hi));
        SumSnoc(Select(expenses[..i], DatedWithin(lo, hi)), x);
        if Within(x.date, lo, hi) {
          total := total + x.amount;
        }
      }
      assert expenses[..|expenses|] == expenses;
      SelectMembers(expenses, DatedWithin(lo, hi));
      SumOfPositives(Select(expenses, DatedWithin(lo, hi)));
      if forall e :: e in expenses ==> !Within(e.date, lo, hi) {
        SelectNone(expenses, DatedWithin(lo, hi));
      }
      r := Ok(total);
    }

    /** `get_expenses_by_category`: the category's expenses in insertion order. */
    function GetExpensesByCategory(category: Option<Category>): (r: Result<seq<Expense>, Error>)
      reads this
      ensures r.Err? <==> category.None?
      ensures r.Err? ==> r.error == InvalidCategory
      ensures r.Ok? ==> r.value == Select(expenses, OfCategory(category.value))
      ensures r.Ok? ==> forall e :: e in r.value <==> e in expenses && e.category == category.value
    {
      if category.None? then Err(InvalidCategory)
      else
        SelectMembers(expenses, OfCategory(category.value));
        Ok(Select(expenses, OfCategory(category.value)))
    }

    /** `get_remaining_monthly_budget`, with the month end computed as the
        last day of the month (the code as written raises for January to
        November, see `RemainingMonthlyBudgetAsWritten`). `date(year, month, 1)`
        accepts only the years 1 to 9999. */
    method GetRemainingMonthlyBudget(year: int, month: int) returns (r: Result<real, Error>)
      requires Valid()
      ensures !(1 <= month <= 12) ==> r == Err(MonthOutOfRange)
      ensures 1 <= month <= 12 && !(1 <= year <= 9999) ==> r == Err(YearOutOfRange)
      ensures 1 <= month <= 12 && 1 <= year <= 9999
              ==> r == Ok(monthlyBudget - Sum(Select(expenses, InMonth(year, month))))
    {
      if !(1 <= month <= 12) {
        return Err(MonthOutOfRange);
      }
      if !(1 <= year <= 9999) {
        return Err(YearOutOfRange);
      }
      var startDate := FirstOfMonth(year, month);
      var endDate := LastOfMonth(year, month);
      var total := GetTotalExpenses(Some(startDate), Some(endDate));
      forall e: Expense ensures Matches(e, DatedWithin(startDate, endDate)) <==> Matches(e, InMonth(year, month)) {
        MonthWindow(e.date, year, month);
      }
      SelectSame(expenses, DatedWithin(startDate, endDate), InMonth(year, month));
      r := Ok(monthlyBudget - total.value);
    }

    /** `is_category_budget_exceeded`: a budget of 0 means unset and is never
        exceeded; otherwise the category's all-time spend must be strictly
        greater than the budget. */
    function IsCategoryBudgetExceeded(category: Option<Category>): (r: Result<bool, Error>)
      reads this
      requires Valid()
      ensures r.Err? <==> category.None?
      ensures r.Err? ==> r.error == InvalidCategory
      ensures r.Ok? && categoryBudgets[category.value] == 0.0 ==> !r.value
      ensures r.Ok? && categoryBudgets[category.value] != 0.0
              ==> (r.value <==> CategorySpend(expenses, category.value) > categoryBudgets[category.value])
      ensures r.Ok? ==> r.value == OverBudget(expenses, category.value, categoryBudgets[category.value])
    {
      if category.None? then Err(InvalidCategory)
      else
        var budget := categoryBudgets[category.value];
        if budget == 0.0 then Ok(false)
        else
          var spent := Sum(GetExpensesByCategory(category).value);
          Ok(spent > budget)
    }

    /** `get_category_statistics`: fills a dict category by category from the
        expenses within the inclusive range. Unlike `get_total_expenses` it
        does not check the order of the bounds: an inverted range gives `{}`. */
    method GetCategoryStatistics(start: Option<Date>, end: Option<Date>)
      returns (r: Result<map<Category, real>, Error>)
      ensures start.None? || end.None? ==> r == Err(MissingDate)
      ensures start.Some? && end.Some? ==> r == Ok(Statistics(expenses, start.value, end.value))
      ensures r.Ok? && Before(end.value, start.value) ==> r.value == map[]
    {
      if start.None? || end.None? {
        return Err(MissingDate);
      }
      var lo, hi := start.value, end.value;
      var statistics: map<Category, real> := map[];
      for i := 0 to |expenses|
        invariant statistics == Statistics(expenses[..i], lo, hi)
      {
        var x := expenses[i];
        assert expenses[..i + 1] == expenses[..i] + [x];
        StatisticsSnoc(expenses[..i], x, lo, hi);
        if Within(x.date, lo, hi) {
          statistics := AddTo(statistics, x.category, x.amount);
        }
      }
      assert expenses[..|expenses|] == expenses;
      if Before(hi, lo) {
        StatisticsOfInvertedRange(expenses, lo, hi);
      }
      r := Ok(statistics);
    }

    /** `get_top_expenses`: the first `limit` expenses of a stable sort by
        decreasing amount. */
    function GetTopExpenses(limit: int): (r: Result<seq<Expense>, Error>)
      reads this
      ensures r.Err? <==> limit <= 0
      ensures r.Err? ==> r.error == NonPositiveLimit
      ensures r.Ok? ==> |r.value| == if limit < |expenses| then limit else |expenses|
      ensures r.Ok? ==> r.value == SortByAmountDesc(expenses)[..|r.value|]
      ensures r.Ok? ==> SortedDesc(r.value) && multiset(r.value) <= multiset(expenses)
      ensures r.Ok? ==> forall e, i :: e in multiset(expenses) - multiset(r.value) && 0 <= i < |r.value|
                                       ==> e.amount <= r.value[i].amount
    {
      TopExpenses(expenses, limit)
    }

    /** `get_expenses_summary`: the average is 0 for an empty list. */
    function GetExpensesSummary(): (r: Summary)
      reads this
      requires Valid()
      ensures r.totalExpenses == Sum(expenses) && r.expenseCount == |expenses|
      ensures r.expenseCount == 0 ==> r.averageExpense == 0.0
      ensures r.expenseCount > 0 ==> r.expenseCount as real * r.averageExpense == r.totalExpenses
      ensures r.expenseCount > 0 ==> (exists e :: e in expenses && e.amount >= r.averageExpense)
                                     && (exists e :: e in expenses && e.amount <= r.averageExpense)
      ensures r.monthlyBudget == monthlyBudget && r.categoryBudgets == categoryBudgets
    {
      var total := Sum(expenses);
      if expenses == [] then
        Summary(total, 0, Average(total, 0), monthlyBudget, categoryBudgets)
      else
        var average := Average(total, |expenses|);
        SomeAmountAtLeast(expenses, average);
        SomeAmountAtMost(expenses, average);
        Summary(total, |expenses|, average, monthlyBudget, categoryBudgets)
    }

    /** The `expenses` property: the list as stored, every entry validated. */
    function Expenses(): (r: seq<Expense>)
      reads this
      requires Valid()
      ensures r == expenses
      ensures DistinctIds(r) && forall e :: e in r ==> WellFormed(e, PythonSpace)
    {
      expenses
    }

    /** `get_category_budget`: defined for every category, never negative. */
    function GetCategoryBudget(category: Category): (r: real)
      reads this
      requires Valid()
      ensures r == categoryBudgets[category] && r >= 0.0
    {
      categoryBudgets[category]
    }
  }
}
