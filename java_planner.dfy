/** The Java planner (`ExpensePlanner.java`): `addExpense` validates before
    calling the `Expense` constructor, which checks nothing, and every query
    is a stream pipeline over the current state. */
module JavaPlanner {
  import opened Results
  import opened Dates
  import opened Text
  import opened Ledger
  import opened Ranking

  /** The checks `addExpense` runs, in order, before it builds the expense
      from the trimmed description. `None` stands for `null`; a missing date
      is reported as a future one, as the source does. */
  function CheckNewExpense(id: string, description: Option<string>, amount: real,
                           category: Option<Category>, date: Option<Date>, today: Date)
    : (r: Result<Expense, Error>)
    requires id != []
    ensures r.Ok? <==> && description.Some? && !IsBlank(description.value, JavaTrim)
                       && amount > 0.0 && category.Some? && date.Some? && !Before(today, date.value)
    ensures r == Err(EmptyDescription) <==> description.None? || IsBlank(description.value, JavaTrim)
    ensures r == Err(NonPositiveAmount)
            <==> description.Some? && !IsBlank(description.value, JavaTrim) && amount <= 0.0
    ensures r == Err(InvalidCategory)
            <==> description.Some? && !IsBlank(description.value, JavaTrim) && amount > 0.0 && category.None?
    ensures r == Err(FutureDate)
            <==> && description.Some? && !IsBlank(description.value, JavaTrim) && amount > 0.0
                 && category.Some? && (date.None? || Before(today, date.value))
    ensures r.Ok? ==> WellFormed(r.value, JavaTrim)
    ensures r.Ok? ==> && r.value.id == id && r.value.description == Trim(description.value, JavaTrim)
                      && r.value.amount == amount && r.value.category == category.value
                      && r.value.date == date.value
  {
    if description.None? || IsBlank(description.value, JavaTrim) then Err(EmptyDescription)
    else if amount <= 0.0 then Err(NonPositiveAmount)
    else if category.None? then Err(InvalidCategory)
    else if date.None? || Before(today, date.value) then Err(FutureDate)
    else
      TrimIdempotent(description.value, JavaTrim);
      Ok(Expense(id, Trim(description.value, JavaTrim), amount, category.value, date.value))
  }

  /** `LocalDate.of` accepts the years -999,999,999 to 999,999,999. */
  predicate IsSupportedYear(year: int) {
    -999_999_999 <= year <= 999_999_999
  }

  /** `ExpensePlanner` in `ExpensePlanner.java`. The budget map is keyed by
      the category itself rather than by its name. */
  class ExpensePlanner {
    var expenses: seq<Expense>
    var categoryBudgets: map<Category, real>
    var monthlyBudget: real

    ghost predicate Valid()
      reads this
    {
      && BudgetsWellFormed(categoryBudgets)
      && monthlyBudget >= 0.0
      && (forall e :: e in expenses ==> WellFormed(e, JavaTrim))
      && DistinctIds(expenses)
    }

    constructor ()
      ensures Valid()
      ensures expenses == [] && monthlyBudget == 0.0
      ensures forall c: Category :: c in categoryBudgets && categoryBudgets[c] == 0.0
    {
      expenses := [];
      categoryBudgets := map[];
      monthlyBudget := 0.0;
      new;
      InitializeCategoryBudgets();
    }

    /** `initializeCategoryBudgets`: one 0.0 entry per category. */
    method InitializeCategoryBudgets()
      modifies this`categoryBudgets
      ensures forall c: Category :: c in categoryBudgets && categoryBudgets[c] == 0.0
    {
      for i := 0 to |AllCategories|
        invariant forall j :: 0 <= j < i ==> AllCategories[j] in categoryBudgets
                                             && categoryBudgets[AllCategories[j]] == 0.0
      {
        categoryBudgets := categoryBudgets[AllCategories[i] := 0.0];
      }
      forall c: Category ensures c in categoryBudgets && categoryBudgets[c] == 0.0 {
        EveryCategoryListed(c);
      }
    }

    /** `addExpense`: validates, then appends one expense; a failed check
        leaves the list as it was. `freshId` stands for the `UUID` the
        `Expense` constructor draws. */
    method AddExpense(description: Option<string>, amount: real, category: Option<Category>,
                      date: Option<Date>, today: Date, freshId: string) returns (r: Outcome<Error>)
      requires Valid()
      requires freshId != [] && forall e :: e in expenses ==> e.id != freshId
      modifies this`expenses
      ensures Valid()
      ensures var made := CheckNewExpense(freshId, description, amount, category, date, today);
              && (r.Pass? <==> made.Ok?)
              && (r.Pass? ==> expenses == old(expenses) + [made.value])
              && (r.Fail? ==> r.error == made.error && expenses == old(expenses))
    {
      var made := CheckNewExpense(freshId, description, amount, category, date, today);
      if made.Err? {
        return Fail(made.error);
      }
      DistinctIdsSnoc(expenses, made.value);
      expenses := expenses + [made.value];
      r := Pass;
    }

    /** `removeExpense`: a null or blank id is an error; otherwise `removeIf`
        drops every expense with that id and reports whether any was dropped. */
    method RemoveExpense(id: Option<string>) returns (r: Result<bool, Error>)
      requires Valid()
      modifies this`expenses
      ensures Valid()
      ensures id.None? || IsBlank(id.value, JavaTrim) ==> r == Err(EmptyId) && expenses == old(expenses)
      ensures id.Some? && !IsBlank(id.value, JavaTrim)
              ==> && expenses == Select(old(expenses), IdOtherThan(id.value))
                  && r == Ok(exists e :: e in old(expenses) && e.id == id.value)
      ensures r == Ok(true) ==> |expenses| == |old(expenses)| - 1
      ensures r.Ok? ==> forall e :: e in expenses ==> e.id != id.value
    {
      if id.None? || IsBlank(id.value, JavaTrim) {
        return Err(EmptyId);
      }
      var target := id.value;
      var before := expenses;
      SelectShrinks(expenses, IdOtherThan(target));
      SelectMembers(expenses, IdOtherThan(target));
      SelectKeepsDistinct(expenses, IdOtherThan(target));
      if exists e :: e in expenses && e.id == target {
        RemoveUniqueId(expenses, target);
      }
      expenses := Select(expenses, IdOtherThan(target));
      r := Ok(|expenses| < |before|);
    }

    /** `setMonthlyBudget`. */
    method SetMonthlyBudget(budget: real) returns (r: Outcome<Error>)
      requires Valid()
      modifies this`monthlyBudget
      ensures Valid()
      ensures budget < 0.0 ==> r == Fail(NegativeBudget) && monthlyBudget == old(monthlyBudget)
      ensures budget >= 0.0 ==> r == Pass && monthlyBudget == budget
    {
      if budget < 0.0 {
        return Fail(NegativeBudget);
      }
      monthlyBudget := budget;
      r := Pass;
    }

    /** `setCategoryBudget`: only the targeted category's entry changes. */
    method SetCategoryBudget(category: Option<Category>, budget: real) returns (r: Outcome<Error>)
      requires Valid()
      modifies this`categoryBudgets
      ensures Valid()
      ensures category.None? ==> r == Fail(InvalidCategory) && categoryBudgets == old(categoryBudgets)
      ensures category.Some? && budget < 0.0
              ==> r == Fail(NegativeBudget) && categoryBudgets == old(categoryBudgets)
      ensures category.Some? && budget >= 0.0
              ==> r == Pass && categoryBudgets == old(categoryBudgets)[category.value := budget]
    {
      if category.None? {
        return Fail(InvalidCategory);
      }
      if budget < 0.0 {
        return Fail(NegativeBudget);
      }
      categoryBudgets := categoryBudgets[category.value := budget];
      r := Pass;
    }

    /** `getTotalExpenses`: the sum over the expenses dated within the
        inclusive range. */
    function GetTotalExpenses(start: Option<Date>, end: Option<Date>): (r: Result<real, Error>)
      reads this
      requires Valid()
      ensures start.None? || end.None? ==> r == Err(MissingDate)
      ensures start.Some? && end.Some? && Before(end.value, start.value) ==> r == Err(RangeInverted)
      ensures start.Some? && end.Some? && !Before(end.value, start.value)
              ==> r == Ok(Sum(Select(expenses, DatedWithin(start.value, end.value))))
      ensures r.Ok? ==> r.value >= 0.0
      ensures r.Ok? && (forall e :: e in expenses ==> !Within(e.date, start.value, end.value))
              ==> r.value == 0.0
    {
      if start.None? || end.None? then Err(MissingDate)
      else if Before(end.value, start.value) then Err(RangeInverted)
      else
        var inRange := Select(expenses, DatedWithin(start.value, end.value));
        SelectMembers(expenses, DatedWithin(start.value, end.value));
        SumOfPositives(inRange);
        assert (forall e :: e in expenses ==> !Within(e.date, start.value, end.value)) ==> inRange == [] by {
          if forall e :: e in expenses ==> !Within(e.date, start.value, end.value) {
            SelectNone(expenses, DatedWithin(start.value, end.value));
          }
        }
        Ok(Sum(inRange))
    }

    /** `getExpensesByCategory`: the category's expenses in insertion order. */
    function GetExpensesByCategory(category: Option<Category>): (r: Result<seq<Expense>, Error>)
      reads this
      ensures r.Err? <==> category.None?
      ensures r.Err? ==> r.error == InvalidCategory
      ensures r.Ok? ==> r.value == Select(expenses, OfCategory(category.value))
      ensures r.Ok? ==> forall e :: e in r.value <==> e in expenses && e.category == category.value
    {
      if category.None? then Err(InvalidCategory)
      else
        SelectMembers(expenses, OfCategory(category.value));
        Ok(Select(expenses, OfCategory(category.value)))
    }

    /** `getRemainingMonthlyBudget`: the monthly budget minus what was spent
        from the 1st to the month's last day; negative when over budget. */
    function GetRemainingMonthlyBudget(year: int, month: int): (r: Result<real, Error>)
      reads this
      requires Valid()
      ensures !(1 <= month <= 12) ==> r == Err(MonthOutOfRange)
      ensures 1 <= month <= 12 && !IsSupportedYear(year) ==> r == Err(YearOutOfRange)
      ensures 1 <= month <= 12 && IsSupportedYear(year)
              ==> r == Ok(monthlyBudget - Sum(Select(expenses, InMonth(year, month))))
    {
      if !(1 <= month <= 12) then Err(MonthOutOfRange)
      else if !IsSupportedYear(year) then Err(YearOutOfRange)
      else
        var startDate := FirstOfMonth(year, month);
        var endDate := LastOfMonth(year, month);
        assert forall e: Expense :: Matches(e, DatedWithin(startDate, endDate)) <==> Matches(e, InMonth(year, month)) by {
          forall e: Expense ensures Matches(e, DatedWithin(startDate, endDate)) <==> Matches(e, InMonth(year, month)) {
            MonthWindow(e.date, year, month);
          }
        }
        SelectSame(expenses, DatedWithin(startDate, endDate), InMonth(year, month));
        var total := GetTotalExpenses(Some(startDate), Some(endDate));
        Ok(monthlyBudget - total.value)
    }

    /** `isCategoryBudgetExceeded`: a budget of 0 means unset and is never
        exceeded; otherwise the category's all-time spend must be strictly
        greater than the budget. */
    function IsCategoryBudgetExceeded(category: Option<Category>): (r: Result<bool, Error>)
      reads this
      requires Valid()
      ensures r.Err? <==> category.None?
      ensures r.Err? ==> r.error == InvalidCategory
      ensures r.Ok? && categoryBudgets[category.value] == 0.0 ==> !r.value
      ensures r.Ok? && categoryBudgets[category.value] != 0.0
              ==> (r.value <==> CategorySpend(expenses, category.value) > categoryBudgets[category.value])
      ensures r.Ok? ==> r.value == OverBudget(expenses, category.value, categoryBudgets[category.value])
    {
      if category.None? then Err(InvalidCategory)
      else
        var budget := categoryBudgets[category.value];
        if budget == 0.0 then Ok(false)
        else
          var spent := Sum(GetExpensesByCategory(category).value);
          Ok(spent > budget)
    }

    /** `getCategoryStatistics`: `groupingBy` category with `summingDouble`
        over the expenses within the inclusive range; the order of the bounds
        is not checked, and an inverted range gives an empty map. */
    function GetCategoryStatistics(start: Option<Date>, end: Option<Date>)
      : (r: Result<map<Category, real>, Error>)
      reads this
      ensures start.None? || end.None? ==> r == Err(MissingDate)
      ensures r.Ok? ==> forall c :: c in r.value
                                    <==> exists e :: e in expenses && Within(e.date, start.value, end.value)
                                                     && e.category == c
      ensures r.Ok? ==> forall c :: c in r.value
                                    ==> r.value[c] == CategorySpend(Select(expenses, DatedWithin(start.value, end.value)), c)
      ensures r.Ok? ==> MapTotal(r.value, AllCategories)
                        == Sum(Select(expenses, DatedWithin(start.value, end.value)))
      ensures r.Ok? && Before(end.value, start.value) ==> r.value == map[]
    {
      if start.None? || end.None? then Err(MissingDate)
      else
        StatisticsAddUpToTotal(expenses, start.value, end.value);
        forall c | c in Statistics(expenses, start.value, end.value)
          ensures Statistics(expenses, start.value, end.value)[c]
                  == CategorySpend(Select(expenses, DatedWithin(start.value, end.value)), c)
        {
          StatisticsValue(expenses, start.value, end.value, c);
        }
        assert Before(end.value, start.value) ==> Statistics(expenses, start.value, end.value) == map[] by {
          if Before(end.value, start.value) {
            StatisticsOfInvertedRange(expenses, start.value, end.value);
          }
        }
        Ok(Statistics(expenses, start.value, end.value))
    }

    /** `getTopExpenses`: the first `limit` expenses of a stable sort by
        decreasing amount. */
    function GetTopExpenses(limit: int): (r: Result<seq<Expense>, Error>)
      reads this
      ensures r.Err? <==> limit <= 0
      ensures r.Err? ==> r.error == NonPositiveLimit
      ensures r.Ok? ==> |r.value| == if limit < |expenses| then limit else |expenses|
      ensures r.Ok? ==> r.value == SortByAmountDesc(expenses)[..|r.value|]
      ensures r.Ok? ==> SortedDesc(r.value) && multiset(r.value) <= multiset(expenses)
      ensures r.Ok? ==> forall e, i :: e in multiset(expenses) - multiset(r.value) && 0 <= i < |r.value|
                                       ==> e.amount <= r.value[i].amount
    {
      TopExpenses(expenses, limit)
    }

    /** `getAllExpenses`: the list as stored, every entry validated. */
    function GetAllExpenses(): (r: seq<Expense>)
      reads this
      requires Valid()
      ensures r == expenses
      ensures DistinctIds(r) && forall e :: e in r ==> WellFormed(e, JavaTrim)
    {
      expenses
    }

    /** `getCategoryBudget`: defined for every category, never negative. */
    function GetCategoryBudget(category: Category): (r: real)
      reads this
      requires Valid()
      ensures r == categoryBudgets[category] && r >= 0.0
    {
      categoryBudgets[category]
    }
  }
}
