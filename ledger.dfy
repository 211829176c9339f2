/** The entities both implementations share, the filters and sums their
    queries are built from, and the facts about them that the planners' queries
    rely on. */
module Ledger {
  import opened Dates
  import opened Text

  datatype Category = Food | Transport | Entertainment | Utilities | Health | Education | Other

  /** The enum's members in declaration order (`for category in Category`,
      `Category.values()`). */
  const AllCategories: seq<Category> := [Food, Transport, Entertainment, Utilities, Health, Education, Other]

  lemma EveryCategoryListed(c: Category)
    ensures c in AllCategories
  {
  }

  predicate NoRepeats(cats: seq<Category>) {
    forall i, j :: 0 <= i < j < |cats| ==> cats[i] != cats[j]
  }

  /** The enum lists each member once. */
  lemma AllCategoriesDistinct()
    ensures NoRepeats(AllCategories)
  {
  }

  /** One recorded expense. Its fields never change once it is created. */
  datatype Expense = Expense(id: string, description: string, amount: real, category: Category, date: Date)

  /** The validation errors the planners raise. */
  datatype Error =
    | EmptyDescription
    | NonPositiveAmount
    | InvalidCategory
    | FutureDate
    | EmptyId
    | NegativeBudget
    | MissingDate
    | RangeInverted
    | MonthOutOfRange
    | YearOutOfRange
    | DayOutOfRange
    | NonPositiveLimit

  /** What validation guarantees of every stored expense, under the
      implementation's own whitespace rule. */
  predicate WellFormed(e: Expense, ws: Whitespace) {
    e.id != [] && e.description != [] && Trim(e.description, ws) == e.description && e.amount > 0.0
  }

  predicate DistinctIds(s: seq<Expense>) {
    forall i, j :: 0 <= i < j < |s| ==> s[i].id != s[j].id
  }

  /** The conditions the queries filter expenses by. */
  datatype Criterion =
    | DatedWithin(lo: Date, hi: Date)
    | OfCategory(category: Category)
    | IdOtherThan(id: string)
    | AmountEquals(amount: real)
    | InMonth(year: int, month: int)

  predicate Matches(e: Expense, k: Criterion) {
    match k
    case DatedWithin(lo, hi) => Within(e.date, lo, hi)
    case OfCategory(c) => e.category == c
    case IdOtherThan(id) => e.id != id
    case AmountEquals(a) => e.amount == a
    case InMonth(y, m) => e.date.year == y && e.date.month == m
  }

  /** The expenses of `s` that match `k`, in their original order: a list
      comprehension with a condition, a stream `filter`. */
  function Select(s: seq<Expense>, k: Criterion): (r: seq<Expense>)
    ensures |r| <= |s|
  {
    if s == [] then []
    else
      var init := Select(s[..|s| - 1], k);
      if Matches(s[|s| - 1], k) then init + [s[|s| - 1]] else init
  }

  /** Sum of the amounts, accumulated from the first expense to the last. */
  function Sum(s: seq<Expense>): real {
    if s == [] then 0.0 else Sum(s[..|s| - 1]) + s[|s| - 1].amount
  }

  /** `Select` keeps exactly the matching expenses. */
  lemma {:induction false} SelectMembers(s: seq<Expense>, k: Criterion)
    ensures forall e :: e in Select(s, k) <==> e in s && Matches(e, k)
    decreases |s|
  {
    if s != [] {
      var s' := s[..|s| - 1];
      assert s == s' + [s[|s| - 1]];
      SelectMembers(s', k);
    }
  }

  lemma SelectSnoc(s: seq<Expense>, x: Expense, k: Criterion)
    ensures Select(s + [x], k) == if Matches(x, k) then Select(s, k) + [x] else Select(s, k)
  {
    assert (s + [x])[..|s|] == s;
  }

  lemma SumSnoc(s: seq<Expense>, x: Expense)
    ensures Sum(s + [x]) == Sum(s) + x.amount
  {
    assert (s + [x])[..|s|] == s;
  }

  /** Filtering distributes over concatenation: together with the one-element
      cases this says `Select` keeps matching expenses in their original order. */
  lemma {:induction false} SelectAppend(a: seq<Expense>, b: seq<Expense>, k: Criterion)
    ensures Select(a + b, k) == Select(a, k) + Select(b, k)
    decreases |b|
  {
    if b == [] {
      assert a + b == a;
    } else {
      var b' := b[..|b| - 1];
      var x := b[|b| - 1];
      assert a + b == (a + b') + [x];
      SelectAppend(a, b', k);
      SelectSnoc(a + b', x, k);
      assert b == b' + [x];
      SelectSnoc(b', x, k);
      if Matches(x, k) {
        calc {
          Select(a + b, k);
          Select(a + b', k) + [x];
          (Select(a, k) + Select(b', k)) + [x];
          Select(a, k) + (Select(b', k) + [x]);
          Select(a, k) + Select(b, k);
        }
      }
    }
  }

  lemma {:induction false} SumAppend(a: seq<Expense>, b: seq<Expense>)
    ensures Sum(a + b) == Sum(a) + Sum(b)
    decreases |b|
  {
    if b == [] {
      assert a + b == a;
    } else {
      var b' := b[..|b| - 1];
      var x := b[|b| - 1];
      assert b == b' + [x];
      assert a + b == (a + b') + [x];
      SumAppend(a, b');
      SumSnoc(a + b', x);
      SumSnoc(b', x);
    }
  }

  lemma SelectNone(s: seq<Expense>, k: Criterion)
    requires forall e :: e in s ==> !Matches(e, k)
    ensures Select(s, k) == []
  {
    SelectMembers(s, k);
  }

  lemma {:induction false} SelectAll(s: seq<Expense>, k: Criterion)
    requires forall e :: e in s ==> Matches(e, k)
    ensures Select(s, k) == s
    decreases |s|
  {
    if s != [] {
      var s' := s[..|s| - 1];
      assert s == s' + [s[|s| - 1]];
      SelectAll(s', k);
      SelectSnoc(s', s[|s| - 1], k);
    }
  }

  /** Filtering drops something exactly when some expense fails the criterion:
      `len(after) < len(before)` is "an expense matched the removed id". */
  lemma {:induction false} SelectShrinks(s: seq<Expense>, k: Criterion)
    ensures |Select(s, k)| < |s| <==> exists e :: e in s && !Matches(e, k)
    decreases |s|
  {
    if s != [] {
      var s' := s[..|s| - 1];
      var x := s[|s| - 1];
      assert s == s' + [x];
      SelectShrinks(s', k);
      SelectSnoc(s', x, k);
      if exists e :: e in s' && !Matches(e, k) {
        var e :| e in s' && !Matches(e, k);
        assert e in s;
      }
    }
  }

  /** Criteria that agree on every expense select the same expenses. */
  lemma {:induction false} SelectSame(s: seq<Expense>, k1: Criterion, k2: Criterion)
    requires forall e :: Matches(e, k1) <==> Matches(e, k2)
    ensures Select(s, k1) == Select(s, k2)
    decreases |s|
  {
    if s != [] {
      var s' := s[..|s| - 1];
      assert s == s' + [s[|s| - 1]];
      SelectSame(s', k1, k2);
      SelectSnoc(s', s[|s| - 1], k1);
      SelectSnoc(s', s[|s| - 1], k2);
    }
  }

  lemma DistinctIdsSnoc(s: seq<Expense>, x: Expense)
    ensures DistinctIds(s + [x]) <==> DistinctIds(s) && forall e :: e in s ==> e.id != x.id
  {
    var t := s + [x];
    if DistinctIds(t) {
      forall e | e in s ensures e.id != x.id {
        var i :| 0 <= i < |s| && s[i] == e;
        assert t[i] == e && t[|s|] == x;
      }
      forall i, j | 0 <= i < j < |s| ensures s[i].id != s[j].id {
        assert t[i] == s[i] && t[j] == s[j];
      }
    }
    if DistinctIds(s) && forall e :: e in s ==> e.id != x.id {
      forall i, j | 0 <= i < j < |t| ensures t[i].id != t[j].id {
        if j == |s| {
          assert t[i] == s[i];
        } else {
          assert t[i] == s[i] && t[j] == s[j];
        }
      }
    }
  }

  /** Filtering never introduces two expenses with the same id. */
  lemma {:induction false} SelectKeepsDistinct(s: seq<Expense>, k: Criterion)
    requires DistinctIds(s)
    ensures DistinctIds(Select(s, k))
    decreases |s|
  {
    if s != [] {
      var s' := s[..|s| - 1];
      var x := s[|s| - 1];
      assert s == s' + [x];
      DistinctIdsSnoc(s', x);
      SelectKeepsDistinct(s', k);
      SelectMembers(s', k);
      SelectSnoc(s', x, k);
      DistinctIdsSnoc(Select(s', k), x);
    }
  }

  /** With unique ids, removing an id that is present removes exactly one expense. */
  lemma {:induction false} RemoveUniqueId(s: seq<Expense>, id: string)
    requires DistinctIds(s)
    requires exists e :: e in s && e.id == id
    ensures |Select(s, IdOtherThan(id))| == |s| - 1
    decreases |s|
  {
    var s' := s[..|s| - 1];
    var x := s[|s| - 1];
    assert s == s' + [x];
    DistinctIdsSnoc(s', x);
    SelectSnoc(s', x, IdOtherThan(id));
    if x.id == id {
      SelectAll(s', IdOtherThan(id));
    } else {
      var e :| e in s && e.id == id;
      assert e in s';
      RemoveUniqueId(s', id);
    }
  }

  /** Sums of positive amounts are non-negative, and positive when non-empty. */
  lemma {:induction false} SumOfPositives(s: seq<Expense>)
    requires forall e :: e in s ==> e.amount > 0.0
    ensures Sum(s) >= 0.0
    ensures s != [] ==> Sum(s) > 0.0
    decreases |s|
  {
    if s != [] {
      var s' := s[..|s| - 1];
      assert s == s' + [s[|s| - 1]];
      SumOfPositives(s');
    }
  }

  /** If every amount is below `b`, the sum is below `|s| * b`. */
  lemma {:induction false} SumBelow(s: seq<Expense>, b: real)
    requires s != []
    requires forall e :: e in s ==> e.amount < b
    ensures Sum(s) < |s| as real * b
    decreases |s|
  {
    var s' := s[..|s| - 1];
    assert s == s' + [s[|s| - 1]];
    if s' != [] {
      SumBelow(s', b);
      assert Sum(s) < (|s| - 1) as real * b + b;
    }
  }

  /** If every amount is above `b`, the sum is above `|s| * b`. */
  lemma {:induction false} SumAbove(s: seq<Expense>, b: real)
    requires s != []
    requires forall e :: e in s ==> e.amount > b
    ensures Sum(s) > |s| as real * b
    decreases |s|
  {
    var s' := s[..|s| - 1];
    assert s == s' + [s[|s| - 1]];
    if s' != [] {
      SumAbove(s', b);
      assert Sum(s) > (|s| - 1) as real * b + b;
    }
  }

  /** `total / count if count else 0`: the mean, taken as 0 for no items. */
  function Average(total: real, count: nat): (r: real)
    ensures count == 0 ==> r == 0.0
    ensures count > 0 ==> count as real * r == total
  {
    if count == 0 then 0.0 else total / count as real
  }

  /** Where `b` is the average of a non-empty list, some amount is at least `b`. */
  lemma {:induction false} SomeAmountAtLeast(s: seq<Expense>, b: real)
    requires s != [] && |s| as real * b == Sum(s)
    ensures exists e :: e in s && e.amount >= b
  {
    if forall e :: e in s ==> e.amount < b {
      SumBelow(s, b);
    }
  }

  /** Where `b` is the average of a non-empty list, some amount is at most `b`. */
  lemma {:induction false} SomeAmountAtMost(s: seq<Expense>, b: real)
    requires s != [] && |s| as real * b == Sum(s)
    ensures exists e :: e in s && e.amount <= b
  {
    if forall e :: e in s ==> e.amount > b {
      SumAbove(s, b);
    }
  }

  // ---- Per-category statistics ----

  function CategoriesOf(t: seq<Expense>): set<Category> {
    set e | e in t :: e.category
  }

  /** Groups `t` by category and sums each group, one expense at a time:
      the loop that fills a dict with `get(c, 0.0) + amount`, or
      `groupingBy` with `summingDouble`. */
  function Grouped(t: seq<Expense>): (r: map<Category, real>)
    ensures r.Keys == CategoriesOf(t)
  {
    if t == [] then map[]
    else
      var t', x := t[..|t| - 1], t[|t| - 1];
      assert t == t' + [x];
      CategoriesOfSnoc(t', x);
      AddTo(Grouped(t'), x.category, x.amount)
  }

  /** The statistics for an inclusive date range. A category is a key exactly
      when some expense of it falls in the range, and its value is what was
      spent in that category within the range. */
  function Statistics(s: seq<Expense>, lo: Date, hi: Date): (r: map<Category, real>)
    ensures forall c :: c in r <==> exists e :: e in s && Within(e.date, lo, hi) && e.category == c
  {
    var t := Select(s, DatedWithin(lo, hi));
    SelectMembers(s, DatedWithin(lo, hi));
    Grouped(t)
  }

  /** Each category's statistic is what was spent in it within the range. */
  lemma StatisticsValue(s: seq<Expense>, lo: Date, hi: Date, c: Category)
    requires c in Statistics(s, lo, hi)
    ensures Statistics(s, lo, hi)[c] == CategorySpend(Select(s, DatedWithin(lo, hi)), c)
  {
    GroupedValue(Select(s, DatedWithin(lo, hi)), c);
  }

  lemma CategoriesOfSnoc(t: seq<Expense>, x: Expense)
    ensures CategoriesOf(t + [x]) == CategoriesOf(t) + {x.category}
  {
    forall c | c in CategoriesOf(t + [x]) ensures c in CategoriesOf(t) + {x.category} {
      var e :| e in t + [x] && e.category == c;
      if e != x {
        assert e in t;
      }
    }
    forall c | c in CategoriesOf(t) ensures c in CategoriesOf(t + [x]) {
      var e :| e in t && e.category == c;
      assert e in t + [x];
    }
    assert x in t + [x];
  }

  /** Adding `amount` to category `c`'s entry, starting from 0.0 when absent:
      `statistics[c] = statistics.get(c, 0.0) + amount`. */
  function AddTo(m: map<Category, real>, c: Category, amount: real): map<Category, real> {
    m[c := (if c in m then m[c] else 0.0) + amount]
  }

  /** One more expense adds its amount to its own category's total and
      leaves the other categories' totals alone. */
  lemma CategorySpendSnoc(t: seq<Expense>, x: Expense, c: Category)
    ensures CategorySpend(t + [x], c)
            == if c == x.category then CategorySpend(t, c) + x.amount else CategorySpend(t, c)
  {
    SelectSnoc(t, x, OfCategory(c));
    if c == x.category {
      SumSnoc(Select(t, OfCategory(c)), x);
    }
  }

  /** A category that does not occur has nothing spent in it. */
  lemma CategorySpendAbsent(t: seq<Expense>, c: Category)
    requires c !in CategoriesOf(t)
    ensures CategorySpend(t, c) == 0.0
  {
    SelectNone(t, OfCategory(c));
  }

  /** One more expense adds its amount to its own category's entry,
      creating the entry at 0.0 first when the category had none. */
  lemma GroupedSnoc(t: seq<Expense>, x: Expense)
    ensures Grouped(t + [x]) == AddTo(Grouped(t), x.category, x.amount)
  {
    assert (t + [x])[..|t|] == t;
  }

  /** Each category's entry is the total spent in that category. */
  lemma {:induction false} GroupedValue(t: seq<Expense>, c: Category)
    requires c in Grouped(t)
    ensures Grouped(t)[c] == CategorySpend(t, c)
    decreases |t|
  {
    var t', x := t[..|t| - 1], t[|t| - 1];
    assert t == t' + [x];
    CategorySpendSnoc(t', x, c);
    if c in Grouped(t') {
      GroupedValue(t', c);
    } else {
      CategorySpendAbsent(t', c);
    }
  }

  /** What one loop iteration over `x` does to the statistics. */
  lemma StatisticsSnoc(s: seq<Expense>, x: Expense, lo: Date, hi: Date)
    ensures Statistics(s + [x], lo, hi)
            == if Within(x.date, lo, hi) then AddTo(Statistics(s, lo, hi), x.category, x.amount)
               else Statistics(s, lo, hi)
  {
    SelectSnoc(s, x, DatedWithin(lo, hi));
    GroupedSnoc(Select(s, DatedWithin(lo, hi)), x);
  }

  /** An inverted range gives empty statistics. */
  lemma StatisticsOfInvertedRange(s: seq<Expense>, lo: Date, hi: Date)
    requires Before(hi, lo)
    ensures Statistics(s, lo, hi) == map[]
  {
    forall e | e in s ensures !Within(e.date, lo, hi) {
      EmptyWindow(e.date, lo, hi);
    }
  }

  /** The sum of a map's values over a list of categories, absent keys as 0. */
  function MapTotal(m: map<Category, real>, cats: seq<Category>): real {
    if cats == [] then 0.0
    else (if cats[0] in m then m[cats[0]] else 0.0) + MapTotal(m, cats[1..])
  }

  function SumByCategory(t: seq<Expense>, cats: seq<Category>): real {
    if cats == [] then 0.0
    else Sum(Select(t, OfCategory(cats[0]))) + SumByCategory(t, cats[1..])
  }

  lemma {:induction false} SumByCategoryOfNothing(cats: seq<Category>)
    ensures SumByCategory([], cats) == 0.0
    decreases |cats|
  {
    if cats != [] {
      SumByCategoryOfNothing(cats[1..]);
    }
  }

  lemma {:induction false} SumByCategorySnoc(t: seq<Expense>, x: Expense, cats: seq<Category>)
    requires NoRepeats(cats)
    ensures SumByCategory(t + [x], cats)
            == SumByCategory(t, cats) + if x.category in cats then x.amount else 0.0
    decreases |cats|
  {
    if cats != [] {
      var c := cats[0];
      assert NoRepeats(cats[1..]);
      SumByCategorySnoc(t, x, cats[1..]);
      SelectSnoc(t, x, OfCategory(c));
      if c == x.category {
        SumSnoc(Select(t, OfCategory(c)), x);
        assert x.category !in cats[1..];
      }
      assert x.category in cats <==> c == x.category || x.category in cats[1..];
    }
  }

  /** Splitting expenses by category and adding up the parts gives the whole. */
  lemma {:induction false} SumByAllCategories(t: seq<Expense>)
    ensures SumByCategory(t, AllCategories) == Sum(t)
    decreases |t|
  {
    if t == [] {
      SumByCategoryOfNothing(AllCategories);
    } else {
      var t' := t[..|t| - 1];
      var x := t[|t| - 1];
      assert t == t' + [x];
      SumByAllCategories(t');
      AllCategoriesDistinct();
      EveryCategoryListed(x.category);
      SumByCategorySnoc(t', x, AllCategories);
    }
  }

  lemma {:induction false} MapTotalOfGrouped(t: seq<Expense>, cats: seq<Category>)
    ensures MapTotal(Grouped(t), cats) == SumByCategory(t, cats)
    decreases |cats|
  {
    if cats != [] {
      MapTotalOfGrouped(t, cats[1..]);
      var c := cats[0];
      if c in Grouped(t) {
        GroupedValue(t, c);
      } else {
        CategorySpendAbsent(t, c);
      }
    }
  }

  /** The statistics' values add up to the total spent in the same range. */
  lemma StatisticsAddUpToTotal(s: seq<Expense>, lo: Date, hi: Date)
    ensures MapTotal(Statistics(s, lo, hi), AllCategories) == Sum(Select(s, DatedWithin(lo, hi)))
  {
    var t := Select(s, DatedWithin(lo, hi));
    MapTotalOfGrouped(t, AllCategories);
    SumByAllCategories(t);
  }

  // ---- Category budgets ----

  /** Every category has an entry, and no entry is negative. */
  predicate BudgetsWellFormed(m: map<Category, real>) {
    forall c: Category :: c in m && m[c] >= 0.0
  }

  /** All-time spending in one category. */
  function CategorySpend(s: seq<Expense>, c: Category): real {
    Sum(Select(s, OfCategory(c)))
  }

  /** The budget-exceeded rule: a budget of exactly 0 means "no budget set". */
  predicate OverBudget(s: seq<Expense>, c: Category, budget: real) {
    budget != 0.0 && CategorySpend(s, c) > budget
  }

  /** Recording another (positive) expense never brings a category back under budget. */
  lemma OverBudgetPersists(s: seq<Expense>, x: Expense, c: Category, budget: real)
    requires x.amount > 0.0
    requires OverBudget(s, c, budget)
    ensures OverBudget(s + [x], c, budget)
  {
    SelectSnoc(s, x, OfCategory(c));
    if x.category == c {
      SumSnoc(Select(s, OfCategory(c)), x);
    }
  }
}
