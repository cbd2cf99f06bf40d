/** The figures the home screen derives from the three stores: the month's
    spending, what is left of the budget and how much of it is used, the five
    categories with the most spending, and the five latest expenses. */
module Home {
  import opened Util
  import opened Calendar
  import opened DateText
  import opened Types
  import opened Expenses
  import opened Subscriptions

  /** `totalSpending`: the month's expenses plus the monthly subscription figure. */
  function TotalSpending(expenses: seq<Expense>, subs: seq<Subscription>, month: string): (r: real)
    ensures subs == [] ==> r == TotalByMonth(expenses, month) as real
    ensures expenses == [] ==> r == MonthlyTotal(subs)
    ensures (forall e :: e in expenses ==> e.amount >= 0) && (forall x :: x in subs ==> x.amount >= 0) ==> r >= 0.0
  {
    TotalByMonth(expenses, month) as real + MonthlyTotal(subs)
  }

  /** An expense raises the month's spending by its amount exactly when it is
      dated in the month; the subscription part is the same for every month. */
  lemma TotalSpendingAppend(expenses: seq<Expense>, subs: seq<Subscription>, month: string, other: string, e: Expense)
    ensures TotalSpending(expenses + [e], subs, month) ==
            TotalSpending(expenses, subs, month) + if month <= e.date then e.amount as real else 0.0
    ensures TotalSpending(expenses, subs, month) - TotalSpending(expenses, subs, other) ==
            (TotalByMonth(expenses, month) - TotalByMonth(expenses, other)) as real
  {
    TotalByMonthAppend(expenses, e, month);
  }

  /** `budget?.totalBudget || 0`. */
  function BudgetTotal(budget: Option<Budget>): int
  {
    if budget.Some? then budget.value.totalBudget else 0
  }

  /** `budgetRemaining`: the budget (zero without one) less the spending; it may be negative. */
  function BudgetRemaining(budget: Option<Budget>, spending: real): (r: real)
    ensures r + spending == BudgetTotal(budget) as real
    ensures budget.None? ==> r == -spending
  {
    BudgetTotal(budget) as real - spending
  }

  /** `budgetProgress`: the percentage of the budget spent, guarded against a
      missing or zero budget. */
  function BudgetProgress(budget: Option<Budget>, spending: real): (r: real)
    ensures BudgetTotal(budget) == 0 ==> r == 0.0
    ensures BudgetTotal(budget) != 0 ==> r * BudgetTotal(budget) as real == spending * 100.0
  {
    if budget.Some? && budget.value.totalBudget != 0 then
      spending / budget.value.totalBudget as real * 100.0
    else
      0.0
  }

  /** With a positive budget, the progress reaches 100 exactly when nothing
      remains, and it is 0 exactly when nothing is spent. */
  lemma ProgressMatchesRemaining(budget: Option<Budget>, spending: real)
    requires BudgetTotal(budget) > 0
    ensures BudgetProgress(budget, spending) >= 100.0 <==> BudgetRemaining(budget, spending) <= 0.0
    ensures BudgetProgress(budget, spending) == 0.0 <==> spending == 0.0
  {
    var t := BudgetTotal(budget) as real;
    var p := BudgetProgress(budget, spending);
    assert p * t == spending * 100.0;
    if p >= 100.0 {
      assert p * t >= 100.0 * t;
    } else {
      assert p * t < 100.0 * t;
    }
  }

  lemma RemainingExamples(b: Budget)
    requires b.totalBudget == 1000
    ensures BudgetRemaining(Some(b), 1500.0) == -500.0
    ensures BudgetRemaining(None, 1500.0) == -1500.0
    ensures BudgetProgress(Some(b), 1500.0) == 150.0
    ensures BudgetProgress(Some(b.(totalBudget := 0)), 1500.0) == 0.0
  {
  }

  /** A catalogue entry with its spending for the month (`{ ...cat, spent }`). */
  datatype CategorySpending = CategorySpending(category: Category, spent: int)

  /** `DEFAULT_CATEGORIES.map(cat => ({ ...cat, spent: getTotalByCategory(month, cat.type) }))`. */
  function Spending(expenses: seq<Expense>, month: string, cats: seq<Category>): (r: seq<CategorySpending>)
    ensures |r| == |cats|
    ensures forall i :: 0 <= i < |cats| ==>
              r[i] == CategorySpending(cats[i], TotalByCategory(expenses, month, cats[i].categoryType))
  {
    if cats == [] then []
    else [CategorySpending(cats[0], TotalByCategory(expenses, month, cats[0].categoryType))]
         + Spending(expenses, month, cats[1..])
  }

  predicate HasSpending(x: CategorySpending)
  {
    x.spent > 0
  }

  /** Descending order of spending as an ascending key (`(a, b) => b.spent - a.spent`). */
  function SpentKey(x: CategorySpending): int
  {
    -x.spent
  }

  /** The categories with spending, most first, before the cut to five. */
  function RankedCategories(expenses: seq<Expense>, month: string): (r: seq<CategorySpending>)
    ensures SortedBy(r, SpentKey)
    ensures forall x :: x in r <==> x in Spending(expenses, month, Catalogue) && x.spent > 0
    ensures multiset(r) == multiset(Filter(Spending(expenses, month, Catalogue), HasSpending))
  {
    var f := Filter(Spending(expenses, month, Catalogue), HasSpending);
    var r := SortByKey(f, SpentKey);
    SameMembers(r, f);
    r
  }

  /** Every entry of the ranking belongs to the catalogue and carries its category's total. */
  lemma RankedEntries(expenses: seq<Expense>, month: string)
    ensures forall x :: x in RankedCategories(expenses, month) ==>
              x.spent > 0 && x.category in Catalogue && x.spent == TotalByCategory(expenses, month, x.category.categoryType)
  {
    var spending := Spending(expenses, month, Catalogue);
    forall x | x in RankedCategories(expenses, month)
      ensures x.category in Catalogue && x.spent == TotalByCategory(expenses, month, x.category.categoryType)
    {
      var k :| 0 <= k < |spending| && spending[k] == x;
    }
  }

  /** The spending list holds each entry once: its categories are the catalogue's, all distinct. */
  lemma SpendingOnce(expenses: seq<Expense>, month: string)
    ensures forall x :: multiset(Spending(expenses, month, Catalogue))[x] <= 1
  {
    var spending := Spending(expenses, month, Catalogue);
    CatalogueListsEachCategoryOnce();
    assert forall i :: 0 <= i < |spending| ==> spending[i].category == Catalogue[i];
    DistinctCount(spending);
  }

  /** The ranking holds each entry at most once. */
  lemma RankedOnce(expenses: seq<Expense>, month: string)
    ensures forall x :: multiset(RankedCategories(expenses, month))[x] <= 1
  {
    var spending := Spending(expenses, month, Catalogue);
    SpendingOnce(expenses, month);
    var f := Filter(spending, HasSpending);
    assert forall x :: multiset(f)[x] <= multiset(spending)[x];
  }

  /** No category is ranked twice. */
  lemma RankedDistinct(expenses: seq<Expense>, month: string)
    ensures var r := RankedCategories(expenses, month);
      forall i, j :: 0 <= i < j < |r| ==> r[i].category != r[j].category
  {
    var r := RankedCategories(expenses, month);
    RankedOnce(expenses, month);
    OnceMeansDistinct(r);
    RankedEntries(expenses, month);
    forall i, j | 0 <= i < j < |r| ensures r[i].category != r[j].category {
      assert r[i] in r && r[j] in r;
    }
  }

  /** `categoryExpenses`: at most five catalogue categories, each with its
      positive total for the month, most spending first. */
  function CategoryExpenses(expenses: seq<Expense>, month: string): (r: seq<CategorySpending>)
    ensures |r| <= 5
    ensures forall x :: x in r ==>
              (x.spent > 0 && x.category in Catalogue &&
               x.spent == TotalByCategory(expenses, month, x.category.categoryType))
    ensures forall i, j :: 0 <= i < j < |r| ==> r[i].spent >= r[j].spent
    ensures forall i, j :: 0 <= i < j < |r| ==> r[i].category != r[j].category
    ensures var n := |Filter(Spending(expenses, month, Catalogue), HasSpending)|;
      |r| == if n < 5 then n else 5
  {
    TopFive(expenses, month);
    Take(RankedCategories(expenses, month), 5)
  }

  /** What `CategoryExpenses` promises, about the first five ranked entries. */
  lemma TopFive(expenses: seq<Expense>, month: string)
    ensures var r := Take(RankedCategories(expenses, month), 5);
      |r| <= 5 &&
      (forall x :: x in r ==>
         (x.spent > 0 && x.category in Catalogue &&
          x.spent == TotalByCategory(expenses, month, x.category.categoryType))) &&
      (forall i, j :: 0 <= i < j < |r| ==> r[i].spent >= r[j].spent) &&
      (forall i, j :: 0 <= i < j < |r| ==> r[i].category != r[j].category) &&
      var n := |Filter(Spending(expenses, month, Catalogue), HasSpending)|;
      |r| == if n < 5 then n else 5
  {
    TopEntries(expenses, month);
    TopOrder(expenses, month);
    TopDistinct(expenses, month);
  }

  /** The first five ranked entries have distinct categories, and there are
      five of them unless fewer categories have spending. */
  lemma TopDistinct(expenses: seq<Expense>, month: string)
    ensures var r := Take(RankedCategories(expenses, month), 5);
      (forall i, j :: 0 <= i < j < |r| ==> r[i].category != r[j].category) &&
      var n := |Filter(Spending(expenses, month, Catalogue), HasSpending)|;
      |r| == if n < 5 then n else 5
  {
    var ranked := RankedCategories(expenses, month);
    RankedDistinct(expenses, month);
    var f := Filter(Spending(expenses, month, Catalogue), HasSpending);
    assert |ranked| == |multiset(ranked)| == |multiset(f)| == |f|;
  }

  /** Each of the first five ranked entries is a ranked entry. */
  lemma TopEntries(expenses: seq<Expense>, month: string)
    ensures forall x :: x in Take(RankedCategories(expenses, month), 5) ==>
              (x.spent > 0 && x.category in Catalogue &&
               x.spent == TotalByCategory(expenses, month, x.category.categoryType))
  {
    RankedEntries(expenses, month);
    TakeMembers(RankedCategories(expenses, month), 5);
  }

  /** The first five ranked entries keep the ranking's order. */
  lemma TopOrder(expenses: seq<Expense>, month: string)
    ensures var r := Take(RankedCategories(expenses, month), 5);
      forall i, j :: 0 <= i < j < |r| ==> r[i].spent >= r[j].spent
  {
    var ranked := RankedCategories(expenses, month);
    TakeSorted(ranked, SpentKey, 5);
    var r := Take(ranked, 5);
    assert forall i, j :: 0 <= i < j < |r| ==> SpentKey(r[i]) <= SpentKey(r[j]);
  }

  /** A category with spending that is not listed is beaten by five listed
      categories: the list is the top five. */
  lemma CategoryExpensesAreTopFive(expenses: seq<Expense>, month: string, i: int)
    requires 0 <= i < |Catalogue|
    requires TotalByCategory(expenses, month, Catalogue[i].categoryType) > 0
    requires CategorySpending(Catalogue[i], TotalByCategory(expenses, month, Catalogue[i].categoryType))
             !in CategoryExpenses(expenses, month)
    ensures |CategoryExpenses(expenses, month)| == 5
    ensures forall x :: x in CategoryExpenses(expenses, month) ==>
              x.spent >= TotalByCategory(expenses, month, Catalogue[i].categoryType)
  {
    var x := CategorySpending(Catalogue[i], TotalByCategory(expenses, month, Catalogue[i].categoryType));
    assert Spending(expenses, month, Catalogue)[i] == x;
    TakeOfSortedIsSmallest(RankedCategories(expenses, month), SpentKey, 5, x);
  }

  /** `new Date(date).getTime()` at day granularity: the day number of a
      `yyyy-MM-dd` text naming a real day, and 0 for any other text. */
  function DateKey(date: string): int
  {
    match ParseDate(date)
    case Some(d) => if IsValid(d) then DayNumber(d) else 0
    case None => 0
  }

  /** On the texts the entry screen writes, the key is the day number, so it
      orders dates as the calendar does. */
  lemma DateKeyOfFormatted(a: ValidDate, b: ValidDate)
    requires FourDigitYear(a) && FourDigitYear(b)
    ensures DateKey(FormatDate(a)) == DayNumber(a)
    ensures DateKey(FormatDate(a)) < DateKey(FormatDate(b)) <==> Before(a, b)
  {
    ParseFormat(a);
    ParseFormat(b);
    DayNumberOrder(a, b);
  }

  /** Descending order of date as an ascending key. */
  function LatestFirstKey(e: Expense): int
  {
    -DateKey(e.date)
  }

  /** `[...expenses].sort(by date, latest first)`; the stored list itself is untouched. */
  function ByDateDescending(expenses: seq<Expense>): (r: seq<Expense>)
    ensures multiset(r) == multiset(expenses)
    ensures SortedBy(r, LatestFirstKey)
  {
    SortByKey(expenses, LatestFirstKey)
  }

  /** `recentExpenses`: the five latest expenses (fewer if there are fewer), latest first. */
  function RecentExpenses(expenses: seq<Expense>): (r: seq<Expense>)
    ensures |r| == if |expenses| < 5 then |expenses| else 5
    ensures multiset(r) <= multiset(expenses)
    ensures forall i, j :: 0 <= i < j < |r| ==> DateKey(r[i].date) >= DateKey(r[j].date)
  {
    var sorted := ByDateDescending(expenses);
    TakeIsSubMultiset(sorted, 5);
    Take(sorted, 5)
  }

  /** An expense left out of the recent list is no later than any listed one. */
  lemma RecentExpensesAreLatest(expenses: seq<Expense>, e: Expense)
    requires e in expenses && e !in RecentExpenses(expenses)
    ensures |RecentExpenses(expenses)| == 5
    ensures forall x :: x in RecentExpenses(expenses) ==> DateKey(x.date) >= DateKey(e.date)
  {
    var sorted := ByDateDescending(expenses);
    assert e in multiset(sorted);
    TakeOfSortedIsSmallest(sorted, LatestFirstKey, 5, e);
  }
}
