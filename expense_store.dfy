/** The expense ledger: the record list, its by-id actions, and the month and
    category queries the screens total. */
module Expenses {
  import opened Util
  import opened Types

  /** `expense.date.startsWith(month)`. */
  predicate InMonth(month: string, e: Expense)
  {
    month <= e.date
  }

  /** The condition of `getTotalByCategory`: the month's records of one category. */
  predicate InMonthAndCategory(month: string, category: CategoryType, e: Expense)
  {
    month <= e.date && e.category == category
  }

  /** The month's records whose category is one of `cats`. */
  predicate InMonthAndCategories(month: string, cats: seq<CategoryType>, e: Expense)
  {
    month <= e.date && e.category in cats
  }

  function MonthFilter(month: string): Expense -> bool
  {
    e => InMonth(month, e)
  }

  function CategoryFilter(category: CategoryType): Expense -> bool
  {
    (e: Expense) => e.category == category
  }

  function MonthCategoryFilter(month: string, category: CategoryType): Expense -> bool
  {
    e => InMonthAndCategory(month, category, e)
  }

  function MonthCategoriesFilter(month: string, cats: seq<CategoryType>): Expense -> bool
  {
    e => InMonthAndCategories(month, cats, e)
  }

  /** `reduce((sum, e) => sum + e.amount, 0)`: a left fold, so the last record is added last. */
  function SumAmounts(es: seq<Expense>): int
  {
    if es == [] then 0 else SumAmounts(es[..|es| - 1]) + es[|es| - 1].amount
  }

  lemma SumAmountsAppend(es: seq<Expense>, e: Expense)
    ensures SumAmounts(es + [e]) == SumAmounts(es) + e.amount
  {
    assert (es + [e])[..|es|] == es;
  }

  /** A filter that keeps nothing sums to zero. */
  lemma SumOfNothing(es: seq<Expense>, p: Expense -> bool)
    requires forall e :: e in es ==> !p(e)
    ensures SumAmounts(Filter(es, p)) == 0
  {
  }

  /** One more record adds its amount to a filtered total exactly when the filter keeps it. */
  lemma SumFilterAppend(es: seq<Expense>, e: Expense, p: Expense -> bool)
    ensures SumAmounts(Filter(es + [e], p)) == SumAmounts(Filter(es, p)) + if p(e) then e.amount else 0
  {
    FilterAppend(es, [e], p);
    var kept := Filter(es, p);
    if p(e) {
      assert Filter([e], p) == [e];
      SumAmountsAppend(kept, e);
    } else {
      assert Filter([e], p) == [];
      assert kept + [] == kept;
    }
  }

  /** `getExpensesByMonth`: exactly the records dated in the month, as many
      times as stored; `Filter` keeps them in stored order. */
  function ExpensesByMonth(expenses: seq<Expense>, month: string): (r: seq<Expense>)
    ensures forall e :: multiset(r)[e] == if month <= e.date then multiset(expenses)[e] else 0
  {
    Filter(expenses, MonthFilter(month))
  }

  /** The month's records keep their stored order: the query commutes with concatenation. */
  lemma ExpensesByMonthAppend(s: seq<Expense>, t: seq<Expense>, month: string)
    ensures ExpensesByMonth(s + t, month) == ExpensesByMonth(s, month) + ExpensesByMonth(t, month)
  {
    FilterAppend(s, t, MonthFilter(month));
  }

  /** `getExpensesByCategory`: exactly the records of the category, in stored order. */
  function ExpensesByCategory(expenses: seq<Expense>, category: CategoryType): (r: seq<Expense>)
    ensures forall e :: multiset(r)[e] == if e.category == category then multiset(expenses)[e] else 0
  {
    Filter(expenses, CategoryFilter(category))
  }

  /** `getTotalByMonth`. */
  function TotalByMonth(expenses: seq<Expense>, month: string): (r: int)
    ensures (forall e :: e in expenses ==> !(month <= e.date)) ==> r == 0
    ensures (forall e :: e in expenses ==> e.amount >= 0) ==> r >= 0
  {
    var inMonth := ExpensesByMonth(expenses, month);
    if forall e :: e in expenses ==> e.amount >= 0 then
      SumAmountsNonNegative(inMonth);
      SumAmounts(inMonth)
    else
      SumAmounts(inMonth)
  }

  /** `getTotalByCategory`. */
  function TotalByCategory(expenses: seq<Expense>, month: string, category: CategoryType): (r: int)
    ensures (forall e :: e in expenses ==> !(month <= e.date && e.category == category)) ==> r == 0
    ensures (forall e :: e in expenses ==> e.amount >= 0) ==> r >= 0
  {
    var selected := Filter(expenses, MonthCategoryFilter(month, category));
    if forall e :: e in expenses ==> e.amount >= 0 then
      SumAmountsNonNegative(selected);
      SumAmounts(selected)
    else
      SumAmounts(selected)
  }

  /** With non-negative amounts a sum is non-negative. */
  lemma {:induction false} SumAmountsNonNegative(es: seq<Expense>)
    requires forall e :: e in es ==> e.amount >= 0
    ensures SumAmounts(es) >= 0
  {
    if es != [] {
      SumAmountsNonNegative(es[..|es| - 1]);
    }
  }

  /** With non-negative amounts, no category's total exceeds the month's total. */
  lemma {:induction false} CategoryWithinMonth(expenses: seq<Expense>, month: string, category: CategoryType)
    requires forall e :: e in expenses ==> e.amount >= 0
    ensures TotalByCategory(expenses, month, category) <= TotalByMonth(expenses, month)
    decreases |expenses|
  {
    if expenses != [] {
      var init, e := expenses[..|expenses| - 1], expenses[|expenses| - 1];
      assert expenses == init + [e];
      CategoryWithinMonth(init, month, category);
      TotalByMonthAppend(init, e, month);
      TotalByCategoryAppend(init, e, month, category);
    }
  }

  /** The month's total over the categories in `cats`. */
  function TotalByCategories(expenses: seq<Expense>, month: string, cats: seq<CategoryType>): int
  {
    SumAmounts(Filter(expenses, MonthCategoriesFilter(month, cats)))
  }

  /** An empty ledger totals zero for every month and category. */
  lemma EmptyLedgerTotals(month: string, category: CategoryType)
    ensures TotalByMonth([], month) == 0
    ensures TotalByCategory([], month, category) == 0
  {
  }

  /** One more record raises the month's total by its amount when it is dated
      in the month, and leaves it unchanged otherwise. */
  lemma TotalByMonthAppend(expenses: seq<Expense>, e: Expense, month: string)
    ensures TotalByMonth(expenses + [e], month) ==
            TotalByMonth(expenses, month) + if month <= e.date then e.amount else 0
  {
    SumFilterAppend(expenses, e, MonthFilter(month));
  }

  /** An expense dated 2024-07-01 leaves the 2024-06 total alone. */
  lemma JulyExpenseExample(expenses: seq<Expense>, e: Expense)
    requires e.date == "2024-07-01"
    ensures TotalByMonth(expenses + [e], "2024-06") == TotalByMonth(expenses, "2024-06")
  {
    assert !("2024-06" <= e.date) by {
      assert e.date[6] == '7' && "2024-06"[6] == '6';
    }
    TotalByMonthAppend(expenses, e, "2024-06");
  }

  /** An expense of 500 dated 2024-06-15 raises the 2024-06 total by 500. */
  lemma JuneExpenseExample(expenses: seq<Expense>, e: Expense)
    requires e.date == "2024-06-15" && e.amount == 500
    ensures TotalByMonth(expenses + [e], "2024-06") == TotalByMonth(expenses, "2024-06") + 500
  {
    assert "2024-06" <= e.date by {
      assert e.date[..7] == "2024-06";
    }
    TotalByMonthAppend(expenses, e, "2024-06");
  }

  /** How one more record moves the month's total over `cats`. */
  lemma TotalByCategoriesAppend(expenses: seq<Expense>, e: Expense, month: string, cats: seq<CategoryType>)
    ensures TotalByCategories(expenses + [e], month, cats) ==
            TotalByCategories(expenses, month, cats) + if month <= e.date && e.category in cats then e.amount else 0
  {
    SumFilterAppend(expenses, e, MonthCategoriesFilter(month, cats));
  }

  lemma TotalByCategoryAppend(expenses: seq<Expense>, e: Expense, month: string, c: CategoryType)
    ensures TotalByCategory(expenses + [e], month, c) ==
            TotalByCategory(expenses, month, c) + if month <= e.date && e.category == c then e.amount else 0
  {
    SumFilterAppend(expenses, e, MonthCategoryFilter(month, c));
  }

  /** Splitting off one category from a list of distinct categories splits the total. */
  lemma {:induction false} CategorySplit(expenses: seq<Expense>, month: string, c: CategoryType, cs: seq<CategoryType>)
    requires c !in cs
    ensures TotalByCategories(expenses, month, [c] + cs) ==
            TotalByCategory(expenses, month, c) + TotalByCategories(expenses, month, cs)
    decreases |expenses|
  {
    if expenses == [] {
      SumOfNothing([], MonthCategoriesFilter(month, [c] + cs));
    } else {
      var init, e := expenses[..|expenses| - 1], expenses[|expenses| - 1];
      assert expenses == init + [e];
      CategorySplit(init, month, c, cs);
      CategorySplitStep(init, e, month, c, cs);
    }
  }

  /** The step of `CategorySplit`: one more record keeps the split. */
  lemma CategorySplitStep(init: seq<Expense>, e: Expense, month: string, c: CategoryType, cs: seq<CategoryType>)
    requires c !in cs
    requires TotalByCategories(init, month, [c] + cs) ==
             TotalByCategory(init, month, c) + TotalByCategories(init, month, cs)
    ensures TotalByCategories(init + [e], month, [c] + cs) ==
            TotalByCategory(init + [e], month, c) + TotalByCategories(init + [e], month, cs)
  {
    TotalByCategoriesAppend(init, e, month, [c] + cs);
    TotalByCategoriesAppend(init, e, month, cs);
    TotalByCategoryAppend(init, e, month, c);
    assert e.category in [c] + cs <==> e.category == c || e.category in cs;
  }

  /** Sum of the per-category totals over `cats`. */
  function SumCategoryTotals(expenses: seq<Expense>, month: string, cats: seq<CategoryType>): int
  {
    if cats == [] then 0
    else TotalByCategory(expenses, month, cats[0]) + SumCategoryTotals(expenses, month, cats[1..])
  }

  lemma {:induction false} SumCategoryTotalsIsTotal(expenses: seq<Expense>, month: string, cats: seq<CategoryType>)
    requires forall i, j :: 0 <= i < j < |cats| ==> cats[i] != cats[j]
    ensures SumCategoryTotals(expenses, month, cats) == TotalByCategories(expenses, month, cats)
  {
    if cats == [] {
      SumOfNothing(expenses, MonthCategoriesFilter(month, cats));
    } else {
      assert cats == [cats[0]] + cats[1..];
      assert cats[0] !in cats[1..] by {
        forall k | 0 <= k < |cats[1..]| ensures cats[1..][k] != cats[0] {
          assert cats[1..][k] == cats[k + 1];
        }
      }
      SumCategoryTotalsIsTotal(expenses, month, cats[1..]);
      CategorySplit(expenses, month, cats[0], cats[1..]);
    }
  }

  /** Filters that agree on every record keep the same records. */
  lemma {:induction false} FilterAgree(es: seq<Expense>, p: Expense -> bool, q: Expense -> bool)
    requires forall e :: p(e) == q(e)
    ensures Filter(es, p) == Filter(es, q)
  {
    if es != [] {
      FilterAgree(es[1..], p, q);
    }
  }

  /** The nine category totals of a month add up to the month's total. */
  lemma CategoryTotalsAddUp(expenses: seq<Expense>, month: string)
    ensures SumCategoryTotals(expenses, month, AllCategoryTypes) == TotalByMonth(expenses, month)
  {
    CategoryTypesAreNine();
    SumCategoryTotalsIsTotal(expenses, month, AllCategoryTypes);
    FilterAgree(expenses, MonthCategoriesFilter(month, AllCategoryTypes), MonthFilter(month));
  }

  /** `Omit<Expense, 'id' | 'createdAt' | 'updatedAt'>`: what `addExpense` receives. */
  datatype ExpenseFields = ExpenseFields(
    amount: int,
    category: CategoryType,
    description: string,
    date: string,
    receiptImage: Option<string>,
    isRecurring: bool)

  /** `Partial<Expense>`: each present key overwrites; `receiptImage: Some(None)`
      is the key present with value `undefined`, which clears it. */
  datatype ExpensePatch = ExpensePatch(
    id: Option<string>,
    amount: Option<int>,
    category: Option<CategoryType>,
    description: Option<string>,
    date: Option<string>,
    receiptImage: Option<Option<string>>,
    isRecurring: Option<bool>,
    createdAt: Option<string>)

  /** `{ ...f, id, createdAt: now, updatedAt: now }`. */
  function NewExpense(f: ExpenseFields, id: string, now: string): Expense
  {
    Expense(id, f.amount, f.category, f.description, f.date, f.receiptImage, f.isRecurring, now, now)
  }

  /** `{ ...e, ...p, updatedAt: now }`. */
  function MergeExpense(e: Expense, p: ExpensePatch, now: string): (r: Expense)
    ensures r.id == (if p.id.Some? then p.id.value else e.id)
    ensures r.amount == (if p.amount.Some? then p.amount.value else e.amount)
    ensures r.category == (if p.category.Some? then p.category.value else e.category)
    ensures r.description == (if p.description.Some? then p.description.value else e.description)
    ensures r.date == (if p.date.Some? then p.date.value else e.date)
    ensures r.receiptImage == (if p.receiptImage.Some? then p.receiptImage.value else e.receiptImage)
    ensures r.isRecurring == (if p.isRecurring.Some? then p.isRecurring.value else e.isRecurring)
    ensures r.createdAt == (if p.createdAt.Some? then p.createdAt.value else e.createdAt)
    ensures r.updatedAt == now
  {
    Expense(Override(p.id, e.id), Override(p.amount, e.amount), Override(p.category, e.category),
      Override(p.description, e.description), Override(p.date, e.date), Override(p.receiptImage, e.receiptImage),
      Override(p.isRecurring, e.isRecurring), Override(p.createdAt, e.createdAt), now)
  }

  /** The list `updateExpense(id, p)` stores. */
  function ExpensesUpdated(expenses: seq<Expense>, id: string, p: ExpensePatch, now: string): (r: seq<Expense>)
    ensures |r| == |expenses|
    ensures forall i :: 0 <= i < |expenses| ==>
      r[i] == if expenses[i].id == id then MergeExpense(expenses[i], p, now) else expenses[i]
  {
    MapIf(expenses, (e: Expense) => e.id == id, (e: Expense) => MergeExpense(e, p, now))
  }

  function OtherIdFilter(id: string): Expense -> bool
  {
    (e: Expense) => e.id != id
  }

  /** The list `deleteExpense(id)` stores. */
  function ExpensesWithout(expenses: seq<Expense>, id: string): (r: seq<Expense>)
    ensures forall e :: multiset(r)[e] == if e.id != id then multiset(expenses)[e] else 0
  {
    Filter(expenses, OtherIdFilter(id))
  }

  /** An empty patch changes only the timestamp, and merging the same patch
      again changes nothing but the timestamp. */
  lemma MergeExpenseLaws(e: Expense, p: ExpensePatch, now: string, later: string)
    ensures p == ExpensePatch(None, None, None, None, None, None, None, None) ==>
              MergeExpense(e, p, now) == e.(updatedAt := now)
    ensures MergeExpense(MergeExpense(e, p, now), p, later) == MergeExpense(e, p, later)
  {
  }

  /** Unknown ids: update and delete leave the list as it was. */
  lemma UnknownExpenseIdChangesNothing(expenses: seq<Expense>, id: string, p: ExpensePatch, now: string)
    requires forall i :: 0 <= i < |expenses| ==> expenses[i].id != id
    ensures ExpensesUpdated(expenses, id, p, now) == expenses
    ensures ExpensesWithout(expenses, id) == expenses
  {
    FilterAll(expenses, OtherIdFilter(id));
  }

  /** Deletion keeps the other records in their order: it commutes with concatenation. */
  lemma ExpensesWithoutAppend(s: seq<Expense>, t: seq<Expense>, id: string)
    ensures ExpensesWithout(s + t, id) == ExpensesWithout(s, id) + ExpensesWithout(t, id)
  {
    FilterAppend(s, t, OtherIdFilter(id));
  }

  /** The expense store: its state is the record list, which every action replaces. */
  class ExpenseStore {
    var expenses: seq<Expense>

    constructor ()
      ensures expenses == []
    {
      expenses := [];
    }

    /** `addExpense`: appends one record with the fresh id and `createdAt == updatedAt == now`. */
    method AddExpense(f: ExpenseFields, freshId: string, now: string)
      modifies this
      ensures expenses == old(expenses) + [NewExpense(f, freshId, now)]
    {
      expenses := expenses + [NewExpense(f, freshId, now)];
    }

    method UpdateExpense(id: string, p: ExpensePatch, now: string)
      modifies this
      ensures expenses == ExpensesUpdated(old(expenses), id, p, now)
    {
      expenses := ExpensesUpdated(expenses, id, p, now);
    }

    method DeleteExpense(id: string)
      modifies this
      ensures expenses == ExpensesWithout(old(expenses), id)
    {
      expenses := ExpensesWithout(expenses, id);
    }
  }
}
