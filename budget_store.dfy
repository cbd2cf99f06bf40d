/** The budget ledger: one budget record per month, created from the category
    catalogue or by the user, and updated by month. */
module Budgets {
  import opened Util
  import opened Types

  /** The invariant every action keeps: no two records share a month. */
  ghost predicate UniqueMonths(budgets: seq<Budget>)
  {
    forall i, j :: 0 <= i < j < |budgets| ==> budgets[i].month != budgets[j].month
  }

  /** `budgets.find(b => b.month === month)`, with `None` for `undefined`. */
  function FindBudget(budgets: seq<Budget>, month: string): (r: Option<Budget>)
    ensures r.Some? <==> exists i :: 0 <= i < |budgets| && budgets[i].month == month
    ensures r.Some? ==> r.value in budgets && r.value.month == month
  {
    if budgets == [] then None
    else if budgets[0].month == month then Some(budgets[0])
    else FindBudget(budgets[1..], month)
  }

  /** With months unique, the search finds the one record of the month. */
  lemma {:induction false} FindBudgetIndex(budgets: seq<Budget>, i: int)
    requires UniqueMonths(budgets)
    requires 0 <= i < |budgets|
    ensures FindBudget(budgets, budgets[i].month) == Some(budgets[i])
  {
    if i > 0 {
      assert budgets[0].month != budgets[i].month;
      FindBudgetIndex(budgets[1..], i - 1);
    }
  }

  /** The map the `forEach` of `createDefaultBudget` fills, entry by entry:
      a later entry for the same category would win. */
  function BudgetsOf(cats: seq<Category>): map<CategoryType, int>
  {
    if cats == [] then map[]
    else BudgetsOf(cats[..|cats| - 1])[cats[|cats| - 1].categoryType := cats[|cats| - 1].budget]
  }

  /** For a list naming each category at most once, the map holds exactly the
      listed categories, each with its listed budget. */
  lemma {:induction false} BudgetsOfLookup(cats: seq<Category>)
    requires forall i, j :: 0 <= i < j < |cats| ==> cats[i].categoryType != cats[j].categoryType
    ensures forall i :: 0 <= i < |cats| ==>
              cats[i].categoryType in BudgetsOf(cats) && BudgetsOf(cats)[cats[i].categoryType] == cats[i].budget
    ensures forall t :: t in BudgetsOf(cats) ==> exists i :: 0 <= i < |cats| && cats[i].categoryType == t
  {
    if cats != [] {
      var init := cats[..|cats| - 1];
      BudgetsOfLookup(init);
      forall i | 0 <= i < |cats| - 1
        ensures cats[i].categoryType != cats[|cats| - 1].categoryType && cats[i] == init[i]
      {
      }
      forall t | t in BudgetsOf(cats)
        ensures exists i :: 0 <= i < |cats| && cats[i].categoryType == t
      {
        if t != cats[|cats| - 1].categoryType {
          assert t in BudgetsOf(init);
          var i :| 0 <= i < |init| && init[i].categoryType == t;
          assert cats[i] == init[i];
        }
      }
    }
  }

  /** The record `createDefaultBudget(month)` builds, with `id` standing for the fresh uuid. */
  function DefaultBudget(month: string, id: string): Budget
  {
    Budget(id, month, SumBudgets(Catalogue), BudgetsOf(Catalogue))
  }

  /** The default budget totals 180000 and gives every category its catalogue default. */
  lemma DefaultBudgetContents(month: string, id: string)
    ensures DefaultBudget(month, id).month == month && DefaultBudget(month, id).id == id
    ensures DefaultBudget(month, id).totalBudget == 180000
    ensures forall t: CategoryType :: t in DefaultBudget(month, id).categoryBudgets &&
              DefaultBudget(month, id).categoryBudgets[t] == Catalogue[CategoryIndex(t)].budget
  {
    CatalogueBudgets();
    CatalogueListsEachCategoryOnce();
    BudgetsOfLookup(Catalogue);
    forall t: CategoryType
      ensures t in BudgetsOf(Catalogue) && BudgetsOf(Catalogue)[t] == Catalogue[CategoryIndex(t)].budget
    {
      var i := CategoryIndex(t);
      assert Catalogue[i].categoryType == t;
    }
  }

  /** `createDefaultBudget`: fills the category map in catalogue order and totals the defaults. */
  method CreateDefaultBudget(month: string, freshId: string) returns (b: Budget)
    ensures b == DefaultBudget(month, freshId)
    ensures b.totalBudget == 180000
    ensures forall t: CategoryType :: t in b.categoryBudgets && b.categoryBudgets[t] == Catalogue[CategoryIndex(t)].budget
  {
    var categoryBudgets: map<CategoryType, int> := map[];
    for i := 0 to |Catalogue|
      invariant categoryBudgets == BudgetsOf(Catalogue[..i])
    {
      assert Catalogue[..i + 1][..i] == Catalogue[..i];
      categoryBudgets := categoryBudgets[Catalogue[i].categoryType := Catalogue[i].budget];
    }
    assert Catalogue[..|Catalogue|] == Catalogue;
    b := Budget(freshId, month, SumBudgets(Catalogue), categoryBudgets);
    DefaultBudgetContents(month, freshId);
  }

  /** `categoryBudgets || b.categoryBudgets`: a supplied map (even an empty one) replaces. */
  function ChosenMap(supplied: Option<map<CategoryType, int>>, current: map<CategoryType, int>): map<CategoryType, int>
  {
    if supplied.Some? then supplied.value else current
  }

  /** The list `setBudget` stores when the month has a record. */
  function WithTotal(budgets: seq<Budget>, month: string, total: int, supplied: Option<map<CategoryType, int>>): (r: seq<Budget>)
    ensures |r| == |budgets|
    ensures forall i :: 0 <= i < |budgets| ==>
      r[i] == if budgets[i].month == month
              then budgets[i].(totalBudget := total, categoryBudgets := ChosenMap(supplied, budgets[i].categoryBudgets))
              else budgets[i]
  {
    MapIf(budgets, (b: Budget) => b.month == month,
      (b: Budget) => b.(totalBudget := total, categoryBudgets := ChosenMap(supplied, b.categoryBudgets)))
  }

  /** The list `setCategoryBudget` stores when the month has a record. */
  function WithCategory(budgets: seq<Budget>, month: string, category: CategoryType, amount: int): (r: seq<Budget>)
    ensures |r| == |budgets|
    ensures forall i :: 0 <= i < |budgets| ==>
      r[i] == if budgets[i].month == month
              then budgets[i].(categoryBudgets := budgets[i].categoryBudgets[category := amount])
              else budgets[i]
  {
    MapIf(budgets, (b: Budget) => b.month == month,
      (b: Budget) => b.(categoryBudgets := b.categoryBudgets[category := amount]))
  }

  /** Two lists whose records have the same months position by position. */
  ghost predicate SameMonths(a: seq<Budget>, b: seq<Budget>)
  {
    |a| == |b| && forall i :: 0 <= i < |a| ==> a[i].month == b[i].month
  }

  /** Rewriting records without touching their months keeps months unique and
      keeps every search's outcome at the same position. */
  lemma SameMonthsSearch(a: seq<Budget>, b: seq<Budget>, m: string)
    requires UniqueMonths(a) && SameMonths(a, b)
    ensures UniqueMonths(b)
    ensures FindBudget(a, m).None? <==> FindBudget(b, m).None?
    ensures forall i :: 0 <= i < |a| && a[i].month == m ==> FindBudget(b, m) == Some(b[i])
  {
    assert forall i :: 0 <= i < |a| ==> a[i].month == b[i].month;
    forall i | 0 <= i < |a| && a[i].month == m ensures FindBudget(b, m) == Some(b[i]) {
      FindBudgetIndex(b, i);
    }
  }

  /** `setBudget` on an existing month: that month's record gets the new total
      and, only when one is supplied, the new category map; it keeps its id;
      every other month is found as before. */
  lemma SetBudgetExisting(budgets: seq<Budget>, month: string, total: int, supplied: Option<map<CategoryType, int>>, m: string)
    requires UniqueMonths(budgets)
    requires FindBudget(budgets, month).Some?
    ensures UniqueMonths(WithTotal(budgets, month, total, supplied))
    ensures var prior := FindBudget(budgets, month).value;
      FindBudget(WithTotal(budgets, month, total, supplied), month) ==
        Some(Budget(prior.id, month, total, if supplied.Some? then supplied.value else prior.categoryBudgets))
    ensures m != month ==> FindBudget(WithTotal(budgets, month, total, supplied), m) == FindBudget(budgets, m)
  {
    var r := WithTotal(budgets, month, total, supplied);
    assert SameMonths(budgets, r);
    SameMonthsSearch(budgets, r, month);
    SameMonthsSearch(budgets, r, m);
    var i :| 0 <= i < |budgets| && budgets[i].month == month;
    FindBudgetIndex(budgets, i);
    if exists k :: 0 <= k < |budgets| && budgets[k].month == m {
      var k :| 0 <= k < |budgets| && budgets[k].month == m;
      FindBudgetIndex(budgets, k);
    }
  }

  /** `setCategoryBudget` on an existing month: only that month's entry for
      `category` changes; its total, id and other entries stay; other months are found as before. */
  lemma SetCategoryBudgetExisting(budgets: seq<Budget>, month: string, category: CategoryType, amount: int, m: string)
    requires UniqueMonths(budgets)
    requires FindBudget(budgets, month).Some?
    ensures UniqueMonths(WithCategory(budgets, month, category, amount))
    ensures var prior := FindBudget(budgets, month).value;
      FindBudget(WithCategory(budgets, month, category, amount), month) ==
        Some(Budget(prior.id, month, prior.totalBudget, prior.categoryBudgets[category := amount]))
    ensures m != month ==> FindBudget(WithCategory(budgets, month, category, amount), m) == FindBudget(budgets, m)
  {
    var r := WithCategory(budgets, month, category, amount);
    assert SameMonths(budgets, r);
    SameMonthsSearch(budgets, r, month);
    SameMonthsSearch(budgets, r, m);
    var i :| 0 <= i < |budgets| && budgets[i].month == month;
    FindBudgetIndex(budgets, i);
    if exists k :: 0 <= k < |budgets| && budgets[k].month == m {
      var k :| 0 <= k < |budgets| && budgets[k].month == m;
      FindBudgetIndex(budgets, k);
    }
  }

  /** Appending after a failed search keeps months unique; the new record is
      what its month now finds, and other months are found as before. */
  lemma AppendNewMonth(budgets: seq<Budget>, b: Budget, m: string)
    requires UniqueMonths(budgets)
    requires FindBudget(budgets, b.month).None?
    ensures UniqueMonths(budgets + [b])
    ensures FindBudget(budgets + [b], b.month) == Some(b)
    ensures m != b.month ==> FindBudget(budgets + [b], m) == FindBudget(budgets, m)
  {
    var r := budgets + [b];
    assert forall i :: 0 <= i < |budgets| ==> r[i] == budgets[i];
    FindBudgetIndex(r, |budgets|);
    if exists k :: 0 <= k < |budgets| && budgets[k].month == m {
      var k :| 0 <= k < |budgets| && budgets[k].month == m;
      FindBudgetIndex(budgets, k);
      FindBudgetIndex(r, k);
    }
  }

  /** The budget store: the month table and the budget last initialised. */
  class BudgetStore {
    var budgets: seq<Budget>
    var currentBudget: Option<Budget>

    ghost predicate Valid()
      reads this
    {
      UniqueMonths(budgets)
    }

    constructor ()
      ensures budgets == [] && currentBudget == None
      ensures Valid()
    {
      budgets := [];
      currentBudget := None;
    }

    /** `setBudget`: updates the month's record, or appends a new one whose
        category map is the supplied one or empty. `currentBudget` is not touched. */
    method SetBudget(month: string, totalBudget: int, categoryBudgets: Option<map<CategoryType, int>>, freshId: string)
      requires Valid()
      modifies this
      ensures Valid()
      ensures currentBudget == old(currentBudget)
      ensures old(FindBudget(budgets, month)).Some? ==>
                budgets == WithTotal(old(budgets), month, totalBudget, categoryBudgets)
      ensures old(FindBudget(budgets, month)).None? ==>
                budgets == old(budgets) + [Budget(freshId, month, totalBudget, ChosenMap(categoryBudgets, map[]))]
      ensures FindBudget(budgets, month).Some? && FindBudget(budgets, month).value.totalBudget == totalBudget
    {
      var existing := FindBudget(budgets, month);
      if existing.Some? {
        SetBudgetExisting(budgets, month, totalBudget, categoryBudgets, month);
        budgets := WithTotal(budgets, month, totalBudget, categoryBudgets);
      } else {
        var newBudget := Budget(freshId, month, totalBudget, ChosenMap(categoryBudgets, map[]));
        AppendNewMonth(budgets, newBudget, month);
        budgets := budgets + [newBudget];
      }
    }

    /** `setCategoryBudget`: sets one category of the month's record, or appends
        a default budget with that category overwritten. */
    method SetCategoryBudget(month: string, category: CategoryType, amount: int, freshId: string)
      requires Valid()
      modifies this
      ensures Valid()
      ensures currentBudget == old(currentBudget)
      ensures old(FindBudget(budgets, month)).Some? ==>
                budgets == WithCategory(old(budgets), month, category, amount)
      ensures old(FindBudget(budgets, month)).None? ==>
                budgets == old(budgets) + [DefaultBudget(month, freshId).(categoryBudgets :=
                                             DefaultBudget(month, freshId).categoryBudgets[category := amount])]
      ensures FindBudget(budgets, month).Some?
      ensures category in FindBudget(budgets, month).value.categoryBudgets
      ensures FindBudget(budgets, month).value.categoryBudgets[category] == amount
    {
      var existing := FindBudget(budgets, month);
      if existing.Some? {
        SetCategoryBudgetExisting(budgets, month, category, amount, month);
        budgets := WithCategory(budgets, month, category, amount);
      } else {
        var newBudget := CreateDefaultBudget(month, freshId);
        newBudget := newBudget.(categoryBudgets := newBudget.categoryBudgets[category := amount]);
        AppendNewMonth(budgets, newBudget, month);
        budgets := budgets + [newBudget];
      }
    }

    /** `getBudget`: the month's record, or `None` for `null`. */
    function GetBudget(month: string): (r: Option<Budget>)
      reads this
      ensures r.Some? <==> exists i :: 0 <= i < |budgets| && budgets[i].month == month
      ensures r.Some? ==> r.value in budgets && r.value.month == month
    {
      FindBudget(budgets, month)
    }

    /** `getCurrentMonthBudget`, with the current `yyyy-MM` passed in: a lookup that never creates. */
    function GetCurrentMonthBudget(currentMonth: string): (r: Option<Budget>)
      reads this
      ensures r.Some? <==> exists i :: 0 <= i < |budgets| && budgets[i].month == currentMonth
      ensures r.Some? ==> r.value in budgets && r.value.month == currentMonth
    {
      GetBudget(currentMonth)
    }

    /** `initializeDefaultBudget`, with the current month passed in: appends the
        default budget and makes it current only when the month has no record.
        Afterwards the month always has one, so a second call changes nothing. */
    method InitializeDefaultBudget(currentMonth: string, freshId: string)
      requires Valid()
      modifies this
      ensures Valid()
      ensures old(FindBudget(budgets, currentMonth)).Some? ==>
                budgets == old(budgets) && currentBudget == old(currentBudget)
      ensures old(FindBudget(budgets, currentMonth)).None? ==>
                budgets == old(budgets) + [DefaultBudget(currentMonth, freshId)] &&
                currentBudget == Some(DefaultBudget(currentMonth, freshId))
      ensures FindBudget(budgets, currentMonth).Some?
    {
      var existing := FindBudget(budgets, currentMonth);
      if existing.None? {
        var defaultBudget := CreateDefaultBudget(currentMonth, freshId);
        AppendNewMonth(budgets, defaultBudget, currentMonth);
        budgets := budgets + [defaultBudget];
        currentBudget := Some(defaultBudget);
      }
    }
  }
}
