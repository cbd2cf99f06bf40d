# Household ledger core: expenses, subscriptions and monthly budgets

This project is a Dafny model of the core of a personal finance app. The app
records one-off expenses, keeps a ledger of recurring subscriptions (weekly,
monthly or yearly, each of which can be paused or cancelled), and keeps one
budget per calendar month, split over nine spending categories. The model
covers four parts:

- the three stores: `Expenses.ExpenseStore`, `Subscriptions.SubscriptionStore`
  and `Budgets.BudgetStore`. Each is a class whose list field every action
  replaces, as the app's `set(state => …)` does.
- the domain records and the two constant tables (the category catalogue and
  the subscription presets), in `Types`.
- the figures the home screen derives from the stores (`Home`) and the
  filtering and sorting of the subscription list (`SubscriptionList`).
- the two entry forms: `ExpenseForm` (the keypad buffer, the save action and the right-swipe handler) and
  `SubscriptionForm` (presets, billing date, save and edit). Each is a class
  holding the form's state.

Four helper modules support the rest:

- `Util`: the array methods `filter`, a `map` that rewrites matches,
  `sort` and `slice`.
- `Calendar`: Gregorian days and the date-fns `addWeeks`, `addMonths` and
  `addYears`.
- `Numerals`: `parseInt` and `toString` on decimal text.
- `DateText`: the `yyyy-MM-dd` and `yyyy-MM` texts that `format` writes, and
  how `new Date` reads them back.

Five inputs the app reads from its environment are parameters in the model:
the current day and month, the current instant, fresh uuids and ISO
timestamps. Subscription dates are calendar days (`Calendar.ValidDate`).
Expense dates stay text, because the month queries test them by prefix.

Details of the stores that are easy to misread:

- `setBudget` for a month without a record stores the given map, or `{}` when
  none is given. It does not fall back to the catalogue defaults.
- `setBudget` never touches `currentBudget`.
- `getCurrentMonthBudget` only looks a budget up and never creates one. Only
  `initializeDefaultBudget` creates a budget.

## Model

| member | source | states |
|---|---|---|
| Types.CategoryTypesAreNine | src/types/index.ts:4-13 | `CategoryType` has exactly nine distinct values, and every value is listed |
| Types.FindCategory | src/types/index.ts:101-111 | `find` by type succeeds exactly when some entry has the type, and the entry it returns has that type |
| Types.CategoryIndex | src/types/index.ts:101-111 | every category has a position in the catalogue whose entry has that type |
| Types.CatalogueListsEachCategoryOnce | src/types/index.ts:101-111 | the catalogue lists the nine categories once each, in declaration order |
| Types.CatalogueLookupSucceeds | src/types/index.ts:101-111 | looking up any category in the catalogue finds its entry, whose name is non-empty |
| Types.CatalogueBudgets | src/types/index.ts:102-110 | every default category budget is positive, and they add up to 180000 |
| Types.PresetsAreMonthlySubscriptions | src/types/index.ts:87-98 | all ten presets are monthly, in the subscription category, with a positive default amount |
| Calendar.DayNumberOrder | src/screens/SubscriptionsScreen.tsx:68-74 | comparing day numbers (the `getTime()` sort key) orders dates exactly as the calendar does, and equal numbers mean equal dates |
| Calendar.AddWeek | src/stores/subscriptionStore.ts:31 | `addWeeks(d, 1)` is exactly seven days later |
| Calendar.AddMonth | src/stores/subscriptionStore.ts:33 | `addMonths(d, 1)` lands in the next month, on the same day or clamped to that month's last day, 1 to 31 days later |
| Calendar.AddYear | src/stores/subscriptionStore.ts:35 | `addYears(d, 1)` keeps the month and the day, except that 29 February becomes 28 February; it is 365 or 366 days later |
| Calendar.MonthEndExamples | src/stores/subscriptionStore.ts:30-35 | 31 January plus a month is 29 February in 2024 and 28 February in 2023; 29 February 2024 plus a year is 28 February 2025 |
| Numerals.IntRoundTrip | src/screens/AddSubscriptionScreen.tsx:43 | `parseInt(n.toString(), 10) == n` for every integer amount, so the edit form shows the stored amount and saves it unchanged |
| Numerals.AppendDigitValue | src/screens/AddExpenseScreen.tsx:114 | appending a digit to digit text multiplies the value `parseInt` reads by ten and adds the digit |
| DateText.ParseFormat | src/screens/AddExpenseScreen.tsx:32 | `new Date` reads back the day that `format(…, 'yyyy-MM-dd')` wrote |
| DateText.MonthPrefix | src/stores/expenseStore.ts:56 | `startsWith(format(m, 'yyyy-MM'))` holds on a formatted date exactly when the date is in the same year and month |
| Subscriptions.NextBillingDate | src/stores/subscriptionStore.ts:24-39 | the next billing date is strictly later: 7 days later for weekly, in the next month for monthly, and the same month a year later for yearly |
| Subscriptions.ToMonthlyAmount | src/stores/subscriptionStore.ts:42-53 | the monthly figure: a weekly amount times 4.33, a monthly amount as is, a yearly amount divided by twelve; non-negative for a non-negative amount |
| Subscriptions.ToMonthlyAmountLinear | src/stores/subscriptionStore.ts:42-53 | normalisation is linear and monotone in the amount: the figure of a sum is the sum of the figures |
| Subscriptions.NormalisationExamples | src/stores/subscriptionStore.ts:42-53 | weekly 100 is 433 a month, yearly 1200 is 100 a month, and monthly amounts are unchanged |
| Subscriptions.ActiveSubscriptions | src/stores/subscriptionStore.ts:109-111 | exactly the records that are active and not paused, each as many times as the ledger holds it |
| Subscriptions.ActiveSubscriptionsAppend | src/stores/subscriptionStore.ts:109-111 | the filter keeps the stored order: the billable records of `s + t` are those of `s` followed by those of `t` |
| Subscriptions.MonthlyTotal | src/stores/subscriptionStore.ts:113-117 | the summed monthly figures of the billable records: zero when none is billable, non-negative with non-negative amounts |
| Subscriptions.YearlyTotal | src/stores/subscriptionStore.ts:119-121 | twelve times the monthly total, never computed on its own; non-negative with non-negative amounts |
| Subscriptions.MonthlyTotalAppend | src/stores/subscriptionStore.ts:113-117 | one more record raises the monthly total by its normalised amount when it is billable, and by nothing otherwise |
| Subscriptions.CancelledNotCounted | src/stores/subscriptionStore.ts:113-117 | a cancelled record contributes nothing to the monthly total, wherever it sits and whatever its paused flag |
| Subscriptions.SumMonthlyAppend | src/stores/subscriptionStore.ts:113-117 | the sum of monthly figures over two lists is the sum of the two sums |
| Subscriptions.SumMonthlyNonNegative | src/stores/subscriptionStore.ts:113-117 | with non-negative amounts the monthly total is non-negative |
| Subscriptions.YearlyTotalAppend | src/stores/subscriptionStore.ts:119-121 | the yearly total is twelve monthly totals: a billable record adds 12 × 4.33 times its amount (weekly), 12 times its amount (monthly) or its amount (yearly) |
| Subscriptions.UpcomingRenewals | src/stores/subscriptionStore.ts:123-139 | exactly the billable records whose billing day lies from today to `days` days ahead, each kept as often as stored, earliest first |
| Subscriptions.UpcomingRenewalsMembership | src/stores/subscriptionStore.ts:128-133 | a record is listed exactly when it is stored, billable and due within the window |
| Subscriptions.UpcomingRenewalsAsWritten | src/stores/subscriptionStore.ts:123-139 | the list the store builds when it compares UTC midnight of the billing date with the current instant: records in that window, earliest first |
| Subscriptions.AsWrittenWindowIsShifted | src/stores/subscriptionStore.ts:124-132 | at any instant after UTC midnight, the written window runs from tomorrow to `days` days ahead: today is excluded |
| Subscriptions.AsWrittenAtMidnight | src/stores/subscriptionStore.ts:124-132 | at exactly UTC midnight the written window is the calendar window |
| Subscriptions.DueTodayIsDropped | src/stores/subscriptionStore.ts:124-132 | a billable record due today is missing from the list as written, and the calendar window lists it |
| Subscriptions.Merge | src/stores/subscriptionStore.ts:77 | `{ ...sub, ...patch, updatedAt }`: each key the patch supplies overwrites, every other key is kept, and `updatedAt` is refreshed |
| Subscriptions.MergeLaws | src/stores/subscriptionStore.ts:77 | an empty patch changes only the timestamp, and applying the same patch twice is applying it once |
| Subscriptions.Updated | src/stores/subscriptionStore.ts:73-81 | the same number of records; those with the id are merged with the patch and restamped; the rest are unchanged |
| Subscriptions.Toggled | src/stores/subscriptionStore.ts:89-97 | the records with the id flip `isPaused` and are restamped; the rest are unchanged |
| Subscriptions.Cancelled | src/stores/subscriptionStore.ts:99-107 | the records with the id get `isActive == false` and are restamped; the rest are unchanged |
| Subscriptions.Without | src/stores/subscriptionStore.ts:83-87 | every record with another id survives as often as it was stored, and no record with the id remains |
| Subscriptions.WithoutAppend | src/stores/subscriptionStore.ts:83-87 | deletion keeps the surviving records in their stored order |
| Subscriptions.UnknownIdChangesNothing | src/stores/subscriptionStore.ts:73-107 | update, toggle, cancel and delete with an id no record has leave the list unchanged |
| Subscriptions.ToggleTwice | src/stores/subscriptionStore.ts:89-97 | toggling twice restores every record except for the update timestamp |
| Subscriptions.CancelIdempotent | src/stores/subscriptionStore.ts:99-107 | cancelling twice is the same as cancelling once, at the second timestamp |
| Subscriptions.CancelledCountsAsDeleted | src/stores/subscriptionStore.ts:99-117 | for the monthly total, cancelling a subscription is the same as deleting it |
| Subscriptions.SubscriptionStore.constructor | src/stores/subscriptionStore.ts:58 | the ledger starts empty |
| Subscriptions.SubscriptionStore.AddSubscription | src/stores/subscriptionStore.ts:60-71 | appends exactly one record: the given fields, the fresh id, and `createdAt == updatedAt == now` |
| Subscriptions.SubscriptionStore.UpdateSubscription | src/stores/subscriptionStore.ts:73-81 | the new ledger is `Updated` of the old one |
| Subscriptions.SubscriptionStore.DeleteSubscription | src/stores/subscriptionStore.ts:83-87 | the new ledger is `Without` of the old one |
| Subscriptions.SubscriptionStore.TogglePause | src/stores/subscriptionStore.ts:89-97 | the new ledger is `Toggled` of the old one |
| Subscriptions.SubscriptionStore.CancelSubscription | src/stores/subscriptionStore.ts:99-107 | the new ledger is `Cancelled` of the old one |
| Budgets.FindBudget | src/stores/budgetStore.ts:41 | the search finds a record exactly when some record has the month, and what it finds is a stored record of that month |
| Budgets.FindBudgetIndex | src/stores/budgetStore.ts:41 | with months unique, the search for a record's month returns that record |
| Budgets.BudgetsOfLookup | src/stores/budgetStore.ts:21-24 | the `forEach` map holds exactly the listed categories, each with its listed budget |
| Budgets.DefaultBudgetContents | src/stores/budgetStore.ts:20-32 | the default budget has the month and the id, totals 180000, and gives every category its catalogue default |
| Budgets.CreateDefaultBudget | src/stores/budgetStore.ts:20-32 | the loop builds the default budget: a total of 180000 and every category at its catalogue default |
| Budgets.WithTotal | src/stores/budgetStore.ts:43-54 | records of the month get the new total, and the supplied map if one was given; other records are unchanged |
| Budgets.WithCategory | src/stores/budgetStore.ts:71-84 | records of the month get the category set to the amount, keeping their other entries; other records are unchanged |
| Budgets.SameMonthsSearch | src/stores/budgetStore.ts:45-53 | rewriting records without changing their months keeps months unique and the search positions unchanged |
| Budgets.SetBudgetExisting | src/stores/budgetStore.ts:43-54 | on an existing month, that month's record has the new total and the chosen map, other months are unchanged, and months stay unique |
| Budgets.SetCategoryBudgetExisting | src/stores/budgetStore.ts:71-84 | on an existing month, only that month's entry for the category changes, and months stay unique |
| Budgets.AppendNewMonth | src/stores/budgetStore.ts:55-65 | appending a record for a month not yet present keeps months unique, makes it that month's record, and leaves other months as they were |
| Budgets.BudgetStore.constructor | src/stores/budgetStore.ts:37-38 | no budgets and no current budget |
| Budgets.BudgetStore.SetBudget | src/stores/budgetStore.ts:40-66 | updates the month's record or appends one with the given map or `{}`; afterwards the month has the new total; months stay unique; `currentBudget` is unchanged |
| Budgets.BudgetStore.SetCategoryBudget | src/stores/budgetStore.ts:68-92 | updates the month's record, or appends the default budget with the category overridden; afterwards the month's entry for the category is the amount |
| Budgets.BudgetStore.GetBudget | src/stores/budgetStore.ts:94-96 | the month's record if there is one, and `null` otherwise |
| Budgets.BudgetStore.GetCurrentMonthBudget | src/stores/budgetStore.ts:98-101 | the current month's record if there is one; it never creates one |
| Budgets.BudgetStore.InitializeDefaultBudget | src/stores/budgetStore.ts:103-114 | leaves everything alone when the month has a record; otherwise appends the default budget and makes it current; afterwards the month always has a record, so a second call changes nothing |
| Expenses.SumAmountsAppend | src/stores/expenseStore.ts:67 | the `reduce` over one more record adds its amount |
| Expenses.SumFilterAppend | src/stores/expenseStore.ts:64-77 | one more record adds its amount to a filtered total exactly when the filter keeps it |
| Expenses.ExpensesByMonth | src/stores/expenseStore.ts:54-58 | exactly the records whose date starts with the month, each as often as stored |
| Expenses.ExpensesByMonthAppend | src/stores/expenseStore.ts:54-58 | the month's records keep their stored order |
| Expenses.ExpensesByCategory | src/stores/expenseStore.ts:60-62 | exactly the records of the category, each as often as stored |
| Expenses.TotalByMonth | src/stores/expenseStore.ts:64-68 | the sum of the amounts of the records dated in the month: zero when none is, non-negative with non-negative amounts |
| Expenses.TotalByCategory | src/stores/expenseStore.ts:70-77 | the sum of the amounts of the month's records of one category: zero when there are none, non-negative with non-negative amounts |
| Expenses.CategoryWithinMonth | src/stores/expenseStore.ts:64-77 | with non-negative amounts, no category's total exceeds the month's total |
| Expenses.EmptyLedgerTotals | src/stores/expenseStore.ts:64-77 | an empty ledger totals 0 for every month and category |
| Expenses.TotalByMonthAppend | src/stores/expenseStore.ts:64-68 | one more record raises the month's total by its amount exactly when its date starts with the month |
| Expenses.JulyExpenseExample | src/stores/expenseStore.ts:64-68 | an expense dated 2024-07-01 leaves the 2024-06 total unchanged |
| Expenses.JuneExpenseExample | src/stores/expenseStore.ts:64-68 | an expense of 500 dated 2024-06-15 raises the 2024-06 total by 500 |
| Expenses.TotalByCategoryAppend | src/stores/expenseStore.ts:70-77 | one more record raises a category's monthly total by its amount exactly when it has that month and category |
| Expenses.TotalByCategoriesAppend | src/stores/expenseStore.ts:70-77 | the same step for the month's total over a list of categories |
| Expenses.CategorySplit | src/stores/expenseStore.ts:70-77 | for distinct categories, the total over one category and a list splits into that category's total plus the list's total |
| Expenses.SumCategoryTotalsIsTotal | src/stores/expenseStore.ts:70-77 | the per-category totals over distinct categories add up to the total over those categories |
| Expenses.FilterAgree | src/stores/expenseStore.ts:64-77 | two filters that agree on every record keep the same records |
| Expenses.CategoryTotalsAddUp | src/stores/expenseStore.ts:64-77 | the nine category totals of a month add up to the month's total |
| Expenses.MergeExpense | src/stores/expenseStore.ts:42 | `{ ...expense, ...patch, updatedAt }`: each of the eight keys the patch supplies overwrites, every other key is kept, and `updatedAt` is refreshed |
| Expenses.ExpensesUpdated | src/stores/expenseStore.ts:38-46 | the same number of records; those with the id are merged with the patch and restamped; the rest are unchanged |
| Expenses.ExpensesWithout | src/stores/expenseStore.ts:48-52 | every record with another id survives as often as it was stored, and none with the id remains |
| Expenses.MergeExpenseLaws | src/stores/expenseStore.ts:42 | an empty patch changes nothing but the timestamp, and applying the same patch twice is applying it once |
| Expenses.UnknownExpenseIdChangesNothing | src/stores/expenseStore.ts:38-52 | update and delete with an id no record has leave the list unchanged |
| Expenses.ExpensesWithoutAppend | src/stores/expenseStore.ts:48-52 | deletion keeps the surviving records in their stored order |
| Expenses.ExpenseStore.constructor | src/stores/expenseStore.ts:23 | the ledger starts empty |
| Expenses.ExpenseStore.AddExpense | src/stores/expenseStore.ts:25-36 | appends exactly one record: the given fields, the fresh id, and `createdAt == updatedAt == now` |
| Expenses.ExpenseStore.UpdateExpense | src/stores/expenseStore.ts:38-46 | the new list is `ExpensesUpdated` of the old one |
| Expenses.ExpenseStore.DeleteExpense | src/stores/expenseStore.ts:48-52 | the new list is `ExpensesWithout` of the old one |
| Home.TotalSpending | src/screens/HomeScreen.tsx:37-39 | the month's expenses plus the monthly subscription figure: each part alone when the other ledger is empty, and non-negative with non-negative amounts |
| Home.TotalSpendingAppend | src/screens/HomeScreen.tsx:37-39 | total spending is the month's expenses plus the subscription figure: an expense moves it only in its own month, and the subscription part is the same for every month |
| Home.BudgetRemaining | src/screens/HomeScreen.tsx:40 | what remains plus what was spent is the budget total (0 without a budget); it can go negative |
| Home.BudgetProgress | src/screens/HomeScreen.tsx:41-42 | 0 without a budget or with a zero budget; otherwise the percentage of the total that is spent |
| Home.ProgressMatchesRemaining | src/screens/HomeScreen.tsx:40-42 | with a positive budget, progress reaches 100 exactly when nothing remains, and is 0 exactly when nothing is spent |
| Home.RemainingExamples | src/screens/HomeScreen.tsx:40-42 | a budget of 1000 with 1500 spent leaves −500 at 150 %; without a budget, −1500 remains; a zero budget shows 0 % |
| Home.Spending | src/screens/HomeScreen.tsx:48-51 | one entry per catalogue category, each carrying that category's total for the month |
| Home.RankedCategories | src/screens/HomeScreen.tsx:48-53 | exactly the catalogue entries with positive spending, each once (a permutation of the filtered list), most spending first |
| Home.RankedDistinct | src/screens/HomeScreen.tsx:47-53 | no category appears twice in the ranking |
| Home.RankedEntries | src/screens/HomeScreen.tsx:48-53 | every ranked entry is a catalogue category whose amount is that category's positive total for the month |
| Home.CategoryExpenses | src/screens/HomeScreen.tsx:47-55 | five distinct catalogue categories, or all those with spending when fewer have any, each with its positive total for the month, most spending first |
| Home.CategoryExpensesAreTopFive | src/screens/HomeScreen.tsx:47-55 | a category with spending is left out only when five listed categories each spent at least as much |
| Home.DateKeyOfFormatted | src/screens/HomeScreen.tsx:60 | on dates the entry screen writes, `new Date(date).getTime()` orders the dates as the calendar does |
| Home.ByDateDescending | src/screens/HomeScreen.tsx:59-60 | a permutation of the expenses, latest date first |
| Home.RecentExpenses | src/screens/HomeScreen.tsx:58-62 | five expenses, or all of them when there are fewer, taken from the ledger, latest first |
| Home.RecentExpensesAreLatest | src/screens/HomeScreen.tsx:58-62 | an expense left out is no later than any listed one, and five are listed |
| SubscriptionList.FilteredSubscriptions | src/screens/SubscriptionsScreen.tsx:50-81 | exactly the records the tab keeps (all; active and unpaused; or paused or cancelled), each as often as stored, sorted by amount descending, by next billing date ascending, or by collation position of the name |
| SubscriptionList.TabsPartition | src/screens/SubscriptionsScreen.tsx:54-61 | every record is on exactly one of the 'active' and 'paused' tabs, and together the two tabs hold the whole ledger |
| SubscriptionList.UrgentMeansDueWithinThreeDays | src/screens/SubscriptionsScreen.tsx:89 | a card is urgent exactly when its billing day is from today to three days ahead |
| SubscriptionList.UrgentCardsAreUpcoming | src/screens/SubscriptionsScreen.tsx:89 | a billable card is urgent exactly when the three-day renewal list contains it |
| SubscriptionList.ContractCount | src/screens/SubscriptionsScreen.tsx:185 | the number of records not cancelled: at most the ledger's size, all of it when nothing is cancelled, zero when everything is |
| SubscriptionList.ContractCountSplit | src/screens/SubscriptionsScreen.tsx:185 | the "contracts" count includes paused contracts: it is the billable records plus the paused uncancelled ones |
| SubscriptionForm.FormNextBillingDate | src/screens/AddSubscriptionScreen.tsx:61-71 | the form's date is 7 days later for weekly, and `addMonths` or `addYears` of the start otherwise |
| SubscriptionForm.FormAgreesWithStore | src/screens/AddSubscriptionScreen.tsx:61-71 | the form's calculation gives the store's next billing date, which is after the start |
| SubscriptionForm.SaveFields | src/screens/AddSubscriptionScreen.tsx:87-98 | the saved data is active and unpaused, starts at the form's start date with the next billing date one cycle later, and has no description exactly when the field is empty |
| SubscriptionForm.SavePatch | src/screens/AddSubscriptionScreen.tsx:87-101 | the patch `updateSubscription` receives carries every form value, `description` even when undefined, and leaves `id`, `color` and `createdAt` absent |
| SubscriptionForm.EditedRecord | src/screens/AddSubscriptionScreen.tsx:87-101 | saving over a record keeps its id, creation time and colour, takes every form value (an empty description clears the stored one), and makes it billable |
| SubscriptionForm.EditReactivates | src/screens/AddSubscriptionScreen.tsx:100-101 | editing a paused or cancelled record makes it billable again |
| SubscriptionForm.SubscriptionFormState.constructor | src/screens/AddSubscriptionScreen.tsx:41-58 | the form opens with the edited record's values, or empty, monthly, category 'subscription', icon 📱 and today's start; presets show only when adding |
| SubscriptionForm.SubscriptionFormState.HandlePresetSelect | src/screens/AddSubscriptionScreen.tsx:73-82 | takes the preset's name, icon, cycle and category; takes its amount only when the amount is given and non-zero, in which case the saved amount will be that amount; closes the picker |
| SubscriptionForm.SubscriptionFormState.SaveData | src/screens/AddSubscriptionScreen.tsx:87-98 | the data to save carries the parsed amount and the name, is billable, and bills one cycle after the start |
| SubscriptionForm.SubscriptionFormState.HandleSave | src/screens/AddSubscriptionScreen.tsx:84-107 | without a name or an amount nothing changes; otherwise the edited record is updated by id, or one new record is appended |
| ExpenseForm.Pressed | src/screens/AddExpenseScreen.tsx:123-131 | `delete` leaves the text less its last character (an empty text stays empty); any other label is appended, keeping the old text as a prefix |
| ExpenseForm.KeypadLabels | src/screens/AddExpenseScreen.tsx:227-232 | every label except `delete` is one or two digits, and the only two-digit label is `00` |
| ExpenseForm.KeyIsDigitsOrDelete | src/screens/AddExpenseScreen.tsx:227-232 | each keypad label is `delete` or a string of digits |
| ExpenseForm.PressedKeepsDigits | src/screens/AddExpenseScreen.tsx:123-131 | from digit text, a press of `delete` or of a digit label leaves digit text |
| ExpenseForm.DigitPressValue | src/screens/AddExpenseScreen.tsx:123-131 | a digit key makes the amount ten times larger plus the digit |
| ExpenseForm.DoubleZeroValue | src/screens/AddExpenseScreen.tsx:123-131 | `00` makes the amount a hundred times larger |
| ExpenseForm.DeleteValue | src/screens/AddExpenseScreen.tsx:124-125 | `delete` drops the amount's last digit (integer division by ten), and leaves an empty text empty |
| ExpenseForm.DeleteUndoesPress | src/screens/AddExpenseScreen.tsx:123-131 | after any one-character label, one `delete` restores the text; after a two-character label (`00`), two do |
| ExpenseForm.FallbackIsCategoryName | src/screens/AddExpenseScreen.tsx:116 | an empty description is saved as the category's catalogue name, so the saved description is never empty |
| ExpenseForm.SavedExpenseCountsThisMonth | src/screens/AddExpenseScreen.tsx:112-121 | an expense saved today raises this month's total by the amount typed |
| ExpenseForm.ExpenseFormState.constructor | src/screens/AddExpenseScreen.tsx:29-32 | an empty amount and description, category food, and today's `yyyy-MM-dd` date |
| ExpenseForm.ExpenseFormState.HandleNumberPress | src/screens/AddExpenseScreen.tsx:123-131 | the amount text becomes the pressed label appended, or one character shorter on `delete`; it stays digits; nothing else changes |
| ExpenseForm.ExpenseFormState.SaveExpense | src/screens/AddExpenseScreen.tsx:112-121 | appends exactly one expense with the parsed amount, the screen's date and `isRecurring == false` |
| ExpenseForm.SwipeRightResult | src/screens/AddExpenseScreen.tsx:84-100 | a right swipe's handler on the amount it reads: nothing saved without an amount, otherwise one record with that amount and today's date appended |
| ExpenseForm.SwipeRightAsWritten | src/screens/AddExpenseScreen.tsx:60-100 | the gesture's handler, created once, reads the first render's empty amount, so the ledger never changes |
| ExpenseForm.SwipeDropsEnteredAmount | src/screens/AddExpenseScreen.tsx:29-100 | with an amount entered, the swipe as written saves nothing, where the handler on the current amount saves one record |
| ExpenseForm.ExpenseFormState.HandleSwipeRight | src/screens/AddExpenseScreen.tsx:84-100 | the handler on the form's current amount: nothing saved without an amount, otherwise the expense built from the form appended |

## Left out

- Persistence: the stores' storage on the device (`persist` with AsyncStorage) is not modelled.
- Rendering, navigation, animation, haptics, alerts and the swipe gesture's geometry are not modelled. A right swipe is modelled by the handler it calls. The handler the gesture actually holds is stale, as the second finding below shows.
- Clock, uuid and timestamps: `new Date()`, `uuidv4()` and `toISOString()` are parameters. The model does not check that ids are unique or that timestamps increase.
- Subscriptions.UpcomingRenewals: stated on calendar days, from today to `days` days ahead inclusive. This is the corrected window of the finding below. The store's comparison of instants appears only in `UpcomingRenewalsAsWritten`, which measures time in UTC and ignores daylight-saving shifts of `setDate`.
- SubscriptionList.IsUrgent: `differenceInDays(new Date(date), new Date())` against the wall clock is not modelled. The day count is an input, read as calendar days in the lemmas.
- Time zones: `new Date("yyyy-MM-dd")` is UTC midnight, while date-fns adds and formats in local time. The model treats the billing date arithmetic as working on calendar days. That matches a zone at or east of UTC, where the app's local day and the parsed day agree.
- Dates as text: subscription dates are calendar days, not strings. Texts that are not `yyyy-MM-dd` dates, and years outside 0 to 9999, are not modelled for them.
- Home.DateKey: a text that does not name a day gets key 0. In the app it gives `NaN`, which makes the comparator's order unspecified.
- Money: subscription figures are exact reals. Amounts, expense totals and budgets are unbounded integers. IEEE double rounding (such as that of `× 4.33` and `/ 12`) is not modelled.
- SubscriptionList.FilteredSubscriptions: the `localeCompare` collation is a parameter, `nameRank`, giving each name's collation position. Names that collate equal without being equal are not modelled.
- SubscriptionForm.SubscriptionFormState: the amount field is assumed to hold integer text or nothing (the numeric keyboard). `parseInt` on other text (a trailing non-digit, `NaN`) is not modelled. The text fields' setters are plain field assignments.
- ExpenseForm.ExpenseFormState.SaveExpense: requires a non-empty amount. The disabled button and the swipe handler's guard guarantee that before any call.
- Subscriptions.NextBillingDate: the store's `default:` branch (and that of `toMonthlyAmount`) is unreachable for the three cycles and is not modelled. The store never calls its own `calculateNextBillingDate`; the form uses its copy, which `FormAgreesWithStore` proves equal.
- ExpenseForm.DescriptionOrFallback: the last-resort text `支出` is unreachable, because every category has a named catalogue entry (`FallbackIsCategoryName`).
- The `MonthlyStats` type and the presentational components (`AmountDisplay`, `Card`, `CategoryBadge`, `ProgressBar`) are not part of this model.

## Findings

| source | as written | input that shows it | evidently intended | confidence | as-written member | corrected member |
|---|---|---|---|---|---|---|
| src/stores/subscriptionStore.ts:124-132 | `nextBilling >= today` compares UTC midnight of the billing date with the current instant | a billable subscription whose next billing date is today, asked for at any moment after UTC midnight: it is not listed | renewals due today appear in the list, and the window is today to `days` days ahead | medium; not executed | Subscriptions.DueTodayIsDropped | Subscriptions.UpcomingRenewals |
| src/screens/AddExpenseScreen.tsx:60-100 | the pan responder is created once (`useRef(...).current`), so its release handler calls the first render's `handleSwipeRight`, which reads the first render's `amount`, the empty text | type `1`, `0`, `0`, `0` on the keypad, then swipe right past the threshold: the card springs back and nothing is saved | a right swipe saves the entered amount, as the save button (line 254) does | high; not executed | ExpenseForm.SwipeDropsEnteredAmount | ExpenseForm.ExpenseFormState.HandleSwipeRight |
