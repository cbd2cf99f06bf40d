/** The swipe-to-save expense entry screen: the amount buffer driven by the
    keypad, the guards against saving without an amount, and the expense it saves. */
module ExpenseForm {
  import opened Util
  import opened Calendar
  import opened Numerals
  import opened DateText
  import opened Types
  import opened Expenses

  /** The keypad's labels, row by row: `1`–`9`, then `00`, `0` and `delete`. */
  const Keypad: seq<string> := ["1", "2", "3", "4", "5", "6", "7", "8", "9", "00", "0", "delete"]

  /** `handleNumberPress` on the previous buffer: `delete` drops the last
      character (`slice(0, -1)`, which leaves the empty buffer empty), any other
      label is appended. */
  function Pressed(prev: string, num: string): (r: string)
    ensures num == "delete" ==> |r| == (if prev == [] then 0 else |prev| - 1) && r == prev[..|r|]
    ensures num != "delete" ==> |r| == |prev| + |num| && r[..|prev|] == prev && r[|prev|..] == num
  {
    if num == "delete" then
      (if prev == [] then [] else prev[..|prev| - 1])
    else
      prev + num
  }

  /** Every label but `delete` is one or two digits. */
  lemma KeypadLabels()
    ensures forall num :: num in Keypad && num != "delete" ==> IsDigits(num) && 1 <= |num| <= 2
    ensures forall num :: num in Keypad && |num| == 2 ==> num == "00"
  {
  }

  /** A key is `delete` or digits. */
  lemma KeyIsDigitsOrDelete(num: string)
    requires num in Keypad
    ensures num == "delete" || IsDigits(num)
  {
    KeypadLabels();
  }

  /** Keypad presses keep the buffer a string of decimal digits. */
  lemma PressedKeepsDigits(prev: string, num: string)
    requires IsDigits(prev)
    requires num == "delete" || IsDigits(num)
    ensures IsDigits(Pressed(prev, num))
  {
    if num != "delete" {
      var r := prev + num;
      forall i | 0 <= i < |r| ensures IsDigit(r[i]) {
        if i >= |prev| {
          assert r[i] == num[i - |prev|];
        }
      }
    }
  }

  /** A digit key shifts the amount the buffer reads as by one place and adds the digit. */
  lemma DigitPressValue(prev: string, c: char)
    requires IsDigits(prev) && IsDigit(c)
    ensures DigitsValue(Pressed(prev, [c])) == DigitsValue(prev) * 10 + (c - '0') as int
  {
    AppendDigitValue(prev, c);
  }

  /** `00` shifts the amount by two places. */
  lemma DoubleZeroValue(prev: string)
    requires IsDigits(prev)
    ensures DigitsValue(Pressed(prev, "00")) == DigitsValue(prev) * 100
  {
    AppendDigitValue(prev, '0');
    AppendDigitValue(prev + ['0'], '0');
    assert prev + "00" == prev + ['0'] + ['0'];
  }

  /** `delete` drops the last place of the amount. */
  lemma DeleteValue(prev: string)
    requires IsDigits(prev)
    ensures DigitsValue(Pressed(prev, "delete")) == DigitsValue(prev) / 10
  {
    if prev != [] {
      var init, c := prev[..|prev| - 1], prev[|prev| - 1];
      AppendDigitValue(init, c);
      assert prev == init + [c];
    }
  }

  /** A one-character key followed by `delete` restores the buffer; so does a
      two-character key (`00`) followed by two presses of `delete`. */
  lemma DeleteUndoesPress(prev: string, num: string)
    requires num != "delete"
    ensures |num| == 1 ==> Pressed(Pressed(prev, num), "delete") == prev
    ensures |num| == 2 ==> Pressed(Pressed(Pressed(prev, num), "delete"), "delete") == prev
  {
    var r := prev + num;
    if |num| == 1 {
      assert r[..|r| - 1] == prev;
    } else if |num| == 2 {
      var once := prev + [num[0]];
      assert r[..|r| - 1] == once;
      assert once[..|once| - 1] == prev;
    }
  }

  /** `description || category name || '支出'`. */
  function DescriptionOrFallback(description: string, category: CategoryType): string
  {
    if description != "" then description
    else
      match FindCategory(Catalogue, category)
      case Some(c) => if c.name != "" then c.name else "支出"
      case None => "支出"
  }

  /** The fallback is the category's catalogue name; the last resort `支出` is
      never used, since every category has a named entry. */
  lemma FallbackIsCategoryName(description: string, category: CategoryType)
    ensures description != "" ==> DescriptionOrFallback(description, category) == description
    ensures description == "" ==> DescriptionOrFallback(description, category) == Catalogue[CategoryIndex(category)].name
    ensures DescriptionOrFallback(description, category) != ""
  {
    CatalogueLookupSucceeds(category);
  }

  /** The record `saveExpense` hands to `addExpense`. */
  function SavedFields(amount: string, category: CategoryType, description: string, date: string): ExpenseFields
    requires IsDigits(amount)
  {
    ExpenseFields(DigitsValue(amount), category, DescriptionOrFallback(description, category), date, None, false)
  }

  /** An expense saved today adds its amount to this month's total. */
  lemma SavedExpenseCountsThisMonth(expenses: seq<Expense>, today: ValidDate, amount: string,
                                    category: CategoryType, description: string, id: string, now: string)
    requires FourDigitYear(today) && IsDigits(amount)
    ensures var e := NewExpense(SavedFields(amount, category, description, FormatDate(today)), id, now);
      TotalByMonth(expenses + [e], FormatMonth(today)) == TotalByMonth(expenses, FormatMonth(today)) + DigitsValue(amount)
  {
    var e := NewExpense(SavedFields(amount, category, description, FormatDate(today)), id, now);
    MonthPrefix(today, today);
    TotalByMonthAppend(expenses, e, FormatMonth(today));
  }

  /** The ledger after a right swipe whose handler reads the amount `seen`
      (`handleSwipeRight`): unchanged without an amount, otherwise the saved
      record appended. */
  function SwipeRightResult(expenses: seq<Expense>, seen: string, category: CategoryType, description: string,
                            date: string, id: string, now: string): (r: seq<Expense>)
    requires IsDigits(seen)
    ensures seen == "" ==> r == expenses
    ensures seen != "" ==> |r| == |expenses| + 1 && r[..|expenses|] == expenses &&
                           r[|expenses|].amount == DigitsValue(seen) && r[|expenses|].date == date
  {
    if seen == "" then expenses
    else expenses + [NewExpense(SavedFields(seen, category, description, date), id, now)]
  }

  /** The amount the first render holds (`useState('')`). */
  const FirstRenderAmount: string := ""

  /** The right swipe as the gesture runs it: the pan responder is created once
      (`useRef(...).current`), so its release handler calls the first render's
      `handleSwipeRight`, which reads the first render's amount, not `amount`. */
  function SwipeRightAsWritten(expenses: seq<Expense>, amount: string, category: CategoryType, description: string,
                               date: string, id: string, now: string): (r: seq<Expense>)
    ensures r == expenses
  {
    SwipeRightResult(expenses, FirstRenderAmount, category, description, date, id, now)
  }

  /** As written, a right swipe after entering an amount saves nothing, where
      the handler on the current amount saves one record. */
  lemma SwipeDropsEnteredAmount(expenses: seq<Expense>, amount: string, category: CategoryType, description: string,
                                date: string, id: string, now: string)
    requires IsDigits(amount) && amount != ""
    ensures SwipeRightAsWritten(expenses, amount, category, description, date, id, now) == expenses
    ensures |SwipeRightResult(expenses, amount, category, description, date, id, now)| == |expenses| + 1
  {
  }

  /** The entry screen's state; `date` is today's `yyyy-MM-dd`, fixed when the screen opens. */
  class ExpenseFormState {
    var amount: string
    var category: CategoryType
    var description: string
    const date: string

    ghost predicate Valid()
      reads this
    {
      IsDigits(amount)
    }

    constructor (today: ValidDate)
      requires FourDigitYear(today)
      ensures amount == "" && category == Food && description == ""
      ensures date == FormatDate(today)
      ensures Valid()
    {
      amount := "";
      category := Food;
      description := "";
      date := FormatDate(today);
    }

    /** `handleNumberPress` for a keypad label. */
    method HandleNumberPress(num: string)
      requires Valid() && num in Keypad
      modifies this
      ensures Valid()
      ensures amount == Pressed(old(amount), num)
      ensures category == old(category) && description == old(description)
    {
      KeyIsDigitsOrDelete(num);
      PressedKeepsDigits(amount, num);
      if num == "delete" {
        amount := if amount == [] then [] else amount[..|amount| - 1];
      } else if num == "00" {
        amount := amount + "00";
      } else {
        amount := amount + num;
      }
    }

    /** `saveExpense`: appends the expense built from the form. It is reached
        only with an amount: the save button is disabled while the amount is
        empty (`disabled={!amount}`), and the swipe checks first. */
    method SaveExpense(store: ExpenseStore, freshId: string, now: string)
      requires Valid() && amount != ""
      modifies store
      ensures store.expenses == old(store.expenses) +
                [NewExpense(SavedFields(amount, category, description, date), freshId, now)]
      ensures store.expenses[|store.expenses| - 1].isRecurring == false
      ensures store.expenses[|store.expenses| - 1].date == date
    {
      store.AddExpense(SavedFields(amount, category, description, date), freshId, now);
    }

    /** `handleSwipeRight`: without an amount the card springs back and nothing is saved. */
    method HandleSwipeRight(store: ExpenseStore, freshId: string, now: string)
      requires Valid()
      modifies store
      ensures store.expenses == SwipeRightResult(old(store.expenses), amount, category, description, date, freshId, now)
    {
      if amount == "" {
        return;
      }
      SaveExpense(store, freshId, now);
    }
  }
}
