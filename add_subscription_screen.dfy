/** The subscription form: its state, the preset picker, its own billing-date
    calculation, and the save action that adds a record or updates the one
    being edited. */
module SubscriptionForm {
  import opened Util
  import opened Calendar
  import opened Numerals
  import opened Types
  import opened Subscriptions

  /** The form's `calculateNextBillingDate`: one cycle after `start`. The
      switch has no default branch, as every cycle is handled. */
  function FormNextBillingDate(start: ValidDate, cycle: BillingCycle): (r: ValidDate)
    ensures cycle == Weekly ==> DayNumber(r) == DayNumber(start) + 7
    ensures cycle == Monthly ==> r == AddMonth(start)
    ensures cycle == Yearly ==> r == AddYear(start)
  {
    match cycle
    case Weekly => AddWeek(start)
    case Monthly => AddMonth(start)
    case Yearly => AddYear(start)
  }

  /** The form and the store advance billing dates identically. */
  lemma FormAgreesWithStore(start: ValidDate, cycle: BillingCycle)
    ensures FormNextBillingDate(start, cycle) == NextBillingDate(start, cycle)
    ensures Before(start, FormNextBillingDate(start, cycle))
  {
  }

  /** `subscriptionData` of `handleSave`: the form's values with the amount
      read as an integer, the next billing date one cycle after the start, an
      empty description as `undefined`, and the record made active and unpaused. */
  function SaveFields(name: string, amount: int, cycle: BillingCycle, category: CategoryType,
                      startDate: ValidDate, description: string, icon: string): (f: SubscriptionFields)
    ensures f.isActive && !f.isPaused
    ensures f.startDate == startDate && f.nextBillingDate == NextBillingDate(startDate, cycle)
    ensures f.description.None? <==> description == ""
    ensures f.description.Some? ==> f.description.value == description
  {
    FormAgreesWithStore(startDate, cycle);
    SubscriptionFields(name, amount, cycle, category, startDate, FormNextBillingDate(startDate, cycle),
      if description == "" then None else Some(description), Some(icon), None, true, false)
  }

  /** The same data handed to `updateSubscription`: every key the object
      literal writes is present, `description` even when it is `undefined`;
      `color`, `id` and `createdAt` are absent. */
  function SavePatch(f: SubscriptionFields): (p: SubscriptionPatch)
    ensures p.id.None? && p.color.None? && p.createdAt.None?
    ensures p.name == Some(f.name) && p.amount == Some(f.amount) && p.billingCycle == Some(f.billingCycle)
    ensures p.category == Some(f.category) && p.startDate == Some(f.startDate)
    ensures p.nextBillingDate == Some(f.nextBillingDate) && p.description == Some(f.description)
    ensures p.icon == Some(f.icon) && p.isActive == Some(f.isActive) && p.isPaused == Some(f.isPaused)
  {
    SubscriptionPatch(None, Some(f.name), Some(f.amount), Some(f.billingCycle), Some(f.category),
      Some(f.startDate), Some(f.nextBillingDate), Some(f.description), Some(f.icon), None,
      Some(f.isActive), Some(f.isPaused), None)
  }

  /** Saving over an existing record keeps its id, creation time and colour,
      takes every form value (clearing the description when the field is empty),
      and makes it active and unpaused again, even when it had been cancelled. */
  lemma EditedRecord(s: Subscription, name: string, amount: int, cycle: BillingCycle, category: CategoryType,
                     startDate: ValidDate, description: string, icon: string, now: string)
    ensures var r := Merge(s, SavePatch(SaveFields(name, amount, cycle, category, startDate, description, icon)), now);
      r.id == s.id && r.createdAt == s.createdAt && r.color == s.color && r.updatedAt == now &&
      r.name == name && r.amount == amount && r.billingCycle == cycle && r.category == category &&
      r.startDate == startDate && r.nextBillingDate == NextBillingDate(startDate, cycle) &&
      r.icon == Some(icon) && (r.description.None? <==> description == "") &&
      IsBillable(r)
  {
  }

  /** Editing a cancelled or paused subscription puts its monthly figure back
      into the total. */
  lemma EditReactivates(subs: seq<Subscription>, i: int, f: SubscriptionFields, now: string)
    requires 0 <= i < |subs|
    requires f.isActive && !f.isPaused
    ensures var r := Updated(subs, subs[i].id, SavePatch(f), now);
      IsBillable(r[i]) && r[i].id == subs[i].id
  {
  }

  /** The add/edit screen's state. `editing` is the route's subscription when
      editing; `startDate` has no setter. */
  class SubscriptionFormState {
    var name: string
    var amount: string
    var billingCycle: BillingCycle
    var category: CategoryType
    var description: string
    var icon: string
    var showPresets: bool
    const startDate: ValidDate
    const editing: Option<Subscription>

    /** The amount field holds integer text or nothing (a numeric keyboard). */
    ghost predicate Valid()
      reads this
    {
      amount == "" || IsIntegerText(amount)
    }

    /** The initial state: the edited record's values, or the defaults
        (monthly, category 'subscription', icon 📱, start today). */
    constructor (editing: Option<Subscription>, today: ValidDate)
      ensures this.editing == editing
      ensures name == if editing.Some? then editing.value.name else ""
      ensures amount == if editing.Some? then IntToString(editing.value.amount) else ""
      ensures billingCycle == if editing.Some? then editing.value.billingCycle else Monthly
      ensures category == if editing.Some? then editing.value.category else CategoryType.Subscription
      ensures description == if editing.Some? && editing.value.description.Some? then editing.value.description.value else ""
      ensures icon == if editing.Some? && editing.value.icon.Some? && editing.value.icon.value != "" then editing.value.icon.value else "📱"
      ensures startDate == if editing.Some? then editing.value.startDate else today
      ensures showPresets == editing.None?
      ensures Valid()
    {
      this.editing := editing;
      if editing.Some? {
        var e := editing.value;
        IntRoundTrip(e.amount);
        name := e.name;
        amount := IntToString(e.amount);
        billingCycle := e.billingCycle;
        category := e.category;
        description := if e.description.Some? then e.description.value else "";
        icon := if e.icon.Some? && e.icon.value != "" then e.icon.value else "📱";
        startDate := e.startDate;
      } else {
        name := "";
        amount := "";
        billingCycle := Monthly;
        category := CategoryType.Subscription;
        description := "";
        icon := "📱";
        startDate := today;
      }
      showPresets := editing.None?;
    }

    /** `handlePresetSelect`: takes the preset's name, icon, cycle and category;
        the amount only when the preset has a non-zero default amount. */
    method HandlePresetSelect(preset: SubscriptionPreset)
      requires Valid()
      modifies this
      ensures Valid()
      ensures name == preset.name && icon == preset.icon
      ensures billingCycle == preset.billingCycle && category == preset.category
      ensures amount == if preset.defaultAmount.Some? && preset.defaultAmount.value != 0
                        then IntToString(preset.defaultAmount.value) else old(amount)
      ensures amount != "" && amount != old(amount) ==> ParseInt(amount) == preset.defaultAmount.value
      ensures description == old(description) && !showPresets
    {
      name := preset.name;
      icon := preset.icon;
      if preset.defaultAmount.Some? && preset.defaultAmount.value != 0 {
        IntRoundTrip(preset.defaultAmount.value);
        amount := IntToString(preset.defaultAmount.value);
      }
      billingCycle := preset.billingCycle;
      category := preset.category;
      showPresets := false;
    }

    /** The data `handleSave` sends, once the amount is known to be there. */
    function SaveData(): (f: SubscriptionFields)
      requires Valid() && amount != ""
      reads this
      ensures f.amount == ParseInt(amount) && f.name == name
      ensures f.isActive && !f.isPaused
      ensures f.nextBillingDate == NextBillingDate(startDate, billingCycle)
    {
      SaveFields(name, ParseInt(amount), billingCycle, category, startDate, description, icon)
    }

    /** `handleSave`: nothing without a name and an amount; otherwise the
        edited record is updated by id, or a new record is added. */
    method HandleSave(store: SubscriptionStore, freshId: string, now: string)
      requires Valid()
      modifies store
      ensures name == "" || amount == "" ==> store.subscriptions == old(store.subscriptions)
      ensures name != "" && amount != "" && editing.Some? ==>
                store.subscriptions == Updated(old(store.subscriptions), editing.value.id, SavePatch(SaveData()), now)
      ensures name != "" && amount != "" && editing.None? ==>
                store.subscriptions == old(store.subscriptions) + [NewSubscription(SaveData(), freshId, now)]
    {
      if name == "" || amount == "" {
        return;
      }
      var data := SaveData();
      if editing.Some? {
        store.UpdateSubscription(editing.value.id, SavePatch(data), now);
      } else {
        store.AddSubscription(data, freshId, now);
      }
    }
  }
}
