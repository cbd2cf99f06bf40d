/** The subscription ledger: billing-date advancement, normalisation of
    amounts to a monthly figure, the read-only queries over the record list,
    and the store whose actions replace that list. */
module Subscriptions {
  import opened Util
  import opened Calendar
  import opened Types

  /** `calculateNextBillingDate`: the date one billing cycle after `d`. */
  function NextBillingDate(d: ValidDate, cycle: BillingCycle): (r: ValidDate)
    ensures Before(d, r) && DayNumber(d) < DayNumber(r)
    ensures cycle == Weekly ==> DayNumber(r) == DayNumber(d) + 7
    ensures cycle == Monthly ==> (r.year, r.month) == NextMonth(d.year, d.month)
    ensures cycle == Yearly ==> r.year == d.year + 1 && r.month == d.month
  {
    var r := match cycle
      case Weekly => AddWeek(d)
      case Monthly => AddMonth(d)
      case Yearly => AddYear(d);
    DayNumberOrder(d, r);
    r
  }

  /** `toMonthlyAmount`: weekly × 4.33, monthly as is, yearly ÷ 12, exactly (no rounding). */
  function ToMonthlyAmount(amount: int, cycle: BillingCycle): (r: real)
    ensures cycle == Weekly ==> r * 100.0 == amount as real * 433.0
    ensures cycle == Monthly ==> r == amount as real
    ensures cycle == Yearly ==> r * 12.0 == amount as real
    ensures amount >= 0 ==> r >= 0.0
  {
    match cycle
    case Weekly => amount as real * 4.33
    case Monthly => amount as real
    case Yearly => amount as real / 12.0
  }

  /** Normalisation is linear in the amount: the monthly figure of a sum is
      the sum of the monthly figures, and a larger amount never gives a
      smaller figure. */
  lemma ToMonthlyAmountLinear(a: int, b: int, cycle: BillingCycle)
    ensures ToMonthlyAmount(a + b, cycle) == ToMonthlyAmount(a, cycle) + ToMonthlyAmount(b, cycle)
    ensures a <= b ==> ToMonthlyAmount(a, cycle) <= ToMonthlyAmount(b, cycle)
  {
  }

  lemma NormalisationExamples()
    ensures ToMonthlyAmount(100, Weekly) == 433.0
    ensures ToMonthlyAmount(1200, Yearly) == 100.0
    ensures ToMonthlyAmount(980, Monthly) == 980.0
  {
  }

  /** Charged now: not cancelled and not paused. */
  predicate IsBillable(s: Subscription)
  {
    s.isActive && !s.isPaused
  }

  function MonthlyAmount(s: Subscription): real
  {
    ToMonthlyAmount(s.amount, s.billingCycle)
  }

  /** `getActiveSubscriptions`. */
  function ActiveSubscriptions(subs: seq<Subscription>): (r: seq<Subscription>)
    ensures forall x :: x in r <==> x in subs && x.isActive && !x.isPaused
    ensures forall x :: multiset(r)[x] == if x.isActive && !x.isPaused then multiset(subs)[x] else 0
  {
    Filter(subs, IsBillable)
  }

  /** The filter keeps the stored order: it commutes with concatenation, so
      the billable records of `s + t` are those of `s` followed by those of `t`. */
  lemma ActiveSubscriptionsAppend(s: seq<Subscription>, t: seq<Subscription>)
    ensures ActiveSubscriptions(s + t) == ActiveSubscriptions(s) + ActiveSubscriptions(t)
  {
    FilterAppend(s, t, IsBillable);
  }

  /** Sum of the monthly figures of `subs` (the `reduce` step). */
  function SumMonthly(subs: seq<Subscription>): real
  {
    if subs == [] then 0.0 else MonthlyAmount(subs[0]) + SumMonthly(subs[1..])
  }

  /** `getMonthlyTotal`. */
  function MonthlyTotal(subs: seq<Subscription>): (r: real)
    ensures (forall x :: x in subs ==> !IsBillable(x)) ==> r == 0.0
    ensures (forall x :: x in subs ==> x.amount >= 0) ==> r >= 0.0
  {
    var active := ActiveSubscriptions(subs);
    if forall x :: x in subs ==> x.amount >= 0 then
      SumMonthlyNonNegative(active);
      SumMonthly(active)
    else
      SumMonthly(active)
  }

  /** `getYearlyTotal`: derived from the monthly figure, never computed separately. */
  function YearlyTotal(subs: seq<Subscription>): (r: real)
    ensures r / 12.0 == MonthlyTotal(subs)
    ensures (forall x :: x in subs ==> x.amount >= 0) ==> r >= 0.0
  {
    MonthlyTotal(subs) * 12.0
  }

  lemma {:induction false} SumMonthlyAppend(s: seq<Subscription>, t: seq<Subscription>)
    ensures SumMonthly(s + t) == SumMonthly(s) + SumMonthly(t)
  {
    if s == [] {
      assert s + t == t;
    } else {
      assert (s + t)[1..] == s[1..] + t;
      SumMonthlyAppend(s[1..], t);
    }
  }

  /** A record adds its monthly figure to the total when it is billable, and nothing otherwise. */
  lemma MonthlyTotalAppend(subs: seq<Subscription>, x: Subscription)
    ensures MonthlyTotal(subs + [x]) == MonthlyTotal(subs) + if IsBillable(x) then MonthlyAmount(x) else 0.0
  {
    FilterAppend(subs, [x], IsBillable);
    SumMonthlyAppend(Filter(subs, IsBillable), Filter([x], IsBillable));
  }

  lemma MonthlyTotalCons(x: Subscription, subs: seq<Subscription>)
    ensures MonthlyTotal([x] + subs) == (if IsBillable(x) then MonthlyAmount(x) else 0.0) + MonthlyTotal(subs)
  {
    FilterAppend([x], subs, IsBillable);
    SumMonthlyAppend(Filter([x], IsBillable), Filter(subs, IsBillable));
  }

  /** A cancelled record is left out of the total whatever its paused flag. */
  lemma CancelledNotCounted(s: seq<Subscription>, x: Subscription, t: seq<Subscription>)
    requires !x.isActive
    ensures MonthlyTotal(s + [x] + t) == MonthlyTotal(s + t)
  {
    var a, b := Filter(s, IsBillable), Filter(t, IsBillable);
    FilterAppend(s + [x], t, IsBillable);
    FilterAppend(s, [x], IsBillable);
    FilterAppend(s, t, IsBillable);
    assert Filter([x], IsBillable) == [];
    assert a + [] == a;
    calc {
      Filter(s + [x] + t, IsBillable);
      Filter(s + [x], IsBillable) + b;
      a + b;
      Filter(s + t, IsBillable);
    }
  }

  /** The yearly total grows by a record's yearly cost: 52 × 0.999… weeks, 12 months or the amount itself. */
  lemma YearlyTotalAppend(subs: seq<Subscription>, x: Subscription)
    ensures YearlyTotal(subs + [x]) == YearlyTotal(subs) +
      if !IsBillable(x) then 0.0
      else match x.billingCycle
        case Weekly => x.amount as real * 51.96
        case Monthly => x.amount as real * 12.0
        case Yearly => x.amount as real
  {
    MonthlyTotalAppend(subs, x);
  }

  /** With non-negative amounts the totals are non-negative. */
  lemma {:induction false} SumMonthlyNonNegative(subs: seq<Subscription>)
    requires forall i :: 0 <= i < |subs| ==> subs[i].amount >= 0
    ensures SumMonthly(subs) >= 0.0
  {
    if subs != [] {
      SumMonthlyNonNegative(subs[1..]);
    }
  }

  /** Billing date as a day number: the sort key of `getTime()`. */
  function NextBillingKey(s: Subscription): int
  {
    DayNumber(s.nextBillingDate)
  }

  /** Inclusive window [today, today + days], compared by calendar day. */
  predicate InRenewalWindow(today: ValidDate, days: int, d: ValidDate)
  {
    DayNumber(today) <= DayNumber(d) <= DayNumber(today) + days
  }

  /** `getUpcomingRenewals(days)`: billable records due in the window, earliest first. */
  function UpcomingRenewals(subs: seq<Subscription>, today: ValidDate, days: int): (r: seq<Subscription>)
    ensures forall x :: multiset(r)[x] ==
                        if IsBillable(x) && InRenewalWindow(today, days, x.nextBillingDate) then multiset(subs)[x] else 0
    ensures forall i, j :: 0 <= i < j < |r| ==> DayNumber(r[i].nextBillingDate) <= DayNumber(r[j].nextBillingDate)
  {
    var due := Filter(subs, x => IsBillable(x) && InRenewalWindow(today, days, x.nextBillingDate));
    var r := SortByKey(due, NextBillingKey);
    assert SortedBy(r, NextBillingKey);
    r
  }

  /** Membership in the renewal list, both ways. */
  lemma UpcomingRenewalsMembership(subs: seq<Subscription>, today: ValidDate, days: int, x: Subscription)
    ensures x in UpcomingRenewals(subs, today, days) <==>
      x in subs && x.isActive && !x.isPaused &&
      DayNumber(today) <= DayNumber(x.nextBillingDate) <= DayNumber(today) + days
  {
    var r := UpcomingRenewals(subs, today, days);
    assert x in r <==> multiset(r)[x] > 0;
    assert x in subs <==> multiset(subs)[x] > 0;
  }

  /** How `new Date(text)` reads a `yyyy-MM-dd` text: midnight UTC of that
      day, in minutes on the day-number scale. */
  function MidnightUtc(d: ValidDate): int
  {
    DayNumber(d) * 1440
  }

  /** The window as the store writes it: `nextBilling >= today && nextBilling <= futureDate`,
      where `today` is the current instant, `minute` minutes into the UTC day
      `day`, and `futureDate` is the same instant `days` days later. */
  predicate InRenewalWindowAsWritten(day: ValidDate, minute: int, days: int, d: ValidDate)
  {
    DayNumber(day) * 1440 + minute <= MidnightUtc(d) <= DayNumber(day) * 1440 + minute + days * 1440
  }

  /** `getUpcomingRenewals(days)` with the instant comparison as written. */
  function UpcomingRenewalsAsWritten(subs: seq<Subscription>, day: ValidDate, minute: int, days: int): (r: seq<Subscription>)
    ensures forall x :: multiset(r)[x] ==
                        if IsBillable(x) && InRenewalWindowAsWritten(day, minute, days, x.nextBillingDate)
                        then multiset(subs)[x] else 0
    ensures forall i, j :: 0 <= i < j < |r| ==> DayNumber(r[i].nextBillingDate) <= DayNumber(r[j].nextBillingDate)
  {
    var due := Filter(subs, x => IsBillable(x) && InRenewalWindowAsWritten(day, minute, days, x.nextBillingDate));
    var r := SortByKey(due, NextBillingKey);
    assert SortedBy(r, NextBillingKey);
    r
  }

  /** At any moment after midnight UTC the written window is shifted by a day:
      it leaves out today and takes in the day `days` days ahead. */
  lemma AsWrittenWindowIsShifted(day: ValidDate, minute: int, days: int, d: ValidDate)
    requires 0 < minute < 1440
    ensures InRenewalWindowAsWritten(day, minute, days, d) <==>
            DayNumber(day) < DayNumber(d) <= DayNumber(day) + days
  {
    var k := DayNumber(d) - DayNumber(day);
    assert MidnightUtc(d) - DayNumber(day) * 1440 == k * 1440;
    if k >= 1 {
      assert k * 1440 >= 1440;
    } else {
      assert k * 1440 <= 0;
    }
    if k <= days {
      assert k * 1440 <= days * 1440;
    } else {
      assert k * 1440 >= days * 1440 + 1440;
    }
  }

  /** Only at midnight UTC does the written window agree with the calendar window. */
  lemma AsWrittenAtMidnight(day: ValidDate, days: int, d: ValidDate)
    ensures InRenewalWindowAsWritten(day, 0, days, d) <==> InRenewalWindow(day, days, d)
  {
    var k := DayNumber(d) - DayNumber(day);
    assert MidnightUtc(d) - DayNumber(day) * 1440 == k * 1440;
    if k >= 0 {
      assert k * 1440 >= 0;
    } else {
      assert k * 1440 < 0;
    }
    if k <= days {
      assert k * 1440 <= days * 1440;
    } else {
      assert k * 1440 > days * 1440;
    }
  }

  /** A billable subscription due today is missing from the list as written
      once the UTC day has begun, while the calendar window lists it. */
  lemma DueTodayIsDropped(subs: seq<Subscription>, day: ValidDate, minute: int, days: int, s: Subscription)
    requires s in subs && IsBillable(s) && s.nextBillingDate == day
    requires 0 < minute < 1440 && days >= 0
    ensures s !in UpcomingRenewalsAsWritten(subs, day, minute, days)
    ensures s in UpcomingRenewals(subs, day, days)
  {
    AsWrittenWindowIsShifted(day, minute, days, s.nextBillingDate);
    var r := UpcomingRenewalsAsWritten(subs, day, minute, days);
    assert multiset(r)[s] == 0;
    UpcomingRenewalsMembership(subs, day, days, s);
  }

  /** `Omit<Subscription, 'id' | 'createdAt' | 'updatedAt'>`: what `addSubscription` receives. */
  datatype SubscriptionFields = SubscriptionFields(
    name: string,
    amount: int,
    billingCycle: BillingCycle,
    category: CategoryType,
    startDate: ValidDate,
    nextBillingDate: ValidDate,
    description: Option<string>,
    icon: Option<string>,
    color: Option<string>,
    isActive: bool,
    isPaused: bool)

  /** `Partial<Subscription>`: each present key overwrites the record's field.
      For the optional fields, `Some(None)` is a key present with value `undefined`,
      which the object spread copies, clearing the field. `updatedAt` is left
      out because the store always overwrites it. */
  datatype SubscriptionPatch = SubscriptionPatch(
    id: Option<string>,
    name: Option<string>,
    amount: Option<int>,
    billingCycle: Option<BillingCycle>,
    category: Option<CategoryType>,
    startDate: Option<ValidDate>,
    nextBillingDate: Option<ValidDate>,
    description: Option<Option<string>>,
    icon: Option<Option<string>>,
    color: Option<Option<string>>,
    isActive: Option<bool>,
    isPaused: Option<bool>,
    createdAt: Option<string>)

  /** `{ ...f, id, createdAt: now, updatedAt: now }`. */
  function NewSubscription(f: SubscriptionFields, id: string, now: string): Subscription
  {
    SubscriptionRecord(id, f.name, f.amount, f.billingCycle, f.category, f.startDate, f.nextBillingDate,
      f.description, f.icon, f.color, f.isActive, f.isPaused, now, now)
  }

  /** `{ ...s, ...p, updatedAt: now }`. */
  function Merge(s: Subscription, p: SubscriptionPatch, now: string): (r: Subscription)
    ensures r.id == (if p.id.Some? then p.id.value else s.id)
    ensures r.name == (if p.name.Some? then p.name.value else s.name)
    ensures r.amount == (if p.amount.Some? then p.amount.value else s.amount)
    ensures r.billingCycle == (if p.billingCycle.Some? then p.billingCycle.value else s.billingCycle)
    ensures r.category == (if p.category.Some? then p.category.value else s.category)
    ensures r.startDate == (if p.startDate.Some? then p.startDate.value else s.startDate)
    ensures r.nextBillingDate == (if p.nextBillingDate.Some? then p.nextBillingDate.value else s.nextBillingDate)
    ensures r.description == (if p.description.Some? then p.description.value else s.description)
    ensures r.icon == (if p.icon.Some? then p.icon.value else s.icon)
    ensures r.color == (if p.color.Some? then p.color.value else s.color)
    ensures r.isActive == (if p.isActive.Some? then p.isActive.value else s.isActive)
    ensures r.isPaused == (if p.isPaused.Some? then p.isPaused.value else s.isPaused)
    ensures r.createdAt == (if p.createdAt.Some? then p.createdAt.value else s.createdAt)
    ensures r.updatedAt == now
  {
    SubscriptionRecord(
      Override(p.id, s.id), Override(p.name, s.name), Override(p.amount, s.amount),
      Override(p.billingCycle, s.billingCycle), Override(p.category, s.category),
      Override(p.startDate, s.startDate), Override(p.nextBillingDate, s.nextBillingDate),
      Override(p.description, s.description), Override(p.icon, s.icon), Override(p.color, s.color),
      Override(p.isActive, s.isActive), Override(p.isPaused, s.isPaused),
      Override(p.createdAt, s.createdAt), now)
  }

  /** An empty patch changes only the timestamp, and merging the same patch
      again changes nothing but the timestamp. */
  lemma MergeLaws(s: Subscription, p: SubscriptionPatch, now: string, later: string)
    ensures p == SubscriptionPatch(None, None, None, None, None, None, None, None, None, None, None, None, None) ==>
              Merge(s, p, now) == s.(updatedAt := now)
    ensures Merge(Merge(s, p, now), p, later) == Merge(s, p, later)
  {
  }

  /** The list `updateSubscription(id, p)` stores: records with the id merged, the rest untouched. */
  function Updated(subs: seq<Subscription>, id: string, p: SubscriptionPatch, now: string): (r: seq<Subscription>)
    ensures |r| == |subs|
    ensures forall i :: 0 <= i < |subs| ==> r[i] == if subs[i].id == id then Merge(subs[i], p, now) else subs[i]
  {
    MapIf(subs, (x: Subscription) => x.id == id, (x: Subscription) => Merge(x, p, now))
  }

  /** The list `togglePause(id)` stores. */
  function Toggled(subs: seq<Subscription>, id: string, now: string): (r: seq<Subscription>)
    ensures |r| == |subs|
    ensures forall i :: 0 <= i < |subs| ==>
      r[i] == if subs[i].id == id then subs[i].(isPaused := !subs[i].isPaused, updatedAt := now) else subs[i]
  {
    MapIf(subs, (x: Subscription) => x.id == id, (x: Subscription) => x.(isPaused := !x.isPaused, updatedAt := now))
  }

  /** The list `cancelSubscription(id)` stores. */
  function Cancelled(subs: seq<Subscription>, id: string, now: string): (r: seq<Subscription>)
    ensures |r| == |subs|
    ensures forall i :: 0 <= i < |subs| ==>
      r[i] == if subs[i].id == id then subs[i].(isActive := false, updatedAt := now) else subs[i]
  {
    MapIf(subs, (x: Subscription) => x.id == id, (x: Subscription) => x.(isActive := false, updatedAt := now))
  }

  predicate HasOtherId(id: string, x: Subscription)
  {
    x.id != id
  }

  /** The list `deleteSubscription(id)` stores. */
  function Without(subs: seq<Subscription>, id: string): (r: seq<Subscription>)
    ensures forall x :: multiset(r)[x] == if x.id != id then multiset(subs)[x] else 0
  {
    Filter(subs, x => HasOtherId(id, x))
  }

  /** Deletion keeps the other records in order: it commutes with concatenation. */
  lemma WithoutAppend(s: seq<Subscription>, t: seq<Subscription>, id: string)
    ensures Without(s + t, id) == Without(s, id) + Without(t, id)
  {
    FilterAppend(s, t, x => HasOtherId(id, x));
  }

  /** Unknown ids: update, toggle, cancel and delete leave the list as it was. */
  lemma UnknownIdChangesNothing(subs: seq<Subscription>, id: string, p: SubscriptionPatch, now: string)
    requires forall i :: 0 <= i < |subs| ==> subs[i].id != id
    ensures Updated(subs, id, p, now) == subs
    ensures Toggled(subs, id, now) == subs
    ensures Cancelled(subs, id, now) == subs
    ensures Without(subs, id) == subs
  {
    FilterAll(subs, x => HasOtherId(id, x));
  }

  /** Toggling twice restores every field except the update timestamp. */
  lemma ToggleTwice(subs: seq<Subscription>, id: string, now1: string, now2: string)
    ensures Toggled(Toggled(subs, id, now1), id, now2) ==
      MapIf(subs, (x: Subscription) => x.id == id, (x: Subscription) => x.(updatedAt := now2))
  {
    var a := Toggled(Toggled(subs, id, now1), id, now2);
    var b := MapIf(subs, (x: Subscription) => x.id == id, (x: Subscription) => x.(updatedAt := now2));
    assert |a| == |b|;
    assert forall i :: 0 <= i < |a| ==> a[i] == b[i];
  }

  /** Cancelling is idempotent up to the timestamp of the last call. */
  lemma CancelIdempotent(subs: seq<Subscription>, id: string, now1: string, now2: string)
    ensures Cancelled(Cancelled(subs, id, now1), id, now2) == Cancelled(subs, id, now2)
  {
    var a := Cancelled(Cancelled(subs, id, now1), id, now2);
    var b := Cancelled(subs, id, now2);
    assert |a| == |b|;
    assert forall i :: 0 <= i < |a| ==> a[i] == b[i];
  }

  lemma CancelledCons(x: Subscription, rest: seq<Subscription>, id: string, now: string)
    ensures Cancelled([x] + rest, id, now) ==
      [if x.id == id then x.(isActive := false, updatedAt := now) else x] + Cancelled(rest, id, now)
  {
    var c, cr := Cancelled([x] + rest, id, now), Cancelled(rest, id, now);
    var y := if x.id == id then x.(isActive := false, updatedAt := now) else x;
    assert |c| == |[y] + cr|;
    forall i | 0 <= i < |c| ensures c[i] == ([y] + cr)[i] {
      if i > 0 {
        assert ([x] + rest)[i] == rest[i - 1];
      }
    }
  }

  lemma WithoutCons(x: Subscription, rest: seq<Subscription>, id: string)
    ensures Without([x] + rest, id) == (if x.id == id then [] else [x]) + Without(rest, id)
  {
    WithoutAppend([x], rest, id);
    assert Without([x], id) == if x.id == id then [] else [x];
  }

  /** For the totals, cancelling a subscription is the same as deleting it. */
  lemma {:induction false} CancelledCountsAsDeleted(subs: seq<Subscription>, id: string, now: string)
    ensures MonthlyTotal(Cancelled(subs, id, now)) == MonthlyTotal(Without(subs, id))
  {
    if subs != [] {
      HeadTail(subs);
      CancelledCountsAsDeleted(subs[1..], id, now);
      CancelledStep(subs[0], subs[1..], id, now);
    }
  }

  /** The inductive step of `CancelledCountsAsDeleted`: one more record in front. */
  lemma CancelledStep(x: Subscription, rest: seq<Subscription>, id: string, now: string)
    requires MonthlyTotal(Cancelled(rest, id, now)) == MonthlyTotal(Without(rest, id))
    ensures MonthlyTotal(Cancelled([x] + rest, id, now)) == MonthlyTotal(Without([x] + rest, id))
  {
    var c, w := Cancelled(rest, id, now), Without(rest, id);
    var y := if x.id == id then x.(isActive := false, updatedAt := now) else x;
    CancelledCons(x, rest, id, now);
    WithoutCons(x, rest, id);
    MonthlyTotalCons(y, c);
    var front := if IsBillable(y) then MonthlyAmount(y) else 0.0;
    var total := MonthlyTotal(c);
    assert MonthlyTotal(Cancelled([x] + rest, id, now)) == front + total;
    if x.id != id {
      MonthlyTotalCons(x, w);
      assert MonthlyTotal(Without([x] + rest, id)) == front + total;
    } else {
      assert [] + w == w;
      assert MonthlyTotal(Without([x] + rest, id)) == total;
      assert front == 0.0;
    }
  }

  /** The subscription store: its state is the record list, which every action replaces. */
  class SubscriptionStore {
    var subscriptions: seq<Subscription>

    constructor ()
      ensures subscriptions == []
    {
      subscriptions := [];
    }

    /** Appends one record built from `f`, with a fresh id and `createdAt == updatedAt == now`. */
    method AddSubscription(f: SubscriptionFields, freshId: string, now: string)
      modifies this
      ensures subscriptions == old(subscriptions) + [NewSubscription(f, freshId, now)]
    {
      subscriptions := subscriptions + [NewSubscription(f, freshId, now)];
    }

    method UpdateSubscription(id: string, p: SubscriptionPatch, now: string)
      modifies this
      ensures subscriptions == Updated(old(subscriptions), id, p, now)
    {
      subscriptions := Updated(subscriptions, id, p, now);
    }

    method DeleteSubscription(id: string)
      modifies this
      ensures subscriptions == Without(old(subscriptions), id)
    {
      subscriptions := Without(subscriptions, id);
    }

    method TogglePause(id: string, now: string)
      modifies this
      ensures subscriptions == Toggled(old(subscriptions), id, now)
    {
      subscriptions := Toggled(subscriptions, id, now);
    }

    method CancelSubscription(id: string, now: string)
      modifies this
      ensures subscriptions == Cancelled(old(subscriptions), id, now)
    {
      subscriptions := Cancelled(subscriptions, id, now);
    }
  }
}
