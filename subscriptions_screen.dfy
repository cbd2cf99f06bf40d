/** The subscription list screen: the filter tabs and sort orders applied to
    the ledger, the urgency badge, and the count of running contracts. */
module SubscriptionList {
  import opened Util
  import opened Calendar
  import opened Types
  import opened Subscriptions

  datatype FilterType = All | Active | Paused

  datatype SortType = ByAmount | ByNextBilling | ByName

  /** The 'paused' tab's condition: suspended, or cancelled. */
  predicate IsSuspended(s: Subscription)
  {
    s.isPaused || !s.isActive
  }

  /** What a tab keeps. */
  predicate Keeps(filter: FilterType, s: Subscription)
  {
    match filter
    case All => true
    case Active => IsBillable(s)
    case Paused => IsSuspended(s)
  }

  /** `(a, b) => b.amount - a.amount` as an ascending key. */
  function AmountKey(s: Subscription): int
  {
    -s.amount
  }

  /** The comparator each sort order passes to `sort`, as an ascending key.
      `nameRank` is the collation position of a name, the order `localeCompare` decides. */
  function SortKey(sortBy: SortType, nameRank: string -> int): Subscription -> int
  {
    match sortBy
    case ByAmount => AmountKey
    case ByNextBilling => NextBillingKey
    case ByName => (s: Subscription) => nameRank(s.name)
  }

  /** What a list sorted by a sort order's key promises, order by order. */
  lemma SortKeyOrder(sortBy: SortType, nameRank: string -> int, r: seq<Subscription>)
    requires SortedBy(r, SortKey(sortBy, nameRank))
    ensures sortBy == ByAmount ==>
              forall i, j :: 0 <= i < j < |r| ==> r[i].amount >= r[j].amount
    ensures sortBy == ByNextBilling ==>
              forall i, j :: 0 <= i < j < |r| ==> DayNumber(r[i].nextBillingDate) <= DayNumber(r[j].nextBillingDate)
    ensures sortBy == ByName ==>
              forall i, j :: 0 <= i < j < |r| ==> nameRank(r[i].name) <= nameRank(r[j].name)
  {
    var key := SortKey(sortBy, nameRank);
    forall i, j | 0 <= i < j < |r| ensures key(r[i]) <= key(r[j]) {
    }
  }

  /** `filteredSubscriptions`: a copy of the ledger, narrowed by the tab, then
      sorted in place. */
  method FilteredSubscriptions(subscriptions: seq<Subscription>, filter: FilterType, sortBy: SortType,
                               nameRank: string -> int)
    returns (result: seq<Subscription>)
    ensures forall x :: multiset(result)[x] == if Keeps(filter, x) then multiset(subscriptions)[x] else 0
    ensures sortBy == ByAmount ==>
              forall i, j :: 0 <= i < j < |result| ==> result[i].amount >= result[j].amount
    ensures sortBy == ByNextBilling ==>
              forall i, j :: 0 <= i < j < |result| ==> DayNumber(result[i].nextBillingDate) <= DayNumber(result[j].nextBillingDate)
    ensures sortBy == ByName ==>
              forall i, j :: 0 <= i < j < |result| ==> nameRank(result[i].name) <= nameRank(result[j].name)
  {
    result := subscriptions;

    match filter {
      case Active =>
        result := Filter(result, IsBillable);
      case Paused =>
        result := Filter(result, IsSuspended);
      case All =>
    }
    assert forall x :: multiset(result)[x] == if Keeps(filter, x) then multiset(subscriptions)[x] else 0;

    result := SortByKey(result, SortKey(sortBy, nameRank));
    SortKeyOrder(sortBy, nameRank, result);
  }

  /** The 'active' and 'paused' tabs split the ledger: every record is on exactly one of them. */
  lemma TabsPartition(subscriptions: seq<Subscription>)
    ensures forall x :: Keeps(Active, x) != Keeps(Paused, x)
    ensures multiset(Filter(subscriptions, IsBillable)) + multiset(Filter(subscriptions, IsSuspended)) ==
            multiset(subscriptions)
  {
    var ma, mp := multiset(Filter(subscriptions, IsBillable)), multiset(Filter(subscriptions, IsSuspended));
    var ms := multiset(subscriptions);
    forall x ensures (ma + mp)[x] == ms[x] {
      assert ma[x] == if IsBillable(x) then ms[x] else 0;
      assert mp[x] == if IsSuspended(x) then ms[x] else 0;
    }
    assert ma + mp == ms;
  }

  /** `daysUntil <= 3 && daysUntil >= 0`. */
  predicate IsUrgent(daysUntil: int)
  {
    daysUntil <= 3 && daysUntil >= 0
  }

  /** With `daysUntil` counted in calendar days, a card is urgent exactly when
      its billing date lies in the three-day renewal window. */
  lemma UrgentMeansDueWithinThreeDays(today: ValidDate, next: ValidDate)
    ensures IsUrgent(DayNumber(next) - DayNumber(today)) <==> InRenewalWindow(today, 3, next)
  {
  }

  /** An urgent billable card is one the three-day renewal list contains. */
  lemma UrgentCardsAreUpcoming(subscriptions: seq<Subscription>, today: ValidDate, s: Subscription)
    requires s in subscriptions && IsBillable(s)
    ensures IsUrgent(DayNumber(s.nextBillingDate) - DayNumber(today)) <==> s in UpcomingRenewals(subscriptions, today, 3)
  {
    UpcomingRenewalsMembership(subscriptions, today, 3, s);
  }

  /** A contract still running: not cancelled, possibly paused. */
  predicate IsContracted(s: Subscription)
  {
    s.isActive
  }

  predicate IsPausedContract(s: Subscription)
  {
    s.isActive && s.isPaused
  }

  /** `subscriptions.filter(s => s.isActive).length`. */
  function ContractCount(subscriptions: seq<Subscription>): (r: nat)
    ensures r <= |subscriptions|
    ensures (forall x :: x in subscriptions ==> x.isActive) ==> r == |subscriptions|
    ensures (forall x :: x in subscriptions ==> !x.isActive) ==> r == 0
  {
    var contracted := Filter(subscriptions, IsContracted);
    if forall x :: x in subscriptions ==> x.isActive then
      FilterAll(subscriptions, IsContracted);
      |contracted|
    else
      assert contracted != [] ==> contracted[0] in contracted;
      |contracted|
  }

  /** The count includes paused contracts: it is the billable records plus the paused running ones. */
  lemma {:induction false} ContractCountSplit(subscriptions: seq<Subscription>)
    ensures ContractCount(subscriptions) ==
            |ActiveSubscriptions(subscriptions)| + |Filter(subscriptions, IsPausedContract)|
  {
    if subscriptions != [] {
      ContractCountSplit(subscriptions[1..]);
    }
  }
}
