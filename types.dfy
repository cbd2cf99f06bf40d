/** The domain records of the tracker and its two constant tables: the
    category catalogue (default budgets) and the popular-subscription presets. */
module Types {
  import opened Util
  import opened Calendar

  datatype CategoryType =
    | Food | Transport | Utilities | Entertainment | Shopping
    | Subscription | Communication | Health | Other

  datatype BillingCycle = Weekly | Monthly | Yearly

  /** A catalogue entry; `categoryType` is the source's `type` field. */
  datatype Category = Category(id: string, name: string, categoryType: CategoryType, icon: string, budget: int)

  /** A one-off expense. `date` is the `yyyy-MM-dd` text the entry screen stores. */
  datatype Expense = Expense(
    id: string,
    amount: int,
    category: CategoryType,
    description: string,
    date: string,
    receiptImage: Option<string>,
    isRecurring: bool,
    createdAt: string,
    updatedAt: string)

  /** A recurring payment. `isActive == false` means cancelled; `isPaused` means suspended. */
  datatype Subscription = SubscriptionRecord(
    id: string,
    name: string,
    amount: int,
    billingCycle: BillingCycle,
    category: CategoryType,
    startDate: ValidDate,
    nextBillingDate: ValidDate,
    description: Option<string>,
    icon: Option<string>,
    color: Option<string>,
    isActive: bool,
    isPaused: bool,
    createdAt: string,
    updatedAt: string)

  /** A month's budget (`month` is `yyyy-MM`). `categoryBudgets` is partial:
      a category may have no entry. */
  datatype Budget = Budget(id: string, month: string, totalBudget: int, categoryBudgets: map<CategoryType, int>)

  datatype SubscriptionPreset = SubscriptionPreset(
    name: string,
    icon: string,
    defaultAmount: Option<int>,
    billingCycle: BillingCycle,
    category: CategoryType)

  /** Every value of `CategoryType`, in declaration order. */
  const AllCategoryTypes: seq<CategoryType> :=
    [Food, Transport, Utilities, Entertainment, Shopping, CategoryType.Subscription, Communication, Health, Other]

  /** `DEFAULT_CATEGORIES`. */
  const Catalogue: seq<Category> := [
    Category("1", "食費", Food, "🍽️", 50000),
    Category("2", "交通費", Transport, "🚃", 15000),
    Category("3", "光熱費", Utilities, "💡", 15000),
    Category("4", "娯楽", Entertainment, "🎮", 20000),
    Category("5", "買い物", Shopping, "🛍️", 30000),
    Category("6", "サブスク", CategoryType.Subscription, "📱", 10000),
    Category("7", "通信費", Communication, "📶", 10000),
    Category("8", "医療", Health, "🏥", 10000),
    Category("9", "その他", Other, "📝", 20000)
  ]

  /** `SUBSCRIPTION_PRESETS`. */
  const Presets: seq<SubscriptionPreset> := [
    SubscriptionPreset("Netflix", "🎬", Some(1490), Monthly, CategoryType.Subscription),
    SubscriptionPreset("Amazon Prime", "📦", Some(600), Monthly, CategoryType.Subscription),
    SubscriptionPreset("Spotify", "🎵", Some(980), Monthly, CategoryType.Subscription),
    SubscriptionPreset("Apple Music", "🍎", Some(1080), Monthly, CategoryType.Subscription),
    SubscriptionPreset("YouTube Premium", "▶️", Some(1280), Monthly, CategoryType.Subscription),
    SubscriptionPreset("Disney+", "🏰", Some(990), Monthly, CategoryType.Subscription),
    SubscriptionPreset("Adobe CC", "🎨", Some(6480), Monthly, CategoryType.Subscription),
    SubscriptionPreset("Microsoft 365", "💼", Some(1284), Monthly, CategoryType.Subscription),
    SubscriptionPreset("iCloud+", "☁️", Some(130), Monthly, CategoryType.Subscription),
    SubscriptionPreset("Nintendo Online", "🎮", Some(306), Monthly, CategoryType.Subscription)
  ]

  /** `cats.reduce((sum, cat) => sum + cat.budget, 0)`. */
  function SumBudgets(cats: seq<Category>): int
  {
    if cats == [] then 0 else SumBudgets(cats[..|cats| - 1]) + cats[|cats| - 1].budget
  }

  /** `cats.find(c => c.type === t)`. */
  function FindCategory(cats: seq<Category>, t: CategoryType): (r: Option<Category>)
    ensures r.Some? <==> exists i :: 0 <= i < |cats| && cats[i].categoryType == t
    ensures r.Some? ==> r.value in cats && r.value.categoryType == t
  {
    if cats == [] then None
    else if cats[0].categoryType == t then Some(cats[0])
    else FindCategory(cats[1..], t)
  }

  /** `CategoryType` has exactly nine values, all distinct. */
  lemma CategoryTypesAreNine()
    ensures |AllCategoryTypes| == 9
    ensures forall t: CategoryType :: t in AllCategoryTypes
    ensures forall i, j :: 0 <= i < j < |AllCategoryTypes| ==> AllCategoryTypes[i] != AllCategoryTypes[j]
  {
    forall t: CategoryType ensures t in AllCategoryTypes {
      assert AllCategoryTypes[CategoryIndex(t)] == t;
    }
  }

  /** The catalogue lists every category exactly once: each entry sits at the
      one position `CategoryIndex` gives its category. */
  lemma CatalogueListsEachCategoryOnce()
    ensures |Catalogue| == |AllCategoryTypes|
    ensures forall i :: 0 <= i < |Catalogue| ==> CategoryIndex(Catalogue[i].categoryType) == i
    ensures forall i, j :: 0 <= i < j < |Catalogue| ==> Catalogue[i].categoryType != Catalogue[j].categoryType
  {
  }

  /** Position of a category in the catalogue. */
  function CategoryIndex(t: CategoryType): (i: nat)
    ensures i < |Catalogue| && Catalogue[i].categoryType == t
    ensures AllCategoryTypes[i] == t
  {
    match t
    case Food => 0
    case Transport => 1
    case Utilities => 2
    case Entertainment => 3
    case Shopping => 4
    case Subscription => 5
    case Communication => 6
    case Health => 7
    case Other => 8
  }

  /** Every category has a catalogue entry with a non-empty name, so looking one up never fails. */
  lemma CatalogueLookupSucceeds(t: CategoryType)
    ensures FindCategory(Catalogue, t) == Some(Catalogue[CategoryIndex(t)])
    ensures Catalogue[CategoryIndex(t)].name != ""
  {
    CatalogueListsEachCategoryOnce();
    FindFirst(Catalogue, t, CategoryIndex(t));
  }

  /** `find` returns the first entry of the wanted category. */
  lemma {:induction false} FindFirst(cats: seq<Category>, t: CategoryType, i: nat)
    requires i < |cats| && cats[i].categoryType == t
    requires forall j :: 0 <= j < i ==> cats[j].categoryType != t
    ensures FindCategory(cats, t) == Some(cats[i])
  {
    if i > 0 {
      var rest := cats[1..];
      assert rest[i - 1] == cats[i];
      assert forall j :: 0 <= j < i - 1 ==> rest[j] == cats[j + 1];
      FindFirst(rest, t, i - 1);
    }
  }

  /** The catalogue's default budgets are positive and add up to 180000. */
  lemma CatalogueBudgets()
    ensures forall i :: 0 <= i < |Catalogue| ==> Catalogue[i].budget > 0
    ensures SumBudgets(Catalogue) == 180000
  {
    assert Catalogue[..0] == [];
    SumBudgetsStep(Catalogue, 0);
    SumBudgetsStep(Catalogue, 1);
    SumBudgetsStep(Catalogue, 2);
    SumBudgetsStep(Catalogue, 3);
    SumBudgetsStep(Catalogue, 4);
    SumBudgetsStep(Catalogue, 5);
    SumBudgetsStep(Catalogue, 6);
    SumBudgetsStep(Catalogue, 7);
    SumBudgetsStep(Catalogue, 8);
    assert Catalogue[..9] == Catalogue;
  }

  /** One more entry adds its budget to the running sum. */
  lemma SumBudgetsStep(cats: seq<Category>, k: nat)
    requires k < |cats|
    ensures SumBudgets(cats[..k + 1]) == SumBudgets(cats[..k]) + cats[k].budget
  {
    assert cats[..k + 1][..k] == cats[..k];
  }


  /** Every preset is a monthly service in the subscription category with a positive default amount. */
  lemma PresetsAreMonthlySubscriptions()
    ensures forall i :: 0 <= i < |Presets| ==>
      Presets[i].billingCycle == Monthly && Presets[i].category == CategoryType.Subscription &&
      Presets[i].defaultAmount.Some? && Presets[i].defaultAmount.value > 0
  {
  }
}
