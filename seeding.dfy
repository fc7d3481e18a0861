/** The category table and its one-time seeding with the six default
    categories. */
module Seeding {
  import opened Text
  import opened Transactions
  import Stats

  /** One stored category; `kind` is the source's `type` field. */
  datatype Category = Category(name: string, kind: Kind, icon: string, color: string, isDefault: bool)

  /** The fixed list of categories the seeding inserts. */
  function DefaultCategories(): (r: seq<Category>)
    ensures |r| == 6
    ensures forall k :: 0 <= k < |r| ==> r[k].isDefault
    ensures forall k :: 0 <= k < |r| ==> (r[k].kind == Income <==> k == 5)
    ensures r[5].name == "Shop Earnings"
  {
    [
      Category("Shop Raw Material", Expense, "Package", "#f59e0b", true),
      Category("Electricity Bills", Expense, "Zap", "#eab308", true),
      Category("Personal Spending", Expense, "User", "#8b5cf6", true),
      Category("Home Spending from Shop", Expense, "Home", "#ec4899", true),
      Category("Other Expenses", Expense, "MoreHorizontal", "#6b7280", true),
      Category("Shop Earnings", Income, "TrendingUp", "#10b981", true)
    ]
  }

  /** The number of categories of one kind. */
  function CountKind(cats: seq<Category>, kind: Kind): nat
  {
    if cats == [] then 0
    else CountKind(cats[..|cats| - 1], kind) + (if cats[|cats| - 1].kind == kind then 1 else 0)
  }

  /** The table holds at least one default category. */
  predicate HasDefault(cats: seq<Category>)
  {
    exists k :: 0 <= k < |cats| && cats[k].isDefault
  }

  /** `Category.find({ isDefault: true })` over the stored table. */
  function FindDefaults(cats: seq<Category>): (r: seq<Category>)
    ensures |r| == 0 <==> !HasDefault(cats)
    ensures forall k :: 0 <= k < |r| ==> r[k].isDefault
  {
    if cats == [] then []
    else
      var rest := FindDefaults(cats[..|cats| - 1]);
      var last := cats[|cats| - 1];
      assert HasDefault(cats) <==> HasDefault(cats[..|cats| - 1]) || last.isDefault by {
        assert forall k :: 0 <= k < |cats| - 1 ==> cats[..|cats| - 1][k] == cats[k];
      }
      if last.isDefault then rest + [last] else rest
  }

  /** The specification of seeding: the table after one serialised call. */
  function Seeded(cats: seq<Category>): (r: seq<Category>)
    ensures |cats| <= |r| && r[..|cats|] == cats
    ensures HasDefault(r)
    ensures r == cats <==> HasDefault(cats)
    ensures r != cats ==> r[|cats|..] == DefaultCategories()
  {
    if |FindDefaults(cats)| == 0 then
      var r := cats + DefaultCategories();
      assert r[|cats|].isDefault;
      r
    else cats
  }

  /** The seeded defaults are five expense categories and one income. */
  lemma DefaultKinds()
    ensures CountKind(DefaultCategories(), Expense) == 5
    ensures CountKind(DefaultCategories(), Income) == 1
  {
    var d := DefaultCategories();
    assert d[..1][..0] == [];
    assert CountKind(d[..1], Expense) == 1 && CountKind(d[..1], Income) == 0;
    assert d[..2][..1] == d[..1];
    assert CountKind(d[..2], Expense) == 2 && CountKind(d[..2], Income) == 0;
    assert d[..3][..2] == d[..2];
    assert CountKind(d[..3], Expense) == 3 && CountKind(d[..3], Income) == 0;
    assert d[..4][..3] == d[..3];
    assert CountKind(d[..4], Expense) == 4 && CountKind(d[..4], Income) == 0;
    assert d[..5][..4] == d[..4];
    assert CountKind(d[..5], Expense) == 5 && CountKind(d[..5], Income) == 0;
    assert d[..5] == d[..|d| - 1];
  }

  /** Seeding a second time, with no call in between, changes nothing. */
  lemma SeedingIdempotent(cats: seq<Category>)
    ensures Seeded(Seeded(cats)) == Seeded(cats)
  {
  }

  // The substring facts about each lower-cased default name, one name at a
  // time, and the bucket they put that name in.

  lemma ShopRawMaterialKeywords(s: string)
    requires s == "shop raw material"
    ensures Contains(s, "raw material")
  {
    assert OccursAt(s, "raw material", 5);
    ContainsIffOccurs(s, "raw material");
  }

  lemma ShopRawMaterialBucket()
    ensures Stats.BucketOf("Shop Raw Material") == Stats.RawMaterial
  {
    ShopRawMaterialKeywords(Lower("Shop Raw Material"));
    Stats.BucketOfChain("Shop Raw Material");
  }

  lemma ElectricityBillsKeywords(s: string)
    requires s == "electricity bills"
    ensures !Contains(s, "raw material") && Contains(s, "electricity")
  {
    assert 'w' !in s && 'w' in "raw material" && "electricity" <= s;
    MissingCharRulesOut(s, "raw material", 'w');
  }

  lemma ElectricityBillsBucket()
    ensures Stats.BucketOf("Electricity Bills") == Stats.Electricity
  {
    ElectricityBillsKeywords(Lower("Electricity Bills"));
    Stats.BucketOfChain("Electricity Bills");
  }

  lemma PersonalSpendingKeywords(s: string)
    requires s == "personal spending"
    ensures !Contains(s, "raw material") && !Contains(s, "electricity") && Contains(s, "personal")
  {
    assert 'w' !in s && 'y' !in s && "personal" <= s;
    assert 'w' in "raw material" && 'y' in "electricity";
    MissingCharRulesOut(s, "raw material", 'w');
    MissingCharRulesOut(s, "electricity", 'y');
  }

  lemma PersonalSpendingBucket()
    ensures Stats.BucketOf("Personal Spending") == Stats.Personal
  {
    PersonalSpendingKeywords(Lower("Personal Spending"));
    Stats.BucketOfChain("Personal Spending");
  }

  lemma HomeSpendingKeywords(s: string)
    requires s == "home spending from shop"
    ensures !Contains(s, "raw material") && !Contains(s, "electricity")
            && !Contains(s, "personal") && Contains(s, "home")
  {
    assert 'w' !in s && 'l' !in s && "home" <= s;
    assert 'w' in "raw material" && 'l' in "electricity" && 'l' in "personal";
    MissingCharRulesOut(s, "raw material", 'w');
    MissingCharRulesOut(s, "electricity", 'l');
    MissingCharRulesOut(s, "personal", 'l');
  }

  lemma HomeSpendingBucket()
    ensures Stats.BucketOf("Home Spending from Shop") == Stats.Home
  {
    HomeSpendingKeywords(Lower("Home Spending from Shop"));
    Stats.BucketOfChain("Home Spending from Shop");
  }

  lemma OtherExpensesKeywords(s: string)
    requires s == "other expenses"
    ensures !Contains(s, "raw material") && !Contains(s, "electricity")
            && !Contains(s, "personal") && !Contains(s, "home")
  {
    assert 'w' !in s && 'c' !in s && 'l' !in s && 'm' !in s;
    assert 'w' in "raw material" && 'c' in "electricity" && 'l' in "personal" && 'm' in "home";
    MissingCharRulesOut(s, "raw material", 'w');
    MissingCharRulesOut(s, "electricity", 'c');
    MissingCharRulesOut(s, "personal", 'l');
    MissingCharRulesOut(s, "home", 'm');
  }

  lemma OtherExpensesBucket()
    ensures Stats.BucketOf("Other Expenses") == Stats.Other
  {
    OtherExpensesKeywords(Lower("Other Expenses"));
    Stats.BucketOfChain("Other Expenses");
  }

  lemma ShopEarningsName()
    ensures Stats.IsShopEarning("Shop Earnings")
  {
    assert Lower("Shop Earnings") == "shop earnings";
  }

  /** The names of the six defaults, in table order. */
  lemma DefaultNames()
    ensures DefaultCategories()[0].name == "Shop Raw Material"
    ensures DefaultCategories()[1].name == "Electricity Bills"
    ensures DefaultCategories()[2].name == "Personal Spending"
    ensures DefaultCategories()[3].name == "Home Spending from Shop"
    ensures DefaultCategories()[4].name == "Other Expenses"
    ensures DefaultCategories()[5].name == "Shop Earnings"
  {
  }

  /** Each default expense category falls into the expense bucket of its own
      name, and the default income category is counted as shop earnings. */
  lemma DefaultsMatchTheBreakdown()
    ensures Stats.BucketOf(DefaultCategories()[0].name) == Stats.RawMaterial
    ensures Stats.BucketOf(DefaultCategories()[1].name) == Stats.Electricity
    ensures Stats.BucketOf(DefaultCategories()[2].name) == Stats.Personal
    ensures Stats.BucketOf(DefaultCategories()[3].name) == Stats.Home
    ensures Stats.BucketOf(DefaultCategories()[4].name) == Stats.Other
    ensures Stats.IsShopEarning(DefaultCategories()[5].name)
  {
    DefaultNames();
    ShopRawMaterialBucket();
    ElectricityBillsBucket();
    PersonalSpendingBucket();
    HomeSpendingBucket();
    OtherExpensesBucket();
    ShopEarningsName();
  }

  /** The stored category table (the `categories` collection). */
  class CategoryTable {
    var categories: seq<Category>

    constructor (initial: seq<Category>)
      ensures categories == initial
    {
      categories := initial;
    }

    /** `POST /api/init`: insert the defaults when none is stored. Returns
        whether it inserted them ("initialized successfully") or found
        defaults already present ("already exist"). */
    method Seed() returns (inserted: bool)
      modifies this
      ensures inserted <==> !HasDefault(old(categories))
      ensures categories == Seeded(old(categories))
      ensures inserted ==> categories == old(categories) + DefaultCategories()
      ensures !inserted ==> categories == old(categories)
    {
      var existingCategories := FindDefaults(categories);
      inserted := false;
      if |existingCategories| == 0 {
        categories := categories + DefaultCategories();
        inserted := true;
      }
    }
  }

  /** Two serialised seeding calls: the second inserts nothing, and the
      table ends as after one call. */
  method SeedTwice(table: CategoryTable) returns (first: bool, second: bool)
    modifies table
    ensures table.categories == Seeded(old(table.categories))
    ensures !second
    ensures first <==> !HasDefault(old(table.categories))
  {
    first := table.Seed();
    second := table.Seed();
  }
}
