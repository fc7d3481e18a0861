/** The statistics route: the one-pass reduction of the filtered transactions
    into the dashboard's fixed-shape summary, its specification as per-field
    filtered sums, and the identities that summary satisfies. */
module Stats {
  import opened Wrappers
  import opened Text
  import opened Transactions
  import opened Period

  /** The five mutually exclusive expense buckets. */
  datatype Bucket = RawMaterial | Electricity | Personal | Home | Other

  /** The substring tests of the expense breakdown, in the order they are
      tried; a category matching none of them is an `Other` expense. */
  const ExpenseRules: seq<(string, Bucket)> :=
    [("raw material", RawMaterial), ("electricity", Electricity), ("personal", Personal), ("home", Home)]

  /** The bucket of the first rule whose keyword `c` contains, else `Other`. */
  function FirstMatch(c: string, rules: seq<(string, Bucket)>): Bucket
  {
    if rules == [] then Other
    else if Contains(c, rules[0].0) then rules[0].1
    else FirstMatch(c, rules[1..])
  }

  /** The bucket an expense category falls into. */
  function BucketOf(category: string): Bucket
  {
    FirstMatch(Lower(category), ExpenseRules)
  }

  /** Rules that name distinct buckets, none of them `Other`. */
  predicate DistinctRules(rules: seq<(string, Bucket)>)
  {
    (forall k :: 0 <= k < |rules| ==> rules[k].1 != Other) &&
    (forall j, k :: 0 <= j < k < |rules| ==> rules[j].1 != rules[k].1)
  }

  /** First match wins: rule `k` decides exactly when its keyword occurs and
      no earlier keyword does, and `Other` is chosen exactly when none does. */
  lemma {:induction false} FirstMatchWins(c: string, rules: seq<(string, Bucket)>)
    requires DistinctRules(rules)
    ensures forall k :: 0 <= k < |rules| ==>
              (FirstMatch(c, rules) == rules[k].1 <==>
                 Contains(c, rules[k].0) && forall j :: 0 <= j < k ==> !Contains(c, rules[j].0))
    ensures FirstMatch(c, rules) == Other <==> forall k :: 0 <= k < |rules| ==> !Contains(c, rules[k].0)
  {
    if rules != [] {
      var tail := rules[1..];
      assert DistinctRules(tail) by {
        assert forall k :: 0 <= k < |tail| ==> tail[k] == rules[k + 1];
      }
      FirstMatchWins(c, tail);
      forall k | 0 <= k < |rules|
        ensures FirstMatch(c, rules) == rules[k].1 <==>
                  Contains(c, rules[k].0) && forall j :: 0 <= j < k ==> !Contains(c, rules[j].0)
      {
        if k > 0 {
          assert rules[k] == tail[k - 1];
          assert forall j :: 0 <= j < k - 1 ==> tail[j] == rules[j + 1];
        }
      }
      assert forall k :: 0 < k < |rules| ==> rules[k] == tail[k - 1];
    }
  }

  /** The expense rules are distinct, so the breakdown is a first-match
      classification: the bucket of rule `k` is chosen exactly when the
      lower-cased category contains that rule's keyword and no earlier one. */
  lemma BucketOfIsFirstMatch(category: string)
    ensures forall k :: 0 <= k < |ExpenseRules| ==>
              (BucketOf(category) == ExpenseRules[k].1 <==>
                 Contains(Lower(category), ExpenseRules[k].0) &&
                 forall j :: 0 <= j < k ==> !Contains(Lower(category), ExpenseRules[j].0))
    ensures BucketOf(category) == Other <==>
              forall k :: 0 <= k < |ExpenseRules| ==> !Contains(Lower(category), ExpenseRules[k].0)
  {
    FirstMatchWins(Lower(category), ExpenseRules);
  }

  /** The rule table read as the route's if/else chain. */
  lemma BucketOfChain(category: string)
    ensures BucketOf(category) ==
              var c := Lower(category);
              if Contains(c, "raw material") then RawMaterial
              else if Contains(c, "electricity") then Electricity
              else if Contains(c, "personal") then Personal
              else if Contains(c, "home") then Home
              else Other
  {
    var c := Lower(category);
    var r1: seq<(string, Bucket)> := [("electricity", Electricity), ("personal", Personal), ("home", Home)];
    var r2: seq<(string, Bucket)> := [("personal", Personal), ("home", Home)];
    var r3: seq<(string, Bucket)> := [("home", Home)];
    assert ExpenseRules[1..] == r1 && r1[1..] == r2 && r2[1..] == r3 && r3[1..] == [];
    assert FirstMatch(c, r3) == if Contains(c, "home") then Home else Other;
    assert FirstMatch(c, r2) == if Contains(c, "personal") then Personal else FirstMatch(c, r3);
    assert FirstMatch(c, r1) == if Contains(c, "electricity") then Electricity else FirstMatch(c, r2);
  }

  /** The shop-earnings test applied to income categories. */
  predicate IsShopEarning(category: string)
  {
    var c := Lower(category);
    Contains(c, "shop earnings") || Contains(c, "shop earning")
  }

  /** The two alternatives of the shop-earnings test reduce to the shorter
      one: every name containing "shop earnings" contains "shop earning". */
  lemma ShopEarningTestIsOneSubstring(category: string)
    ensures IsShopEarning(category) <==> Contains(Lower(category), "shop earning")
  {
    if Contains(Lower(category), "shop earnings") {
      assert "shop earnings" == "shop earning" + "s";
      ContainsLongerContainsPrefix(Lower(category), "shop earning", "s");
    }
  }

  /** Classification looks only at the category's letters, not their case. */
  lemma ClassificationIgnoresCase(a: string, b: string)
    requires EqualIgnoringCase(a, b)
    ensures BucketOf(a) == BucketOf(b)
    ensures IsShopEarning(a) == IsShopEarning(b)
  {
    EqualIgnoringCaseIffSameLower(a, b);
  }

  /** In particular an upper-cased category classifies as the original. */
  lemma UpperCaseClassifiesAlike(category: string)
    ensures BucketOf(Upper(category)) == BucketOf(category)
    ensures IsShopEarning(Upper(category)) == IsShopEarning(category)
  {
    UpperEqualIgnoringCase(category);
    ClassificationIgnoresCase(Upper(category), category);
  }

  /** Which transactions feed one field of the summary. */
  datatype Selector =
    | AllIncome
    | ShopEarningIncome
    | AllExpense
    | ExpenseIn(bucket: Bucket)
    | PaidBy(payment: PaymentType)

  predicate Selects(sel: Selector, tx: Transaction)
  {
    match sel
    case AllIncome => tx.kind == Income
    case ShopEarningIncome => tx.kind == Income && IsShopEarning(tx.category)
    case AllExpense => tx.kind == Expense
    case ExpenseIn(b) => tx.kind == Expense && BucketOf(tx.category) == b
    case PaidBy(p) => tx.paymentType == p
  }

  /** What one transaction adds to a field. */
  function Share(tx: Transaction, sel: Selector): real
  {
    if Selects(sel, tx) then tx.amount else 0.0
  }

  /** The sum of the amounts of the selected transactions. */
  function Total(txs: seq<Transaction>, sel: Selector): real
  {
    if txs == [] then 0.0 else Total(txs[..|txs| - 1], sel) + Share(txs[|txs| - 1], sel)
  }

  /** The summary record the route returns as `data`. */
  datatype Summary = Summary(
    totalIncome: real,
    totalExpenses: real,
    shopEarnings: real,
    shopRawMaterial: real,
    electricityBills: real,
    personalSpending: real,
    homeSpending: real,
    otherExpenses: real,
    cashTotal: real,
    upiTotal: real,
    bankTotal: real,
    netProfit: real,
    transactionCount: nat)

  /** The summary with every total zero. */
  function ZeroSummary(): Summary
  {
    Summary(0.0, 0.0, 0.0, 0.0, 0.0, 0.0, 0.0, 0.0, 0.0, 0.0, 0.0, 0.0, 0)
  }

  /** The specification of the summary: each field is the total of the
      transactions it selects. */
  function SummaryOf(txs: seq<Transaction>): (s: Summary)
    ensures txs == [] ==> s == ZeroSummary()
  {
    Summary(
      Total(txs, AllIncome),
      Total(txs, AllExpense),
      Total(txs, ShopEarningIncome),
      Total(txs, ExpenseIn(RawMaterial)),
      Total(txs, ExpenseIn(Electricity)),
      Total(txs, ExpenseIn(Personal)),
      Total(txs, ExpenseIn(Home)),
      Total(txs, ExpenseIn(Other)),
      Total(txs, PaidBy(Cash)),
      Total(txs, PaidBy(Upi)),
      Total(txs, PaidBy(Bank)),
      Total(txs, AllIncome) - Total(txs, AllExpense),
      |txs|)
  }

  /** The five expense buckets partition the expenses. */
  lemma {:induction false} ExpenseBucketsPartition(txs: seq<Transaction>)
    ensures Total(txs, ExpenseIn(RawMaterial)) + Total(txs, ExpenseIn(Electricity))
            + Total(txs, ExpenseIn(Personal)) + Total(txs, ExpenseIn(Home))
            + Total(txs, ExpenseIn(Other)) == Total(txs, AllExpense)
  {
    if txs != [] {
      ExpenseBucketsPartition(txs[..|txs| - 1]);
    }
  }

  /** Every transaction, income or expense, is paid in exactly one way. */
  lemma {:induction false} PaymentTotalsCoverAll(txs: seq<Transaction>)
    ensures Total(txs, PaidBy(Cash)) + Total(txs, PaidBy(Upi)) + Total(txs, PaidBy(Bank))
            == Total(txs, AllIncome) + Total(txs, AllExpense)
  {
    if txs != [] {
      PaymentTotalsCoverAll(txs[..|txs| - 1]);
    }
  }

  /** With non-negative amounts, shop earnings are a part of the income. */
  lemma {:induction false} ShopEarningsWithinIncome(txs: seq<Transaction>)
    requires AllValid(txs)
    ensures 0.0 <= Total(txs, ShopEarningIncome) <= Total(txs, AllIncome)
  {
    if txs != [] {
      ShopEarningsWithinIncome(txs[..|txs| - 1]);
      assert txs[|txs| - 1].Valid();
    }
  }

  /** With non-negative amounts, no total is negative. */
  lemma {:induction false} TotalsNonNegative(txs: seq<Transaction>, sel: Selector)
    requires AllValid(txs)
    ensures Total(txs, sel) >= 0.0
  {
    if txs != [] {
      TotalsNonNegative(txs[..|txs| - 1], sel);
      assert txs[|txs| - 1].Valid();
    }
  }

  /** Totals add up over a concatenation. */
  lemma {:induction false} TotalAppend(a: seq<Transaction>, b: seq<Transaction>, sel: Selector)
    ensures Total(a + b, sel) == Total(a, sel) + Total(b, sel)
    decreases |b|
  {
    if b == [] {
      assert a + b == a;
    } else {
      var init := b[..|b| - 1];
      assert (a + b)[..|a + b| - 1] == a + init;
      TotalAppend(a, init, sel);
    }
  }

  /** Taking one transaction out of a sequence takes its share out of
      every total. */
  lemma TotalRemoveAt(b: seq<Transaction>, k: nat, sel: Selector)
    requires k < |b|
    ensures Total(b, sel) == Total(b[..k] + b[k + 1..], sel) + Share(b[k], sel)
  {
    assert b == (b[..k] + [b[k]]) + b[k + 1..];
    TotalAppend(b[..k] + [b[k]], b[k + 1..], sel);
    TotalAppend(b[..k], [b[k]], sel);
    TotalAppend(b[..k], b[k + 1..], sel);
    assert [b[k]][..0] == [];
  }

  /** What remains of `b` once the element at `k` is removed holds that
      element one time fewer. */
  lemma MultisetRemoveAt(b: seq<Transaction>, k: nat)
    requires k < |b|
    ensures multiset(b[..k] + b[k + 1..]) == multiset(b) - multiset{b[k]}
  {
    assert b == b[..k] + [b[k]] + b[k + 1..];
  }

  /** Totals do not depend on the order of the transactions. */
  lemma {:induction false} TotalPermutation(a: seq<Transaction>, b: seq<Transaction>, sel: Selector)
    requires multiset(a) == multiset(b)
    ensures Total(a, sel) == Total(b, sel)
    decreases |a|
  {
    if a == [] {
      assert |b| == |multiset(b)| == 0;
    } else {
      var x := a[|a| - 1];
      var init := a[..|a| - 1];
      assert a == init + [x];
      assert multiset(init) == multiset(a) - multiset{x};
      assert x in multiset(b);
      var k :| 0 <= k < |b| && b[k] == x;
      MultisetRemoveAt(b, k);
      TotalPermutation(init, b[..k] + b[k + 1..], sel);
      TotalRemoveAt(b, k, sel);
    }
  }

  /** The summary does not depend on the order `find` returns the
      transactions in. */
  lemma SummaryIgnoresOrder(a: seq<Transaction>, b: seq<Transaction>)
    requires multiset(a) == multiset(b)
    ensures SummaryOf(a) == SummaryOf(b)
  {
    forall sel: Selector ensures Total(a, sel) == Total(b, sel) {
      TotalPermutation(a, b, sel);
    }
    assert |a| == |multiset(a)| == |multiset(b)| == |b|;
  }

  /** The first part of the `forEach` callback: an income adds to the
      income total and, when its category names shop earnings, to the
      shop-earnings total; an expense adds to the expense total and to the
      bucket of the first keyword its category contains. */
  method AddByType(stats: Summary, tx: Transaction) returns (next: Summary)
    ensures next.totalIncome == stats.totalIncome + Share(tx, AllIncome)
    ensures next.totalExpenses == stats.totalExpenses + Share(tx, AllExpense)
    ensures next.shopEarnings == stats.shopEarnings + Share(tx, ShopEarningIncome)
    ensures next.shopRawMaterial == stats.shopRawMaterial + Share(tx, ExpenseIn(RawMaterial))
    ensures next.electricityBills == stats.electricityBills + Share(tx, ExpenseIn(Electricity))
    ensures next.personalSpending == stats.personalSpending + Share(tx, ExpenseIn(Personal))
    ensures next.homeSpending == stats.homeSpending + Share(tx, ExpenseIn(Home))
    ensures next.otherExpenses == stats.otherExpenses + Share(tx, ExpenseIn(Other))
    ensures next.(totalIncome := 0.0, totalExpenses := 0.0, shopEarnings := 0.0,
                  shopRawMaterial := 0.0, electricityBills := 0.0, personalSpending := 0.0,
                  homeSpending := 0.0, otherExpenses := 0.0)
         == stats.(totalIncome := 0.0, totalExpenses := 0.0, shopEarnings := 0.0,
                   shopRawMaterial := 0.0, electricityBills := 0.0, personalSpending := 0.0,
                   homeSpending := 0.0, otherExpenses := 0.0)
  {
    next := stats;
    if tx.kind == Income {
      next := next.(totalIncome := next.totalIncome + tx.amount);
      var category := Lower(tx.category);
      if Contains(category, "shop earnings") || Contains(category, "shop earning") {
        next := next.(shopEarnings := next.shopEarnings + tx.amount);
      }
    } else {
      next := next.(totalExpenses := next.totalExpenses + tx.amount);
      var category := Lower(tx.category);
      BucketOfChain(tx.category);
      if Contains(category, "raw material") {
        next := next.(shopRawMaterial := next.shopRawMaterial + tx.amount);
      } else if Contains(category, "electricity") {
        next := next.(electricityBills := next.electricityBills + tx.amount);
      } else if Contains(category, "personal") {
        next := next.(personalSpending := next.personalSpending + tx.amount);
      } else if Contains(category, "home") {
        next := next.(homeSpending := next.homeSpending + tx.amount);
      } else {
        next := next.(otherExpenses := next.otherExpenses + tx.amount);
      }
    }
  }

  /** The second part of the callback: every transaction adds to the total
      of its payment type. */
  method AddByPayment(stats: Summary, tx: Transaction) returns (next: Summary)
    ensures next.cashTotal == stats.cashTotal + Share(tx, PaidBy(Cash))
    ensures next.upiTotal == stats.upiTotal + Share(tx, PaidBy(Upi))
    ensures next.bankTotal == stats.bankTotal + Share(tx, PaidBy(Bank))
    ensures next.(cashTotal := 0.0, upiTotal := 0.0, bankTotal := 0.0)
         == stats.(cashTotal := 0.0, upiTotal := 0.0, bankTotal := 0.0)
  {
    next := stats;
    if tx.paymentType == Cash {
      next := next.(cashTotal := next.cashTotal + tx.amount);
    } else if tx.paymentType == Upi {
      next := next.(upiTotal := next.upiTotal + tx.amount);
    } else if tx.paymentType == Bank {
      next := next.(bankTotal := next.bankTotal + tx.amount);
    }
  }

  /** The route's reduction: a record initialised to zeros (with the count
      set from the length), both parts of the callback applied to each
      transaction in turn, and net profit written last. */
  method ComputeStats(transactions: seq<Transaction>) returns (stats: Summary)
    ensures stats == SummaryOf(transactions)
    ensures stats.netProfit == stats.totalIncome - stats.totalExpenses
    ensures stats.transactionCount == |transactions|
    ensures stats.shopRawMaterial + stats.electricityBills + stats.personalSpending
            + stats.homeSpending + stats.otherExpenses == stats.totalExpenses
    ensures stats.cashTotal + stats.upiTotal + stats.bankTotal == stats.totalIncome + stats.totalExpenses
    ensures AllValid(transactions) ==> 0.0 <= stats.shopEarnings <= stats.totalIncome
    ensures transactions == [] ==> stats == ZeroSummary()
  {
    stats := Summary(0.0, 0.0, 0.0, 0.0, 0.0, 0.0, 0.0, 0.0, 0.0, 0.0, 0.0, 0.0, |transactions|);
    for i := 0 to |transactions|
      invariant stats.totalIncome == Total(transactions[..i], AllIncome)
      invariant stats.totalExpenses == Total(transactions[..i], AllExpense)
      invariant stats.shopEarnings == Total(transactions[..i], ShopEarningIncome)
      invariant stats.shopRawMaterial == Total(transactions[..i], ExpenseIn(RawMaterial))
      invariant stats.electricityBills == Total(transactions[..i], ExpenseIn(Electricity))
      invariant stats.personalSpending == Total(transactions[..i], ExpenseIn(Personal))
      invariant stats.homeSpending == Total(transactions[..i], ExpenseIn(Home))
      invariant stats.otherExpenses == Total(transactions[..i], ExpenseIn(Other))
      invariant stats.cashTotal == Total(transactions[..i], PaidBy(Cash))
      invariant stats.upiTotal == Total(transactions[..i], PaidBy(Upi))
      invariant stats.bankTotal == Total(transactions[..i], PaidBy(Bank))
      invariant stats.netProfit == 0.0
      invariant stats.transactionCount == |transactions|
    {
      assert transactions[..i + 1][..i] == transactions[..i];
      stats := AddByType(stats, transactions[i]);
      stats := AddByPayment(stats, transactions[i]);
    }
    assert transactions[..|transactions|] == transactions;
    stats := stats.(netProfit := stats.totalIncome - stats.totalExpenses);
    ExpenseBucketsPartition(transactions);
    PaymentTotalsCoverAll(transactions);
    if AllValid(transactions) {
      ShopEarningsWithinIncome(transactions);
    }
  }

  /** The route end to end: resolve the period, find the transactions in its
      window, and reduce them. */
  method GetStats(store: seq<Transaction>, period: Option<string>, customDate: Option<string>, clock: Clock)
    returns (stats: Summary)
    ensures stats == SummaryOf(Find(store, PeriodWindow(ParsePeriod(period, customDate), clock)))
    ensures stats.transactionCount <= |store|
    ensures stats.netProfit == stats.totalIncome - stats.totalExpenses
  {
    var query := ResolveWindow(period, customDate, clock);
    var transactions := Find(store, query);
    stats := ComputeStats(transactions);
  }

  /** A `today` request on a day with no transactions gives the zero summary,
      whatever is stored for other days. */
  lemma TodayWithoutTransactionsIsZero(store: seq<Transaction>, clock: Clock)
    requires forall k :: 0 <= k < |store| ==> LocalDay(clock, store[k].date) != LocalDay(clock, clock.now)
    ensures SummaryOf(Find(store, PeriodWindow(ParsePeriod(Some("today"), None), clock))) == ZeroSummary()
  {
    var w := DayWindow(clock, clock.now);
    forall k | 0 <= k < |store| ensures !InWindow(store[k].date, w) {
      DayWindowIsTheDay(clock, clock.now, store[k].date);
    }
    FindNothingInWindow(store, w);
  }

  /** A request without a period is a request for this month. */
  lemma MissingPeriodMeansMonth(store: seq<Transaction>, customDate: Option<string>, clock: Clock)
    ensures SummaryOf(Find(store, PeriodWindow(ParsePeriod(None, customDate), clock)))
            == SummaryOf(Find(store, PeriodWindow(Month, clock)))
            == SummaryOf(Find(store, PeriodWindow(ParsePeriod(Some(""), customDate), clock)))
  {
  }

  /** `all`, an unknown token and `custom` without a date summarise the whole
      store. */
  lemma UnfilteredPeriods(store: seq<Transaction>, token: string, customDate: Option<string>, clock: Clock)
    requires token == "all" || (token == "custom" && !Given(customDate))
             || (token != "" && token !in {"month", "today", "custom"})
    ensures SummaryOf(Find(store, PeriodWindow(ParsePeriod(Some(token), customDate), clock))) == SummaryOf(store)
  {
    FindWithoutQuery(store);
  }
}
