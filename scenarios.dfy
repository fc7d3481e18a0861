/** Worked examples of the statistics route and of category matching. */
module Scenarios {
  import opened Text
  import opened Transactions
  import opened Stats
  import Seeding

  lemma RawMaterialPurchaseBucket()
    ensures BucketOf("Raw Material Purchase") == RawMaterial
  {
    assert Lower("Raw Material Purchase") == "raw material purchase";
    assert "raw material" <= "raw material purchase";
    assert Contains("raw material purchase", "raw material");
    BucketOfChain("Raw Material Purchase");
  }

  lemma TotalOfThree(a: Transaction, b: Transaction, c: Transaction, sel: Selector)
    ensures Total([a, b, c], sel) == Share(a, sel) + Share(b, sel) + Share(c, sel)
  {
    assert [a, b, c][..2] == [a, b];
    assert [a, b][..1] == [a];
    assert [a][..0] == [];
    assert Total([a], sel) == Share(a, sel);
    assert Total([a, b], sel) == Total([a], sel) + Share(b, sel);
    assert Total([a, b, c], sel) == Total([a, b], sel) + Share(c, sel);
  }

  /** The dashboard figures of a day with one shop-earnings income of 500
      paid by bank, one raw-material expense of 200 in cash and one
      electricity expense of 50 over UPI. */
  lemma {:induction false} ThreeTransactionSummary(a: Transaction, b: Transaction, c: Transaction)
    requires a.kind == Income && IsShopEarning(a.category) && a.paymentType == Bank && a.amount == 500.0
    requires b.kind == Expense && BucketOf(b.category) == RawMaterial && b.paymentType == Cash && b.amount == 200.0
    requires c.kind == Expense && BucketOf(c.category) == Electricity && c.paymentType == Upi && c.amount == 50.0
    ensures SummaryOf([a, b, c])
            == Summary(500.0, 250.0, 500.0, 200.0, 50.0, 0.0, 0.0, 0.0, 200.0, 50.0, 500.0, 250.0, 3)
  {
    forall sel: Selector ensures Total([a, b, c], sel) == Share(a, sel) + Share(b, sel) + Share(c, sel) {
      TotalOfThree(a, b, c, sel);
    }
  }

  /** The same day with concrete category names. */
  lemma ThreeTransactionDay()
    ensures SummaryOf([
              Transaction(0, "Shop Earnings", Income, Bank, "sales", 500.0),
              Transaction(0, "Raw Material Purchase", Expense, Cash, "flour", 200.0),
              Transaction(0, "Electricity Bills", Expense, Upi, "meter", 50.0)])
            == Summary(500.0, 250.0, 500.0, 200.0, 50.0, 0.0, 0.0, 0.0, 200.0, 50.0, 500.0, 250.0, 3)
  {
    Seeding.ShopEarningsName();
    RawMaterialPurchaseBucket();
    Seeding.ElectricityBillsBucket();
    ThreeTransactionSummary(
      Transaction(0, "Shop Earnings", Income, Bank, "sales", 500.0),
      Transaction(0, "Raw Material Purchase", Expense, Cash, "flour", 200.0),
      Transaction(0, "Electricity Bills", Expense, Upi, "meter", 50.0));
  }

  /** Matching ignores case: an upper-case shop-earnings category counts. */
  lemma UpperCaseShopEarnings()
    ensures IsShopEarning("SHOP EARNINGS Q1")
  {
    assert Lower("SHOP EARNINGS Q1") == "shop earnings q1";
    assert "shop earnings" <= "shop earnings q1";
  }
}
