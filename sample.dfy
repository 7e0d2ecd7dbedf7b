/** The eight transactions of the test fixture (test_project.py:4-15) and what the model yields for them. */
module Sample {
  import opened Wrappers
  import opened Loader
  import opened Aggregation
  import opened Analysis

  function Fixture(): seq<Transaction>
  {
    [ Transaction("11540", "Noah White", 43, "France", "Sports", 231.72, "Debit Card", "2023-03-29"),
      Transaction("11590", "Isabella Thompson", 28, "Japan", "Toys", 259.55, "Credit Card", "2024-08-01"),
      Transaction("11642", "Isabella Rodriguez", 25, "Canada", "Home & Kitchen", 773.13, "UPI", "2025-01-25"),
      Transaction("11661", "Noah Anderson", 62, "Japan", "Books", 431.34, "PayPal", "2023-07-16"),
      Transaction("11663", "Noah Harris", 38, "Japan", "Clothing", 666.47, "Debit Card", "2024-10-03"),
      Transaction("11700", "Isabella Clark", 46, "Australia", "Grocery", 171.25, "Debit Card", "2025-01-01"),
      Transaction("11690", "Isabella Rodriguez", 42, "Mexico", "Clothing", 15.11, "Debit Card", "2025-01-08"),
      Transaction("12272", "Oliver White", 65, "Mexico", "Electronics", 529.78, "Credit Card", "2023-09-10") ]
  }

  /** The fixture's expectations on the summary (test_project.py:21-28). */
  lemma FixtureSummary()
    ensures var s := Summarize(Fixture());
      && "Sports" in s.entries && s.entries["Sports"].count == 1 && s.entries["Sports"].totalAmount == 231.72
      && "Clothing" in s.entries && s.entries["Clothing"].count == 2 && s.entries["Clothing"].totalAmount == 681.58
  {
    var d := Fixture();
    assert d[..8] == d;
    assert d[..1][..0] == d[..0] && d[..1][0] == d[0];
    assert d[..2][..1] == d[..1] && d[..2][1] == d[1];
    assert d[..3][..2] == d[..2] && d[..3][2] == d[2];
    assert d[..4][..3] == d[..3] && d[..4][3] == d[3];
    assert d[..5][..4] == d[..4] && d[..5][4] == d[4];
    assert d[..6][..5] == d[..5] && d[..6][5] == d[5];
    assert d[..7][..6] == d[..6] && d[..7][6] == d[6];
    assert d[..8][..7] == d[..7] && d[..8][7] == d[7];
    assert CountOf(d[..0], "Sports") == 0 && TotalOf(d[..0], "Sports") == 0.00;
    assert CountOf(d[..1], "Sports") == 1 && TotalOf(d[..1], "Sports") == 231.72;
    assert CountOf(d[..2], "Sports") == 1 && TotalOf(d[..2], "Sports") == 231.72;
    assert CountOf(d[..3], "Sports") == 1 && TotalOf(d[..3], "Sports") == 231.72;
    assert CountOf(d[..4], "Sports") == 1 && TotalOf(d[..4], "Sports") == 231.72;
    assert CountOf(d[..5], "Sports") == 1 && TotalOf(d[..5], "Sports") == 231.72;
    assert CountOf(d[..6], "Sports") == 1 && TotalOf(d[..6], "Sports") == 231.72;
    assert CountOf(d[..7], "Sports") == 1 && TotalOf(d[..7], "Sports") == 231.72;
    assert CountOf(d[..8], "Sports") == 1 && TotalOf(d[..8], "Sports") == 231.72;
    assert CountOf(d[..0], "Clothing") == 0 && TotalOf(d[..0], "Clothing") == 0.00;
    assert CountOf(d[..1], "Clothing") == 0 && TotalOf(d[..1], "Clothing") == 0.00;
    assert CountOf(d[..2], "Clothing") == 0 && TotalOf(d[..2], "Clothing") == 0.00;
    assert CountOf(d[..3], "Clothing") == 0 && TotalOf(d[..3], "Clothing") == 0.00;
    assert CountOf(d[..4], "Clothing") == 0 && TotalOf(d[..4], "Clothing") == 0.00;
    assert CountOf(d[..5], "Clothing") == 1 && TotalOf(d[..5], "Clothing") == 666.47;
    assert CountOf(d[..6], "Clothing") == 1 && TotalOf(d[..6], "Clothing") == 666.47;
    assert CountOf(d[..7], "Clothing") == 2 && TotalOf(d[..7], "Clothing") == 681.58;
    assert CountOf(d[..8], "Clothing") == 2 && TotalOf(d[..8], "Clothing") == 681.58;
    FirstSeenCounts(d, "Sports");
    FirstSeenCounts(d, "Clothing");
  }

  /** The fixture's expectations on the analysis (test_project.py:30-36). */
  lemma FixtureAnalysis()
    ensures var d := Fixture();
      && Summarize(d).Valid()
      && AnalyzePurchasePatterns(d, Summarize(d)).Success?
      && AnalyzePurchasePatterns(d, Summarize(d)).value.averagePurchase > 0.0
      && |AnalyzePurchasePatterns(d, Summarize(d)).value.topCategories| <= 5
  {
    var d := Fixture();
    SummarizeValid(d);
    AverageWithinBounds(d, 15.11, 773.13);
  }
}
