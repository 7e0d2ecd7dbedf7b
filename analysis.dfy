/**
 * `analyze_purchase_patterns` (project.py:85-114): the overall mean and
 * three top-five selections, each the first five of a stable sort.
 */
module Analysis {
  import opened Wrappers
  import opened StableSort
  import opened Loader
  import opened Aggregation

  /** Every "top" list is cut to this many elements (`[:5]`). */
  const TopCount := 5

  /** One item of `summary.items()`: a category and its statistics. */
  datatype Entry = Entry(category: string, stats: CategorySummary)

  /** `sum(...) / len(data)` on empty data raises ZeroDivisionError. */
  datatype AnalysisError = ZeroDivision

  /** The dictionary `analyze_purchase_patterns` returns. */
  datatype AnalysisResult = AnalysisResult(
    averagePurchase: real,
    topCategories: seq<Entry>,
    topByYoungest: seq<Transaction>,
    topByOldest: seq<Transaction>)

  /**
   * `summary.items()` (project.py:92): every key of the dictionary exactly
   * once, paired with its own statistics, in insertion order.
   */
  function Items(s: Summary): (r: seq<Entry>)
    requires s.Valid()
    ensures forall i :: 0 <= i < |r| ==> r[i].category in s.entries && r[i].stats == s.entries[r[i].category]
    ensures forall c :: c in s.entries ==> exists i :: 0 <= i < |r| && r[i].category == c
    ensures forall i, j :: 0 <= i < j < |r| ==> r[i].category != r[j].category
  {
    var r := seq(|s.order|, i requires 0 <= i < |s.order| => Entry(s.order[i], s.entries[s.order[i]]));
    assert forall c :: c in s.entries ==> exists i :: 0 <= i < |r| && r[i].category == c by {
      forall c | c in s.entries
        ensures exists i :: 0 <= i < |r| && r[i].category == c
      {
        var i :| 0 <= i < |s.order| && s.order[i] == c;
        assert r[i].category == c;
      }
    }
    r
  }

  /** The key of the category ranking (project.py:93): the entry's average amount alone. */
  function AverageKey(e: Entry): SortKey
  {
    SortKey(e.stats.averageAmount, 0.0)
  }

  /** The key of the youngest-spender ranking (project.py:100): age, then the amount negated. */
  function YoungestKey(t: Transaction): SortKey
  {
    SortKey(t.age as real, -t.amount)
  }

  /** The key of the oldest-spender ranking (project.py:105): age negated, then the amount negated. */
  function OldestKey(t: Transaction): SortKey
  {
    SortKey((-t.age) as real, -t.amount)
  }

  /**
   * The overall mean (project.py:87-88): the sum of all amounts divided by
   * the number of transactions, a division by zero on empty data.
   */
  function AveragePurchase(data: seq<Transaction>): (r: Result<real, AnalysisError>)
    ensures r.Failure? <==> data == []
    ensures r.Success? ==> r.value * |data| as real == TotalAmount(data)
  {
    if |data| == 0 then Failure(ZeroDivision) else Success(TotalAmount(data) / |data| as real)
  }

  /** The five categories with the highest average, highest first (project.py:91-95). */
  function TopCategories(s: Summary): seq<Entry>
    requires s.Valid()
  {
    Take(InsertionSort(Items(s), AverageKey, true), TopCount)
  }

  /** The five youngest buyers, bigger purchases first among equal ages (project.py:98-101). */
  function TopByYoungest(data: seq<Transaction>): seq<Transaction>
  {
    Take(InsertionSort(data, YoungestKey, false), TopCount)
  }

  /** The five oldest buyers, bigger purchases first among equal ages (project.py:103-106). */
  function TopByOldest(data: seq<Transaction>): seq<Transaction>
  {
    Take(InsertionSort(data, OldestKey, false), TopCount)
  }

  /**
   * The whole analysis: it fails exactly on empty data (the division comes
   * first), and otherwise holds the mean and three lists of at most five.
   * Neither `data` nor `summary` is changed: both are values.
   */
  function AnalyzePurchasePatterns(data: seq<Transaction>, summary: Summary): (r: Result<AnalysisResult, AnalysisError>)
    requires summary.Valid()
    ensures r.Failure? <==> data == []
    ensures r.Success? ==>
      && r.value.averagePurchase * |data| as real == TotalAmount(data)
      && |r.value.topCategories| == Min(TopCount, |summary.order|)
      && |r.value.topByYoungest| == Min(TopCount, |data|)
      && |r.value.topByOldest| == Min(TopCount, |data|)
  {
    match AveragePurchase(data)
    case Failure(e) => Failure(e)
    case Success(average) =>
      Success(AnalysisResult(average, TopCategories(summary), TopByYoungest(data), TopByOldest(data)))
  }

  lemma {:induction false} TotalAmountBounds(data: seq<Transaction>, lo: real, hi: real)
    requires forall i :: 0 <= i < |data| ==> lo <= data[i].amount <= hi
    ensures |data| as real * lo <= TotalAmount(data) <= |data| as real * hi
  {
    if data != [] {
      var init := data[..|data| - 1];
      TotalAmountBounds(init, lo, hi);
      assert |data| as real * lo == |init| as real * lo + lo;
      assert |data| as real * hi == |init| as real * hi + hi;
    }
  }

  /** The mean lies between any lower and upper bound of the amounts. */
  lemma AverageWithinBounds(data: seq<Transaction>, lo: real, hi: real)
    requires data != []
    requires forall i :: 0 <= i < |data| ==> lo <= data[i].amount <= hi
    ensures lo <= AveragePurchase(data).value <= hi
  {
    TotalAmountBounds(data, lo, hi);
    var n := |data| as real;
    var average := AveragePurchase(data).value;
    assert (average - lo) * n >= 0.0 && (hi - average) * n >= 0.0;
  }

  /**
   * Top categories: min(5, number of categories) summary entries, by
   * average descending; each is the summary's own entry; together a part
   * of the entries that no other entry beats; and among equal averages the
   * earliest entries, in summary order.
   */
  lemma TopCategoriesSpec(s: Summary)
    requires s.Valid()
    ensures var items, r := Items(s), TopCategories(s);
      && |r| == Min(TopCount, |s.order|)
      && (forall i, j :: 0 <= i < j < |r| ==> r[i].stats.averageAmount >= r[j].stats.averageAmount)
      && (forall i :: 0 <= i < |r| ==> r[i].category in s.entries && s.entries[r[i].category] == r[i].stats)
      && multiset(r) <= multiset(items)
      && (forall i, e :: 0 <= i < |r| && e in multiset(items) - multiset(r) ==>
            e.stats.averageAmount <= r[i].stats.averageAmount)
      && (forall k :: WithKey(r, AverageKey, k) <= WithKey(items, AverageKey, k))
  {
    var items, r := Items(s), TopCategories(s);
    SortedTake(items, TopCount, AverageKey, true);
    forall i | 0 <= i < |r|
      ensures r[i].category in s.entries && s.entries[r[i].category] == r[i].stats
    {
      assert r[i] in multiset(items);
      var m :| 0 <= m < |items| && items[m] == r[i];
    }
    forall i, j | 0 <= i < j < |r|
      ensures r[i].stats.averageAmount >= r[j].stats.averageAmount
    {
      assert !Before(AverageKey, true, r[j], r[i]);
    }
  }

  /**
   * Youngest big spenders: min(5, |data|) transactions of `data`, by age
   * ascending then amount descending; no other transaction is younger, or
   * as young and bigger; full ties keep the order of `data`.
   */
  lemma TopByYoungestSpec(data: seq<Transaction>)
    ensures var r := TopByYoungest(data);
      && |r| == Min(TopCount, |data|)
      && (forall i, j :: 0 <= i < j < |r| ==>
            r[i].age < r[j].age || (r[i].age == r[j].age && r[i].amount >= r[j].amount))
      && (forall i :: 0 <= i < |r| ==> r[i] in data)
      && multiset(r) <= multiset(data)
      && (forall i, e :: 0 <= i < |r| && e in multiset(data) - multiset(r) ==>
            e.age > r[i].age || (e.age == r[i].age && e.amount <= r[i].amount))
      && (forall k :: WithKey(r, YoungestKey, k) <= WithKey(data, YoungestKey, k))
  {
    var r := TopByYoungest(data);
    SortedTake(data, TopCount, YoungestKey, false);
    forall i | 0 <= i < |r|
      ensures r[i] in data
    {
      assert r[i] in multiset(data);
    }
    forall i, j | 0 <= i < j < |r|
      ensures r[i].age < r[j].age || (r[i].age == r[j].age && r[i].amount >= r[j].amount)
    {
      assert !Before(YoungestKey, false, r[j], r[i]);
    }
  }

  /**
   * Oldest big spenders: min(5, |data|) transactions of `data`, by age
   * descending then amount descending; no other transaction is older, or
   * as old and bigger; full ties keep the order of `data`.
   */
  lemma TopByOldestSpec(data: seq<Transaction>)
    ensures var r := TopByOldest(data);
      && |r| == Min(TopCount, |data|)
      && (forall i, j :: 0 <= i < j < |r| ==>
            r[i].age > r[j].age || (r[i].age == r[j].age && r[i].amount >= r[j].amount))
      && (forall i :: 0 <= i < |r| ==> r[i] in data)
      && multiset(r) <= multiset(data)
      && (forall i, e :: 0 <= i < |r| && e in multiset(data) - multiset(r) ==>
            e.age < r[i].age || (e.age == r[i].age && e.amount <= r[i].amount))
      && (forall k :: WithKey(r, OldestKey, k) <= WithKey(data, OldestKey, k))
  {
    var r := TopByOldest(data);
    SortedTake(data, TopCount, OldestKey, false);
    forall i | 0 <= i < |r|
      ensures r[i] in data
    {
      assert r[i] in multiset(data);
    }
    forall i, j | 0 <= i < j < |r|
      ensures r[i].age > r[j].age || (r[i].age == r[j].age && r[i].amount >= r[j].amount)
    {
      assert !Before(OldestKey, false, r[j], r[i]);
    }
  }
}
