/**
 * `aggregate_by_category` (project.py:57-81).
 *
 * Python's dict keeps insertion order; the model keeps that order as a
 * sequence of category names beside a map from name to statistics. The
 * first pass creates a category with count 0 and total 0 on first sight,
 * then counts the transaction and adds its amount; the second pass adds
 * `average_amount = total_amount / count` to every entry.
 */
module Aggregation {
  import opened Loader

  /** A first-pass entry: `{"count": ..., "total_amount": ...}` before the average is added. */
  datatype Tally = Tally(count: nat, totalAmount: real)

  /** A finished entry of the summary. */
  datatype CategorySummary = CategorySummary(count: nat, totalAmount: real, averageAmount: real)

  /** The insertion-ordered summary dictionary: `order` lists its keys. */
  datatype Summary = Summary(order: seq<string>, entries: map<string, CategorySummary>)
  {
    /** A dictionary: each key once in `order`, and `order` lists exactly the keys. */
    ghost predicate Valid()
    {
      && Distinct(order)
      && (forall c :: c in entries <==> c in order)
    }
  }

  /** No element is listed twice. */
  ghost predicate Distinct(keys: seq<string>)
  {
    forall i, j :: 0 <= i < j < |keys| ==> keys[i] != keys[j]
  }

  /** Categories in the order they first appear in `data`. */
  function FirstSeen(data: seq<Transaction>): seq<string>
  {
    if data == [] then []
    else
      var seen := FirstSeen(data[..|data| - 1]);
      var c := data[|data| - 1].category;
      if c in seen then seen else seen + [c]
  }

  /** How many transactions of `data` have category `c`. */
  function CountOf(data: seq<Transaction>, c: string): nat
  {
    if data == [] then 0
    else CountOf(data[..|data| - 1], c) + (if data[|data| - 1].category == c then 1 else 0)
  }

  /** The sum of the amounts of the transactions of `data` with category `c`, from left to right. */
  function TotalOf(data: seq<Transaction>, c: string): real
  {
    if data == [] then 0.0
    else TotalOf(data[..|data| - 1], c) + (if data[|data| - 1].category == c then data[|data| - 1].amount else 0.0)
  }

  /** The sum of all amounts, from left to right (Python's `sum`). */
  function TotalAmount(data: seq<Transaction>): real
  {
    if data == [] then 0.0 else TotalAmount(data[..|data| - 1]) + data[|data| - 1].amount
  }

  /** The statistics of a category that occurs in `data`. */
  function StatsOf(data: seq<Transaction>, c: string): (r: CategorySummary)
    requires c in FirstSeen(data)
    ensures r.count >= 1
    ensures r.count == CountOf(data, c) && r.totalAmount == TotalOf(data, c)
    ensures r.averageAmount * r.count as real == r.totalAmount
  {
    FirstSeenCounts(data, c);
    var n := CountOf(data, c);
    var total := TotalOf(data, c);
    CategorySummary(n, total, total / n as real)
  }

  /** The summary `aggregate_by_category` returns for `data`. */
  function Summarize(data: seq<Transaction>): Summary
  {
    var order := FirstSeen(data);
    Summary(order, map c | c in order :: StatsOf(data, c))
  }

  /** Both passes of `aggregate_by_category`. */
  method AggregateByCategory(data: seq<Transaction>) returns (summary: Summary)
    ensures summary == Summarize(data)
  {
    var order: seq<string> := [];
    var tally: map<string, Tally> := map[];
    var i := 0;
    while i < |data|
      invariant 0 <= i <= |data|
      invariant order == FirstSeen(data[..i])
      invariant forall c :: c in tally <==> c in order
      invariant forall c :: c in tally ==> tally[c] == Tally(CountOf(data[..i], c), TotalOf(data[..i], c))
    {
      var category := data[i].category;
      var amount := data[i].amount;
      assert data[..i + 1][..i] == data[..i];
      if category !in tally {
        FirstSeenCounts(data[..i], category);
        order := order + [category];
        tally := tally[category := Tally(0, 0.0)];
      }
      tally := tally[category := Tally(tally[category].count + 1, tally[category].totalAmount + amount)];
      ghost var prefix := data[..i + 1];
      assert prefix[..|prefix| - 1] == data[..i] && prefix[|prefix| - 1] == data[i];
      i := i + 1;
    }
    assert data[..|data|] == data;

    var entries: map<string, CategorySummary> := map[];
    var j := 0;
    while j < |order|
      invariant 0 <= j <= |order|
      invariant forall c :: c in entries <==> c in order[..j]
      invariant forall c :: c in entries ==> c in order && entries[c] == StatsOf(data, c)
    {
      var c := order[j];
      var stats := tally[c];
      FirstSeenCounts(data, c);
      entries := entries[c := CategorySummary(stats.count, stats.totalAmount, stats.totalAmount / stats.count as real)];
      assert order[..j + 1] == order[..j] + [c];
      j := j + 1;
    }
    assert order[..|order|] == order;
    summary := Summary(order, entries);
  }

  /** A category is in the key order exactly when some transaction has it, and then it has count >= 1. */
  lemma {:induction false} FirstSeenCounts(data: seq<Transaction>, c: string)
    ensures c in FirstSeen(data) <==> CountOf(data, c) >= 1
    ensures c in FirstSeen(data) <==> exists i :: 0 <= i < |data| && data[i].category == c
    ensures c !in FirstSeen(data) ==> TotalOf(data, c) == 0.0
  {
    if data != [] {
      var init := data[..|data| - 1];
      FirstSeenCounts(init, c);
      assert forall i :: 0 <= i < |init| ==> data[i] == init[i];
      if c in FirstSeen(init) {
        var i :| 0 <= i < |init| && init[i].category == c;
        assert data[i].category == c;
      }
    }
  }

  /** No category is listed twice. */
  lemma {:induction false} FirstSeenDistinct(data: seq<Transaction>)
    ensures Distinct(FirstSeen(data))
  {
    if data != [] {
      var seen := FirstSeen(data[..|data| - 1]);
      var c := data[|data| - 1].category;
      FirstSeenDistinct(data[..|data| - 1]);
      assert FirstSeen(data) == if c in seen then seen else seen + [c];
    }
  }

  /**
   * The key order is the order of first appearance: every transaction of a
   * later-listed category comes after some transaction of each earlier-listed one.
   */
  lemma {:induction false} FirstSeenOrdered(data: seq<Transaction>)
    ensures var order := FirstSeen(data);
      forall i, j, k :: 0 <= i < j < |order| && 0 <= k < |data| && data[k].category == order[j] ==>
        exists m :: 0 <= m < k && data[m].category == order[i]
  {
    if data != [] {
      var init := data[..|data| - 1];
      var seen, order := FirstSeen(init), FirstSeen(data);
      FirstSeenOrdered(init);
      assert forall n :: 0 <= n < |init| ==> data[n] == init[n];
      forall i, j, k | 0 <= i < j < |order| && 0 <= k < |data| && data[k].category == order[j]
        ensures exists m :: 0 <= m < k && data[m].category == order[i]
      {
        assert order[i] in seen;
        FirstSeenCounts(init, order[i]);
        var m :| 0 <= m < |init| && init[m].category == order[i];
        if k < |init| {
          if j < |seen| {
            assert init[k].category == seen[j] && seen[i] == order[i];
          } else {
            FirstSeenCounts(init, order[j]);
            assert false;
          }
        } else {
          assert data[m].category == order[i];
        }
      }
    }
  }

  /** The summary is a proper dictionary whose every entry has count >= 1 and the exact average. */
  lemma SummarizeValid(data: seq<Transaction>)
    ensures Summarize(data).Valid()
    ensures forall c :: c in Summarize(data).entries <==> exists i :: 0 <= i < |data| && data[i].category == c
    ensures forall c :: c in Summarize(data).entries ==>
      var e := Summarize(data).entries[c];
      e.count >= 1 && e.count == CountOf(data, c) && e.totalAmount == TotalOf(data, c)
      && e.averageAmount == e.totalAmount / e.count as real
  {
    FirstSeenDistinct(data);
    forall c
      ensures c in Summarize(data).entries <==> exists i :: 0 <= i < |data| && data[i].category == c
    {
      FirstSeenCounts(data, c);
    }
  }

  /** Sum of `CountOf` over a list of categories. */
  function CountSum(data: seq<Transaction>, keys: seq<string>): nat
  {
    if keys == [] then 0 else CountSum(data, keys[..|keys| - 1]) + CountOf(data, keys[|keys| - 1])
  }

  /** Sum of `TotalOf` over a list of categories. */
  function TotalSum(data: seq<Transaction>, keys: seq<string>): real
  {
    if keys == [] then 0.0 else TotalSum(data, keys[..|keys| - 1]) + TotalOf(data, keys[|keys| - 1])
  }

  /** Adding one transaction to the data adds it to the sums once per listing of its category. */
  lemma {:induction false} SumsStep(data: seq<Transaction>, t: Transaction, keys: seq<string>)
    requires Distinct(keys)
    ensures CountSum(data + [t], keys) == CountSum(data, keys) + (if t.category in keys then 1 else 0)
    ensures TotalSum(data + [t], keys) == TotalSum(data, keys) + (if t.category in keys then t.amount else 0.0)
  {
    if keys != [] {
      var init := keys[..|keys| - 1];
      SumsStep(data, t, init);
      assert (data + [t])[..|data|] == data;
      assert t.category in keys <==> t.category in init || t.category == keys[|keys| - 1];
    }
  }

  /**
   * Aggregation is a lossless partition: over the summary's categories the
   * counts add up to the number of transactions and the totals to the sum of all amounts.
   */
  lemma {:induction false} Partition(data: seq<Transaction>)
    ensures CountSum(data, FirstSeen(data)) == |data|
    ensures TotalSum(data, FirstSeen(data)) == TotalAmount(data)
  {
    if data != [] {
      var init, t := data[..|data| - 1], data[|data| - 1];
      var seen := FirstSeen(init);
      Partition(init);
      FirstSeenDistinct(init);
      assert data == init + [t];
      SumsStep(init, t, seen);
      if t.category !in seen {
        FirstSeenCounts(init, t.category);
        assert CountOf(data, t.category) == CountOf(init, t.category) + 1;
        assert (seen + [t.category])[..|seen|] == seen;
      }
    }
  }

  /** Sum of the counts of the listed entries. */
  function EntryCountSum(entries: map<string, CategorySummary>, keys: seq<string>): nat
    requires forall c :: c in keys ==> c in entries
  {
    if keys == [] then 0 else EntryCountSum(entries, keys[..|keys| - 1]) + entries[keys[|keys| - 1]].count
  }

  /** Sum of the totals of the listed entries. */
  function EntryTotalSum(entries: map<string, CategorySummary>, keys: seq<string>): real
    requires forall c :: c in keys ==> c in entries
  {
    if keys == [] then 0.0 else EntryTotalSum(entries, keys[..|keys| - 1]) + entries[keys[|keys| - 1]].totalAmount
  }

  lemma {:induction false} EntrySums(data: seq<Transaction>, keys: seq<string>)
    requires forall c :: c in keys ==> c in FirstSeen(data)
    ensures var entries := Summarize(data).entries;
      && EntryCountSum(entries, keys) == CountSum(data, keys)
      && EntryTotalSum(entries, keys) == TotalSum(data, keys)
  {
    if keys != [] {
      EntrySums(data, keys[..|keys| - 1]);
    }
  }

  /** The summary's counts add up to `len(data)` and its totals to the sum of all amounts. */
  lemma SummaryPartition(data: seq<Transaction>)
    ensures var s := Summarize(data);
      && EntryCountSum(s.entries, s.order) == |data|
      && EntryTotalSum(s.entries, s.order) == TotalAmount(data)
  {
    EntrySums(data, FirstSeen(data));
    Partition(data);
  }
}
