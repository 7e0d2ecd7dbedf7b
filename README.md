# E-commerce transaction report: a Dafny model of the load → aggregate → analyze pipeline

The repository reads purchase transactions from a CSV file, groups them by product category and
computes a small set of statistics. This project models the three parts of `project.py` that hold
logic, and proves what they promise:

- **Loading** (`load_csv`). The module `Loader` is in `loader.dfy`. Each CSV row becomes a fixed-field
  `Transaction`, or the row is skipped when a column is missing or a number does not convert.
  `LoadRows` is the conversion loop, written imperatively. It is proved equal to the specification
  function `Loaded`. Lemmas show that the output is exactly the convertible rows' records, in row
  order. `LoadCsv` adds the error for a path that does not exist.
- **Aggregation** (`aggregate_by_category`). The module `Aggregation` is in `aggregation.dfy`. The
  insertion-ordered dictionary is a key order (`seq<string>`) plus a `map`. The method
  `AggregateByCategory` keeps both passes of the source: first count and total, then the average. It
  is proved equal to `Summarize`. Lemmas about `Summarize` cover the following:
  - the counts and totals partition the data exactly;
  - a key is present iff some transaction has that category, and then its count is at least 1;
  - the keys appear in first-appearance order, with no duplicates;
  - each average is total / count.
- **Analysis** (`analyze_purchase_patterns`). The module `Analysis` is in `analysis.dfy`. The
  overall mean fails on empty data. The three top-5 lists are each the first five of a stable sort
  under the source's own key. The sort is the generic insertion sort of `StableSort`
  (`stable_sort.dfy`), proved sorted, a permutation and stable. Stability is stated per key: the
  elements with any one key keep their input order.

`sample.dfy` replays the repository's test fixture (eight transactions) through the model.

Modelling choices:

- Amounts are `real`, so sums and averages are exact.
- Ages are `int`. The source converts with `int()` and never checks the sign.
- A CSV row is a `map<string, string>` from column name to cell text. A column absent from the
  header is an absent key, which is Python's `KeyError`.
- The conversions `int()` and `float()` are a parameter (`Conversions`) returning `Option`. `None`
  stands for `ValueError`.
- The file's rows are a parameter too: `None` means the path does not exist (`FileNotFoundError`).
- Empty data: the model's error is `ZeroDivision`, the `ZeroDivisionError` that project.py:88
  raises on empty data.

## Model

| member | source | states |
|---|---|---|
| `Loader.LoadRows` | project.py:32-48 | The conversion loop returns `Loaded(rows)`: for each row in order, its record if all eight columns are present and Age and Purchase_Amount convert, else nothing. |
| `Loader.LoadCsv` | project.py:21-53 | A path that does not exist gives `SourceNotFound("CSV file not found: " + path)`. An existing file gives `Success` of its loaded rows. |
| `Loader.LoadedAppend` | project.py:32-48 | Loading distributes over concatenation of the row list: each row contributes independently, in row order. |
| `Loader.LoadedKeepsConvertibleRows` | project.py:32-48 | The output is the subsequence of convertible rows. The kept row positions strictly ascend, each output is `Record` of its row (text copied, Age and Amount converted), every convertible row is kept, and the output is no longer than the input. |
| `StableSort.InsertionSort` | project.py:91-106 | A sort keeps the length of its input. Order, permutation and stability are the lemmas below. |
| `StableSort.Take` | project.py:95 | `s[:n]` has length `min(n, len(s))` and is a prefix of `s`. |
| `StableSort.SortSorted` | project.py:91-106 | After the sort, no element goes strictly before (under its key and `reverse` flag) an element to its left. |
| `StableSort.SortPermutes` | project.py:91-106 | The sorted list is a permutation of the input. |
| `StableSort.SortStable` | project.py:91-106 | Stability: for every key value, the elements carrying it appear in the sorted list exactly in their input order, also with `reverse=True`. |
| `StableSort.SortedTake` | project.py:91-106 | The first n of the sort: `min(n, len)` elements, sorted, a sub-multiset of the input. No remaining input element goes before any chosen one. Per key value, the chosen elements are the earliest of the input, in input order. |
| `Aggregation.AggregateByCategory` | project.py:57-81 | Both passes together return exactly `Summarize(data)`: the key order and, per key, its count, total and average. |
| `Aggregation.StatsOf` | project.py:68-79 | A category's entry has count ≥ 1, count = its number of transactions, total = the sum of their amounts, and average × count = total. |
| `Aggregation.FirstSeenCounts` | project.py:68-74 | A category is a summary key iff some transaction has it, iff its count is ≥ 1. An absent category has total 0. |
| `Aggregation.FirstSeenDistinct` | project.py:68-72 | No category appears twice in the key order. |
| `Aggregation.FirstSeenOrdered` | project.py:68-72 | The key order is first-appearance order. Every transaction of a later key is preceded by some transaction of each earlier key. |
| `Aggregation.SummarizeValid` | project.py:64-81 | The summary is a well-formed dictionary. Its keys are exactly the categories present. Every entry has count ≥ 1, the exact count and total, and average = total / count. |
| `Aggregation.Partition` | project.py:64-75 | Over the key order, the counts sum to `len(data)` and the totals sum to the sum of all amounts. |
| `Aggregation.SummaryPartition` | project.py:64-75 | The same for the summary's own entries: the sum of `count` is `len(data)` and the sum of `total_amount` is the sum of all amounts. |
| `Analysis.Items` | project.py:92 | `summary.items()` of a well-formed dictionary: every entry is a key with its own statistics, every key appears, and no key appears twice. |
| `Analysis.AveragePurchase` | project.py:87-88 | Fails (`ZeroDivision`) exactly on empty data. Otherwise returns the mean: mean × len(data) = sum of amounts. |
| `Analysis.AverageWithinBounds` | project.py:87-88 | The mean lies between any lower and upper bound of the amounts. |
| `Analysis.AnalyzePurchasePatterns` | project.py:85-114 | Fails exactly on empty data. Otherwise the mean times len(data) is the sum of amounts, the top-categories list has `min(5, categories)` entries and both transaction lists have `min(5, len(data))`. |
| `Analysis.TopCategoriesSpec` | project.py:91-95 | `min(5, len(summary))` entries, with non-increasing averages. Each is the summary's own (category, stats) entry, and together they are a sub-multiset of the summary items. No other item has a higher average than a chosen one, and equal averages keep summary order. |
| `Analysis.TopByYoungestSpec` | project.py:98-101 | `min(5, len(data))` transactions of `data`, sorted by age ascending then amount descending. No unchosen transaction is younger, or equally young and bigger. Full ties keep data order. |
| `Analysis.TopByOldestSpec` | project.py:103-106 | `min(5, len(data))` transactions of `data`, sorted by age descending then amount descending. No unchosen transaction is older, or equally old and bigger. Full ties keep data order. |
| `Sample.FixtureSummary` | test_project.py:21-28 | For the fixture's eight transactions, Sports has count 1 and total 231.72, and Clothing has count 2 and total 681.58, exactly. |
| `Sample.FixtureAnalysis` | test_project.py:30-36 | For the fixture, the analysis succeeds, the mean is positive and there are at most 5 top categories. |

## Left out

- `main` (project.py:5-17): command-line arguments, `input()`, printing, and writing `report.txt` are I/O.
- `format_table` (project.py:117-167): string formatting of floats with `:.2f` and padding with `:15` and `:5`. It is not part of this model.
- Opening the file and tokenising it with `csv.DictReader` (project.py:28-30) are library behaviour. The file's rows are an input of `LoadCsv`, and a path that does not exist is `None`.
- `Loader.LoadCsv`: only `FileNotFoundError` is caught and re-raised with the "CSV file not found" message (project.py:50-51). Other errors from opening or reading the file (`PermissionError`, `IsADirectoryError`, `UnicodeDecodeError`, `csv.Error`) propagate unchanged and are not modelled.
- Short CSV rows: `csv.DictReader` gives missing trailing cells the value `None`, not a missing key. Then `int(None)` or `float(None)` raises `TypeError`, which the `except (ValueError, KeyError)` clause at project.py:47 does not catch, and `None` text cells are copied into the record. The model's rows hold only text cells, so this path is not modelled.
- The exact string syntax that Python's `int()` and `float()` accept. The `Conversions` parameter stands in for it.
- Floating point: amounts are exact reals. Rounding in sums and averages, NaN and infinity (which `float()` accepts, and which make `sorted` inconsistent) are not modelled. Because of this, `Sample.FixtureSummary` states the Clothing total exactly, where the test rounds it.
- `Analysis.AnalyzePurchasePatterns`, `Analysis.TopCategories`, `Analysis.Items`: they require a well-formed summary (each key once, key order = map keys). That is what a Python dict always is, not an extra demand on callers.
- Python's sort algorithm (Timsort) is replaced by an insertion sort. Only its documented results are modelled: a sorted, stable permutation.
- The in-place update of each `stats` dictionary in the second pass (project.py:78-79) is modelled as a new map of finished entries. The first-pass entry (`Tally`) has no `average_amount` yet, as in the source.
