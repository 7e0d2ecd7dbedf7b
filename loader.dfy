/**
 * Transaction records and `load_csv` (project.py:21-53).
 *
 * A CSV data row arrives as the reader's dictionary from column name to
 * cell text; a column the header does not name is absent, so looking it up
 * is Python's KeyError. The conversions `int()` for Age and `float()` for
 * Purchase_Amount are given as parameters: `None` is their ValueError.
 * A row is kept, converted, exactly when every lookup and both conversions
 * succeed; kept rows stay in file order.
 */
module Loader {
  import opened Wrappers

  /** One purchase with every field present and converted (the dictionary built at project.py:34-43). */
  datatype Transaction = Transaction(
    transactionId: string,
    user: string,
    age: int,
    country: string,
    category: string,
    amount: real,
    paymentMethod: string,
    date: string)

  /** A data row as the CSV reader yields it: column name to cell text. */
  type Row = map<string, string>

  /** Python's `int()` and `float()` on cell text; `None` where they raise ValueError. */
  datatype Conversions = Conversions(toInt: string -> Option<int>, toFloat: string -> Option<real>)

  /** The error `load_csv` re-raises when the path does not exist (FileNotFoundError, project.py:50-51). */
  datatype LoadError = SourceNotFound(message: string)

  const TransactionIdColumn := "Transaction_ID"
  const UserColumn := "User_Name"
  const AgeColumn := "Age"
  const CountryColumn := "Country"
  const CategoryColumn := "Product_Category"
  const AmountColumn := "Purchase_Amount"
  const PaymentColumn := "Payment_Method"
  const DateColumn := "Transaction_Date"

  const RequiredColumns: set<string> :=
    {TransactionIdColumn, UserColumn, AgeColumn, CountryColumn,
     CategoryColumn, AmountColumn, PaymentColumn, DateColumn}

  /** The message of the re-raised FileNotFoundError. */
  function NotFoundMessage(path: string): string
  {
    "CSV file not found: " + path
  }

  /** Every lookup succeeds and both numbers convert: the row is not skipped. */
  predicate Convertible(row: Row, conv: Conversions)
  {
    && RequiredColumns <= row.Keys
    && conv.toInt(row[AgeColumn]).Some?
    && conv.toFloat(row[AmountColumn]).Some?
  }

  /** The record built from a convertible row: text copied, Age and Purchase_Amount converted. */
  function Record(row: Row, conv: Conversions): Transaction
    requires Convertible(row, conv)
  {
    Transaction(
      row[TransactionIdColumn],
      row[UserColumn],
      conv.toInt(row[AgeColumn]).value,
      row[CountryColumn],
      row[CategoryColumn],
      conv.toFloat(row[AmountColumn]).value,
      row[PaymentColumn],
      row[DateColumn])
  }

  /** What one row contributes to the result: its record, or nothing. */
  function Contribution(row: Row, conv: Conversions): seq<Transaction>
  {
    if Convertible(row, conv) then [Record(row, conv)] else []
  }

  /** The records of the rows so far, in row order. */
  function Loaded(rows: seq<Row>, conv: Conversions): seq<Transaction>
  {
    if rows == [] then []
    else Loaded(rows[..|rows| - 1], conv) + Contribution(rows[|rows| - 1], conv)
  }

  /** The positions of the rows that are kept, ascending. */
  function KeptRows(rows: seq<Row>, conv: Conversions): seq<nat>
  {
    if rows == [] then []
    else KeptRows(rows[..|rows| - 1], conv)
         + (if Convertible(rows[|rows| - 1], conv) then [|rows| - 1] else [])
  }

  /** The conversion loop of `load_csv` over the rows of an opened file. */
  method LoadRows(rows: seq<Row>, conv: Conversions) returns (data: seq<Transaction>)
    ensures data == Loaded(rows, conv)
  {
    data := [];
    var i := 0;
    while i < |rows|
      invariant 0 <= i <= |rows|
      invariant data == Loaded(rows[..i], conv)
    {
      var row := rows[i];
      // Fields are looked up and converted in the order the dictionary lists them;
      // the first KeyError or ValueError skips the row.
      if TransactionIdColumn in row && UserColumn in row && AgeColumn in row {
        var age := conv.toInt(row[AgeColumn]);
        if age.Some? && CountryColumn in row && CategoryColumn in row && AmountColumn in row {
          var amount := conv.toFloat(row[AmountColumn]);
          if amount.Some? && PaymentColumn in row && DateColumn in row {
            var transaction := Transaction(
              row[TransactionIdColumn], row[UserColumn], age.value, row[CountryColumn],
              row[CategoryColumn], amount.value, row[PaymentColumn], row[DateColumn]);
            data := data + [transaction];
          }
        }
      }
      assert rows[..i + 1][..i] == rows[..i];
      i := i + 1;
    }
    assert rows[..|rows|] == rows;
  }

  /**
   * `load_csv(path)`: `source` is the file's rows, or `None` when the path
   * does not exist, which re-raises FileNotFoundError with the path in its message.
   */
  method LoadCsv(path: string, source: Option<seq<Row>>, conv: Conversions)
    returns (r: Result<seq<Transaction>, LoadError>)
    ensures source.None? ==> r == Failure(SourceNotFound(NotFoundMessage(path)))
    ensures source.Some? ==> r == Success(Loaded(source.value, conv))
  {
    match source
    case None =>
      r := Failure(SourceNotFound(NotFoundMessage(path)));
    case Some(rows) =>
      var data := LoadRows(rows, conv);
      r := Success(data);
  }

  /** Loading distributes over concatenation: each row contributes independently, in order. */
  lemma {:induction false} LoadedAppend(a: seq<Row>, b: seq<Row>, conv: Conversions)
    ensures Loaded(a + b, conv) == Loaded(a, conv) + Loaded(b, conv)
  {
    if b == [] {
      assert a + b == a;
    } else {
      var init := b[..|b| - 1];
      LoadedAppend(a, init, conv);
      assert (a + b)[..|a + b| - 1] == a + init;
      assert (a + b)[|a + b| - 1] == b[|b| - 1];
    }
  }

  /**
   * The result is the subsequence of the convertible rows: the kept positions
   * ascend, each names a convertible row whose record is the matching output,
   * and every convertible row is kept; the other rows contribute nothing.
   */
  lemma {:induction false} LoadedKeepsConvertibleRows(rows: seq<Row>, conv: Conversions)
    ensures var out, kept := Loaded(rows, conv), KeptRows(rows, conv);
      && |kept| == |out| <= |rows|
      && (forall m, n :: 0 <= m < n < |kept| ==> kept[m] < kept[n])
      && (forall m :: 0 <= m < |kept| ==>
            kept[m] < |rows| && Convertible(rows[kept[m]], conv) && out[m] == Record(rows[kept[m]], conv))
      && (forall i :: 0 <= i < |rows| && Convertible(rows[i], conv) ==> i in kept)
  {
    if rows != [] {
      var init := rows[..|rows| - 1];
      LoadedKeepsConvertibleRows(init, conv);
      assert forall i :: 0 <= i < |init| ==> rows[i] == init[i];
    }
  }
}
