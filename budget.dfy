// The budget tracker's ledger: transactions, the totals by type and the
// rows of the CSV export.

module Budget {
  import opened Strconv

  /** The instant time.Now() returned when a transaction was recorded. */
  datatype Time = Time(unixNanos: int)

  /** One recorded income or expense. Amounts are exact reals here. */
  datatype Transaction = Transaction(ID: int, Amount: real, Category: string, Date: Time, Type: string)
  {
    function GetAmount(): real { Amount }
    function GetType(): string { Type }
  }

  /** What one transaction adds to the total of type tType. */
  function Contribution(t: Transaction, tType: string): real {
    if t.Type == tType then t.Amount else 0.0
  }

  /** The sum of Amount over the transactions whose Type is exactly tType. */
  function SumOfType(ts: seq<Transaction>, tType: string): real {
    if ts == [] then 0.0
    else SumOfType(ts[..|ts| - 1], tType) + Contribution(ts[|ts| - 1], tType)
  }

  /** The sum of every Amount in the ledger, whatever its type. */
  function SumAll(ts: seq<Transaction>): real {
    if ts == [] then 0.0 else SumAll(ts[..|ts| - 1]) + ts[|ts| - 1].Amount
  }

  /** The transactions of type tType, in ledger order. */
  function OfType(ts: seq<Transaction>, tType: string): (r: seq<Transaction>)
    ensures |r| <= |ts|
    ensures forall x :: x in r <==> x in ts && x.Type == tType
  {
    if ts == [] then []
    else
      var init, last := ts[..|ts| - 1], ts[|ts| - 1];
      assert ts == init + [last];
      OfType(init, tType) + if last.Type == tType then [last] else []
  }

  /** The filter keeps each transaction of type tType as often as the ledger holds it, and no other. */
  lemma {:induction false} OfTypeCounts(ts: seq<Transaction>, tType: string)
    ensures forall x :: multiset(OfType(ts, tType))[x] == if x.Type == tType then multiset(ts)[x] else 0
  {
    if ts != [] {
      var init, last := ts[..|ts| - 1], ts[|ts| - 1];
      assert ts == init + [last];
      OfTypeCounts(init, tType);
      var r := OfType(init, tType);
      if last.Type == tType {
        assert OfType(ts, tType) == r + [last];
      } else {
        assert OfType(ts, tType) == r;
      }
    }
  }

  /** IDs are 0, 1, 2, ... in ledger order. */
  predicate IdsSequential(ts: seq<Transaction>) {
    forall i :: 0 <= i < |ts| ==> ts[i].ID == i
  }

  lemma {:induction false} SumOfTypeConcat(a: seq<Transaction>, b: seq<Transaction>, tType: string)
    ensures SumOfType(a + b, tType) == SumOfType(a, tType) + SumOfType(b, tType)
    decreases |b|
  {
    if b == [] {
      assert a + b == a;
    } else {
      var init := b[..|b| - 1];
      assert (a + b)[..|a + b| - 1] == a + init;
      assert (a + b)[|a + b| - 1] == b[|b| - 1];
      SumOfTypeConcat(a, init, tType);
    }
  }

  /** Appending x changes the total of type u by x's amount when x has type u, and not at all otherwise. */
  lemma SumOfTypeAppend(ts: seq<Transaction>, x: Transaction, u: string)
    ensures u == x.Type ==> SumOfType(ts + [x], u) == SumOfType(ts, u) + x.Amount
    ensures u != x.Type ==> SumOfType(ts + [x], u) == SumOfType(ts, u)
  {
    assert (ts + [x])[..|ts|] == ts;
  }

  /** The total is zero when no transaction has the requested type (the empty ledger included). */
  lemma {:induction false} SumOfTypeNoMatch(ts: seq<Transaction>, tType: string)
    requires forall i :: 0 <= i < |ts| ==> ts[i].Type != tType
    ensures SumOfType(ts, tType) == 0.0
  {
    if ts != [] {
      SumOfTypeNoMatch(ts[..|ts| - 1], tType);
    }
  }

  /** The total of a type is the sum of all amounts of the transactions of that type. */
  lemma {:induction false} SumOfTypeIsSumOfFiltered(ts: seq<Transaction>, tType: string)
    ensures SumOfType(ts, tType) == SumAll(OfType(ts, tType))
  {
    if ts != [] {
      var init, last := ts[..|ts| - 1], ts[|ts| - 1];
      SumOfTypeIsSumOfFiltered(init, tType);
      var r := OfType(init, tType);
      if last.Type == tType {
        assert OfType(ts, tType) == r + [last];
        assert (r + [last])[..|r|] == r;
      } else {
        assert OfType(ts, tType) == r;
      }
    }
  }

  /** When every type is "income" or "expense", the two totals add up to the sum of all amounts. */
  lemma {:induction false} IncomePlusExpense(ts: seq<Transaction>)
    requires forall i :: 0 <= i < |ts| ==> ts[i].Type == "income" || ts[i].Type == "expense"
    ensures SumOfType(ts, "income") + SumOfType(ts, "expense") == SumAll(ts)
  {
    if ts != [] {
      IncomePlusExpense(ts[..|ts| - 1]);
    }
  }

  /** A transaction of another type, wherever it stands, does not affect the total. */
  lemma OtherTypeIgnored(a: seq<Transaction>, x: Transaction, b: seq<Transaction>, tType: string)
    requires x.Type != tType
    ensures SumOfType(a + [x] + b, tType) == SumOfType(a + b, tType)
  {
    SumOfTypeConcat(a + [x], b, tType);
    SumOfTypeConcat(a, [x], tType);
    SumOfTypeConcat(a, b, tType);
    assert [x][..0] == [];
  }

  /** Taking the same element out of two equal multisets leaves equal multisets. */
  lemma MultisetRemoveLast<T>(init: seq<T>, x: T, left: seq<T>, right: seq<T>)
    requires multiset(init + [x]) == multiset(left + [x] + right)
    ensures multiset(left + right) == multiset(init)
  {
    assert multiset(init + [x]) == multiset(init) + multiset{x};
    assert multiset(left + [x] + right) == multiset(left + right) + multiset{x};
    var a, b := multiset(init), multiset(left + right);
    assert a == (a + multiset{x}) - multiset{x};
    assert b == (b + multiset{x}) - multiset{x};
  }

  /** The total does not depend on the order of the ledger. */
  lemma {:induction false} SumOfTypePermutation(ts: seq<Transaction>, us: seq<Transaction>, tType: string)
    requires multiset(ts) == multiset(us)
    ensures SumOfType(ts, tType) == SumOfType(us, tType)
    decreases |ts|
  {
    if ts == [] {
      assert |us| == |multiset(us)| == 0;
    } else {
      var init, x := ts[..|ts| - 1], ts[|ts| - 1];
      assert ts == init + [x];
      assert x in multiset(us);
      var j :| 0 <= j < |us| && us[j] == x;
      var left, right := us[..j], us[j + 1..];
      assert us == left + [x] + right;
      MultisetRemoveLast(init, x, left, right);
      SumOfTypePermutation(init, left + right, tType);
      SumOfTypeAppend(init, x, tType);
      SumOfTypeConcat(left + [x], right, tType);
      SumOfTypeAppend(left, x, tType);
      SumOfTypeConcat(left, right, tType);
    }
  }

  // ---------------------------------------------------------------------
  // The CSV export

  const Header: seq<string> := ["ID", "Amount", "Category", "Date", "Type"]

  /**
   * The five fields written for one transaction. The "%.2f" rendering of
   * the amount and the "2006-01-02" rendering of the date are library
   * formatting, passed in as formatAmount and formatDate.
   */
  function Record(t: Transaction, formatAmount: real -> string, formatDate: Time -> string): seq<string> {
    [Itoa(t.ID), formatAmount(t.Amount), t.Category, formatDate(t.Date), t.Type]
  }

  /** One record per transaction, in ledger order. */
  function Records(ts: seq<Transaction>, formatAmount: real -> string, formatDate: Time -> string): (r: seq<seq<string>>)
    ensures |r| == |ts|
    ensures forall i :: 0 <= i < |ts| ==> r[i] == Record(ts[i], formatAmount, formatDate)
  {
    if ts == [] then []
    else Records(ts[..|ts| - 1], formatAmount, formatDate) + [Record(ts[|ts| - 1], formatAmount, formatDate)]
  }

  /** Everything the export writes: the header, then the records. */
  function Rows(ts: seq<Transaction>, formatAmount: real -> string, formatDate: Time -> string): (r: seq<seq<string>>)
    ensures |r| == 1 + |ts| && r[0] == Header
    ensures forall i :: 0 <= i < |ts| ==> r[i + 1] == Record(ts[i], formatAmount, formatDate)
  {
    [Header] + Records(ts, formatAmount, formatDate)
  }

  /**
   * Reading the records of a ledger whose IDs are sequential gives back,
   * per row, the row's position as ID and the stored category and type.
   */
  lemma ExportReadBack(ts: seq<Transaction>, formatAmount: real -> string, formatDate: Time -> string, i: int)
    requires IdsSequential(ts) && 0 <= i < |ts|
    ensures var row := Rows(ts, formatAmount, formatDate)[i + 1];
      |row| == 5 && ParseDecimal(row[0]) == Some(i) &&
      row[2] == ts[i].Category && row[4] == ts[i].Type
  {
    var rows := Rows(ts, formatAmount, formatDate);
    assert rows[i + 1] == Record(ts[i], formatAmount, formatDate);
    ItoaRoundTrip(ts[i].ID);
  }

  /** Every data row of a ledger with sequential IDs carries its own position as ID. */
  lemma ExportIdsReadBack(ts: seq<Transaction>, formatAmount: real -> string, formatDate: Time -> string)
    requires IdsSequential(ts)
    ensures var rows := Rows(ts, formatAmount, formatDate);
      forall i :: 1 <= i < |rows| ==> ParseDecimal(rows[i][0]) == Some(i - 1)
  {
    var rows := Rows(ts, formatAmount, formatDate);
    forall i | 1 <= i < |rows|
      ensures ParseDecimal(rows[i][0]) == Some(i - 1)
    {
      ExportReadBack(ts, formatAmount, formatDate, i - 1);
    }
  }

  /** No two rows of a ledger with sequential IDs carry the same ID field. */
  lemma ExportIdsDistinct(ts: seq<Transaction>, formatAmount: real -> string, formatDate: Time -> string, i: int, j: int)
    requires IdsSequential(ts) && 0 <= i < j < |ts|
    ensures Rows(ts, formatAmount, formatDate)[i + 1][0] != Rows(ts, formatAmount, formatDate)[j + 1][0]
  {
    var rows := Rows(ts, formatAmount, formatDate);
    assert rows[i + 1] == Record(ts[i], formatAmount, formatDate);
    assert rows[j + 1] == Record(ts[j], formatAmount, formatDate);
    assert ts[i].ID == i && ts[j].ID == j;
    ItoaInjective(i, j);
  }

  /** The outcome of SaveToCSV: the rows handed to the CSV writer, or os.Create's failure. */
  datatype SaveResult = Saved(rows: seq<seq<string>>) | CreateFailed

  // ---------------------------------------------------------------------
  // The ledger object

  class BudgetTracker {
    var transactions: seq<Transaction>
    var nextID: int

    /** The counter is the ledger's length and the IDs run 0, 1, 2, ... */
    ghost predicate Valid()
      reads this
    {
      nextID == |transactions| && IdsSequential(transactions)
    }

    /** The zero value BudgetTracker{} that the program starts from. */
    constructor ()
      ensures transactions == [] && nextID == 0
      ensures Valid()
    {
      transactions := [];
      nextID := 0;
    }

    /** Records a transaction stamped with the current counter and the time now, then bumps the counter. */
    method AddTransaction(amount: real, category: string, tType: string, now: Time)
      modifies this
      ensures transactions == old(transactions) + [Transaction(old(nextID), amount, category, now, tType)]
      ensures nextID == old(nextID) + 1
      ensures old(Valid()) ==> Valid()
    {
      var newTransaction := Transaction(nextID, amount, category, now, tType);
      transactions := transactions + [newTransaction];
      nextID := nextID + 1;
    }

    /** The total amount of the transactions whose type is exactly tType. */
    method CalculateTotal(tType: string) returns (total: real)
      ensures total == SumOfType(transactions, tType)
    {
      total := 0.0;
      for i := 0 to |transactions|
        invariant total == SumOfType(transactions[..i], tType)
      {
        assert transactions[..i + 1][..i] == transactions[..i];
        if transactions[i].Type == tType {
          total := total + transactions[i].Amount;
        }
      }
      assert transactions[..|transactions|] == transactions;
    }

    /**
     * The export: fails when the file cannot be created (createOk is the
     * outcome of os.Create), and otherwise writes the header and one
     * record per transaction.
     */
    method SaveToCSV(createOk: bool, formatAmount: real -> string, formatDate: Time -> string) returns (result: SaveResult)
      ensures !createOk ==> result == CreateFailed
      ensures createOk ==> result == Saved(Rows(transactions, formatAmount, formatDate))
      ensures createOk && Valid() ==>
        forall i :: 1 <= i < |result.rows| ==> ParseDecimal(result.rows[i][0]) == Some(i - 1)
    {
      if !createOk {
        return CreateFailed;
      }
      var rows := [Header];
      for i := 0 to |transactions|
        invariant rows == [Header] + Records(transactions[..i], formatAmount, formatDate)
      {
        var t := transactions[i];
        var record := [Itoa(t.ID), formatAmount(t.Amount), t.Category, formatDate(t.Date), t.Type];
        assert transactions[..i + 1][..i] == transactions[..i];
        rows := rows + [record];
      }
      assert transactions[..|transactions|] == transactions;
      result := Saved(rows);
      if Valid() {
        ExportIdsReadBack(transactions, formatAmount, formatDate);
      }
    }
  }

  /**
   * A session as the menu drives it: an income of 100 and an expense of
   * 40.5, both totals, then an export to a file that can be created.
   */
  method SalaryAndGroceries(d0: Time, d1: Time, formatAmount: real -> string, formatDate: Time -> string)
    returns (income: real, expense: real, saved: SaveResult)
    ensures income == 100.0 && expense == 40.5
    ensures saved.Saved? && |saved.rows| == 3 && saved.rows[0] == Header
    ensures |saved.rows[1]| == 5 && |saved.rows[2]| == 5
    ensures saved.rows[1][0] == "0" && saved.rows[1][2] == "Salary"
    ensures saved.rows[2][0] == "1" && saved.rows[2][2] == "Groceries"
  {
    var bt := new BudgetTracker();
    bt.AddTransaction(100.0, "Salary", "income", d0);
    bt.AddTransaction(40.5, "Groceries", "expense", d1);
    ghost var salary := Transaction(0, 100.0, "Salary", d0, "income");
    ghost var groceries := Transaction(1, 40.5, "Groceries", d1, "expense");
    assert bt.transactions == [salary] + [groceries] && [salary] == [] + [salary];
    assert "income" != "expense" by { assert "income"[0] != "expense"[0]; }
    SumOfTypeAppend([], salary, "income");
    SumOfTypeAppend([], salary, "expense");
    SumOfTypeAppend([salary], groceries, "income");
    SumOfTypeAppend([salary], groceries, "expense");
    income := bt.CalculateTotal("income");
    expense := bt.CalculateTotal("expense");
    saved := bt.SaveToCSV(true, formatAmount, formatDate);
  }
}
