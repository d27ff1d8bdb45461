# Budget tracker ledger in Dafny

A model of the ledger at the heart of a small Go command-line budget tracker
(`main.go`). The ledger, `BudgetTracker`, holds an ordered list of
`Transaction` values and a `nextID` counter. It supports three operations:

- `AddTransaction` stamps a new transaction with the current counter and the current time, appends it and bumps the counter.
- `CalculateTotal` sums the amounts of the transactions whose type is exactly the given string.
- `SaveToCSV` writes a header row and then one five-field row per transaction.

Files:

- `budget.dfy`, module `Budget`: the `Transaction` datatype and the `BudgetTracker` class. The class has a `seq<Transaction>` field, an `int` counter and the invariant `Valid()`: the counter equals the ledger's length and the IDs are 0, 1, 2, ... `CalculateTotal` and `SaveToCSV` are read-only methods whose loops are proved against the functions `SumOfType` and `Rows`. The lemmas state what the source promises about those functions.
- `strconv.dfy`, module `Strconv`: `Itoa`, the decimal rendering that `strconv.Itoa` gives the ID column. `ParseDecimal` reads that rendering back, and `ItoaRoundTrip` proves that it does.

Modelling decisions:

- Amounts are `real`, so sums are exact.
- The time that `time.Now()` would return is a parameter of `AddTransaction`.
- The `%.2f` amount formatting and the `2006-01-02` date formatting are uninterpreted. They are passed in as the functions `formatAmount` and `formatDate`.
- Whether `os.Create` succeeds is the parameter `createOk` of `SaveToCSV`. On success the method returns the rows it hands to the CSV writer.
- The code stores any string as the type, so the model does too. A two-valued enum would be tighter, but that is not what the code does.
- The code ignores errors from `writer.Write` and `Flush` and returns `nil` once `os.Create` has succeeded. So the only failure the model has is `CreateFailed`. The model gives no guarantee that anything was flushed.

## Model

| member | source | states |
|---|---|---|
| `Budget.BudgetTracker.constructor` | main.go:104 | the zero-value ledger is empty with counter 0 and satisfies the invariant |
| `Budget.BudgetTracker.AddTransaction` | main.go:42-52 | appends exactly one transaction with ID = old counter and the given amount, category, type and time; earlier transactions unchanged; counter grows by 1; the invariant (counter = length, IDs 0..n-1) is preserved |
| `Budget.BudgetTracker.CalculateTotal` | main.go:63-71 | the loop returns `SumOfType(transactions, tType)` and changes nothing |
| `Budget.BudgetTracker.SaveToCSV` | main.go:74-99 | fails when the file cannot be created; otherwise the rows written are exactly `Rows(transactions, ...)`; on a valid tracker the ID field of data row i reads back as i - 1 |
| `Budget.OfType` | main.go:66 | the filter keeps exactly the transactions whose type equals the argument (both directions of membership) and never grows the list |
| `Budget.OfTypeCounts` | main.go:66 | as multisets, the filter holds each transaction of the requested type exactly as often as the ledger does, and no transaction of another type |
| `Budget.SumOfTypeConcat` | main.go:65-68 | the total over a concatenation is the sum of the totals of the parts |
| `Budget.SumOfTypeAppend` | main.go:50 | appending a transaction of type t adds its amount to the total of t and leaves the total of every other type unchanged |
| `Budget.SumOfTypeNoMatch` | main.go:63-71 | the total is 0 when no transaction has the type, including for the empty ledger |
| `Budget.SumOfTypeIsSumOfFiltered` | main.go:65-68 | the total of t equals the sum of all amounts of the transactions filtered to type t |
| `Budget.IncomePlusExpense` | main.go:66 | if every type is "income" or "expense", the income total plus the expense total is the sum of all amounts |
| `Budget.OtherTypeIgnored` | main.go:66 | inserting a transaction of another type anywhere leaves the total unchanged |
| `Budget.SumOfTypePermutation` | main.go:65-68 | the total is the same for any reordering of the ledger (equal multisets) |
| `Budget.Records` | main.go:88-97 | one record per transaction, record i built from transaction i, in ledger order |
| `Budget.Rows` | main.go:84-97 | the export has 1 + n rows: the header `ID,Amount,Category,Date,Type`, then record i+1 from transaction i |
| `Budget.ExportReadBack` | main.go:88-95 | for a ledger with sequential IDs, row i+1 has five fields, its ID field reads back as i, and fields 3 and 5 are the stored category and type |
| `Budget.ExportIdsReadBack` | main.go:88-96 | for a ledger with sequential IDs, the ID field of every data row i reads back as i - 1 |
| `Budget.ExportIdsDistinct` | main.go:90 | in a ledger with sequential IDs, no two exported rows share an ID field |
| `Budget.SalaryAndGroceries` | main.go:133-149 | adding 100 of income and 40.5 of expense gives totals 100 and 40.5, and the export has the header and two rows with IDs "0" and "1" in that order |
| `Strconv.Itoa` | main.go:90 | the rendering is canonical: non-empty, starts with '-' exactly when the number is negative, is "0" for zero, and has no leading zero digit otherwise |
| `Strconv.NatDigitsValue` | main.go:90 | the digits produced for n have the value n |
| `Strconv.ItoaRoundTrip` | main.go:90 | reading back the rendering of n gives n |
| `Strconv.ItoaInjective` | main.go:90 | distinct integers render as distinct strings |

## Left out

- The interactive menu loop, its `fmt.Scanln` input and its printed output (main.go:103-161) are terminal I/O. `SalaryAndGroceries` plays one session of it without the I/O.
- `DisplayTransactions` (main.go:55-60) only prints to standard output.
- The `FinancialRecord` interface (main.go:27-30) is a Go typing detail. Its getters `GetAmount` and `GetType` are plain field reads on `Transaction`, with no contract.
- `SaveToCSV` takes no filename. The model does not capture `os.Create` itself, closing the file, the CSV writer's quoting of fields that contain commas or quotes, `Flush`, or the "Transactions saved to" message. Errors from `Write` and `Flush` are ignored in the code, so there is nothing to model for them.
- `time.Now()` and the date and `%.2f` formatting are clock reads and library formatting. They are parameters here.
- Budget.BudgetTracker.CalculateTotal: sums exactly in `real`. It does not model `float64` rounding, under which the Go sum depends on order. Likewise, `SumOfTypePermutation` and `IncomePlusExpense` hold only for exact arithmetic.
- Budget.BudgetTracker.AddTransaction: `nextID` is an unbounded integer. Go's `int` has the platform's word size, so in the program the counter wraps after 2^63 - 1 additions on 64-bit targets and after 2^31 - 1 on 32-bit targets. After that the IDs go negative and the invariant `Valid()` no longer holds in the program. The model does not capture this.
