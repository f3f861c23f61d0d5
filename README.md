# Expense tracker ledger, modelled in Dafny

The expense tracker is a one-page web app. It keeps an expenditure table of rows
(Date, Description, Amount, Category, Balance) in a spreadsheet file. Its
"Add" button appends one row and writes the whole table back. The page also
shows the last five rows, the total expense, the current balance and a
per-category breakdown. This project models that ledger bookkeeping in one
Dafny module, `Expense` (`expense.dfy`):

- `Category` is the dropdown's closed set of twelve entries. `Label` gives the
  text stored in the Category column, and `IsDeposit` is the source's
  comparison of that text with `"Deposit"`.
- `Row` is one table row. Amounts and balances are exact `real` numbers. The
  date is the already formatted `YYYY-MM-DD` string.
- `Ledger` is a class. `rows` is the table in memory, and `stored` is what the
  spreadsheet file holds (`None` while there is no file). `Load` is the
  loader with its empty-table fallback. `Save` rewrites the whole file. `Add`
  is the Add step.
- The summaries are functions over `seq<Row>`: `Recent` (built on `Tail`),
  `TotalExpense` (built on `Expenses`), `CurrentBalance`, `CategoryTotals`
  (built on `InCategory` and `CategoryTotal`) and `MonthName`.
- The lemmas connect these pieces. Appending a row updates every summary in a
  known way. The grouped totals partition the Amount column into expense and
  deposits. In a table that obeys the running-balance rule, the current balance
  is the first balance plus later deposits minus later expenses.

The model follows the code, including these choices:
- Amounts may be negative. The amount field has no lower bound; only zero is
  refused.
- The electricity-bill category is spelled `"E - Bill"`.
- The first transaction on an empty table cannot be added. The balance
  computation reads the previous row's Balance without checking that a row
  exists. `Add` therefore requires a non-empty table whenever the amount is
  non-zero. The model does not invent a zero starting balance.
- `CurrentBalance` likewise requires a non-empty table.

## Model

| member | source | states |
|---|---|---|
| `Expense.Label` | expense.py:34-38 | the stored text of a category is "Deposit" exactly for the Deposit entry |
| `Expense.DepositLabel` | expense.py:46 | `IsDeposit`, the text comparison with "Deposit" made at expense.py:46 and 81, holds for the Deposit category and for no other dropdown entry |
| `Expense.CategoryLists` | expense.py:34-38 | the dropdown lists each of the twelve categories exactly once; the expense categories are exactly the non-Deposit ones |
| `Expense.NextBalance` | expense.py:46-49 | for a positive amount the balance rises exactly for a Deposit and falls for every other category; it stays put only for a zero amount |
| `Expense.NewRow` | expense.py:46-57 | the appended row carries the given date, description, amount and category, and appending it keeps the running-balance rule of a table that had it |
| `Expense.Ledger.Load` | expense.py:9-14 | the table is the file's rows, or the empty table when no file exists; the file is untouched |
| `Expense.Ledger.Save` | expense.py:17-18 | the file afterwards holds exactly the whole in-memory table |
| `Expense.Ledger.Add` | expense.py:40-59 | a zero amount changes neither the table nor the file; otherwise exactly one row is appended after the unchanged earlier rows, with the balance computed from the previous row, and the file then holds the new table; the running-balance rule and "no zero amounts" are preserved |
| `Expense.Tail` | expense.py:71 | returns min(n, length) elements, and they are the suffix of the sequence in its original order |
| `Expense.Recent` | expense.py:71 | the last-5 view has min(5, n) rows and the table is some prefix followed by exactly that view |
| `Expense.RecentSnoc` | expense.py:71 | after an append the new row is the last row of the view, and the oldest shown row drops out once five were shown |
| `Expense.Expenses` | expense.py:81 | every non-Deposit row is kept as often as it occurs in the table, and no Deposit row is kept |
| `Expense.ExpensesSnoc` | expense.py:81 | appending a row adds its amount to the total expense unless it is a Deposit, in which case the total is unchanged |
| `Expense.InCategory` | expense.py:89 | every row of the given category is kept as often as it occurs in the table, and no other row is kept |
| `Expense.TotalExpense` | expense.py:81 | a table with no expense rows (the empty table included) has total expense 0; its value is pinned by ExpensesSnoc, ExpensesAndDeposits and CategoryTotalsCoverExpense |
| `Expense.CategoryTotal` | expense.py:89 | a category that occurs in no row totals 0; CategoryTotalSnoc and CategoryTotals give its value |
| `Expense.CurrentBalance` | expense.py:85 | defined only on a non-empty table (the Balance of the last row); when the table keeps the running-balance rule it equals the first row's balance plus all later deposits minus all later expenses, proved by BalanceIsNetFlow |
| `Expense.CategoryTotals` | expense.py:89 | the grouping has an entry exactly for the categories that occur in the table, and each category's entry (0 when absent) is the sum of that category's amounts |
| `Expense.CategoryTotalSnoc` | expense.py:89 | appending a row adds its amount to its own category's total and to no other |
| `Expense.ExpensesAndDeposits` | expense.py:81 | total expense plus the Deposit total is the sum of all amounts; it also gives total expense 0 on an empty table |
| `Expense.CategoryTotalsCoverAll` | expense.py:89 | the grouped totals over all categories add up to the sum of all amounts |
| `Expense.CategoryTotalsCoverExpense` | expense.py:81-89 | the grouped totals over the non-Deposit categories add up to the total expense |
| `Expense.SumOverSnoc` | expense.py:89 | appending a row adds its amount once to the grouped totals of any list of distinct categories that contains its category |
| `Expense.BalanceIsNetFlow` | expense.py:85 | in a table that keeps the running-balance rule, the current balance is the first row's balance plus all later deposits minus all later expenses |
| `Expense.AddUpdatesSummaries` | expense.py:46-89 | after a successful Add the current balance is the previous one moved by the amount, the last-5 view ends with the new row, total expense grows by the amount unless it is a Deposit, the category's total grows by the amount, and so does the sum of all amounts |
| `Expense.MonthName` | expense.py:68-69 | a month number 1..12 names an entry of the twelve-name list, and that name leads back to the same number, so distinct months get distinct names |

## Left out

- The page itself: the title, the sidebar widgets, the buttons, the tables, the success message and the download button (expense.py:22-38, 60-65, 70, 74-78, 82, 86, 92-94). The Add button press is the call of `Ledger.Add`. The success message is its `added` result.
- Reading and writing the spreadsheet format. A file is modelled as the sequence of rows it holds. Date parsing on load and the in-memory export buffer for the download are not modelled.
- Rows read from a file whose Category text is not a dropdown entry. The model's `Category` type cannot represent them.
- The pie chart (expense.py:93-94). It is drawn by a foreign library; the model stops at the grouped totals that feed it.
- Floating-point amounts and the two-decimal formatting (expense.py:31, 82, 86). Amounts are exact reals, so rounding is not modelled.
- Date handling (expense.py:43, 69). The row stores the formatted date as an opaque string. The month lookup takes the month number directly.
- The order of one page render. Each interaction reruns the whole page: load, optional Add, then the summaries. Because the current balance is read on every render (expense.py:85), a render of an empty table fails too. The model states this as the precondition of `CurrentBalance` and does not model the render sequence itself.
