/**
  A model of the ledger bookkeeping of the expense tracker: an ordered table of
  rows (Date, Description, Amount, Category, Balance), the "Add" step that
  appends one row with its running balance and writes the whole table back to
  the spreadsheet file, and the read-only summaries shown on the page (the last
  five rows, the total expense, the current balance, the per-category totals
  and the name of the selected month).

  Amounts and balances are exact `real` numbers; dates are the already
  formatted `YYYY-MM-DD` strings; the spreadsheet file is a value held in the
  ledger object.
 */
module Expense {

  datatype Option<T> = None | Some(value: T)

  // ---------------------------------------------------------------------------
  // Categories
  // ---------------------------------------------------------------------------

  /** The entries of the category dropdown. `Deposit` is the only inflow. */
  datatype Category =
    | Nashta | Lunch | EveBreak | Dinner | OffDinner | PersonalRent | EBill
    | Recharges | Grocery | TravelExchange | Stationary | Deposit

  /** The dropdown's entries in the order the form lists them. */
  const Categories: seq<Category> :=
    [Nashta, Lunch, EveBreak, Dinner, OffDinner, PersonalRent, EBill,
     Recharges, Grocery, TravelExchange, Stationary, Deposit]

  /** Every category except the inflow one: the categories that count as expense. */
  const ExpenseCategories: seq<Category> :=
    [Nashta, Lunch, EveBreak, Dinner, OffDinner, PersonalRent, EBill,
     Recharges, Grocery, TravelExchange, Stationary]

  /** The text the table stores in its Category column. */
  function Label(c: Category): (s: string)
    ensures s == "Deposit" <==> c == Deposit
  {
    match c
    case Nashta => "Nashta"
    case Lunch => "Lunch"
    case EveBreak => "Eve.Break"
    case Dinner => "Dinner"
    case OffDinner => "Off Dinner"
    case PersonalRent => "Personal/Rent"
    case EBill => "E - Bill"
    case Recharges => "Recharges"
    case Grocery => "Grocery"
    case TravelExchange => "Travel Exchange"
    case Stationary => "Stationary"
    case Deposit => "Deposit"
  }

  /** The comparison `category == "Deposit"` the ledger makes on the stored text. */
  predicate IsDeposit(c: Category)
  {
    Label(c) == "Deposit"
  }

  /** Only the Deposit entry carries the label "Deposit". */
  lemma DepositLabel(c: Category)
    ensures IsDeposit(c) <==> c == Deposit
  {
  }

  predicate Distinct<T(==)>(s: seq<T>)
  {
    forall i, j :: 0 <= i < j < |s| ==> s[i] != s[j]
  }

  /** The dropdown lists every category once; the expense categories are exactly
      the non-deposit ones, each once. */
  lemma CategoryLists()
    ensures Distinct(Categories) && Distinct(ExpenseCategories)
    ensures forall c: Category :: c in Categories
    ensures forall c: Category :: c in ExpenseCategories <==> !IsDeposit(c)
  {
    forall c: Category ensures c in ExpenseCategories <==> !IsDeposit(c) {
      DepositLabel(c);
    }
  }

  // ---------------------------------------------------------------------------
  // Rows and the running balance
  // ---------------------------------------------------------------------------

  /** One row of the expenditure table. */
  datatype Row = Row(date: string, description: string, amount: real, category: Category, balance: real)

  /** The balance after a transaction of `amount` in category `c`, given the
      previous row's balance: a deposit adds the amount, anything else takes it
      away. */
  function NextBalance(prev: real, amount: real, c: Category): (b: real)
    ensures amount > 0.0 ==> (b > prev <==> c == Deposit)
    ensures amount > 0.0 ==> (b < prev <==> c != Deposit)
    ensures b == prev <==> amount == 0.0
  {
    DepositLabel(c);
    if IsDeposit(c) then prev + amount else prev - amount
  }

  /** Every row's balance follows from the row before it. The first row's
      balance is unconstrained: the table never seeds it. */
  predicate RunningBalance(rows: seq<Row>)
  {
    forall i :: 0 < i < |rows| ==>
      rows[i].balance == NextBalance(rows[i - 1].balance, rows[i].amount, rows[i].category)
  }

  /** No row has a zero amount: the Add step refuses those. */
  predicate NoZeroAmounts(rows: seq<Row>)
  {
    forall i :: 0 <= i < |rows| ==> rows[i].amount != 0.0
  }

  /** The row the Add step appends behind `rows`. */
  function NewRow(rows: seq<Row>, date: string, description: string, amount: real, category: Category): (row: Row)
    requires rows != []
    ensures row.date == date && row.description == description
    ensures row.amount == amount && row.category == category
    ensures RunningBalance(rows) ==> RunningBalance(rows + [row])
  {
    Row(date, description, amount, category, NextBalance(rows[|rows| - 1].balance, amount, category))
  }

  // ---------------------------------------------------------------------------
  // The ledger object: the table in memory and the file on disk
  // ---------------------------------------------------------------------------

  class Ledger {
    /** The table as held in memory. */
    var rows: seq<Row>
    /** What the spreadsheet file holds; None while no file exists. */
    var stored: Option<seq<Row>>

    /** Loads the table from the file, or starts from an empty table with the
        five columns when there is no file. */
    constructor Load(file: Option<seq<Row>>)
      ensures stored == file
      ensures rows == (if file.Some? then file.value else [])
    {
      stored := file;
      rows := if file.Some? then file.value else [];
    }

    /** Writes the whole table to the file, replacing what it held. */
    method Save()
      modifies this`stored
      ensures stored == Some(rows)
    {
      stored := Some(rows);
    }

    /** The "Add" step. A zero amount is refused and nothing is written;
        otherwise exactly one row is appended, carrying the balance computed from
        the previous row, and the whole table is saved. `added` tells whether
        the success message is shown. */
    method Add(date: string, description: string, amount: real, category: Category) returns (added: bool)
      requires amount != 0.0 ==> rows != []
      modifies this
      ensures added <==> amount != 0.0
      ensures !added ==> rows == old(rows) && stored == old(stored)
      ensures added ==> rows == old(rows) + [NewRow(old(rows), date, description, amount, category)]
      ensures added ==> stored == Some(rows)
      ensures RunningBalance(old(rows)) ==> RunningBalance(rows)
      ensures NoZeroAmounts(old(rows)) ==> NoZeroAmounts(rows)
    {
      if amount != 0.0 {
        var balance;
        if IsDeposit(category) {
          balance := rows[|rows| - 1].balance + amount;
        } else {
          balance := rows[|rows| - 1].balance - amount;
        }
        DepositLabel(category);
        rows := rows + [Row(date, description, amount, category, balance)];
        Save();
        added := true;
      } else {
        added := false;
      }
    }
  }

  // ---------------------------------------------------------------------------
  // Read-only summaries
  // ---------------------------------------------------------------------------

  function Min(a: int, b: int): int { if a < b then a else b }

  /** The last `n` elements of `s`, in their original order (all of them when
      there are fewer than `n`). */
  function Tail<T>(s: seq<T>, n: nat): (t: seq<T>)
    ensures |t| == Min(n, |s|)
    ensures s[|s| - |t|..] == t
  {
    if |s| <= n then s else Tail(s[1..], n)
  }

  /** The "last 5 rows" view. */
  function Recent(rows: seq<Row>): (view: seq<Row>)
    ensures |view| == Min(5, |rows|)
    ensures rows == rows[..|rows| - |view|] + view
  {
    Tail(rows, 5)
  }

  /** The sum of the Amount column. */
  function SumAmount(rows: seq<Row>): real
  {
    if rows == [] then 0.0 else SumAmount(rows[..|rows| - 1]) + rows[|rows| - 1].amount
  }

  /** The rows whose category is not Deposit, in table order. */
  function Expenses(rows: seq<Row>): (e: seq<Row>)
    ensures |e| <= |rows|
    ensures forall r :: multiset(e)[r] == if IsDeposit(r.category) then 0 else multiset(rows)[r]
  {
    if rows == [] then []
    else
      var init, last := rows[..|rows| - 1], rows[|rows| - 1];
      assert rows == init + [last];
      Expenses(init) + (if IsDeposit(last.category) then [] else [last])
  }

  /** The rows of category `c`, in table order. */
  function InCategory(rows: seq<Row>, c: Category): (g: seq<Row>)
    ensures |g| <= |rows|
    ensures forall r :: multiset(g)[r] == if r.category == c then multiset(rows)[r] else 0
  {
    if rows == [] then []
    else
      var init, last := rows[..|rows| - 1], rows[|rows| - 1];
      assert rows == init + [last];
      InCategory(init, c) + (if last.category == c then [last] else [])
  }

  /** No row of the table is an expense (true of the empty table). */
  predicate OnlyDeposits(rows: seq<Row>)
  {
    forall r :: r in rows ==> IsDeposit(r.category)
  }

  /** No row of the table has category `c`. */
  predicate Lacks(rows: seq<Row>, c: Category)
  {
    forall r :: r in rows ==> r.category != c
  }

  /** Total expense: the amounts of the non-deposit rows, added up. A table
      holding only deposits (the empty table included) has no expense. */
  function TotalExpense(rows: seq<Row>): (t: real)
    ensures OnlyDeposits(rows) ==> t == 0.0
  {
    SumAmount(Expenses(rows))
  }

  /** The amount spent (or deposited) in category `c`; nothing for a category
      that does not occur. */
  function CategoryTotal(rows: seq<Row>, c: Category): (t: real)
    ensures Lacks(rows, c) ==> t == 0.0
  {
    SumAmount(InCategory(rows, c))
  }

  /** The current balance: the Balance of the last row. An empty table has none.
      When the table keeps the running-balance rule, it is the first row's
      balance plus every later deposit minus every later expense. */
  function CurrentBalance(rows: seq<Row>): (b: real)
    requires rows != []
    ensures RunningBalance(rows) ==>
      b == rows[0].balance + CategoryTotal(rows[1..], Deposit) - TotalExpense(rows[1..])
  {
    if RunningBalance(rows) then BalanceIsNetFlow(rows); rows[|rows| - 1].balance
    else rows[|rows| - 1].balance
  }

  function Get(m: map<Category, real>, c: Category): real
  {
    if c in m then m[c] else 0.0
  }

  /** The grouping of the Amount column by Category: one entry per category that
      occurs in the table, holding the sum of that category's amounts. */
  function CategoryTotals(rows: seq<Row>): (m: map<Category, real>)
    ensures forall c :: c in m <==> exists r :: r in rows && r.category == c
    ensures forall c :: Get(m, c) == CategoryTotal(rows, c)
  {
    if rows == [] then map[]
    else
      var init, last := rows[..|rows| - 1], rows[|rows| - 1];
      var m := CategoryTotals(init);
      assert rows == init + [last];
      CategoryTotalsValuesStep(init, last, m);
      var m' := m[last.category := Get(m, last.category) + last.amount];
      CategoryTotalsKeysStep(init, last, m, m');
      m'
  }

  /** The step of the grouping: adding the last row's amount to its category's
      entry gives every category its total over the longer table ... */
  lemma CategoryTotalsValuesStep(init: seq<Row>, last: Row, m: map<Category, real>)
    requires forall c :: Get(m, c) == CategoryTotal(init, c)
    ensures var m' := m[last.category := Get(m, last.category) + last.amount];
      forall c :: Get(m', c) == CategoryTotal(init + [last], c)
  {
    forall c ensures Get(m[last.category := Get(m, last.category) + last.amount], c) == CategoryTotal(init + [last], c) {
      CategoryTotalSnoc(init, last, c);
    }
  }

  /** ... and an entry for exactly the categories of the longer table. */
  lemma CategoryTotalsKeysStep(init: seq<Row>, last: Row, m: map<Category, real>, m': map<Category, real>)
    requires forall c :: c in m <==> exists r :: r in init && r.category == c
    requires m'.Keys == m.Keys + {last.category}
    ensures forall c :: c in m' <==> exists r :: r in init + [last] && r.category == c
  {
    var rows := init + [last];
    forall c ensures c in m' <==> exists r :: r in rows && r.category == c {
      if c in m && c != last.category {
        var r :| r in init && r.category == c;
        assert r in rows;
      }
      if c == last.category {
        assert last in rows;
      }
    }
  }

  lemma CategoryTotalSnoc(s: seq<Row>, x: Row, c: Category)
    ensures CategoryTotal(s + [x], c) == CategoryTotal(s, c) + (if x.category == c then x.amount else 0.0)
  {
    assert (s + [x])[..|s|] == s;
    if x.category == c {
      assert InCategory(s + [x], c) == InCategory(s, c) + [x];
      SumAmountSnoc(InCategory(s, c), x);
    } else {
      assert InCategory(s + [x], c) == InCategory(s, c) + [];
      assert InCategory(s, c) + [] == InCategory(s, c);
    }
  }

  lemma SumAmountSnoc(s: seq<Row>, x: Row)
    ensures SumAmount(s + [x]) == SumAmount(s) + x.amount
  {
  }

  lemma ExpensesSnoc(s: seq<Row>, x: Row)
    ensures TotalExpense(s + [x]) == TotalExpense(s) + (if x.category == Deposit then 0.0 else x.amount)
  {
    assert (s + [x])[..|s|] == s;
    DepositLabel(x.category);
    if IsDeposit(x.category) {
      assert Expenses(s + [x]) == Expenses(s) + [];
      assert Expenses(s) + [] == Expenses(s);
    } else {
      assert Expenses(s + [x]) == Expenses(s) + [x];
      SumAmountSnoc(Expenses(s), x);
    }
  }

  // ---------------------------------------------------------------------------
  // How the summaries fit together
  // ---------------------------------------------------------------------------

  /** Every amount is either an expense or a deposit: total expense and the
      Deposit total add up to the whole Amount column. */
  lemma {:induction false} ExpensesAndDeposits(rows: seq<Row>)
    ensures TotalExpense(rows) + CategoryTotal(rows, Deposit) == SumAmount(rows)
    decreases |rows|
  {
    if rows != [] {
      var init, last := rows[..|rows| - 1], rows[|rows| - 1];
      assert rows == init + [last];
      ExpensesAndDeposits(init);
      ExpensesSnoc(init, last);
      CategoryTotalSnoc(init, last, Deposit);
    }
  }

  /** The grouped totals of the categories `cats`, added up. */
  function SumOver(m: map<Category, real>, cats: seq<Category>): real
  {
    if cats == [] then 0.0 else Get(m, cats[0]) + SumOver(m, cats[1..])
  }

  /** Appending one row adds its amount to the grouped totals of `cats` exactly
      once when its category is among them, and not at all otherwise. */
  lemma {:induction false} SumOverSnoc(s: seq<Row>, x: Row, cats: seq<Category>)
    requires Distinct(cats)
    ensures SumOver(CategoryTotals(s + [x]), cats)
         == SumOver(CategoryTotals(s), cats) + (if x.category in cats then x.amount else 0.0)
  {
    if cats != [] {
      assert Distinct(cats[1..]);
      assert cats == [cats[0]] + cats[1..];
      SumOverSnoc(s, x, cats[1..]);
      CategoryTotalSnoc(s, x, cats[0]);
    }
  }

  /** The per-category totals over all dropdown categories add up to the sum of
      all amounts. */
  lemma {:induction false} CategoryTotalsCoverAll(rows: seq<Row>)
    ensures SumOver(CategoryTotals(rows), Categories) == SumAmount(rows)
    decreases |rows|
  {
    CategoryLists();
    if rows == [] {
      assert forall c :: Get(CategoryTotals(rows), c) == 0.0;
      SumOverZero(CategoryTotals(rows), Categories);
    } else {
      var init, last := rows[..|rows| - 1], rows[|rows| - 1];
      assert rows == init + [last];
      CategoryTotalsCoverAll(init);
      SumOverSnoc(init, last, Categories);
    }
  }

  /** The per-category totals over the non-deposit categories add up to the
      total expense. */
  lemma {:induction false} CategoryTotalsCoverExpense(rows: seq<Row>)
    ensures SumOver(CategoryTotals(rows), ExpenseCategories) == TotalExpense(rows)
    decreases |rows|
  {
    CategoryLists();
    if rows == [] {
      assert forall c :: Get(CategoryTotals(rows), c) == 0.0;
      SumOverZero(CategoryTotals(rows), ExpenseCategories);
    } else {
      var init, last := rows[..|rows| - 1], rows[|rows| - 1];
      assert rows == init + [last];
      CategoryTotalsCoverExpense(init);
      SumOverSnoc(init, last, ExpenseCategories);
      ExpensesSnoc(init, last);
      DepositLabel(last.category);
    }
  }

  lemma {:induction false} SumOverZero(m: map<Category, real>, cats: seq<Category>)
    requires forall c :: Get(m, c) == 0.0
    ensures SumOver(m, cats) == 0.0
  {
    if cats != [] {
      SumOverZero(m, cats[1..]);
    }
  }

  /** Every prefix of a table that keeps the running-balance rule keeps it too. */
  lemma RunningBalancePrefix(rows: seq<Row>, k: nat)
    requires k <= |rows| && RunningBalance(rows)
    ensures RunningBalance(rows[..k])
  {
    var prefix := rows[..k];
    forall i | 0 < i < |prefix|
      ensures prefix[i].balance == NextBalance(prefix[i - 1].balance, prefix[i].amount, prefix[i].category)
    {
      assert prefix[i] == rows[i] && prefix[i - 1] == rows[i - 1];
    }
  }

  lemma LaterRows(rows: seq<Row>)
    requires |rows| > 1
    ensures rows[1..] == rows[..|rows| - 1][1..] + [rows[|rows| - 1]]
  {
    assert rows[..|rows| - 1][1..] == rows[1..|rows| - 1];
    assert rows[|rows| - 1..] == [rows[|rows| - 1]];
    assert rows[1..] == rows[1..|rows| - 1] + rows[|rows| - 1..];
  }

  /** In a table whose balances all follow the running-balance rule, the
      current balance is the first row's balance plus every later deposit minus
      every later expense. */
  lemma {:induction false} BalanceIsNetFlow(rows: seq<Row>)
    requires rows != [] && RunningBalance(rows)
    ensures rows[|rows| - 1].balance
         == rows[0].balance + CategoryTotal(rows[1..], Deposit) - TotalExpense(rows[1..])
    decreases |rows|
  {
    if |rows| > 1 {
      var init, last := rows[..|rows| - 1], rows[|rows| - 1];
      RunningBalancePrefix(rows, |rows| - 1);
      BalanceIsNetFlow(init);
      var later := init[1..];
      LaterRows(rows);
      ExpensesSnoc(later, last);
      CategoryTotalSnoc(later, last, Deposit);
      DepositLabel(last.category);
      assert last.balance == NextBalance(init[|init| - 1].balance, last.amount, last.category);
    }
  }

  /** What one successful Add does to every summary: the balance moves by the
      amount, the new row closes the last-5 view, and the amount lands in its
      category's total and, unless it is a deposit, in the total expense. */
  lemma AddUpdatesSummaries(rows: seq<Row>, date: string, description: string, amount: real, category: Category)
    requires rows != []
    ensures var row := NewRow(rows, date, description, amount, category);
      var after := rows + [row];
      && CurrentBalance(after) == NextBalance(CurrentBalance(rows), amount, category)
      && Recent(after) == (if |rows| < 5 then Recent(rows) else Recent(rows)[1..]) + [row]
      && TotalExpense(after) == TotalExpense(rows) + (if category == Deposit then 0.0 else amount)
      && Get(CategoryTotals(after), category) == Get(CategoryTotals(rows), category) + amount
      && SumAmount(after) == SumAmount(rows) + amount
  {
    var row := NewRow(rows, date, description, amount, category);
    ExpensesSnoc(rows, row);
    CategoryTotalSnoc(rows, row, category);
    SumAmountSnoc(rows, row);
    RecentSnoc(rows, row);
  }

  /** The last-5 view after appending `x`: `x` becomes its last row, and the
      oldest row drops out once five were shown. */
  lemma RecentSnoc(s: seq<Row>, x: Row)
    ensures Recent(s + [x]) == (if |s| < 5 then Recent(s) else Recent(s)[1..]) + [x]
  {
  }

  // ---------------------------------------------------------------------------
  // Clients: what a caller can conclude from the contracts alone
  // ---------------------------------------------------------------------------

  /** A deposit of 100 followed by a lunch of 30. */
  method DepositThenLunch()
  {
    var ledger := new Ledger.Load(Some([Row("2024-01-01", "Salary", 100.0, Deposit, 100.0)]));
    ghost var first := ledger.rows;
    assert OnlyDeposits(first);
    var added := ledger.Add("2024-01-02", "Thali", 30.0, Lunch);
    assert added && ledger.stored == Some(ledger.rows);
    AddUpdatesSummaries(first, "2024-01-02", "Thali", 30.0, Lunch);
    assert CurrentBalance(ledger.rows) == 70.0;
    assert TotalExpense(ledger.rows) == 30.0;
  }

  /** A zero amount on a table that has no file yet: nothing changes, nothing is written. */
  method ZeroAmountOnEmptyTable()
  {
    var ledger := new Ledger.Load(None);
    var added := ledger.Add("2024-01-01", "Coffee", 0.0, Nashta);
    assert !added && ledger.rows == [] && ledger.stored == None;
  }

  // ---------------------------------------------------------------------------
  // Month lookup
  // ---------------------------------------------------------------------------

  const MonthNames: seq<string> :=
    ["January", "February", "March", "April", "May", "June", "July",
     "August", "September", "October", "November", "December"]

  /** The name of month `m` (1 for January), as shown in the heading. */
  function MonthName(m: int): (name: string)
    requires 1 <= m <= 12
    ensures name in MonthNames
    ensures MonthNumber(name) == Some(m)
  {
    MonthNamesDistinct();
    MonthNames[m - 1]
  }

  /** The number of the month called `name`, if any month is. */
  function MonthNumber(name: string): (m: Option<int>)
    ensures m.Some? ==> 1 <= m.value <= 12 && MonthNames[m.value - 1] == name
    ensures m.None? <==> name !in MonthNames
  {
    FindMonth(name, 0)
  }

  function FindMonth(name: string, i: nat): (m: Option<int>)
    requires i <= |MonthNames|
    ensures m.Some? ==> i < m.value <= 12 && MonthNames[m.value - 1] == name
    ensures m.None? <==> name !in MonthNames[i..]
    decreases |MonthNames| - i
  {
    if i == |MonthNames| then None
    else if MonthNames[i] == name then Some(i + 1)
    else FindMonth(name, i + 1)
  }

  lemma MonthNamesDistinct()
    ensures |MonthNames| == 12 && Distinct(MonthNames)
  {
  }
}
