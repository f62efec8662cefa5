/**
 * The budget-vs-actual report (server/api/budget-vs-actual.js, repeated in
 * api/index.js and server/index.js): one row per budget of the month, then
 * one row per category that spent money in the month without a budget.
 */
module BudgetVsActual {
  import opened Calendar
  import opened Models
  import opened Sequences
  import opened Ledger
  import opened Http

  /** `Budget.find({ month, year })`: the budgets of the period, in store order. */
  function PeriodBudgets(budgets: seq<Budget>, month: int, year: int): seq<Budget> {
    Filter(budgets, InPeriod(month, year))
  }

  lemma PeriodBudgetsMembers(budgets: seq<Budget>, month: int, year: int, b: Budget)
    ensures b in PeriodBudgets(budgets, month, year) <==> b in budgets && b.month == month && b.year == year
  {
    FilterMembership(budgets, InPeriod(month, year), b);
  }

  /** The transaction query: a negative amount dated within `[MonthStart, MonthEnd]`. */
  predicate Counted(t: Transaction, month: int, year: int) {
    t.amount < 0.0 && DateLe(MonthStart(year, month), t.date) && DateLe(t.date, MonthEnd(year, month))
  }

  /** `Transaction.find({ date: { $gte, $lte }, amount: { $lt: 0 } })`, in store order. */
  function PeriodExpenses(txs: seq<Transaction>, month: int, year: int): (r: seq<Transaction>)
    ensures All(r, IsExpense)
  {
    Filter(txs, (t: Transaction) => Counted(t, month, year))
  }

  lemma PeriodExpensesMembers(txs: seq<Transaction>, month: int, year: int, t: Transaction)
    ensures t in PeriodExpenses(txs, month, year) <==> t in txs && Counted(t, month, year)
  {
    FilterMembership(txs, (t: Transaction) => Counted(t, month, year), t);
  }

  /**
   * The date window selects exactly the expenses of the month `new Date` names:
   * month index `month - 1` of `FullYear(year)`, carried into the year when it
   * is outside 0..11.
   */
  lemma CountedMeansInMonth(t: Transaction, month: int, year: int)
    requires ValidDate(t.date)
    ensures Counted(t, month, year) <==>
      t.amount < 0.0 && MonthNumber(t.date.year, t.date.month) == 12 * FullYear(year) + month - 1
  {
    var s := MonthStart(year, month);
    InMonthWindow(t.date, year, month);
    if MonthNumber(t.date.year, t.date.month) == MonthNumber(s.year, s.month) {
      MonthNumberInjective(t.date.year, t.date.month, s.year, s.month);
    }
  }

  /** For a month 1..12 and a four-digit year the window is that calendar month. */
  lemma CountedMeansSameMonth(t: Transaction, month: int, year: int)
    requires ValidDate(t.date) && 1 <= month <= 12 && year >= 100
    ensures Counted(t, month, year) <==> t.amount < 0.0 && t.date.year == year && t.date.month == month
  {
    CountedMeansInMonth(t, month, year);
    if MonthNumber(t.date.year, t.date.month) == MonthNumber(year, month) {
      MonthNumberInjective(t.date.year, t.date.month, year, month);
    }
  }

  /** `actualSpending[category] || 0` */
  function Lookup(sums: map<string, real>, c: string): real {
    if c in sums then sums[c] else 0.0
  }

  /** The row of a budget whose category spent `actual`. */
  function BudgetRow(b: Budget, actual: real): Row {
    Row(b.category, b.amount, actual, b.amount - actual, if b.amount > 0.0 then actual / b.amount * 100.0 else 0.0)
  }

  /** The row of a category that spent `actual` without a budget. */
  function UnbudgetedRow(c: string, actual: real): Row {
    Row(c, 0.0, actual, -actual, 100.0)
  }

  /** Some budget of `bs` is for category `c`. */
  predicate Budgeted(bs: seq<Budget>, c: string) {
    exists i | 0 <= i < |bs| :: bs[i].category == c
  }

  /** The test a spending category passes to get a row of its own. */
  function NeedsRow(bs: seq<Budget>): string -> bool {
    c => !Budgeted(bs, c) && c != "Income"
  }

  /** The categories that get an unbudgeted row, in order of first appearance. */
  function Unbudgeted(bs: seq<Budget>, es: seq<Transaction>): seq<string> {
    Filter(CategoryOrder(es), NeedsRow(bs))
  }

  function BudgetRows(bs: seq<Budget>, es: seq<Transaction>): seq<Row> {
    seq(|bs|, i requires 0 <= i < |bs| => BudgetRow(bs[i], SpentIn(es, bs[i].category)))
  }

  function UnbudgetedRows(cs: seq<string>, es: seq<Transaction>): seq<Row> {
    seq(|cs|, j requires 0 <= j < |cs| => UnbudgetedRow(cs[j], SpentIn(es, cs[j])))
  }

  /** The report for the period budgets `bs` and the period expenses `es`. */
  function ExpectedReport(bs: seq<Budget>, es: seq<Transaction>): seq<Row> {
    BudgetRows(bs, es) + UnbudgetedRows(Unbudgeted(bs, es), es)
  }

  /**
   * Lines 57-96 of the handler: tally the expenses per category, map every
   * budget to its row, then append a row for each tallied category that no
   * row names yet, except `Income`.
   */
  method Report(month: int, year: int, budgets: seq<Budget>, txs: seq<Transaction>) returns (rows: seq<Row>)
    ensures rows == ExpectedReport(PeriodBudgets(budgets, month, year), PeriodExpenses(txs, month, year))
  {
    var bs := PeriodBudgets(budgets, month, year);
    var es := PeriodExpenses(txs, month, year);
    var keys, sums, _ := Tally(es);
    rows := seq(|bs|, i requires 0 <= i < |bs| => BudgetRow(bs[i], Lookup(sums, bs[i].category)));
    TalliedBudgetRows(bs, es, keys, sums);
    var j := 0;
    while j < |keys|
      invariant 0 <= j <= |keys|
      invariant rows == BudgetRows(bs, es) + UnbudgetedRows(Filter(keys[..j], NeedsRow(bs)), es)
    {
      var c := keys[j];
      var exists_ := exists k | 0 <= k < |rows| :: rows[k].category == c;
      CategoryOrderDistinct(es);
      RowExistsIffBudgeted(bs, es, keys, j);
      ReportStep(bs, es, keys, j);
      if !exists_ && c != "Income" {
        assert c in keys;
        rows := rows + [UnbudgetedRow(c, sums[c])];
      }
      j := j + 1;
    }
    assert keys[..|keys|] == keys;
  }

  /** Looking budgets up in the tally gives the budget rows of the report. */
  lemma TalliedBudgetRows(bs: seq<Budget>, es: seq<Transaction>, keys: seq<string>, sums: map<string, real>)
    requires keys == CategoryOrder(es)
    requires forall c :: c in sums <==> c in keys
    requires forall c :: c in sums ==> sums[c] == SpentIn(es, c)
    ensures seq(|bs|, i requires 0 <= i < |bs| => BudgetRow(bs[i], Lookup(sums, bs[i].category))) == BudgetRows(bs, es)
  {
    forall i | 0 <= i < |bs| ensures Lookup(sums, bs[i].category) == SpentIn(es, bs[i].category) {
      if bs[i].category !in sums {
        CategoryOrderMembers(es, bs[i].category);
        SpentInAbsent(es, bs[i].category);
      }
    }
  }

  /** One iteration of the loop of `Report` keeps its invariant. */
  lemma ReportStep(bs: seq<Budget>, es: seq<Transaction>, keys: seq<string>, j: nat)
    requires j < |keys|
    ensures var c, done := keys[j], Filter(keys[..j], NeedsRow(bs));
      var rows := BudgetRows(bs, es) + UnbudgetedRows(done, es);
      var next := BudgetRows(bs, es) + UnbudgetedRows(Filter(keys[..j + 1], NeedsRow(bs)), es);
      && (!Budgeted(bs, c) && c != "Income" ==> next == rows + [UnbudgetedRow(c, SpentIn(es, c))])
      && (Budgeted(bs, c) || c == "Income" ==> next == rows)
  {
    var c, done := keys[j], Filter(keys[..j], NeedsRow(bs));
    assert keys[..j + 1] == keys[..j] + [c];
    FilterSnoc(keys[..j], c, NeedsRow(bs));
    var a, b := BudgetRows(bs, es), UnbudgetedRows(done, es);
    if NeedsRow(bs)(c) {
      var row := UnbudgetedRow(c, SpentIn(es, c));
      assert UnbudgetedRows(done + [c], es) == b + [row];
      assert a + (b + [row]) == (a + b) + [row];
    }
  }

  /**
   * While appending unbudgeted rows in key order, a row for key `ks[j]`
   * exists exactly when a budget names it: the rows added so far are for
   * earlier keys, and the keys are distinct.
   */
  lemma RowExistsIffBudgeted(bs: seq<Budget>, es: seq<Transaction>, ks: seq<string>, j: nat)
    requires Distinct(ks) && j < |ks|
    ensures var rows := BudgetRows(bs, es) + UnbudgetedRows(Filter(ks[..j], NeedsRow(bs)), es);
      (exists k | 0 <= k < |rows| :: rows[k].category == ks[j]) <==> Budgeted(bs, ks[j])
  {
    var done := Filter(ks[..j], NeedsRow(bs));
    var rows := BudgetRows(bs, es) + UnbudgetedRows(done, es);
    var c := ks[j];
    forall k | |bs| <= k < |rows| ensures rows[k].category != c {
      var d := done[k - |bs|];
      assert rows[k].category == d;
      FilterMembership(ks[..j], NeedsRow(bs), d);
      assert d in ks[..j];
      var m :| 0 <= m < j && ks[..j][m] == d;
      assert ks[m] == d;
    }
    forall k | 0 <= k < |bs| ensures rows[k].category == bs[k].category {
      assert rows[k] == BudgetRows(bs, es)[k];
    }
  }

  lemma ReportLength(bs: seq<Budget>, es: seq<Transaction>)
    ensures |ExpectedReport(bs, es)| == |bs| + |Unbudgeted(bs, es)|
  {
    var u := Unbudgeted(bs, es);
    var a, b := BudgetRows(bs, es), UnbudgetedRows(u, es);
    assert |a| == |bs| && |b| == |u|;
  }

  /** Row `k` of the report: a budget row, or one of the unbudgeted rows after them. */
  lemma ReportAt(bs: seq<Budget>, es: seq<Transaction>, k: int)
    requires 0 <= k < |bs| + |Unbudgeted(bs, es)|
    ensures var r, u := ExpectedReport(bs, es), Unbudgeted(bs, es);
      && |r| == |bs| + |u|
      && r[k] == if k < |bs| then BudgetRow(bs[k], SpentIn(es, bs[k].category))
                 else UnbudgetedRow(u[k - |bs|], SpentIn(es, u[k - |bs|]))
  {
    var u := Unbudgeted(bs, es);
    var a, b := BudgetRows(bs, es), UnbudgetedRows(u, es);
    assert |a| == |bs| && |b| == |u|;
    if k < |bs| {
      assert (a + b)[k] == a[k];
    } else {
      assert (a + b)[k] == b[k - |bs|];
    }
  }

  /** A budget row compares the budget with what was spent; `percentUsed` is the spent share, in percent. */
  lemma BudgetRowFacts(b: Budget, actual: real)
    ensures var r := BudgetRow(b, actual);
      && r.category == b.category
      && r.budgetAmount == b.amount
      && r.actualAmount == actual
      && r.difference == r.budgetAmount - r.actualAmount
      && (b.amount > 0.0 ==> r.percentUsed * b.amount == actual * 100.0)
      && (b.amount <= 0.0 ==> r.percentUsed == 0.0)
  {
    if b.amount > 0.0 {
      var q := actual / b.amount;
      assert q * b.amount == actual;
      calc {
        (q * 100.0) * b.amount;
        (q * b.amount) * 100.0;
        actual * 100.0;
      }
    }
  }

  /**
   * The budget rows come first, one per budget and in budget order, each
   * with the spending of its category (and so, by `BudgetRowFacts`, the
   * share of the budget used).
   */
  lemma ReportBudgetRows(bs: seq<Budget>, es: seq<Transaction>)
    ensures |ExpectedReport(bs, es)| == |bs| + |Unbudgeted(bs, es)|
    ensures var r := ExpectedReport(bs, es);
      forall i :: 0 <= i < |bs| ==>
        && r[i].category == bs[i].category
        && r[i].budgetAmount == bs[i].amount
        && r[i].actualAmount == SpentIn(es, bs[i].category)
        && r[i].difference == r[i].budgetAmount - r[i].actualAmount
        && r[i] == BudgetRow(bs[i], r[i].actualAmount)
  {
    var r := ExpectedReport(bs, es);
    ReportLength(bs, es);
    forall i | 0 <= i < |bs|
      ensures && r[i].category == bs[i].category
        && r[i].budgetAmount == bs[i].amount
        && r[i].actualAmount == SpentIn(es, bs[i].category)
        && r[i].difference == r[i].budgetAmount - r[i].actualAmount
        && r[i] == BudgetRow(bs[i], r[i].actualAmount)
    {
      ReportAt(bs, es, i);
    }
  }

  /**
   * After the budget rows, there is a row for category `c` exactly when some
   * expense of the period is in `c`, no budget is for `c`, and `c` is not
   * `Income`; it has no budget and all of `c`'s spending as overspend.
   */
  lemma ReportUnbudgetedRows(bs: seq<Budget>, es: seq<Transaction>, c: string)
    ensures var r := ExpectedReport(bs, es);
      (exists j :: |bs| <= j < |r| && r[j].category == c) <==> HasCategory(es, c) && !Budgeted(bs, c) && c != "Income"
    ensures var r := ExpectedReport(bs, es);
      forall j :: |bs| <= j < |r| && r[j].category == c ==>
        r[j] == Row(c, 0.0, SpentIn(es, c), -SpentIn(es, c), 100.0)
  {
    ReportLength(bs, es);
    var r := ExpectedReport(bs, es);
    forall j | |bs| <= j < |r| && r[j].category == c
      ensures r[j] == Row(c, 0.0, SpentIn(es, c), -SpentIn(es, c), 100.0)
      ensures HasCategory(es, c) && !Budgeted(bs, c) && c != "Income"
    {
      UnbudgetedRowAt(bs, es, j);
    }
    if HasCategory(es, c) && !Budgeted(bs, c) && c != "Income" {
      UnbudgetedRowExists(bs, es, c);
    }
  }

  /** Row `j` after the budget rows is for a category that spent, has no budget and is not `Income`. */
  lemma UnbudgetedRowAt(bs: seq<Budget>, es: seq<Transaction>, j: int)
    requires |bs| <= j < |bs| + |Unbudgeted(bs, es)|
    ensures var r := ExpectedReport(bs, es);
      var c := r[j].category;
      && r[j] == Row(c, 0.0, SpentIn(es, c), -SpentIn(es, c), 100.0)
      && HasCategory(es, c) && !Budgeted(bs, c) && c != "Income"
  {
    var u := Unbudgeted(bs, es);
    ReportAt(bs, es, j);
    var c := u[j - |bs|];
    assert c in u;
    FilterMembership(CategoryOrder(es), NeedsRow(bs), c);
    CategoryOrderMembers(es, c);
  }

  /** A category that spent, has no budget and is not `Income` has a row after the budget rows. */
  lemma UnbudgetedRowExists(bs: seq<Budget>, es: seq<Transaction>, c: string)
    requires HasCategory(es, c) && !Budgeted(bs, c) && c != "Income"
    ensures var r := ExpectedReport(bs, es);
      exists j :: |bs| <= j < |r| && r[j].category == c
  {
    var u := Unbudgeted(bs, es);
    CategoryOrderMembers(es, c);
    FilterMembership(CategoryOrder(es), NeedsRow(bs), c);
    var n :| 0 <= n < |u| && u[n] == c;
    ReportAt(bs, es, |bs| + n);
  }

  /** With all amounts negative, every unbudgeted row reports some spending. */
  lemma UnbudgetedRowsSpend(bs: seq<Budget>, es: seq<Transaction>)
    requires All(es, IsExpense)
    ensures var r := ExpectedReport(bs, es);
      forall j :: |bs| <= j < |r| ==> r[j].actualAmount > 0.0 && r[j].difference < 0.0
  {
    var r, u := ExpectedReport(bs, es), Unbudgeted(bs, es);
    ReportLength(bs, es);
    forall j | |bs| <= j < |r| ensures r[j].actualAmount > 0.0 && r[j].difference < 0.0 {
      ReportAt(bs, es, j);
      var c := u[j - |bs|];
      assert c in u;
      FilterMembership(CategoryOrder(es), NeedsRow(bs), c);
      CategoryOrderMembers(es, c);
      SpentInPositive(es, c);
    }
  }

  /** When no two budgets share a category, no two rows do. */
  lemma ReportCategoriesDistinct(bs: seq<Budget>, es: seq<Transaction>)
    requires forall i, k :: 0 <= i < k < |bs| ==> bs[i].category != bs[k].category
    ensures var r := ExpectedReport(bs, es);
      forall i, k :: 0 <= i < k < |r| ==> r[i].category != r[k].category
  {
    var r, u := ExpectedReport(bs, es), Unbudgeted(bs, es);
    UnbudgetedDistinct(bs, es);
    ReportLength(bs, es);
    forall i, k | 0 <= i < k < |r| ensures r[i].category != r[k].category {
      ReportAt(bs, es, i);
      ReportAt(bs, es, k);
      if k >= |bs| {
        assert NeedsRow(bs)(u[k - |bs|]);
      }
    }
  }

  lemma UnbudgetedDistinct(bs: seq<Budget>, es: seq<Transaction>)
    ensures Distinct(Unbudgeted(bs, es))
  {
    CategoryOrderDistinct(es);
    FilterDistinct(CategoryOrder(es), NeedsRow(bs));
  }

  /** Sum of the `actualAmount` column. */
  function SumActual(rows: seq<Row>): real {
    if rows == [] then 0.0 else SumActual(rows[..|rows| - 1]) + rows[|rows| - 1].actualAmount
  }

  lemma {:induction false} SumActualAppend(a: seq<Row>, b: seq<Row>)
    ensures SumActual(a + b) == SumActual(a) + SumActual(b)
  {
    if b == [] {
      assert a + b == a;
    } else {
      SumActualAppend(a, b[..|b| - 1]);
      assert (a + b)[..|a + b| - 1] == a + b[..|b| - 1];
    }
  }

  lemma {:induction false} SumBudgetRows(bs: seq<Budget>, es: seq<Transaction>)
    ensures SumActual(BudgetRows(bs, es)) == SumSpent(BudgetCategoryList(bs), es)
  {
    if bs != [] {
      var init := bs[..|bs| - 1];
      SumBudgetRows(init, es);
      assert BudgetRows(bs, es)[..|bs| - 1] == BudgetRows(init, es);
      assert BudgetCategoryList(bs)[..|bs| - 1] == BudgetCategoryList(init);
    }
  }

  lemma {:induction false} SumUnbudgetedRows(cs: seq<string>, es: seq<Transaction>)
    ensures SumActual(UnbudgetedRows(cs, es)) == SumSpent(cs, es)
  {
    if cs != [] {
      SumUnbudgetedRows(cs[..|cs| - 1], es);
      assert UnbudgetedRows(cs, es)[..|cs| - 1] == UnbudgetedRows(cs[..|cs| - 1], es);
    }
  }

  /** The budget categories, in budget order. */
  function BudgetCategoryList(bs: seq<Budget>): seq<string> {
    seq(|bs|, i requires 0 <= i < |bs| => bs[i].category)
  }

  /** Budget rows and unbudgeted rows are for disjoint sets of categories, whose spending the column adds up. */
  lemma ReportSumSplit(bs: seq<Budget>, es: seq<Transaction>)
    requires forall i, k :: 0 <= i < k < |bs| ==> bs[i].category != bs[k].category
    ensures var B, U := set k | k in BudgetCategoryList(bs), set k | k in Unbudgeted(bs, es);
      B !! U && SumActual(ExpectedReport(bs, es)) == SpentAmong(es, B + U)
  {
    var bcs, u := BudgetCategoryList(bs), Unbudgeted(bs, es);
    SumActualAppend(BudgetRows(bs, es), UnbudgetedRows(u, es));
    SumBudgetRows(bs, es);
    SumUnbudgetedRows(u, es);
    BudgetCategoryListDistinct(bs);
    SumSpentIsSpentAmong(bcs, es);
    UnbudgetedDistinct(bs, es);
    SumSpentIsSpentAmong(u, es);
    CategorySetsDisjoint(bs, es);
    SpentAmongDisjointUnion(es, set k | k in bcs, set k | k in u);
  }

  lemma BudgetCategoryListDistinct(bs: seq<Budget>)
    requires forall i, k :: 0 <= i < k < |bs| ==> bs[i].category != bs[k].category
    ensures Distinct(BudgetCategoryList(bs))
  {
  }

  /** No category has both a budget row and an unbudgeted row. */
  lemma CategorySetsDisjoint(bs: seq<Budget>, es: seq<Transaction>)
    ensures (set k | k in BudgetCategoryList(bs)) !! (set k | k in Unbudgeted(bs, es))
  {
    var bcs, u := BudgetCategoryList(bs), Unbudgeted(bs, es);
    forall c | c in bcs ensures c !in u {
      var k :| 0 <= k < |bs| && bcs[k] == c;
      assert bs[k].category == c;
      FilterMembership(CategoryOrder(es), NeedsRow(bs), c);
    }
  }

  /** Every spending category has a row, or is `Income` with no budget. */
  lemma ReportCoverage(bs: seq<Budget>, es: seq<Transaction>)
    ensures var B, U := set k | k in BudgetCategoryList(bs), set k | k in Unbudgeted(bs, es);
      var I: set<string> := if Budgeted(bs, "Income") then {} else {"Income"};
      && (B + U) !! I
      && forall c :: HasCategory(es, c) ==> c in B + U + I
  {
    var bcs, u := BudgetCategoryList(bs), Unbudgeted(bs, es);
    var B, U := set k | k in bcs, set k | k in u;
    if !Budgeted(bs, "Income") {
      assert "Income" !in U by {
        FilterMembership(CategoryOrder(es), NeedsRow(bs), "Income");
      }
    }
    forall k | 0 <= k < |bs| ensures bcs[k] == bs[k].category && Budgeted(bs, bcs[k]) {
    }
    forall c | HasCategory(es, c) ensures c in B + U || (c == "Income" && !Budgeted(bs, "Income")) {
      if Budgeted(bs, c) {
        var i :| 0 <= i < |bs| && bs[i].category == c;
        assert bcs[i] == c;
      } else if c != "Income" {
        CategoryOrderMembers(es, c);
        FilterMembership(CategoryOrder(es), NeedsRow(bs), c);
      }
    }
  }

  /**
   * No spending is lost or counted twice: with one budget per category, the
   * `actualAmount` column adds up to all the expenses of the period, less the
   * `Income`-category ones when no budget is for `Income`.
   */
  lemma ReportAccountsForSpending(bs: seq<Budget>, es: seq<Transaction>)
    requires forall i, k :: 0 <= i < k < |bs| ==> bs[i].category != bs[k].category
    ensures SumActual(ExpectedReport(bs, es))
         == TotalSpent(es) - (if Budgeted(bs, "Income") then 0.0 else SpentIn(es, "Income"))
  {
    var B, U := set k | k in BudgetCategoryList(bs), set k | k in Unbudgeted(bs, es);
    var I: set<string> := if Budgeted(bs, "Income") then {} else {"Income"};
    ReportSumSplit(bs, es);
    ReportCoverage(bs, es);
    SpentAmongDisjointUnion(es, B + U, I);
    SpentAmongEverything(es, B + U + I);
    if !Budgeted(bs, "Income") {
      SpentAmongSingle(es, "Income");
    } else {
      assert SpentAmong(es, I) == 0.0 by { SpentAmongNone(es); }
    }
  }

  /**
   * server/api/budget-vs-actual.js as a whole, over the stored `budgets` and
   * `txs`; `up` is false when the store fails, which includes a `month` or
   * `year` that `parseInt` reads as NaN.
   */
  method Handle(httpMethod: string, month: Param, year: Param, budgets: seq<Budget>, txs: seq<Transaction>, up: bool)
    returns (resp: Response)
    ensures httpMethod == "OPTIONS" ==> resp == Response(200, NoBody)
    ensures httpMethod != "OPTIONS" && httpMethod != "GET" ==> resp == Response(405, Error("Method not allowed"))
    ensures httpMethod == "GET" && !BothGiven(month, year) ==> resp == Response(200, Rows([]))
    ensures httpMethod == "GET" && BothGiven(month, year) && (!up || month.Unparsable? || year.Unparsable?) ==>
      resp == Response(200, Rows([]))
    ensures httpMethod == "GET" && month.Parsed? && year.Parsed? && up ==>
      resp == Response(200, Rows(ExpectedReport(PeriodBudgets(budgets, month.n, year.n), PeriodExpenses(txs, month.n, year.n))))
  {
    if httpMethod == "OPTIONS" {
      return Response(200, NoBody);
    }
    if httpMethod != "GET" {
      return Response(405, Error("Method not allowed"));
    }
    if !BothGiven(month, year) {
      return Response(200, Rows([]));
    }
    if !up || month.Unparsable? || year.Unparsable? {
      return Response(200, Rows([]));
    }
    var rows := Report(month.n, year.n, budgets, txs);
    return Response(200, Rows(rows));
  }
}
