/**
 * `generateInsights` of client/src/components/SpendingInsights.jsx: up to
 * four remarks on the current month's transactions, with the current date
 * passed in as `now`. The message texts, which only format the numbers
 * carried here, are left out.
 */
module SpendingInsights {
  import opened Calendar
  import opened Models
  import opened Sequences
  import opened Ledger

  datatype Insight =
    | ReducedSpending(percent: real)          // spending fell by at least 10%
    | IncreasedSpending(percent: real)        // spending rose by at least 10%
    | TopCategory(category: string, percent: real)
    | LargeTransactions(items: seq<Transaction>)
    | GreatSavings(rate: real)
    | SpendingMoreThanIncome

  /** The position of an insight's rule in the fixed order of the rules. */
  function Rank(i: Insight): nat {
    match i
    case ReducedSpending(_) => 0
    case IncreasedSpending(_) => 0
    case TopCategory(_, _) => 1
    case LargeTransactions(_) => 2
    case GreatSavings(_) => 3
    case SpendingMoreThanIncome => 3
  }

  /** The transactions dated in month `m` (1–12) of year `y`. */
  function InMonthOf(y: int, m: int): Transaction -> bool {
    (t: Transaction) => t.date.year == y && t.date.month == m
  }

  /** An expense of more than 100 in magnitude. */
  predicate IsLarge(t: Transaction) {
    t.amount < 0.0 && Abs(t.amount) > 100.0
  }

  /** `(a, b) => Math.abs(b.amount) - Math.abs(a.amount)` */
  function ByMagnitudeDesc(): (Transaction, Transaction) -> bool {
    (a: Transaction, b: Transaction) => Abs(b.amount) <= Abs(a.amount)
  }

  /** `(a, b) => b[1] - a[1]` on `Object.entries(categoryExpenses)` */
  function ByValueDesc(): ((string, real), (string, real)) -> bool {
    (a: (string, real), b: (string, real)) => b.1 <= a.1
  }

  /** `Object.entries(categoryExpenses)`: each category of `exp` with its total, in first-appearance order. */
  function Entries(exp: seq<Transaction>): (r: seq<(string, real)>)
    ensures |r| == |CategoryOrder(exp)|
  {
    var ks := CategoryOrder(exp);
    seq(|ks|, i requires 0 <= i < |ks| => (ks[i], SpentIn(exp, ks[i])))
  }

  /** `(x / d) * 100`, the shape of every percentage the rules compute. */
  function Percent(x: real, d: real): real
    requires d != 0.0
  {
    x / d * 100.0
  }

  /** A percentage compares with `k` as `100 * x` compares with `k * d`. */
  lemma PercentBounds(x: real, d: real, k: real)
    requires d > 0.0
    ensures Percent(x, d) >= k <==> 100.0 * x >= k * d
    ensures Percent(x, d) <= k <==> 100.0 * x <= k * d
    ensures Percent(x, d) < k <==> 100.0 * x < k * d
  {
    var q := x / d;
    assert q * d == x;
    assert (q * 100.0) * d == 100.0 * x;
  }

  // ------------------------------------------------------------- the rules

  /** Month over month: a change of at least 10% either way, when last month had expenses. */
  function Comparison(current: real, previous: real): seq<Insight> {
    if previous > 0.0 then
      var change := Percent(current - previous, previous);
      if change <= -10.0 then [ReducedSpending(Abs(change))]
      else if change >= 10.0 then [IncreasedSpending(change)]
      else []
    else []
  }

  /** The category with the largest share of the month's expenses `exp`, when the share is at least 30%. */
  function TopCategoryRule(exp: seq<Transaction>): seq<Insight>
    requires All(exp, IsExpense)
  {
    var entries := Entries(exp);
    if |entries| > 0 then
      var top := SortBy(entries, ByValueDesc())[0];
      TopShare(exp, top)
    else []
  }

  function TopShare(exp: seq<Transaction>, top: (string, real)): seq<Insight> {
    var total := TotalSpent(exp);
    if total != 0.0 && Percent(top.1, total) >= 30.0 then [TopCategory(top.0, Percent(top.1, total))] else []
  }

  /** The three largest expenses above 100, largest first. */
  function LargestExpenses(current: seq<Transaction>): seq<Transaction> {
    Take(SortBy(Filter(current, IsLarge), ByMagnitudeDesc()), 3)
  }

  function LargeRule(current: seq<Transaction>): seq<Insight> {
    var large := LargestExpenses(current);
    if |large| > 0 then [LargeTransactions(large)] else []
  }

  /** The savings rate of the month, when it has both income and expenses. */
  function Savings(income: real, expenses: real): seq<Insight> {
    if income > 0.0 && expenses > 0.0 then
      var rate := Percent(income - expenses, income);
      if rate >= 20.0 then [GreatSavings(rate)]
      else if rate < 0.0 then [SpendingMoreThanIncome]
      else []
    else []
  }

  /** `generateInsights()` at the date `now`. */
  function Insights(txs: seq<Transaction>, now: Date): seq<Insight>
    requires 1 <= now.month <= 12
  {
    if txs == [] then []
    else
      var current := Filter(txs, InMonthOf(now.year, now.month));
      var (py, pm) := PreviousMonth(now.year, now.month);
      var previous := Filter(txs, InMonthOf(py, pm));
      Comparison(ExpenseTotal(current), ExpenseTotal(previous))
        + TopCategoryRule(Expenses(current))
        + LargeRule(current)
        + Savings(IncomeTotal(current), ExpenseTotal(current))
  }

  /**
   * The effect of the React hook. The category totals come from the
   * `forEach` loop of `TopCategoryOf`; the other rules are the conditionals
   * above, appended in the order of the pushes.
   */
  method GenerateInsights(txs: seq<Transaction>, now: Date) returns (insights: seq<Insight>)
    requires 1 <= now.month <= 12
    ensures insights == Insights(txs, now)
  {
    if |txs| == 0 {
      return [];
    }
    var current := Filter(txs, InMonthOf(now.year, now.month));
    var (py, pm) := PreviousMonth(now.year, now.month);
    var previous := Filter(txs, InMonthOf(py, pm));
    var currentExpenses := ExpenseTotal(current);
    var comparison := Comparison(currentExpenses, ExpenseTotal(previous));
    var top := TopCategoryOf(Expenses(current), currentExpenses);
    insights := comparison + top + LargeRule(current) + Savings(IncomeTotal(current), currentExpenses);
  }

  /** The `forEach` over the month's expenses and the pick of the largest entry. */
  method TopCategoryOf(exp: seq<Transaction>, total: real) returns (r: seq<Insight>)
    requires All(exp, IsExpense) && total == TotalSpent(exp)
    ensures r == TopCategoryRule(exp)
  {
    r := [];
    var keys, sums, _ := Tally(exp);
    if |keys| > 0 {
      var entries := seq(|keys|, i requires 0 <= i < |keys| => (keys[i], sums[keys[i]]));
      assert entries == Entries(exp);
      var top := SortBy(entries, ByValueDesc())[0];
      if total != 0.0 {
        var share := Percent(top.1, total);
        if share >= 30.0 {
          r := [TopCategory(top.0, share)];
        }
      }
    }
  }

  // ---------------------------------------------------------- the properties

  /** No transactions, no insights. */
  lemma NoTransactionsNoInsights(now: Date)
    requires 1 <= now.month <= 12
    ensures Insights([], now) == []
  {
  }

  /**
   * The month-over-month rule fires only when last month had expenses: it
   * reports a reduction when this month spent at most 90% of last month, an
   * increase when it spent at least 110%, and nothing in between.
   */
  lemma ComparisonSpec(current: real, previous: real)
    ensures var r := Comparison(current, previous);
      && |r| <= 1
      && (r != [] ==> previous > 0.0)
      && (r != [] && r[0].ReducedSpending? <==> previous > 0.0 && 10.0 * current <= 9.0 * previous)
      && (r != [] && r[0].IncreasedSpending? <==> previous > 0.0 && 10.0 * current >= 11.0 * previous)
  {
    if previous > 0.0 {
      PercentBounds(current - previous, previous, -10.0);
      PercentBounds(current - previous, previous, 10.0);
    }
  }

  /** An entry is a category of `exp` paired with its total. */
  lemma EntriesMembers(exp: seq<Transaction>, e: (string, real))
    ensures e in Entries(exp) <==> HasCategory(exp, e.0) && e.1 == SpentIn(exp, e.0)
  {
    var ks := CategoryOrder(exp);
    CategoryOrderMembers(exp, e.0);
    if e in Entries(exp) {
      var k :| 0 <= k < |ks| && Entries(exp)[k] == e;
      assert ks[k] == e.0;
    }
    if HasCategory(exp, e.0) && e.1 == SpentIn(exp, e.0) {
      var k :| 0 <= k < |ks| && ks[k] == e.0;
      assert Entries(exp)[k] == e;
    }
  }

  lemma ByValueDescTotal()
    ensures TotalPreorder(ByValueDesc())
  {
    forall a: (string, real), b: (string, real) ensures ByValueDesc()(a, b) || ByValueDesc()(b, a) {}
  }

  /** The first entry after the sort is one of the largest. */
  lemma {:induction false} FirstAfterSortIsMax(entries: seq<(string, real)>)
    requires |entries| > 0
    ensures var top := SortBy(entries, ByValueDesc())[0];
      top in entries && forall e | e in entries :: e.1 <= top.1
  {
    var sorted := SortBy(entries, ByValueDesc());
    ByValueDescTotal();
    SortBySorted(entries, ByValueDesc());
    assert sorted[0] in multiset(entries) by { assert sorted[0] in multiset(sorted); }
    forall e | e in entries ensures e.1 <= sorted[0].1 {
      assert e in multiset(sorted);
      var i :| 0 <= i < |sorted| && sorted[i] == e;
      if i > 0 { assert ByValueDesc()(sorted[0], sorted[i]); }
    }
  }

  /**
   * The top-category rule names a category of the month's expenses whose
   * total is at least every other category's and at least 30% of all
   * expenses; when it says nothing, no category reaches 30%.
   */
  lemma TopCategorySpec(exp: seq<Transaction>)
    requires All(exp, IsExpense)
    ensures var r := TopCategoryRule(exp);
      && |r| <= 1
      && (r != [] ==>
            && r[0].TopCategory?
            && HasCategory(exp, r[0].category)
            && (forall c :: SpentIn(exp, c) <= SpentIn(exp, r[0].category))
            && 10.0 * SpentIn(exp, r[0].category) >= 3.0 * TotalSpent(exp))
      && (r == [] ==> forall c | HasCategory(exp, c) :: 10.0 * SpentIn(exp, c) < 3.0 * TotalSpent(exp))
  {
    var entries := Entries(exp);
    forall c | HasCategory(exp, c) ensures |entries| > 0 {
      CategoryOrderMembers(exp, c);
    }
    if |entries| > 0 {
      var top := SortBy(entries, ByValueDesc())[0];
      FirstAfterSortIsMax(entries);
      EntriesMembers(exp, top);
      forall c ensures SpentIn(exp, c) <= top.1 {
        if HasCategory(exp, c) {
          EntriesMembers(exp, (c, SpentIn(exp, c)));
        } else {
          SpentInAbsent(exp, c);
        }
      }
      SpentInPositive(exp, top.0);
      assert TopCategoryRule(exp) == TopShare(exp, top);
      TopShareSpec(exp, top);
    }
  }

  /** A positive top total is reported exactly when it is at least 30% of all expenses. */
  lemma TopShareSpec(exp: seq<Transaction>, top: (string, real))
    requires 0.0 < top.1 <= TotalSpent(exp)
    ensures var r := TopShare(exp, top);
      && (r != [] <==> 10.0 * top.1 >= 3.0 * TotalSpent(exp))
      && (r == [] || r == [TopCategory(top.0, Percent(top.1, TotalSpent(exp)))])
  {
    PercentBounds(top.1, TotalSpent(exp), 30.0);
  }

  lemma ByMagnitudeDescTotal()
    ensures TotalPreorder(ByMagnitudeDesc())
  {
    forall a: Transaction, b: Transaction ensures ByMagnitudeDesc()(a, b) || ByMagnitudeDesc()(b, a) {}
  }

  /**
   * The large-transaction rule lists at most three of the month's expenses
   * above 100, largest first, and none smaller than any it leaves out.
   */
  lemma LargestExpensesSpec(current: seq<Transaction>)
    ensures var large := SortBy(Filter(current, IsLarge), ByMagnitudeDesc());
      var r := LargestExpenses(current);
      && |r| == (if |large| < 3 then |large| else 3)
      && r <= large
      && SortedBy(r, ByMagnitudeDesc())
      && (forall t | t in r :: t in current && IsLarge(t))
      && (forall i, j | 0 <= i < |r| <= j < |large| :: Abs(large[j].amount) <= Abs(r[i].amount))
  {
    var f := Filter(current, IsLarge);
    var large := SortBy(f, ByMagnitudeDesc());
    var r := LargestExpenses(current);
    ByMagnitudeDescTotal();
    SortBySorted(f, ByMagnitudeDesc());
    forall t | t in r ensures t in current && IsLarge(t) {
      assert t in large;
      assert t in multiset(f);
      FilterMembership(current, IsLarge, t);
    }
    TakeSorted(large, 3, ByMagnitudeDesc());
  }

  /** The large-transaction rule fires exactly when some expense of the month is above 100. */
  lemma LargeRuleFires(current: seq<Transaction>)
    ensures LargeRule(current) != [] <==> exists t | t in current :: IsLarge(t)
    ensures LargeRule(current) == [] || LargeRule(current) == [LargeTransactions(LargestExpenses(current))]
  {
    var f := Filter(current, IsLarge);
    var large := SortBy(f, ByMagnitudeDesc());
    if t :| t in current && IsLarge(t) {
      FilterMembership(current, IsLarge, t);
      assert t in multiset(large);
    }
    if LargeRule(current) != [] {
      var t := LargestExpenses(current)[0];
      assert t in large;
      assert t in multiset(f);
      FilterMembership(current, IsLarge, t);
    }
  }

  /**
   * The savings rule needs both income and expenses: it praises keeping at
   * least 20% of the income (expenses at most 80% of it), warns when
   * expenses exceed the income, and says nothing otherwise.
   */
  lemma SavingsSpec(income: real, expenses: real)
    ensures var r := Savings(income, expenses);
      && |r| <= 1
      && (r != [] ==> income > 0.0 && expenses > 0.0)
      && (r != [] && r[0].GreatSavings? <==> income > 0.0 && expenses > 0.0 && 5.0 * expenses <= 4.0 * income)
      && (r == [SpendingMoreThanIncome] <==> income > 0.0 && expenses > 0.0 && expenses > income)
  {
    if income > 0.0 && expenses > 0.0 {
      PercentBounds(income - expenses, income, 20.0);
      PercentBounds(income - expenses, income, 0.0);
    }
  }

  /** The rules fire in their fixed order, each at most once, so there are at most four insights. */
  lemma InsightsInOrder(txs: seq<Transaction>, now: Date)
    requires 1 <= now.month <= 12
    ensures var r := Insights(txs, now);
      && |r| <= 4
      && (forall i, j | 0 <= i < j < |r| :: Rank(r[i]) < Rank(r[j]))
  {
    if txs != [] {
      var current := Filter(txs, InMonthOf(now.year, now.month));
      var (py, pm) := PreviousMonth(now.year, now.month);
      var previous := Filter(txs, InMonthOf(py, pm));
      var a := Comparison(ExpenseTotal(current), ExpenseTotal(previous));
      var b := TopCategoryRule(Expenses(current));
      var c := LargeRule(current);
      var d := Savings(IncomeTotal(current), ExpenseTotal(current));
      assert Insights(txs, now) == a + b + c + d;
      ComparisonRanked(ExpenseTotal(current), ExpenseTotal(previous));
      TopCategoryRanked(Expenses(current));
      LargeRanked(current);
      SavingsRanked(IncomeTotal(current), ExpenseTotal(current));
      RuleRanks(a, b, c, d);
    }
  }

  /** Each rule gives at most one insight, of its own rank. */
  predicate RankedRule(r: seq<Insight>, k: nat) {
    |r| <= 1 && forall x | x in r :: Rank(x) == k
  }

  lemma ComparisonRanked(current: real, previous: real)
    ensures RankedRule(Comparison(current, previous), 0)
  {
  }

  lemma TopCategoryRanked(exp: seq<Transaction>)
    requires All(exp, IsExpense)
    ensures RankedRule(TopCategoryRule(exp), 1)
  {
  }

  lemma LargeRanked(current: seq<Transaction>)
    ensures RankedRule(LargeRule(current), 2)
  {
  }

  lemma SavingsRanked(income: real, expenses: real)
    ensures RankedRule(Savings(income, expenses), 3)
  {
  }

  lemma RuleRanks(a: seq<Insight>, b: seq<Insight>, c: seq<Insight>, d: seq<Insight>)
    requires RankedRule(a, 0) && RankedRule(b, 1) && RankedRule(c, 2) && RankedRule(d, 3)
    ensures var r := a + b + c + d;
      |r| <= 4 && forall i, j | 0 <= i < j < |r| :: Rank(r[i]) < Rank(r[j])
  {
    var r := a + b + c + d;
    forall i, j | 0 <= i < j < |r| ensures Rank(r[i]) < Rank(r[j]) {
      var x, y := r[i], r[j];
      assert x in a || x in b || x in c || x in d;
      assert y in a || y in b || y in c || y in d;
    }
  }
}
