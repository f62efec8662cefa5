/**
 * `processTransactions` of client/src/components/CategoryBreakdown.jsx: the
 * expense categories with their totals and their share of all expenses,
 * largest first, and the `totalExpenses` figure shown above them. The
 * colour table of this file is the same as that of CategoryPieChart.jsx and
 * is taken from module `CategoryPieChart`.
 */
module CategoryBreakdown {
  import opened Models
  import opened Sequences
  import opened Ledger
  import CategoryPieChart

  datatype Share = Share(name: string, value: real, percentage: real, colour: string)

  /**
   * `(value / total) * 100`. The division is reached only for a category
   * with spending, whose total is then positive; the guard stands for the
   * branch that never runs.
   */
  function Percentage(value: real, total: real): real {
    if total == 0.0 then 0.0 else value / total * 100.0
  }

  function ValueOf(s: Share): real {
    s.value
  }

  function PercentageOf(s: Share): real {
    s.percentage
  }

  /** The entry of category `c` among the expenses `exp`. */
  function ShareOf(exp: seq<Transaction>, c: string): Share {
    Share(c, SpentIn(exp, c), Percentage(SpentIn(exp, c), TotalSpent(exp)), CategoryPieChart.Colour(c))
  }

  /** `Object.entries(categoryMap).map(...)`, in first-appearance order of the categories. */
  function Shares(exp: seq<Transaction>): (r: seq<Share>)
    ensures |r| == |CategoryOrder(exp)|
  {
    var ks := CategoryOrder(exp);
    seq(|ks|, i requires 0 <= i < |ks| => ShareOf(exp, ks[i]))
  }

  /** `(a, b) => b.value - a.value` */
  function ByValueDesc(): (Share, Share) -> bool {
    (a: Share, b: Share) => b.value <= a.value
  }

  /** The list the component renders. */
  function BreakdownData(txs: seq<Transaction>): seq<Share> {
    if txs == [] then [] else SortBy(Shares(Expenses(txs)), ByValueDesc())
  }

  /**
   * The two pieces of state after the effect has run, given the total shown
   * before: an empty list returns before `setTotalExpenses`, so that total
   * stays as it was.
   */
  function View(txs: seq<Transaction>, previousTotal: real): (seq<Share>, real) {
    (BreakdownData(txs), if txs == [] then previousTotal else ExpenseTotal(txs))
  }

  /** The hook body: the `forEach` loop fills the category totals and the running `total`. */
  method ProcessTransactions(txs: seq<Transaction>, previousTotal: real) returns (data: seq<Share>, totalExpenses: real)
    ensures (data, totalExpenses) == View(txs, previousTotal)
  {
    if |txs| == 0 {
      return [], previousTotal;
    }
    var exp := Expenses(txs);
    var keys, sums, total := Tally(exp);
    totalExpenses := total;
    var shares := seq(|keys|, i requires 0 <= i < |keys| =>
      Share(keys[i], sums[keys[i]], Percentage(sums[keys[i]], total), CategoryPieChart.Colour(keys[i])));
    assert shares == Shares(exp);
    data := SortBy(shares, ByValueDesc());
  }

  // ---------------------------------------------------------- the properties

  lemma ByValueDescTotal()
    ensures TotalPreorder(ByValueDesc())
  {
    forall a: Share, b: Share ensures ByValueDesc()(a, b) || ByValueDesc()(b, a) {}
  }

  /** An entry is a category of `exp` with its total, its share and its colour. */
  lemma SharesMembers(exp: seq<Transaction>, s: Share)
    ensures s in Shares(exp) <==> HasCategory(exp, s.name) && s == ShareOf(exp, s.name)
  {
    var ks := CategoryOrder(exp);
    CategoryOrderMembers(exp, s.name);
    if s in Shares(exp) {
      var k :| 0 <= k < |ks| && Shares(exp)[k] == s;
      assert ks[k] == s.name;
    }
    if HasCategory(exp, s.name) && s == ShareOf(exp, s.name) {
      var k :| 0 <= k < |ks| && ks[k] == s.name;
      assert Shares(exp)[k] == s;
    }
  }

  /** The sorted entries name distinct categories. */
  lemma SortedSharesDistinct(exp: seq<Transaction>)
    ensures var r := SortBy(Shares(exp), ByValueDesc());
      forall i, j | 0 <= i < j < |r| :: r[i].name != r[j].name
  {
    var shares := Shares(exp);
    var r := SortBy(shares, ByValueDesc());
    CategoryOrderDistinct(exp);
    assert Distinct(shares) by {
      forall i, j | 0 <= i < j < |shares| ensures shares[i] != shares[j] {
        assert shares[i].name != shares[j].name;
      }
    }
    DistinctPermutation(shares, r);
    forall i, j | 0 <= i < j < |r| ensures r[i].name != r[j].name {
      var a, b := r[i], r[j];
      assert a in multiset(shares) && b in multiset(shares);
      SharesMembers(exp, a);
      SharesMembers(exp, b);
    }
  }

  /** The entries of the expenses add up to the expense total. */
  lemma {:induction false} SharesPrefixSum(exp: seq<Transaction>, ks: seq<string>)
    ensures SumOf(seq(|ks|, i requires 0 <= i < |ks| => ShareOf(exp, ks[i])), ValueOf) == SumSpent(ks, exp)
  {
    if ks != [] {
      var init := ks[..|ks| - 1];
      var all := seq(|ks|, i requires 0 <= i < |ks| => ShareOf(exp, ks[i]));
      var prefix := seq(|init|, i requires 0 <= i < |init| => ShareOf(exp, init[i]));
      assert all[..|all| - 1] == prefix;
      SharesPrefixSum(exp, init);
    }
  }

  /**
   * The list has one entry per expense category of `txs` (a missing
   * category counting as `Other`), each category once, largest value first,
   * and the values add up to `total`, the sum of the expense magnitudes.
   */
  lemma BreakdownSpec(txs: seq<Transaction>)
    ensures var r := BreakdownData(txs);
      && (forall i, j | 0 <= i < j < |r| :: r[i].name != r[j].name)
      && SortedBy(r, ByValueDesc())
      && SumOf(r, ValueOf) == ExpenseTotal(txs)
  {
    var exp := Expenses(txs);
    var r := BreakdownData(txs);
    if txs != [] {
      assert r == SortBy(Shares(exp), ByValueDesc());
      SortedSharesDistinct(exp);
      ByValueDescTotal();
      SortBySorted(Shares(exp), ByValueDesc());
      SumOfPermutation(Shares(exp), r, ValueOf);
      SharesPrefixSum(exp, CategoryOrder(exp));
      CategoryTotalsAddUp(exp);
    }
  }

  /** Each entry's percentage is its value as a share of `total`, between 0 (excluded) and 100. */
  lemma SharePercentage(exp: seq<Transaction>, s: Share, total: real)
    requires All(exp, IsExpense)
    requires s in Shares(exp)
    requires total == TotalSpent(exp)
    ensures s.percentage * total == s.value * 100.0
    ensures 0.0 < s.percentage <= 100.0
  {
    var value := SpentIn(exp, s.name);
    assert s == Share(s.name, value, Percentage(value, total), CategoryPieChart.Colour(s.name)) && value > 0.0 by {
      SharesMembers(exp, s);
      SpentInPositive(exp, s.name);
    }
    PercentageBounds(value, total);
  }

  lemma PercentageBounds(value: real, total: real)
    requires 0.0 < value <= total
    ensures Percentage(value, total) * total == value * 100.0
    ensures 0.0 < Percentage(value, total) <= 100.0
  {
    var q := value / total;
    assert q * total == value;
    assert q <= 1.0;
  }

  /** An entry is an expense category of `txs` with its total, its colour and the percentage of `total` it makes up. */
  lemma BreakdownMembers(txs: seq<Transaction>, s: Share)
    ensures s in BreakdownData(txs) <==>
      && (exists t | t in txs :: IsExpense(t) && CategoryOf(t) == s.name)
      && s.value == SpentIn(Expenses(txs), s.name)
      && s.percentage == Percentage(s.value, ExpenseTotal(txs))
      && s.colour == CategoryPieChart.Colour(s.name)
  {
    var exp := Expenses(txs);
    CategoryPieChart.ExpenseCategory(txs, s.name);
    SharesMembers(exp, s);
    if txs != [] {
      assert s in BreakdownData(txs) <==> s in multiset(Shares(exp));
    }
  }

  /** Every listed percentage is the entry's value as a part of `total`, the expense total, above 0 and at most 100. */
  lemma BreakdownPercentages(txs: seq<Transaction>, s: Share, total: real)
    requires s in BreakdownData(txs)
    requires total == ExpenseTotal(txs)
    ensures s.percentage * total == s.value * 100.0
    ensures 0.0 < s.percentage <= 100.0
  {
    ListedShare(txs, s);
    SharePercentage(Expenses(txs), s, total);
  }

  /** A listed entry is an entry of the expenses of `txs`. */
  lemma ListedShare(txs: seq<Transaction>, s: Share)
    requires s in BreakdownData(txs)
    ensures s in Shares(Expenses(txs)) && All(Expenses(txs), IsExpense)
  {
    assert s in multiset(Shares(Expenses(txs)));
  }

  /**
   * The total shown with a non-empty list is the current expense total and
   * the sum of the listed values; a stale total from an earlier list is only
   * ever kept beside an empty list, which the component does not show it with.
   */
  lemma StaleTotalHidden(txs: seq<Transaction>, previousTotal: real)
    ensures var (data, total) := View(txs, previousTotal);
      && (data != [] ==> total == ExpenseTotal(txs) && total == SumOf(data, ValueOf))
      && (txs == [] ==> data == [] && total == previousTotal)
  {
    BreakdownSpec(txs);
  }
}
