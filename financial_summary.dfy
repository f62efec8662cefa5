/**
 * The summary cards of client/src/components/FinancialSummary.jsx: total
 * income, total expenses, the balance between them and the three most
 * recent transactions, recomputed whenever the transaction list changes.
 */
module FinancialSummary {
  import opened Calendar
  import opened Models
  import opened Sequences
  import opened Ledger

  datatype Summary = Summary(totalBalance: real, totalIncome: real, totalExpenses: real, recent: seq<Transaction>)

  /** The initial state of the component, before the effect has run. */
  const InitialSummary := Summary(0.0, 0.0, 0.0, [])

  /** The three most recent transactions, newest first, from a sorted copy of the list. */
  function Recent(txs: seq<Transaction>): seq<Transaction> {
    Take(SortBy(txs, NewestFirst()), 3)
  }

  /** The body of the `useEffect` hook. */
  function Summarize(txs: seq<Transaction>): Summary {
    var income := IncomeTotal(txs);
    var expenses := ExpenseTotal(txs);
    Summary(income - expenses, income, expenses, Recent(txs))
  }

  /**
   * Income is the sum of the positive amounts, expenses the sum of the
   * magnitudes of the negative ones, and the balance is their difference,
   * which is the sum of all amounts.
   */
  lemma TotalsSpec(txs: seq<Transaction>)
    ensures var s := Summarize(txs);
      && s.totalIncome == SumAmounts(Incomes(txs))
      && s.totalExpenses == TotalSpent(Expenses(txs))
      && s.totalIncome >= 0.0 && s.totalExpenses >= 0.0
      && s.totalBalance == s.totalIncome - s.totalExpenses
      && s.totalBalance == SumAmounts(txs)
  {
    NetIsSumOfAmounts(txs);
    IncomeTotalNonNegative(txs);
  }

  /** The positive amounts add up to a non-negative total. */
  lemma IncomeTotalNonNegative(txs: seq<Transaction>)
    ensures IncomeTotal(txs) >= 0.0
  {
    PositiveSum(Incomes(txs));
  }

  lemma {:induction false} PositiveSum(s: seq<Transaction>)
    requires All(s, IsIncome)
    ensures SumAmounts(s) >= 0.0
  {
    if s != [] {
      var init := s[..|s| - 1];
      assert All(init, IsIncome) by {
        forall i | 0 <= i < |init| ensures IsIncome(init[i]) { assert init[i] == s[i]; }
      }
      PositiveSum(init);
      assert IsIncome(s[|s| - 1]);
    }
  }

  /**
   * The recent list holds `min(3, n)` of the transactions, newest first,
   * none of them older than any transaction it leaves out; the input list
   * itself is only read.
   */
  lemma RecentSpec(txs: seq<Transaction>)
    ensures var r := Recent(txs);
      && |r| == (if |txs| < 3 then |txs| else 3)
      && SortedBy(r, NewestFirst())
      && multiset(r) <= multiset(txs)
      && (forall t, u | t in r && u in multiset(txs) - multiset(r) :: DateLe(u.date, t.date))
  {
    var sorted := SortBy(txs, NewestFirst());
    var r := Take(sorted, 3);
    assert SortedBy(sorted, NewestFirst()) by {
      NewestFirstTotalPreorder();
      SortBySorted(txs, NewestFirst());
    }
    TakeSorted(sorted, 3, NewestFirst());
    RecentRest(txs, sorted, r);
  }

  /** The first transactions of a newest-first copy are no older than those after them. */
  lemma RecentRest(txs: seq<Transaction>, sorted: seq<Transaction>, r: seq<Transaction>)
    requires multiset(sorted) == multiset(txs)
    requires r <= sorted
    requires forall i, j | 0 <= i < |r| <= j < |sorted| :: NewestFirst()(r[i], sorted[j])
    ensures multiset(r) <= multiset(txs)
    ensures forall t, u | t in r && u in multiset(txs) - multiset(r) :: DateLe(u.date, t.date)
  {
    var rest := sorted[|r|..];
    assert sorted == r + rest;
    assert multiset(sorted) == multiset(r) + multiset(rest);
    forall t, u | t in r && u in multiset(txs) - multiset(r) ensures DateLe(u.date, t.date) {
      assert u in rest;
      var j :| 0 <= j < |rest| && rest[j] == u;
      var i :| 0 <= i < |r| && r[i] == t;
      assert sorted[|r| + j] == u;
    }
  }

  /** An empty list gives zero totals and no recent transactions, like the initial state. */
  lemma EmptySummary()
    ensures Summarize([]) == InitialSummary
  {
  }

  /** The balance card is green exactly when the balance is not negative. */
  function BalanceColour(s: Summary): (r: string)
    ensures r == "text-green-600" <==> s.totalBalance >= 0.0
    ensures r == "text-red-600" <==> s.totalBalance < 0.0
  {
    if s.totalBalance >= 0.0 then "text-green-600" else "text-red-600"
  }

  /** The balance card is green exactly when the amounts add up to at least zero. */
  lemma BalanceColourSpec(txs: seq<Transaction>)
    ensures BalanceColour(Summarize(txs)) == "text-green-600" <==> SumAmounts(txs) >= 0.0
  {
    TotalsSpec(txs);
  }
}
