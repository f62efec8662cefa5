/**
 * Sums over transaction lists shared by the server's budget-vs-actual report
 * and the client's charts: income, expenses, spending per category, and the
 * `forEach` loop that fills a `{ category: total }` object.
 */
module Ledger {
  import opened Calendar
  import opened Models
  import opened Sequences

  function Abs(x: real): (r: real)
    ensures r >= 0.0 && (r == x || r == -x)
  {
    if x < 0.0 then -x else x
  }

  /** `category || 'Other'`: a missing (empty) category counts as `Other`. */
  function EffectiveCategory(c: string): (r: string)
    ensures r != ""
    ensures c != "" ==> r == c
  {
    if c == "" then "Other" else c
  }

  function CategoryOf(t: Transaction): string {
    EffectiveCategory(t.category)
  }

  predicate IsExpense(t: Transaction) {
    t.amount < 0.0
  }

  predicate IsIncome(t: Transaction) {
    t.amount > 0.0
  }

  /** `txs.filter(t => t.amount < 0)` */
  function Expenses(txs: seq<Transaction>): seq<Transaction> {
    Filter(txs, IsExpense)
  }

  /** `txs.filter(t => t.amount > 0)` */
  function Incomes(txs: seq<Transaction>): seq<Transaction> {
    Filter(txs, IsIncome)
  }

  /** Sum of the signed amounts. */
  function SumAmounts(txs: seq<Transaction>): real {
    if txs == [] then 0.0 else SumAmounts(txs[..|txs| - 1]) + txs[|txs| - 1].amount
  }

  /** Sum of `Math.abs(amount)`. */
  function TotalSpent(txs: seq<Transaction>): (r: real)
    ensures r >= 0.0
  {
    if txs == [] then 0.0 else TotalSpent(txs[..|txs| - 1]) + Abs(txs[|txs| - 1].amount)
  }

  /** What `t` adds to category `c`'s total. */
  function Contribution(t: Transaction, c: string): real {
    if CategoryOf(t) == c then Abs(t.amount) else 0.0
  }

  /** Sum of `Math.abs(amount)` over the transactions whose effective category is `c`. */
  function SpentIn(txs: seq<Transaction>, c: string): (r: real)
    ensures 0.0 <= r <= TotalSpent(txs)
  {
    if txs == [] then 0.0 else SpentIn(txs[..|txs| - 1], c) + Contribution(txs[|txs| - 1], c)
  }

  /** Some transaction of `txs` has effective category `c`. */
  ghost predicate HasCategory(txs: seq<Transaction>, c: string) {
    exists i :: 0 <= i < |txs| && CategoryOf(txs[i]) == c
  }

  /**
   * The effective categories of `txs`, each once, in order of first appearance:
   * the key order of the object the `forEach` loops build.
   */
  function CategoryOrder(txs: seq<Transaction>): seq<string> {
    if txs == [] then []
    else
      var prior, c := CategoryOrder(txs[..|txs| - 1]), CategoryOf(txs[|txs| - 1]);
      if c in prior then prior else prior + [c]
  }

  /** Each category of `txs` is listed once. */
  lemma {:induction false} CategoryOrderDistinct(txs: seq<Transaction>)
    ensures Distinct(CategoryOrder(txs))
  {
    if txs != [] {
      CategoryOrderDistinct(txs[..|txs| - 1]);
    }
  }

  /** A category is listed exactly when some transaction has it. */
  lemma {:induction false} CategoryOrderMembers(txs: seq<Transaction>, c: string)
    ensures c in CategoryOrder(txs) <==> HasCategory(txs, c)
  {
    if txs != [] {
      var init, last := txs[..|txs| - 1], txs[|txs| - 1];
      CategoryOrderMembers(init, c);
      if HasCategory(init, c) {
        var i :| 0 <= i < |init| && CategoryOf(init[i]) == c;
        assert txs[i] == init[i];
      }
      if HasCategory(txs, c) && CategoryOf(last) != c {
        var i :| 0 <= i < |txs| && CategoryOf(txs[i]) == c;
        assert init[i] == txs[i];
      }
    }
  }

  /** A category nobody used has spent nothing. */
  lemma {:induction false} SpentInAbsent(txs: seq<Transaction>, c: string)
    requires !HasCategory(txs, c)
    ensures SpentIn(txs, c) == 0.0
  {
    if txs != [] {
      var init := txs[..|txs| - 1];
      forall i | 0 <= i < |init| ensures CategoryOf(init[i]) != c {
        assert init[i] == txs[i];
      }
      SpentInAbsent(init, c);
      assert CategoryOf(txs[|txs| - 1]) != c;
    }
  }

  /** Among expenses only, a category that occurs has spent something. */
  lemma {:induction false} SpentInPositive(txs: seq<Transaction>, c: string)
    requires All(txs, IsExpense)
    requires HasCategory(txs, c)
    ensures SpentIn(txs, c) > 0.0
  {
    var init, last := txs[..|txs| - 1], txs[|txs| - 1];
    if CategoryOf(last) != c {
      assert HasCategory(init, c) by {
        var i :| 0 <= i < |txs| && CategoryOf(txs[i]) == c;
        assert i < |init| && init[i] == txs[i];
      }
      assert All(init, IsExpense) by {
        forall i | 0 <= i < |init| ensures IsExpense(init[i]) { assert init[i] == txs[i]; }
      }
      SpentInPositive(init, c);
    } else {
      assert IsExpense(last);
    }
  }

  /**
   * The loop of budget-vs-actual, SpendingInsights, CategoryPieChart and
   * CategoryBreakdown: for each transaction, create its category's key at 0 on
   * first sight, then add `Math.abs(amount)` to it (and, for CategoryBreakdown,
   * to a running `total`).
   */
  method Tally(txs: seq<Transaction>) returns (keys: seq<string>, sums: map<string, real>, total: real)
    ensures keys == CategoryOrder(txs)
    ensures forall c :: c in sums <==> c in keys
    ensures forall c :: c in sums ==> sums[c] == SpentIn(txs, c)
    ensures total == TotalSpent(txs)
  {
    keys, sums, total := [], map[], 0.0;
    var i := 0;
    ghost var done: seq<Transaction> := [];
    while i < |txs|
      invariant 0 <= i <= |txs| && done == txs[..i]
      invariant Tallied(done, keys, sums)
      invariant total == TotalSpent(done)
    {
      var t := txs[i];
      assert txs[..i + 1] == done + [t];
      var category := CategoryOf(t);
      ghost var keys0, sums0 := keys, sums;
      // A key seen for the first time starts from 0.
      var sofar := if category in sums then sums[category] else 0.0;
      if category !in sums {
        keys := keys + [category];
      }
      sums := sums[category := sofar + Abs(t.amount)];
      total := total + Abs(t.amount);
      TallyStep(done, t, keys0, sums0, keys, sums);
      TotalSpentSnoc(done, t);
      done := done + [t];
      i := i + 1;
    }
    assert txs[..|txs|] == txs;
  }

  /** `keys` and `sums` are the category order and the category totals of `done`. */
  ghost predicate Tallied(done: seq<Transaction>, keys: seq<string>, sums: map<string, real>) {
    && keys == CategoryOrder(done)
    && (forall c :: c in sums <==> c in keys)
    && (forall c :: c in sums ==> sums[c] == SpentIn(done, c))
  }

  /** One iteration of the `Tally` loop, from `keys0`, `sums0` to `keys`, `sums`, keeps the invariant. */
  lemma TallyStep(done: seq<Transaction>, t: Transaction, keys0: seq<string>, sums0: map<string, real>,
                  keys: seq<string>, sums: map<string, real>)
    requires Tallied(done, keys0, sums0)
    requires keys == if CategoryOf(t) in sums0 then keys0 else keys0 + [CategoryOf(t)]
    requires sums == sums0[CategoryOf(t) := (if CategoryOf(t) in sums0 then sums0[CategoryOf(t)] else 0.0) + Abs(t.amount)]
    ensures Tallied(done + [t], keys, sums)
  {
    var c := CategoryOf(t);
    CategoryOrderSnoc(done, t);
    if c !in sums0 {
      CategoryOrderMembers(done, c);
      SpentInAbsent(done, c);
    }
    forall d | d in sums ensures sums[d] == SpentIn(done + [t], d) {
      SpentInSnoc(done, t, d);
    }
  }

  lemma CategoryOrderSnoc(done: seq<Transaction>, t: Transaction)
    ensures var prior, c := CategoryOrder(done), CategoryOf(t);
      CategoryOrder(done + [t]) == if c in prior then prior else prior + [c]
  {
    assert (done + [t])[..|done|] == done;
  }

  lemma SpentInSnoc(done: seq<Transaction>, t: Transaction, c: string)
    ensures SpentIn(done + [t], c) == SpentIn(done, c) + Contribution(t, c)
  {
    assert (done + [t])[..|done|] == done;
  }

  /** Sum of `SpentIn(txs, k)` over the keys `ks`. */
  function SumSpent(ks: seq<string>, txs: seq<Transaction>): real {
    if ks == [] then 0.0 else SumSpent(ks[..|ks| - 1], txs) + SpentIn(txs, ks[|ks| - 1])
  }

  /** Sum of `Math.abs(amount)` over the transactions whose effective category is in `cs`. */
  function SpentAmong(txs: seq<Transaction>, cs: set<string>): real {
    if txs == [] then 0.0
    else SpentAmong(txs[..|txs| - 1], cs) + (if CategoryOf(txs[|txs| - 1]) in cs then Abs(txs[|txs| - 1].amount) else 0.0)
  }

  /** Adding one transaction adds its amount once to a sum over distinct keys, if its category is one of them. */
  lemma {:induction false} SumSpentStep(ks: seq<string>, txs: seq<Transaction>)
    requires Distinct(ks) && txs != []
    ensures var last := txs[|txs| - 1];
      SumSpent(ks, txs) == SumSpent(ks, txs[..|txs| - 1]) + (if CategoryOf(last) in ks then Abs(last.amount) else 0.0)
  {
    if ks != [] {
      var init := ks[..|ks| - 1];
      assert Distinct(init);
      SumSpentStep(init, txs);
      assert ks == init + [ks[|ks| - 1]];
      assert ks[|ks| - 1] !in init;
    }
  }

  lemma {:induction false} SumSpentIsSpentAmong(ks: seq<string>, txs: seq<Transaction>)
    requires Distinct(ks)
    ensures SumSpent(ks, txs) == SpentAmong(txs, set k | k in ks)
  {
    if txs == [] {
      assert SumSpent(ks, txs) == 0.0 by { SumSpentZero(ks, txs); }
    } else {
      SumSpentStep(ks, txs);
      SumSpentIsSpentAmong(ks, txs[..|txs| - 1]);
    }
  }

  lemma {:induction false} SumSpentZero(ks: seq<string>, txs: seq<Transaction>)
    requires txs == []
    ensures SumSpent(ks, txs) == 0.0
  {
    if ks != [] {
      SumSpentZero(ks[..|ks| - 1], txs);
    }
  }

  /** When `cs` holds every category used, `SpentAmong` is the full total. */
  lemma {:induction false} SpentAmongEverything(txs: seq<Transaction>, cs: set<string>)
    requires forall c :: HasCategory(txs, c) ==> c in cs
    ensures SpentAmong(txs, cs) == TotalSpent(txs)
  {
    if txs != [] {
      var init := txs[..|txs| - 1];
      forall c | HasCategory(init, c) ensures c in cs {
        var i :| 0 <= i < |init| && CategoryOf(init[i]) == c;
        assert txs[i] == init[i];
      }
      SpentAmongEverything(init, cs);
      assert HasCategory(txs, CategoryOf(txs[|txs| - 1]));
    }
  }

  lemma {:induction false} SpentAmongDisjointUnion(txs: seq<Transaction>, cs: set<string>, ds: set<string>)
    requires cs !! ds
    ensures SpentAmong(txs, cs) + SpentAmong(txs, ds) == SpentAmong(txs, cs + ds)
  {
    if txs != [] {
      SpentAmongDisjointUnion(txs[..|txs| - 1], cs, ds);
    }
  }

  lemma {:induction false} SpentAmongNone(txs: seq<Transaction>)
    ensures SpentAmong(txs, {}) == 0.0
  {
    if txs != [] {
      SpentAmongNone(txs[..|txs| - 1]);
    }
  }

  lemma {:induction false} SpentAmongSingle(txs: seq<Transaction>, c: string)
    ensures SpentAmong(txs, {c}) == SpentIn(txs, c)
  {
    if txs != [] {
      SpentAmongSingle(txs[..|txs| - 1], c);
    }
  }

  /** The per-category totals add up to the grand total: no amount is lost or counted twice. */
  lemma CategoryTotalsAddUp(txs: seq<Transaction>)
    ensures SumSpent(CategoryOrder(txs), txs) == TotalSpent(txs)
  {
    var ks := CategoryOrder(txs);
    CategoryOrderDistinct(txs);
    SumSpentIsSpentAmong(ks, txs);
    forall c | HasCategory(txs, c) ensures c in set k | k in ks {
      CategoryOrderMembers(txs, c);
    }
    SpentAmongEverything(txs, set k | k in ks);
  }

  /** Sum of the positive amounts. */
  function IncomeTotal(txs: seq<Transaction>): real {
    SumAmounts(Incomes(txs))
  }

  /** Sum of `Math.abs` of the negative amounts. */
  function ExpenseTotal(txs: seq<Transaction>): real {
    TotalSpent(Expenses(txs))
  }

  lemma SumAmountsSnoc(s: seq<Transaction>, t: Transaction)
    ensures SumAmounts(s + [t]) == SumAmounts(s) + t.amount
  {
    assert (s + [t])[..|s|] == s;
  }

  lemma TotalSpentSnoc(s: seq<Transaction>, t: Transaction)
    ensures TotalSpent(s + [t]) == TotalSpent(s) + Abs(t.amount)
  {
    assert (s + [t])[..|s|] == s;
  }

  /** Income minus expenses is the sum of all amounts: only zero amounts fall in neither, and they add nothing. */
  lemma {:induction false} NetIsSumOfAmounts(txs: seq<Transaction>)
    ensures IncomeTotal(txs) - ExpenseTotal(txs) == SumAmounts(txs)
  {
    if txs != [] {
      var init, t := txs[..|txs| - 1], txs[|txs| - 1];
      assert txs == init + [t];
      NetIsSumOfAmounts(init);
      FilterSnoc(init, t, IsIncome);
      FilterSnoc(init, t, IsExpense);
      if IsIncome(t) {
        assert Incomes(txs) == Incomes(init) + [t] && Expenses(txs) == Expenses(init);
        SumAmountsSnoc(Incomes(init), t);
      } else if IsExpense(t) {
        assert Expenses(txs) == Expenses(init) + [t] && Incomes(txs) == Incomes(init);
        TotalSpentSnoc(Expenses(init), t);
      } else {
        assert Expenses(txs) == Expenses(init) && Incomes(txs) == Incomes(init);
      }
    }
  }

  /**
   * Newest first: `sort({ date: -1 })` on the server and
   * `(a, b) => new Date(b.date) - new Date(a.date)` on the client.
   */
  function NewestFirst(): (Transaction, Transaction) -> bool {
    (a: Transaction, b: Transaction) => DateLe(b.date, a.date)
  }

  lemma NewestFirstTotalPreorder()
    ensures TotalPreorder(NewestFirst())
  {
    forall a: Transaction, b: Transaction ensures DateLe(b.date, a.date) || DateLe(a.date, b.date) {
      DateLeTotal(a.date, b.date);
    }
    forall a: Transaction, b: Transaction, c: Transaction | DateLe(b.date, a.date) && DateLe(c.date, b.date)
      ensures DateLe(c.date, a.date)
    {
      DateLeTransitive(c.date, b.date, a.date);
    }
  }
}
