/**
 * The data of client/src/components/MonthlyExpensesChart.jsx:
 * `getMonthlyData`, one bucket of income, expenses and balance per calendar
 * month, the six latest in chronological order, and `getSummaryData`, the
 * two totals of the summary pie. Months are keyed by (year, month) rather
 * than by their `"Jan 2023"` label, which names the same month.
 */
module MonthlyExpensesChart {
  import opened Calendar
  import opened Models
  import opened Sequences
  import opened Ledger

  /** One month of the chart; `balance` is accumulated beside the two totals. */
  datatype Bucket = Bucket(year: int, month: int, income: real, expenses: real, balance: real)

  /** The month of a bucket. */
  function Key(b: Bucket): (int, int) {
    (b.year, b.month)
  }

  /** The month a transaction is counted in. */
  function MonthOf(t: Transaction): (int, int) {
    (t.date.year, t.date.month)
  }

  /** The months of `txs`, each once, in order of first appearance: the key order of `monthlyData`. */
  function MonthOrder(txs: seq<Transaction>): seq<(int, int)> {
    if txs == [] then []
    else
      var prior, m := MonthOrder(txs[..|txs| - 1]), MonthOf(txs[|txs| - 1]);
      if m in prior then prior else prior + [m]
  }

  /** Sum of the positive amounts of month `m`. */
  function IncomeIn(txs: seq<Transaction>, m: (int, int)): real {
    if txs == [] then 0.0
    else
      var t := txs[|txs| - 1];
      IncomeIn(txs[..|txs| - 1], m) + (if MonthOf(t) == m && t.amount > 0.0 then t.amount else 0.0)
  }

  /** Sum of `Math.abs(amount)` over the other amounts of month `m`, zero included. */
  function ExpensesIn(txs: seq<Transaction>, m: (int, int)): real {
    if txs == [] then 0.0
    else
      var t := txs[|txs| - 1];
      ExpensesIn(txs[..|txs| - 1], m) + (if MonthOf(t) == m && t.amount <= 0.0 then Abs(t.amount) else 0.0)
  }

  /** Sum of the signed amounts of month `m`. */
  function NetIn(txs: seq<Transaction>, m: (int, int)): real {
    if txs == [] then 0.0
    else
      var t := txs[|txs| - 1];
      NetIn(txs[..|txs| - 1], m) + (if MonthOf(t) == m then t.amount else 0.0)
  }

  /** The bucket of month `m`. */
  function BucketOf(txs: seq<Transaction>, m: (int, int)): Bucket {
    Bucket(m.0, m.1, IncomeIn(txs, m), ExpensesIn(txs, m), NetIn(txs, m))
  }

  /** `Object.values(monthlyData)` */
  function Buckets(txs: seq<Transaction>): (r: seq<Bucket>)
    ensures |r| == |MonthOrder(txs)|
  {
    var ms := MonthOrder(txs);
    seq(|ms|, i requires 0 <= i < |ms| => BucketOf(txs, ms[i]))
  }

  /** The comparator: by year, then by month. */
  function Chronological(): (Bucket, Bucket) -> bool {
    (a: Bucket, b: Bucket) => a.year < b.year || (a.year == b.year && a.month <= b.month)
  }

  /** `getMonthlyData()` */
  function MonthlyData(txs: seq<Transaction>): seq<Bucket> {
    TakeLast(SortBy(Buckets(txs), Chronological()), 6)
  }

  /** The sort and the `slice(-6)` of the buckets that the `forEach` loop fills. */
  method GetMonthlyData(txs: seq<Transaction>) returns (r: seq<Bucket>)
    ensures r == MonthlyData(txs)
  {
    var keys, data := FillMonths(txs);
    var values := seq(|keys|, j requires 0 <= j < |keys| => data[keys[j]]);
    assert values == Buckets(txs);
    r := TakeLast(SortBy(values, Chronological()), 6);
  }

  /** What the `forEach` adds to a bucket: a positive amount to the income, any other to the expenses. */
  function Accumulate(b: Bucket, t: Transaction): Bucket {
    if t.amount > 0.0 then b.(income := b.income + t.amount, balance := b.balance + t.amount)
    else b.(expenses := b.expenses + Abs(t.amount), balance := b.balance - Abs(t.amount))
  }

  /** The `forEach` loop: a month seen for the first time starts from an empty bucket. */
  method FillMonths(txs: seq<Transaction>) returns (keys: seq<(int, int)>, data: map<(int, int), Bucket>)
    ensures keys == MonthOrder(txs)
    ensures forall m :: m in data <==> m in keys
    ensures forall m :: m in data ==> data[m] == BucketOf(txs, m)
  {
    keys, data := [], map[];
    var i := 0;
    ghost var done: seq<Transaction> := [];
    while i < |txs|
      invariant 0 <= i <= |txs| && done == txs[..i]
      invariant keys == MonthOrder(done)
      invariant forall m :: m in data <==> m in keys
      invariant forall m :: m in data ==> data[m] == BucketOf(done, m)
    {
      var t := txs[i];
      assert txs[..i + 1] == done + [t];
      var key := MonthOf(t);
      ghost var keys0, data0 := keys, data;
      var b := if key in data then data[key] else Bucket(key.0, key.1, 0.0, 0.0, 0.0);
      ghost var before := b;
      if key !in data {
        keys := keys + [key];
      }
      if t.amount > 0.0 {
        b := b.(income := b.income + t.amount, balance := b.balance + t.amount);
      } else {
        b := b.(expenses := b.expenses + Abs(t.amount), balance := b.balance - Abs(t.amount));
      }
      data := data[key := b];
      MonthlyStep(done, t, keys0, data0, before, keys, data);
      done := done + [t];
      i := i + 1;
    }
    assert txs[..|txs|] == txs;
  }

  /** One iteration of the loop keeps its invariant. */
  lemma MonthlyStep(done: seq<Transaction>, t: Transaction, keys: seq<(int, int)>, data: map<(int, int), Bucket>,
                    b: Bucket, keys': seq<(int, int)>, data': map<(int, int), Bucket>)
    requires keys == MonthOrder(done)
    requires forall m :: m in data <==> m in keys
    requires forall m :: m in data ==> data[m] == BucketOf(done, m)
    requires b == if MonthOf(t) in data then data[MonthOf(t)] else Bucket(MonthOf(t).0, MonthOf(t).1, 0.0, 0.0, 0.0)
    requires keys' == if MonthOf(t) in data then keys else keys + [MonthOf(t)]
    requires data' == data[MonthOf(t) := Accumulate(b, t)]
    ensures keys' == MonthOrder(done + [t])
    ensures forall m :: m in data' <==> m in keys'
    ensures forall m :: m in data' ==> data'[m] == BucketOf(done + [t], m)
  {
    var all := done + [t];
    assert all[..|done|] == done;
    var key := MonthOf(t);
    if key !in data {
      MonthOrderMembers(done, key);
      MonthAbsent(done, key);
    }
  }

  /** A month is listed exactly when some transaction falls in it. */
  lemma {:induction false} MonthOrderMembers(txs: seq<Transaction>, m: (int, int))
    ensures m in MonthOrder(txs) <==> exists t | t in txs :: MonthOf(t) == m
  {
    if txs != [] {
      var init, last := txs[..|txs| - 1], txs[|txs| - 1];
      assert txs == init + [last];
      MonthOrderMembers(init, m);
    }
  }

  /** Each month is listed once. */
  lemma {:induction false} MonthOrderDistinct(txs: seq<Transaction>)
    ensures Distinct(MonthOrder(txs))
  {
    if txs != [] {
      MonthOrderDistinct(txs[..|txs| - 1]);
    }
  }

  /** A month without transactions has nothing in it. */
  lemma {:induction false} MonthAbsent(txs: seq<Transaction>, m: (int, int))
    requires forall t | t in txs :: MonthOf(t) != m
    ensures IncomeIn(txs, m) == 0.0 && ExpensesIn(txs, m) == 0.0 && NetIn(txs, m) == 0.0
  {
    if txs != [] {
      var init := txs[..|txs| - 1];
      forall t | t in init ensures MonthOf(t) != m {
        assert t in txs;
      }
      MonthAbsent(init, m);
      assert txs[|txs| - 1] in txs;
    }
  }

  /** The separately accumulated balance is income minus expenses, and the sum of the month's amounts. */
  lemma {:induction false} BalanceIsNet(txs: seq<Transaction>, m: (int, int))
    ensures NetIn(txs, m) == IncomeIn(txs, m) - ExpensesIn(txs, m)
  {
    if txs != [] {
      BalanceIsNet(txs[..|txs| - 1], m);
    }
  }

  lemma ChronologicalTotal()
    ensures TotalPreorder(Chronological())
  {
  }

  /** A bucket is a month of `txs` with the month's sums. */
  lemma BucketsMembers(txs: seq<Transaction>, b: Bucket)
    ensures b in Buckets(txs) <==> (exists t | t in txs :: MonthOf(t) == Key(b)) && b == BucketOf(txs, Key(b))
  {
    var ms := MonthOrder(txs);
    var m := Key(b);
    MonthOrderMembers(txs, m);
    if b in Buckets(txs) {
      var k :| 0 <= k < |ms| && Buckets(txs)[k] == b;
      assert ms[k] == m;
    }
    if m in ms && b == BucketOf(txs, m) {
      var k :| 0 <= k < |ms| && ms[k] == m;
      assert Buckets(txs)[k] == b;
    }
  }

  /** Every transaction lands in exactly one bucket: its month has one bucket, and buckets have distinct months. */
  lemma EachTransactionOneBucket(txs: seq<Transaction>)
    ensures var bs := Buckets(txs);
      && (forall t | t in txs :: exists i | 0 <= i < |bs| :: Key(bs[i]) == MonthOf(t))
      && (forall i, j | 0 <= i < j < |bs| :: Key(bs[i]) != Key(bs[j]))
  {
    var bs := Buckets(txs);
    var ms := MonthOrder(txs);
    MonthOrderDistinct(txs);
    forall t | t in txs ensures exists i | 0 <= i < |bs| :: Key(bs[i]) == MonthOf(t) {
      MonthOrderMembers(txs, MonthOf(t));
      var i :| 0 <= i < |ms| && ms[i] == MonthOf(t);
      assert Key(bs[i]) == ms[i];
    }
    forall i, j | 0 <= i < j < |bs| ensures Key(bs[i]) != Key(bs[j]) {
      assert Key(bs[i]) == ms[i] && Key(bs[j]) == ms[j];
    }
  }

  /** Sorting keeps the buckets, so their months stay distinct. */
  lemma SortedMonthsDistinct(txs: seq<Transaction>, r: seq<Bucket>)
    requires r == SortBy(Buckets(txs), Chronological())
    ensures forall i, j | 0 <= i < j < |r| :: Key(r[i]) != Key(r[j])
  {
    var bs := Buckets(txs);
    EachTransactionOneBucket(txs);
    assert Distinct(bs) by {
      forall i, j | 0 <= i < j < |bs| ensures bs[i] != bs[j] {
        assert Key(bs[i]) != Key(bs[j]);
      }
    }
    DistinctPermutation(bs, r);
    forall i, j | 0 <= i < j < |r| ensures Key(r[i]) != Key(r[j]) {
      var a, b := r[i], r[j];
      assert a in multiset(bs) && b in multiset(bs);
      BucketsMembers(txs, a);
      BucketsMembers(txs, b);
    }
  }

  /** Strictly earlier: an earlier year, or the same year and an earlier month. */
  predicate Earlier(a: Bucket, b: Bucket) {
    a.year < b.year || (a.year == b.year && a.month < b.month)
  }

  /**
   * The chart shows the six latest months of `txs` (all of them when there
   * are fewer), strictly in chronological order, and every month it leaves
   * out is earlier than every month it shows.
   */
  lemma MonthlyDataOrder(txs: seq<Transaction>)
    ensures var r := MonthlyData(txs);
      var sorted := SortBy(Buckets(txs), Chronological());
      && |r| == (if |MonthOrder(txs)| < 6 then |MonthOrder(txs)| else 6)
      && (forall i, j | 0 <= i < j < |r| :: Earlier(r[i], r[j]))
      && (forall i, j | 0 <= i < |sorted| - |r| && 0 <= j < |r| :: Earlier(sorted[i], r[j]))
  {
    var sorted := SortBy(Buckets(txs), Chronological());
    SortedStrict(txs, sorted);
    LatestSix(sorted);
  }

  /** The sorted buckets run strictly forward in time, since no two share a month. */
  lemma SortedStrict(txs: seq<Transaction>, sorted: seq<Bucket>)
    requires sorted == SortBy(Buckets(txs), Chronological())
    ensures forall i, j | 0 <= i < j < |sorted| :: Earlier(sorted[i], sorted[j])
  {
    ChronologicalTotal();
    SortBySorted(Buckets(txs), Chronological());
    SortedMonthsDistinct(txs, sorted);
    StrictWhenDistinct(sorted);
  }

  /** Sorted buckets of distinct months are strictly increasing. */
  lemma StrictWhenDistinct(s: seq<Bucket>)
    requires SortedBy(s, Chronological())
    requires forall i, j | 0 <= i < j < |s| :: Key(s[i]) != Key(s[j])
    ensures forall i, j | 0 <= i < j < |s| :: Earlier(s[i], s[j])
  {
    forall i, j | 0 <= i < j < |s| ensures Earlier(s[i], s[j]) {
      var a, b := s[i], s[j];
      assert Chronological()(a, b);
      assert Key(a) != Key(b);
    }
  }

  /** The last six of strictly increasing buckets are strictly increasing and later than all the others. */
  lemma LatestSix(s: seq<Bucket>)
    requires forall i, j | 0 <= i < j < |s| :: Earlier(s[i], s[j])
    ensures var r := TakeLast(s, 6);
      && (forall i, j | 0 <= i < j < |r| :: Earlier(r[i], r[j]))
      && (forall i, j | 0 <= i < |s| - |r| && 0 <= j < |r| :: Earlier(s[i], r[j]))
  {
    var r := TakeLast(s, 6);
    SuffixLater(s, |s| - |r|, r);
  }

  /** A suffix of strictly increasing buckets is strictly increasing and later than the rest. */
  lemma SuffixLater(s: seq<Bucket>, d: nat, r: seq<Bucket>)
    requires forall i, j | 0 <= i < j < |s| :: Earlier(s[i], s[j])
    requires d <= |s| && r == s[d..]
    ensures forall i, j | 0 <= i < j < |r| :: Earlier(r[i], r[j])
    ensures forall i, j | 0 <= i < d && 0 <= j < |r| :: Earlier(s[i], r[j])
  {
    forall i, j | 0 <= i < j < |r| ensures Earlier(r[i], r[j]) {
      assert r[i] == s[d + i] && r[j] == s[d + j];
    }
    forall i, j | 0 <= i < d && 0 <= j < |r| ensures Earlier(s[i], r[j]) {
      assert r[j] == s[d + j];
    }
  }

  /** Every bucket shown is one of the months of `txs`, with that month's sums. */
  lemma MonthlyDataMembers(txs: seq<Transaction>, b: Bucket)
    requires b in MonthlyData(txs)
    ensures exists t | t in txs :: MonthOf(t) == Key(b)
    ensures b == BucketOf(txs, Key(b))
  {
    var sorted := SortBy(Buckets(txs), Chronological());
    assert b in sorted;
    assert b in multiset(Buckets(txs));
    BucketsMembers(txs, b);
  }

  /** Every bucket shown has `balance = income - expenses`, the sum of its month's amounts. */
  lemma MonthlyBalances(txs: seq<Transaction>, b: Bucket)
    requires b in MonthlyData(txs)
    ensures b.balance == b.income - b.expenses
    ensures b.income >= 0.0 && b.expenses >= 0.0
    ensures b.balance == NetIn(txs, Key(b))
  {
    MonthlyDataMembers(txs, b);
    BalanceIsNet(txs, Key(b));
    SumsNonNegative(txs, Key(b));
  }

  lemma {:induction false} SumsNonNegative(txs: seq<Transaction>, m: (int, int))
    ensures IncomeIn(txs, m) >= 0.0 && ExpensesIn(txs, m) >= 0.0
  {
    if txs != [] {
      SumsNonNegative(txs[..|txs| - 1], m);
    }
  }

  // ---------------------------------------------------------- summary pie

  datatype Entry = Entry(name: string, value: real, colour: string)

  /** `getSummaryData()`: total income, then total expenses. */
  function SummaryData(txs: seq<Transaction>): seq<Entry> {
    [Entry("Income", IncomeTotal(txs), "#10B981"), Entry("Expenses", ExpenseTotal(txs), "#EF4444")]
  }

  /**
   * The summary has two entries, `Income` then `Expenses`; the first minus
   * the second is the sum of all amounts, and both are sums of magnitudes.
   */
  lemma SummaryDataSpec(txs: seq<Transaction>)
    ensures var r := SummaryData(txs);
      && |r| == 2 && r[0].name == "Income" && r[1].name == "Expenses"
      && r[0].value == SumAmounts(Incomes(txs))
      && r[1].value == TotalSpent(Expenses(txs))
      && r[0].value - r[1].value == SumAmounts(txs)
  {
    NetIsSumOfAmounts(txs);
  }
}
