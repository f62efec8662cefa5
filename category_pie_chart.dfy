/**
 * `processTransactions` of client/src/components/CategoryPieChart.jsx: one
 * slice per expense category, valued at the category's total spending,
 * coloured from a fixed table and ordered largest first.
 */
module CategoryPieChart {
  import opened Models
  import opened Sequences
  import opened Ledger

  /** The `COLORS` table, one colour per name of the category list. */
  const Colours: map<string, string> := map[
    "Housing" := "#8884d8", "Transportation" := "#83a6ed", "Food" := "#8dd1e1",
    "Utilities" := "#82ca9d", "Insurance" := "#a4de6c", "Healthcare" := "#d0ed57",
    "Savings" := "#ffc658", "Personal" := "#ff8042", "Entertainment" := "#ff6361",
    "Education" := "#bc5090", "Clothing" := "#58508d", "Gifts" := "#003f5c",
    "Income" := "#10B981", "Other" := "#6c757d"
  ]

  /** The colour of a name missing from the table. */
  const DefaultColour := "#6c757d"

  /** `COLORS[name] || '#6c757d'` (every colour in the table is a non-empty string). */
  function Colour(name: string): string {
    if name in Colours then Colours[name] else DefaultColour
  }

  /**
   * The table has a colour for exactly the fourteen category names; a name
   * gets its table colour, and the grey default goes to `Other` and to every
   * name outside the table.
   */
  lemma ColourSpec(name: string)
    ensures name in Colours <==> name in TransactionCategories
    ensures name in Colours ==> Colour(name) == Colours[name]
    ensures Colour(name) == DefaultColour <==> name == "Other" || name !in Colours
  {
  }

  datatype Slice = Slice(name: string, value: real, colour: string)

  /** The slice of category `c`. */
  function SliceOf(exp: seq<Transaction>, c: string): Slice {
    Slice(c, SpentIn(exp, c), Colour(c))
  }

  /** `Object.entries(categoryMap).map(...)`: the slices in first-appearance order of their categories. */
  function Slices(exp: seq<Transaction>): (r: seq<Slice>)
    ensures |r| == |CategoryOrder(exp)|
  {
    var ks := CategoryOrder(exp);
    seq(|ks|, i requires 0 <= i < |ks| => SliceOf(exp, ks[i]))
  }

  /** `(a, b) => b.value - a.value` */
  function ByValueDesc(): (Slice, Slice) -> bool {
    (a: Slice, b: Slice) => b.value <= a.value
  }

  /** The chart data for the transactions `txs`. */
  function PieData(txs: seq<Transaction>): seq<Slice> {
    if txs == [] then [] else SortBy(Slices(Expenses(txs)), ByValueDesc())
  }

  /** The hook body: the `forEach` loop fills the category totals, then the entries are mapped and sorted. */
  method ProcessTransactions(txs: seq<Transaction>) returns (data: seq<Slice>)
    ensures data == PieData(txs)
  {
    if |txs| == 0 {
      return [];
    }
    var exp := Expenses(txs);
    var keys, sums, _ := Tally(exp);
    var slices := seq(|keys|, i requires 0 <= i < |keys| => Slice(keys[i], sums[keys[i]], Colour(keys[i])));
    assert slices == Slices(exp);
    data := SortBy(slices, ByValueDesc());
  }

  // ---------------------------------------------------------- the properties

  lemma ByValueDescTotal()
    ensures TotalPreorder(ByValueDesc())
  {
    forall a: Slice, b: Slice ensures ByValueDesc()(a, b) || ByValueDesc()(b, a) {}
  }

  /** No transactions, no slices. */
  lemma EmptyPie()
    ensures PieData([]) == []
  {
  }

  /** A category has an expense among `txs` exactly when it has one in the expenses of `txs`. */
  lemma ExpenseCategory(txs: seq<Transaction>, c: string)
    ensures HasCategory(Expenses(txs), c) <==> exists t | t in txs :: IsExpense(t) && CategoryOf(t) == c
  {
    var exp := Expenses(txs);
    if HasCategory(exp, c) {
      var i :| 0 <= i < |exp| && CategoryOf(exp[i]) == c;
      var t := exp[i];
      FilterMembership(txs, IsExpense, t);
    }
    if t :| t in txs && IsExpense(t) && CategoryOf(t) == c {
      FilterMembership(txs, IsExpense, t);
      var i :| 0 <= i < |exp| && exp[i] == t;
    }
  }

  /** A slice is a category of `exp` with its total and its colour. */
  lemma SlicesMembers(exp: seq<Transaction>, s: Slice)
    ensures s in Slices(exp) <==> HasCategory(exp, s.name) && s == SliceOf(exp, s.name)
  {
    var ks := CategoryOrder(exp);
    CategoryOrderMembers(exp, s.name);
    if s in Slices(exp) {
      var k :| 0 <= k < |ks| && Slices(exp)[k] == s;
      assert ks[k] == s.name;
    }
    if HasCategory(exp, s.name) && s == SliceOf(exp, s.name) {
      var k :| 0 <= k < |ks| && ks[k] == s.name;
      assert Slices(exp)[k] == s;
    }
  }

  /** The slices name distinct categories. */
  lemma SlicesDistinct(exp: seq<Transaction>)
    ensures forall i, j | 0 <= i < j < |Slices(exp)| :: Slices(exp)[i].name != Slices(exp)[j].name
  {
    CategoryOrderDistinct(exp);
  }

  /** Slices are determined by their names, so distinct names give distinct slices. */
  lemma SortedSlicesDistinct(exp: seq<Transaction>)
    ensures var r := SortBy(Slices(exp), ByValueDesc());
      forall i, j | 0 <= i < j < |r| :: r[i].name != r[j].name
  {
    var slices := Slices(exp);
    var r := SortBy(slices, ByValueDesc());
    SlicesDistinct(exp);
    assert Distinct(slices) by {
      forall i, j | 0 <= i < j < |slices| ensures slices[i] != slices[j] {
        assert slices[i].name != slices[j].name;
      }
    }
    DistinctPermutation(slices, r);
    forall i, j | 0 <= i < j < |r| ensures r[i].name != r[j].name {
      var a, b := r[i], r[j];
      assert a in multiset(slices) && b in multiset(slices);
      SlicesMembers(exp, a);
      SlicesMembers(exp, b);
    }
  }

  /**
   * The chart has one slice per category that some expense of `txs` has
   * (a missing category counting as `Other`), each category once, valued
   * at its total spending, which is positive, and coloured from the table;
   * the slices run from the largest value down.
   */
  lemma PieDataSpec(txs: seq<Transaction>)
    ensures var r := PieData(txs);
      && (forall i, j | 0 <= i < j < |r| :: r[i].name != r[j].name)
      && SortedBy(r, ByValueDesc())
      && (forall s | s in r :: s.value > 0.0)
  {
    if txs != [] {
      var exp := Expenses(txs);
      var r := PieData(txs);
      assert r == SortBy(Slices(exp), ByValueDesc());
      SortedSlicesDistinct(exp);
      ByValueDescTotal();
      SortBySorted(Slices(exp), ByValueDesc());
      forall s | s in r ensures s.value > 0.0 {
        assert s in multiset(Slices(exp));
        SlicePositive(exp, s);
      }
    }
  }

  /** Every slice of the expenses has spent something. */
  lemma SlicePositive(exp: seq<Transaction>, s: Slice)
    requires All(exp, IsExpense)
    requires s in Slices(exp)
    ensures s.value > 0.0
  {
    SlicesMembers(exp, s);
    SpentInPositive(exp, s.name);
  }

  /** A slice of the chart is exactly an expense category of `txs` with its total and colour. */
  lemma PieDataMembers(txs: seq<Transaction>, s: Slice)
    ensures s in PieData(txs) <==>
      && (exists t | t in txs :: IsExpense(t) && CategoryOf(t) == s.name)
      && s.value == SpentIn(Expenses(txs), s.name)
      && s.colour == Colour(s.name)
  {
    var exp := Expenses(txs);
    ExpenseCategory(txs, s.name);
    SlicesMembers(exp, s);
    if txs != [] {
      assert s in PieData(txs) <==> s in multiset(Slices(exp));
    }
  }
}
