/**
 * The list view of client/src/components/TransactionList.jsx: a type
 * filter, a case-insensitive search on the description, a sort on one of
 * three keys in either direction, and the state transition of a click on
 * a column header.
 */
module TransactionList {
  import opened Wrappers
  import opened Calendar
  import opened Models
  import opened Sequences
  import opened Text

  /** The `sortConfig` state: a key (`date`, `amount` or `description`) and `asc` or `desc`. */
  datatype SortConfig = SortConfig(key: string, direction: string)

  /** The initial state of the view. */
  const InitialSort := SortConfig("date", "desc")

  /** The type filter: `all`, `income` (positive amounts) or `expense` (negative amounts). */
  predicate TypeMatch(filter: string, t: Transaction) {
    filter == "all" || (filter == "income" && t.amount > 0.0) || (filter == "expense" && t.amount < 0.0)
  }

  /** The search: the lower-cased description contains the lower-cased term. */
  predicate SearchMatch(term: string, t: Transaction) {
    Contains(ToLower(t.description), ToLower(term))
  }

  function Passes(filter: string, term: string): Transaction -> bool {
    (t: Transaction) => TypeMatch(filter, t) && SearchMatch(term, t)
  }

  /**
   * The comparator, read as "`a` may come before `b`". Any direction other
   * than `asc` sorts descending; an unknown key compares everything equal.
   */
  function Order(config: SortConfig): (Transaction, Transaction) -> bool {
    var asc := config.direction == "asc";
    if config.key == "date" then
      (a: Transaction, b: Transaction) => if asc then DateLe(a.date, b.date) else DateLe(b.date, a.date)
    else if config.key == "amount" then
      (a: Transaction, b: Transaction) => if asc then a.amount <= b.amount else b.amount <= a.amount
    else if config.key == "description" then
      (a: Transaction, b: Transaction) => if asc then StrLe(a.description, b.description) else StrLe(b.description, a.description)
    else
      (a: Transaction, b: Transaction) => true
  }

  /** `sortedAndFilteredTransactions()` */
  function Visible(txs: seq<Transaction>, filter: string, term: string, config: SortConfig): seq<Transaction> {
    SortBy(Filter(txs, Passes(filter, term)), Order(config))
  }

  /** Every comparator the view can select is a total preorder, so sorting by it is meaningful. */
  lemma OrderTotalPreorder(config: SortConfig)
    ensures TotalPreorder(Order(config))
  {
    var le := Order(config);
    if config.key == "date" {
      forall a: Transaction, b: Transaction ensures le(a, b) || le(b, a) { DateLeTotal(a.date, b.date); }
      forall a: Transaction, b: Transaction, c: Transaction | le(a, b) && le(b, c) ensures le(a, c) {
        if config.direction == "asc" { DateLeTransitive(a.date, b.date, c.date); }
        else { DateLeTransitive(c.date, b.date, a.date); }
      }
    } else if config.key == "description" {
      forall a: Transaction, b: Transaction ensures le(a, b) || le(b, a) { StrLeTotal(a.description, b.description); }
      forall a: Transaction, b: Transaction, c: Transaction | le(a, b) && le(b, c) ensures le(a, c) {
        if config.direction == "asc" { StrLeTransitive(a.description, b.description, c.description); }
        else { StrLeTransitive(c.description, b.description, a.description); }
      }
    }
  }

  /**
   * The view shows exactly the transactions that pass both filters, each as
   * often as in the input, ordered by the selected comparator.
   */
  lemma VisibleSpec(txs: seq<Transaction>, filter: string, term: string, config: SortConfig)
    ensures var r := Visible(txs, filter, term, config);
      && multiset(r) == multiset(Filter(txs, Passes(filter, term)))
      && SortedBy(r, Order(config))
      && (forall t :: t in r <==> t in txs && TypeMatch(filter, t) && SearchMatch(term, t))
  {
    var f := Filter(txs, Passes(filter, term));
    OrderTotalPreorder(config);
    SortBySorted(f, Order(config));
    forall t ensures t in Visible(txs, filter, term, config) <==> t in txs && TypeMatch(filter, t) && SearchMatch(term, t) {
      assert t in Visible(txs, filter, term, config) <==> t in multiset(f);
      FilterMembership(txs, Passes(filter, term), t);
    }
  }

  /** With an unknown key the view keeps the filtered order. */
  lemma UnknownKeyKeepsOrder(txs: seq<Transaction>, filter: string, term: string, config: SortConfig)
    requires config.key != "date" && config.key != "amount" && config.key != "description"
    ensures Visible(txs, filter, term, config) == Filter(txs, Passes(filter, term))
  {
    SortByConstant(Filter(txs, Passes(filter, term)), Order(config));
  }

  /** `income` and `expense` split the non-zero amounts; a zero amount shows only under `all`. */
  lemma TypeFilterSplits(t: Transaction, filter: string)
    ensures TypeMatch("income", t) <==> t.amount > 0.0
    ensures TypeMatch("expense", t) <==> t.amount < 0.0
    ensures t.amount == 0.0 ==> (TypeMatch(filter, t) <==> filter == "all")
  {
  }

  /** An empty search term matches every transaction, and the search ignores the case of the term. */
  lemma SearchSpec(t: Transaction, term: string)
    ensures SearchMatch("", t)
    ensures SearchMatch(ToUpper(term), t) <==> SearchMatch(term, t)
  {
    ContainsEmpty(ToLower(t.description));
    ToLowerIgnoresUpper(term);
  }

  /** `requestSort(key)`: a click on the current ascending column turns it descending, any other click sorts ascending. */
  function RequestSort(config: SortConfig, key: string): (r: SortConfig)
    ensures r.key == key
    ensures r.direction == "desc" <==> config.key == key && config.direction == "asc"
    ensures r.direction == "asc" <==> !(config.key == key && config.direction == "asc")
  {
    SortConfig(key, if config.key == key && config.direction == "asc" then "desc" else "asc")
  }

  /** Clicking the same column again flips the direction, starting from any state. */
  lemma RequestSortToggles(config: SortConfig, key: string)
    ensures var once := RequestSort(config, key);
      var twice := RequestSort(once, key);
      twice.key == key && (once.direction == "asc" <==> twice.direction == "desc")
  {
  }

  /** `getSortIndicator(key)`: nothing for another column, an up arrow for ascending and a down arrow otherwise. */
  function SortIndicator(config: SortConfig, key: string): (r: Option<string>)
    ensures r.None? <==> config.key != key
    ensures r.Some? ==> (r.value == "↑" <==> config.direction == "asc")
    ensures r.Some? ==> (r.value == "↓" <==> config.direction != "asc")
  {
    if config.key != key then None else Some(if config.direction == "asc" then "↑" else "↓")
  }

  /** The plural ending of "`n` transaction(s) found". */
  function CountSuffix(n: nat): (r: string)
    ensures r == "" <==> n == 1
    ensures r != "" ==> r == "s"
  {
    if n != 1 then "s" else ""
  }
}
