/**
 * The two document collections as an in-memory table: a map from id to
 * record per collection and one counter that hands out fresh ids. The
 * functions are the store operations the route handlers use (`findOne`,
 * `find`, `save` of a new or a changed document, `findByIdAndDelete`),
 * each with the schema check `save` runs; class `Database` holds the state
 * and applies them in place.
 */
module Store {
  import opened Wrappers
  import opened Calendar
  import opened Models
  import opened Sequences

  datatype Tables = Tables(budgets: map<nat, Budget>, transactions: map<nat, Transaction>, nextId: nat)

  /**
   * What the store guarantees about its contents: every record is filed
   * under its own id, ids come from the counter, every record passes its
   * schema, and the unique index on (category, month, year) holds.
   */
  ghost predicate ValidTables(s: Tables) {
    && (forall id | id in s.budgets :: s.budgets[id].id == id && id < s.nextId && ValidBudget(s.budgets[id]))
    && (forall id | id in s.transactions ::
          s.transactions[id].id == id && id < s.nextId && ValidTransaction(s.transactions[id]))
    && (forall i, j | i in s.budgets && j in s.budgets && i != j :: !SameTriple(s.budgets[i], s.budgets[j]))
  }

  /** The values of `m` under the ids below `n`, by ascending id: the collection's natural order. */
  function InIdOrder<T>(m: map<nat, T>, n: nat): (r: seq<T>)
    ensures |r| <= n
  {
    if n == 0 then [] else InIdOrder(m, n - 1) + (if n - 1 in m then [m[n - 1]] else [])
  }

  lemma {:induction false} InIdOrderMembers<T>(m: map<nat, T>, n: nat, x: T)
    ensures x in InIdOrder(m, n) <==> exists id :: 0 <= id < n && id in m && m[id] == x
  {
    if n > 0 {
      InIdOrderMembers(m, n - 1, x);
    }
  }

  /** Records under different ids differ, so the natural order lists each once. */
  lemma {:induction false} InIdOrderDistinct<T>(m: map<nat, T>, n: nat)
    requires forall i, j | i in m && j in m && i != j :: m[i] != m[j]
    ensures Distinct(InIdOrder(m, n))
  {
    if n > 0 {
      InIdOrderDistinct(m, n - 1);
      var prior := InIdOrder(m, n - 1);
      if n - 1 in m {
        InIdOrderMembers(m, n - 1, m[n - 1]);
        forall i | 0 <= i < |prior| ensures prior[i] != m[n - 1] {
          InIdOrderMembers(m, n - 1, prior[i]);
        }
      }
    }
  }

  /** `Budget.find()` */
  function AllBudgets(s: Tables): seq<Budget> {
    InIdOrder(s.budgets, s.nextId)
  }

  /** `Transaction.find()` */
  function AllTransactions(s: Tables): seq<Transaction> {
    InIdOrder(s.transactions, s.nextId)
  }

  /** In a valid store, `find()` lists exactly the stored budgets. */
  lemma AllBudgetsMembers(s: Tables, b: Budget)
    requires ValidTables(s)
    ensures b in AllBudgets(s) <==> b.id in s.budgets && s.budgets[b.id] == b
  {
    InIdOrderMembers(s.budgets, s.nextId, b);
  }

  /** In a valid store, `find()` lists exactly the stored transactions. */
  lemma AllTransactionsMembers(s: Tables, t: Transaction)
    requires ValidTables(s)
    ensures t in AllTransactions(s) <==> t.id in s.transactions && s.transactions[t.id] == t
  {
    InIdOrderMembers(s.transactions, s.nextId, t);
  }

  predicate HasTriple(b: Budget, category: string, month: int, year: int) {
    b.category == category && b.month == month && b.year == year
  }

  /** The smallest id below `n` of a budget with the triple, if any. */
  function FirstWithTriple(bm: map<nat, Budget>, n: nat, category: string, month: int, year: int): (r: Option<nat>)
    ensures r.Some? ==> r.value < n && r.value in bm && HasTriple(bm[r.value], category, month, year)
    ensures r.Some? ==> forall id | id < r.value && id in bm :: !HasTriple(bm[id], category, month, year)
    ensures r.None? ==> forall id | id < n && id in bm :: !HasTriple(bm[id], category, month, year)
  {
    if n == 0 then None
    else
      var prior := FirstWithTriple(bm, n - 1, category, month, year);
      if prior.Some? then prior
      else if n - 1 in bm && HasTriple(bm[n - 1], category, month, year) then Some(n - 1)
      else None
  }

  /** The first match is the one with no match below it. */
  lemma FirstWithTripleIs(bm: map<nat, Budget>, n: nat, category: string, month: int, year: int, id: nat)
    requires id < n && id in bm && HasTriple(bm[id], category, month, year)
    requires forall k | k < id && k in bm :: !HasTriple(bm[k], category, month, year)
    ensures FirstWithTriple(bm, n, category, month, year) == Some(id)
  {
  }

  /** `Budget.findOne({ category, month, year })`: the id of the first match in natural order. */
  function FindTriple(s: Tables, category: string, month: int, year: int): Option<nat> {
    FirstWithTriple(s.budgets, s.nextId, category, month, year)
  }

  /** A stored budget has the category and the month and year the query values name. */
  ghost predicate StoredAt(s: Tables, category: string, month: real, year: real) {
    exists id | id in s.budgets ::
      s.budgets[id].category == category && s.budgets[id].month as real == month && s.budgets[id].year as real == year
  }

  /**
   * `Budget.findOne({ category, month, year })` with month and year as the
   * `Number` cast gives them. Stored months and years are integers, so a
   * fractional value matches no budget.
   */
  function FindBudget(s: Tables, category: string, month: real, year: real): (r: Option<nat>)
    ensures r.Some? ==> && r.value in s.budgets && s.budgets[r.value].category == category
                        && s.budgets[r.value].month as real == month && s.budgets[r.value].year as real == year
    ensures ValidTables(s) && r.None? ==> !StoredAt(s, category, month, year)
  {
    if month == month.Floor as real && year == year.Floor as real then FindTriple(s, category, month.Floor, year.Floor)
    else None
  }

  /** For integer values the cast lookup is the triple lookup. */
  lemma FindBudgetOfIntegers(s: Tables, category: string, month: int, year: int)
    ensures FindBudget(s, category, month as real, year as real) == FindTriple(s, category, month, year)
  {
  }

  /** The outcome of a `save`: the new tables and the saved document, or a failed validation. */
  datatype Saved<T> = Saved(tables: Tables, doc: T) | Invalid

  /** `new Budget({...}).save()`: a fresh id, the schema check, then the unique index. */
  function SaveNewBudget(s: Tables, category: string, amount: real, month: int, year: int): (r: Saved<Budget>)
    ensures r.Saved? <==> ValidBudget(Budget(s.nextId, category, amount, month, year)) && FindTriple(s, category, month, year).None?
    ensures r.Saved? ==> r.doc == Budget(s.nextId, category, amount, month, year) && ValidBudget(r.doc)
    ensures r.Saved? ==> r.tables == s.(budgets := s.budgets[s.nextId := r.doc], nextId := s.nextId + 1)
  {
    var b := Budget(s.nextId, category, amount, month, year);
    if ValidBudget(b) && FindTriple(s, category, month, year).None? then
      Saved(s.(budgets := s.budgets[s.nextId := b], nextId := s.nextId + 1), b)
    else Invalid
  }

  /** `budget.amount = amount; budget.save()` on a stored budget. */
  function SaveBudgetAmount(s: Tables, id: nat, amount: real): (r: Saved<Budget>)
    requires id in s.budgets
    ensures ValidBudget(s.budgets[id]) ==> (r.Saved? <==> amount >= 0.0)
    ensures r.Saved? ==> r.doc == s.budgets[id].(amount := amount) && r.tables == s.(budgets := s.budgets[id := r.doc])
  {
    var b := s.budgets[id].(amount := amount);
    if ValidBudget(b) then Saved(s.(budgets := s.budgets[id := b]), b) else Invalid
  }

  /** `Budget.findByIdAndDelete(id)` */
  function DeleteBudget(s: Tables, id: nat): (r: Tables)
    ensures id !in r.budgets && r.budgets == s.budgets - {id}
    ensures r.transactions == s.transactions && r.nextId == s.nextId
  {
    s.(budgets := s.budgets - {id})
  }

  /** `new Transaction({...}).save()`: a fresh id and the schema check. */
  function SaveNewTransaction(s: Tables, amount: real, description: string, date: Date, category: string)
    : (r: Saved<Transaction>)
    ensures r.Saved? <==> ValidTransaction(Transaction(s.nextId, amount, description, date, category))
    ensures r.Saved? ==> r.doc == Transaction(s.nextId, amount, description, date, category)
    ensures r.Saved? ==> r.tables == s.(transactions := s.transactions[s.nextId := r.doc], nextId := s.nextId + 1)
  {
    var t := Transaction(s.nextId, amount, description, date, category);
    if ValidTransaction(t) then Saved(s.(transactions := s.transactions[s.nextId := t], nextId := s.nextId + 1), t)
    else Invalid
  }

  /** `transaction.save()` of a stored transaction whose fields were reassigned. */
  function SaveTransaction(s: Tables, t: Transaction): (r: Saved<Transaction>)
    requires t.id in s.transactions
    ensures r.Saved? <==> ValidTransaction(t)
    ensures r.Saved? ==> r.doc == t && r.tables == s.(transactions := s.transactions[t.id := t])
  {
    if ValidTransaction(t) then Saved(s.(transactions := s.transactions[t.id := t]), t) else Invalid
  }

  /** `Transaction.findByIdAndDelete(id)` */
  function DeleteTransaction(s: Tables, id: nat): (r: Tables)
    ensures id !in r.transactions && r.transactions == s.transactions - {id}
    ensures r.budgets == s.budgets && r.nextId == s.nextId
  {
    s.(transactions := s.transactions - {id})
  }

  lemma SaveNewBudgetKeepsValid(s: Tables, category: string, amount: real, month: int, year: int)
    requires ValidTables(s)
    ensures var r := SaveNewBudget(s, category, amount, month, year);
      r.Saved? ==> ValidTables(r.tables)
  {
  }

  lemma SaveBudgetAmountKeepsValid(s: Tables, id: nat, amount: real)
    requires ValidTables(s) && id in s.budgets
    ensures var r := SaveBudgetAmount(s, id, amount);
      r.Saved? ==> ValidTables(r.tables)
  {
  }

  lemma SaveNewTransactionKeepsValid(s: Tables, amount: real, description: string, date: Date, category: string)
    requires ValidTables(s)
    ensures var r := SaveNewTransaction(s, amount, description, date, category);
      r.Saved? ==> ValidTables(r.tables)
  {
  }

  lemma SaveTransactionKeepsValid(s: Tables, t: Transaction)
    requires ValidTables(s) && t.id in s.transactions
    ensures var r := SaveTransaction(s, t);
      r.Saved? ==> ValidTables(r.tables)
  {
  }

  lemma DeleteKeepsValid(s: Tables, id: nat)
    requires ValidTables(s)
    ensures ValidTables(DeleteBudget(s, id)) && ValidTables(DeleteTransaction(s, id))
  {
  }

  /** Every stored budget is valid, and no two share their (category, month, year). */
  lemma StoredBudgetsDistinct(s: Tables, month: int, year: int)
    requires ValidTables(s)
    ensures var bs := Filter(AllBudgets(s), InPeriod(month, year));
      && (forall i :: 0 <= i < |bs| ==> ValidBudget(bs[i]))
      && (forall i, k :: 0 <= i < k < |bs| ==> bs[i].category != bs[k].category)
  {
    var p := InPeriod(month, year);
    var bs := Filter(AllBudgets(s), p);
    InIdOrderDistinct(s.budgets, s.nextId);
    FilterDistinct(AllBudgets(s), p);
    forall i | 0 <= i < |bs| ensures bs[i].id in s.budgets && s.budgets[bs[i].id] == bs[i] && p(bs[i]) {
      assert bs[i] in bs;
      FilterMembership(AllBudgets(s), p, bs[i]);
      AllBudgetsMembers(s, bs[i]);
    }
  }

  /** The store as the handlers see it: each method applies one store operation in place. */
  class Database {
    var budgets: map<nat, Budget>
    var transactions: map<nat, Transaction>
    var nextId: nat

    /** An empty store. */
    constructor ()
      ensures State() == Tables(map[], map[], 0) && Valid()
    {
      budgets, transactions, nextId := map[], map[], 0;
    }

    function State(): Tables
      reads this
    {
      Tables(budgets, transactions, nextId)
    }

    ghost predicate Valid()
      reads this
    {
      ValidTables(State())
    }

    /** `new Budget({...}).save()` */
    method InsertBudget(category: string, amount: real, month: int, year: int) returns (r: Saved<Budget>)
      requires Valid()
      modifies this
      ensures r == SaveNewBudget(old(State()), category, amount, month, year)
      ensures State() == if r.Saved? then r.tables else old(State())
      ensures Valid()
    {
      SaveNewBudgetKeepsValid(State(), category, amount, month, year);
      r := SaveNewBudget(State(), category, amount, month, year);
      if r.Saved? {
        budgets := budgets[nextId := r.doc];
        nextId := nextId + 1;
      }
    }

    /** `budget.amount = amount; budget.save()` */
    method UpdateBudgetAmount(id: nat, amount: real) returns (r: Saved<Budget>)
      requires Valid() && id in budgets
      modifies this
      ensures r == SaveBudgetAmount(old(State()), id, amount)
      ensures State() == if r.Saved? then r.tables else old(State())
      ensures Valid()
    {
      SaveBudgetAmountKeepsValid(State(), id, amount);
      r := SaveBudgetAmount(State(), id, amount);
      if r.Saved? {
        budgets := budgets[id := r.doc];
      }
    }

    /** `Budget.findByIdAndDelete(id)` */
    method RemoveBudget(id: nat)
      requires Valid()
      modifies this
      ensures State() == DeleteBudget(old(State()), id)
      ensures Valid()
    {
      DeleteKeepsValid(State(), id);
      budgets := budgets - {id};
    }

    /** `new Transaction({...}).save()` */
    method InsertTransaction(amount: real, description: string, date: Date, category: string)
      returns (r: Saved<Transaction>)
      requires Valid()
      modifies this
      ensures r == SaveNewTransaction(old(State()), amount, description, date, category)
      ensures State() == if r.Saved? then r.tables else old(State())
      ensures Valid()
    {
      SaveNewTransactionKeepsValid(State(), amount, description, date, category);
      r := SaveNewTransaction(State(), amount, description, date, category);
      if r.Saved? {
        transactions := transactions[nextId := r.doc];
        nextId := nextId + 1;
      }
    }

    /** `transaction.save()` after its fields were reassigned */
    method UpdateTransaction(t: Transaction) returns (r: Saved<Transaction>)
      requires Valid() && t.id in transactions
      modifies this
      ensures r == SaveTransaction(old(State()), t)
      ensures State() == if r.Saved? then r.tables else old(State())
      ensures Valid()
    {
      SaveTransactionKeepsValid(State(), t);
      r := SaveTransaction(State(), t);
      if r.Saved? {
        transactions := transactions[t.id := t];
      }
    }

    /** `Transaction.findByIdAndDelete(id)` */
    method RemoveTransaction(id: nat)
      requires Valid()
      modifies this
      ensures State() == DeleteTransaction(old(State()), id)
      ensures Valid()
    {
      DeleteKeepsValid(State(), id);
      transactions := transactions - {id};
    }
  }
}
