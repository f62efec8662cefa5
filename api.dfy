/**
 * The route handlers of api/index.js over the in-memory store. Each
 * state-changing handler is a method on a `Database` whose effect and
 * response are those of a pure outcome function; the lemmas state the
 * rules of the endpoints about those functions. `up` is false when the
 * store fails, which sends the handler to its `catch` branch.
 */
module Api {
  import opened Wrappers
  import opened Calendar
  import opened Models
  import opened Sequences
  import opened Text
  import opened Ledger
  import opened Http
  import opened Store
  import opened BudgetVsActual

  /** What a handler answers and what the store holds afterwards. */
  datatype Outcome = Outcome(resp: Response, tables: Tables)

  /** `GET /api/categories` */
  function CategoriesResponse(): (r: Response)
    ensures r.status == 200 && r.body.Names?
    ensures |r.body.names| == 14 && r.body.names[12] == "Income" && r.body.names[13] == "Other"
    ensures forall c :: c in r.body.names <==> c in BudgetCategories || c == "Income"
  {
    CategoryEnums();
    Response(200, Names(TransactionCategories))
  }

  // ---------------------------------------------------------------- listing

  /** `sort({ category: 1 })` */
  function ByCategory(): (Budget, Budget) -> bool {
    (a: Budget, b: Budget) => StrLe(a.category, b.category)
  }

  lemma ByCategoryTotalPreorder()
    ensures TotalPreorder(ByCategory())
  {
    forall a: Budget, b: Budget ensures StrLe(a.category, b.category) || StrLe(b.category, a.category) {
      StrLeTotal(a.category, b.category);
    }
    forall a: Budget, b: Budget, c: Budget | StrLe(a.category, b.category) && StrLe(b.category, c.category)
      ensures StrLe(a.category, c.category)
    {
      StrLeTransitive(a.category, b.category, c.category);
    }
  }

  /** The query parameters pass `month && year` but one of them casts to NaN. */
  predicate QueryFails(month: Param, year: Param) {
    BothGiven(month, year) && (month.Unparsable? || year.Unparsable?)
  }

  /** `Budget.find(query)`: the period's budgets when both parameters are given, else all of them. */
  function MatchingBudgets(s: Tables, month: Param, year: Param): seq<Budget>
    requires !QueryFails(month, year)
  {
    if BothGiven(month, year) then PeriodBudgets(AllBudgets(s), month.n, year.n) else AllBudgets(s)
  }

  /** `Budget.find(query).sort({ category: 1 })` */
  function ListedBudgets(s: Tables, month: Param, year: Param): seq<Budget>
    requires !QueryFails(month, year)
  {
    SortBy(MatchingBudgets(s, month, year), ByCategory())
  }

  /**
   * The budget list holds exactly the stored budgets of the period (of all
   * periods when a parameter is missing), sorted by category.
   */
  lemma ListedBudgetsSpec(s: Tables, month: Param, year: Param)
    requires ValidTables(s) && !QueryFails(month, year)
    ensures SortedBy(ListedBudgets(s, month, year), ByCategory())
    ensures multiset(ListedBudgets(s, month, year)) == multiset(MatchingBudgets(s, month, year))
    ensures forall b :: b in ListedBudgets(s, month, year) <==>
      && b.id in s.budgets && s.budgets[b.id] == b
      && (BothGiven(month, year) ==> b.month == month.n && b.year == year.n)
  {
    ByCategoryTotalPreorder();
    SortBySorted(MatchingBudgets(s, month, year), ByCategory());
    forall b ensures b in ListedBudgets(s, month, year) <==>
      && b.id in s.budgets && s.budgets[b.id] == b
      && (BothGiven(month, year) ==> b.month == month.n && b.year == year.n)
    {
      assert b in ListedBudgets(s, month, year) <==> b in multiset(MatchingBudgets(s, month, year));
      AllBudgetsMembers(s, b);
      if BothGiven(month, year) {
        PeriodBudgetsMembers(AllBudgets(s), month.n, year.n, b);
      }
    }
  }

  /** `GET /api/budgets`: a failure answers an empty list. */
  method GetBudgets(db: Database, month: Param, year: Param, up: bool) returns (resp: Response)
    ensures !up || QueryFails(month, year) ==> resp == Response(200, Budgets([]))
    ensures up && !QueryFails(month, year) ==> resp == Response(200, Budgets(ListedBudgets(db.State(), month, year)))
  {
    if !up || QueryFails(month, year) {
      return Response(200, Budgets([]));
    }
    var found := MatchingBudgets(db.State(), month, year);
    resp := Response(200, Budgets(SortBy(found, ByCategory())));
  }

  /** `Transaction.find().sort({ date: -1 })` */
  function ListedTransactions(s: Tables): seq<Transaction> {
    SortBy(AllTransactions(s), NewestFirst())
  }

  /** The transaction list holds exactly the stored transactions, newest first. */
  lemma ListedTransactionsSpec(s: Tables)
    requires ValidTables(s)
    ensures SortedBy(ListedTransactions(s), NewestFirst())
    ensures multiset(ListedTransactions(s)) == multiset(AllTransactions(s))
    ensures forall t :: t in ListedTransactions(s) <==> t.id in s.transactions && s.transactions[t.id] == t
  {
    NewestFirstTotalPreorder();
    SortBySorted(AllTransactions(s), NewestFirst());
    forall t ensures t in ListedTransactions(s) <==> t.id in s.transactions && s.transactions[t.id] == t {
      assert t in ListedTransactions(s) <==> t in multiset(AllTransactions(s));
      AllTransactionsMembers(s, t);
    }
  }

  /** `GET /api/transactions`: a failure answers an empty list. */
  method GetTransactions(db: Database, up: bool) returns (resp: Response)
    ensures !up ==> resp == Response(200, Transactions([]))
    ensures up ==> resp == Response(200, Transactions(ListedTransactions(db.State())))
  {
    if !up {
      return Response(200, Transactions([]));
    }
    var found := AllTransactions(db.State());
    resp := Response(200, Transactions(SortBy(found, NewestFirst())));
  }

  // ---------------------------------------------------------- budget report

  /** The report over the whole store for a parsed month and year. */
  function StoreReport(s: Tables, month: int, year: int): seq<Row> {
    ExpectedReport(PeriodBudgets(AllBudgets(s), month, year), PeriodExpenses(AllTransactions(s), month, year))
  }

  /**
   * Over a valid store the report has one row per category and its
   * `actualAmount` column adds up to the month's expenses outside `Income`:
   * no budget can be for `Income`, so those expenses are the only ones left out.
   */
  lemma StoreReportAccountsForSpending(s: Tables, month: int, year: int)
    requires ValidTables(s)
    ensures var r := StoreReport(s, month, year);
      forall i, k :: 0 <= i < k < |r| ==> r[i].category != r[k].category
    ensures var es := PeriodExpenses(AllTransactions(s), month, year);
      SumActual(StoreReport(s, month, year)) == TotalSpent(es) - SpentIn(es, "Income")
  {
    var bs := PeriodBudgets(AllBudgets(s), month, year);
    var es := PeriodExpenses(AllTransactions(s), month, year);
    assert bs == Filter(AllBudgets(s), InPeriod(month, year));
    StoredBudgetsDistinct(s, month, year);
    forall i | 0 <= i < |bs| ensures bs[i].category != "Income" {
      ValidBudgetNotIncome(bs[i]);
    }
    ReportCategoriesDistinct(bs, es);
    ReportAccountsForSpending(bs, es);
  }

  /** `GET /api/budget-vs-actual`: missing parameters and failures both answer an empty list. */
  method GetBudgetVsActual(db: Database, month: Param, year: Param, up: bool) returns (resp: Response)
    ensures !BothGiven(month, year) ==> resp == Response(200, Rows([]))
    ensures BothGiven(month, year) && (!up || month.Unparsable? || year.Unparsable?) ==> resp == Response(200, Rows([]))
    ensures month.Parsed? && year.Parsed? && up ==> resp == Response(200, Rows(StoreReport(db.State(), month.n, year.n)))
  {
    if !BothGiven(month, year) || !up || month.Unparsable? || year.Unparsable? {
      return Response(200, Rows([]));
    }
    var rows := Report(month.n, year.n, AllBudgets(db.State()), AllTransactions(db.State()));
    resp := Response(200, Rows(rows));
  }

  // ------------------------------------------------------------ budget save

  const MissingBudgetFields := "Please provide category, amount, month, and year"

  function BudgetSaveResult(r: Saved<Budget>, s: Tables): Outcome {
    if r.Saved? then Outcome(Response(201, OneBudget(r.doc)), r.tables)
    else Outcome(Response(400, Error("Failed to save budget")), s)
  }

  /** A body the handler turns away before touching the store. */
  predicate BudgetBodyIncomplete(body: BudgetBody) {
    body.category == [] || body.amount.Undefined? || body.month.Unset? || body.year.Unset?
  }

  /**
   * `POST /api/budgets` on the store `s`. The lookup casts month and year
   * with `Number` (a failed cast throws); a new budget takes them through
   * `parseInt`, and the amount through `parseFloat` (a `NaN` fails the schema
   * whether the budget is new or found).
   */
  function SaveBudgetOutcome(s: Tables, body: BudgetBody, up: bool): Outcome {
    if BudgetBodyIncomplete(body) then
      Outcome(Response(400, Error(MissingBudgetFields)), s)
    else if !up || body.month.cast.None? || body.year.cast.None? || body.amount.parsed.None? then
      Outcome(Response(400, Error("Failed to save budget")), s)
    else
      match FindBudget(s, body.category, body.month.cast.value, body.year.cast.value)
      case Some(id) => BudgetSaveResult(SaveBudgetAmount(s, id, body.amount.parsed.value), s)
      case None =>
        if body.month.parsed.None? || body.year.parsed.None? then
          Outcome(Response(400, Error("Failed to save budget")), s)
        else
          BudgetSaveResult(SaveNewBudget(s, body.category, body.amount.parsed.value, body.month.parsed.value, body.year.parsed.value), s)
  }

  method PostBudget(db: Database, body: BudgetBody, up: bool) returns (resp: Response)
    requires db.Valid()
    modifies db
    ensures db.Valid()
    ensures Outcome(resp, db.State()) == SaveBudgetOutcome(old(db.State()), body, up)
  {
    if body.category == [] || body.amount.Undefined? || body.month.Unset? || body.year.Unset? {
      return Response(400, Error(MissingBudgetFields));
    }
    if !up || body.month.cast.None? || body.year.cast.None? || body.amount.parsed.None? {
      return Response(400, Error("Failed to save budget"));
    }
    var found := FindBudget(db.State(), body.category, body.month.cast.value, body.year.cast.value);
    var saved: Saved<Budget>;
    if found.Some? {
      saved := db.UpdateBudgetAmount(found.value, body.amount.parsed.value);
    } else {
      if body.month.parsed.None? || body.year.parsed.None? {
        return Response(400, Error("Failed to save budget"));
      }
      saved := db.InsertBudget(body.category, body.amount.parsed.value, body.month.parsed.value, body.year.parsed.value);
    }
    if saved.Invalid? {
      return Response(400, Error("Failed to save budget"));
    }
    resp := Response(201, OneBudget(saved.doc));
  }

  /** Missing fields, or an undefined amount, answer 400 and leave the store as it was. */
  lemma SaveBudgetNeedsFields(s: Tables, body: BudgetBody, up: bool)
    requires BudgetBodyIncomplete(body)
    ensures SaveBudgetOutcome(s, body, up) == Outcome(Response(400, Error(MissingBudgetFields)), s)
  {
  }

  /** Every answer but 201 leaves the store as it was; every answer is 201 or 400. */
  lemma SaveBudgetFailsCleanly(s: Tables, body: BudgetBody, up: bool)
    ensures var o := SaveBudgetOutcome(s, body, up);
      (o.resp.status == 201 || o.resp.status == 400) && (o.resp.status != 201 ==> o.tables == s)
  {
  }

  lemma SaveBudgetKeepsValid(s: Tables, body: BudgetBody, up: bool)
    requires ValidTables(s)
    ensures ValidTables(SaveBudgetOutcome(s, body, up).tables)
  {
    if !BudgetBodyIncomplete(body) && up && body.month.cast.Some? && body.year.cast.Some? && body.amount.parsed.Some? {
      var (c, a) := (body.category, body.amount.parsed.value);
      match FindBudget(s, c, body.month.cast.value, body.year.cast.value)
      case Some(id) => SaveBudgetAmountKeepsValid(s, id, a);
      case None =>
        if body.month.parsed.Some? && body.year.parsed.Some? {
          SaveNewBudgetKeepsValid(s, c, a, body.month.parsed.value, body.year.parsed.value);
        }
    }
  }

  /**
   * A save succeeds exactly when all fields are given, the store is up, the
   * cast of month and year succeeds, the amount reads as a number, and then either a stored budget has
   * the cast values and the new amount is not negative, or none has them,
   * both values parse, the parsed budget fits the schema and its triple is
   * free. An amount of 0 is accepted.
   */
  lemma SaveBudgetSucceeds(s: Tables, body: BudgetBody, up: bool)
    requires ValidTables(s)
    ensures SaveBudgetOutcome(s, body, up).resp.status == 201 <==>
      && !BudgetBodyIncomplete(body) && up && body.month.cast.Some? && body.year.cast.Some? && body.amount.parsed.Some?
      && var (c, a, mc, yc) := (body.category, body.amount.parsed.value, body.month.cast.value, body.year.cast.value);
      && (StoredAt(s, c, mc, yc) ==> a >= 0.0)
      && (!StoredAt(s, c, mc, yc) ==>
            && body.month.parsed.Some? && body.year.parsed.Some?
            && var (m, y) := (body.month.parsed.value, body.year.parsed.value);
            && ValidBudget(Budget(0, c, a, m, y))
            && forall id | id in s.budgets :: !HasTriple(s.budgets[id], c, m, y))
  {
    if !BudgetBodyIncomplete(body) && up && body.month.cast.Some? && body.year.cast.Some? && body.amount.parsed.Some? {
      var (c, mc, yc) := (body.category, body.month.cast.value, body.year.cast.value);
      var found := FindBudget(s, c, mc, yc);
      if found.Some? {
        assert StoredAt(s, c, mc, yc) by {
          assert found.value in s.budgets;
        }
      }
    }
  }

  /**
   * With month and year sent as integers, the two readings agree: a save
   * succeeds exactly when all fields are given, the store is up, the amount
   * reads as a number and the resulting budget fits the schema.
   */
  lemma SaveBudgetSucceedsPlain(s: Tables, body: BudgetBody, up: bool)
    requires ValidTables(s)
    requires Plain(body.month) && Plain(body.year)
    ensures SaveBudgetOutcome(s, body, up).resp.status == 201 <==>
      && !BudgetBodyIncomplete(body) && up && body.amount.parsed.Some?
      && ValidBudget(Budget(0, body.category, body.amount.parsed.value, body.month.parsed.value, body.year.parsed.value))
  {
    var (c, m, y) := (body.category, body.month.parsed.value, body.year.parsed.value);
    FindBudgetOfIntegers(s, c, m, y);
    if !BudgetBodyIncomplete(body) && up && body.amount.parsed.Some? {
      var found := FindTriple(s, c, m, y);
      if found.Some? {
        assert ValidBudget(s.budgets[found.value]);
      }
    }
  }

  /**
   * After a successful save exactly one budget has the answered budget's
   * (category, month, year), with the submitted category and amount; it is
   * the answer; its month and year are the cast values, or, when no stored
   * budget had those, the parsed ones; no other budget and no transaction
   * changes, and the only id that can appear is the fresh one.
   */
  lemma SaveBudgetUpserts(s: Tables, body: BudgetBody, up: bool)
    requires ValidTables(s)
    requires SaveBudgetOutcome(s, body, up).resp.status == 201
    ensures var o, c := SaveBudgetOutcome(s, body, up), body.category;
      && o.resp.body.OneBudget?
      && var b := o.resp.body.budget;
      && b.id in o.tables.budgets && o.tables.budgets[b.id] == b
      && b.category == c && b.amount == body.amount.parsed.value
      && ((b.month as real == body.month.cast.value && b.year as real == body.year.cast.value)
          || (!StoredAt(s, c, body.month.cast.value, body.year.cast.value)
              && b.month == body.month.parsed.value && b.year == body.year.parsed.value))
      && (forall id | id in o.tables.budgets && HasTriple(o.tables.budgets[id], c, b.month, b.year) :: id == b.id)
      && (forall id | id in s.budgets && id != b.id :: id in o.tables.budgets && o.tables.budgets[id] == s.budgets[id])
      && (forall id | id in o.tables.budgets :: id in s.budgets || id == s.nextId)
      && o.tables.transactions == s.transactions
  {
    SaveBudgetKeepsValid(s, body, up);
  }

  /** Saving the same integer (category, month, year) twice is saving it once with the second amount. */
  lemma SaveBudgetLastWins(s: Tables, first: BudgetBody, second: BudgetBody, up: bool)
    requires ValidTables(s)
    requires first.category == second.category && first.month == second.month && first.year == second.year
    requires Plain(first.month) && Plain(first.year)
    requires SaveBudgetOutcome(s, first, up).resp.status == 201
    requires SaveBudgetOutcome(s, second, up).resp.status == 201
    ensures SaveBudgetOutcome(SaveBudgetOutcome(s, first, up).tables, second, up).tables
         == SaveBudgetOutcome(s, second, up).tables
  {
    var (c, m, y) := (first.category, first.month.parsed.value, first.year.parsed.value);
    var (a1, a2) := (first.amount.parsed.value, second.amount.parsed.value);
    FindBudgetOfIntegers(s, c, m, y);
    match FindTriple(s, c, m, y)
    case Some(id) =>
      var s1 := s.(budgets := s.budgets[id := s.budgets[id].(amount := a1)]);
      assert SaveBudgetOutcome(s, first, up).tables == s1;
      FirstWithTripleIs(s1.budgets, s1.nextId, c, m, y, id);
      FindBudgetOfIntegers(s1, c, m, y);
      assert s1.budgets[id := s.budgets[id].(amount := a2)] == s.budgets[id := s.budgets[id].(amount := a2)];
    case None =>
      var n := s.nextId;
      var s1 := s.(budgets := s.budgets[n := Budget(n, c, a1, m, y)], nextId := n + 1);
      assert SaveBudgetOutcome(s, first, up).tables == s1;
      FirstWithTripleIs(s1.budgets, s1.nextId, c, m, y, n);
      FindBudgetOfIntegers(s1, c, m, y);
      assert s1.budgets[n := Budget(n, c, a2, m, y)] == s.budgets[n := Budget(n, c, a2, m, y)];
  }

  /**
   * A fractional month is looked up as sent but stored as `parseInt` reads
   * it: the first save of month 4.5 stores month 4, and saving the same
   * body again answers 400, because the lookup misses and the insert hits
   * the unique index.
   */
  lemma SaveBudgetFractionalMonthRepeat()
    ensures var body := BudgetBody("Food", Number(50.0), Given(Some(4.5), Some(4)), Given(Some(2024.0), Some(2024)));
      var first := SaveBudgetOutcome(Tables(map[], map[], 0), body, true);
      && first.resp == Response(201, OneBudget(Budget(0, "Food", 50.0, 4, 2024)))
      && SaveBudgetOutcome(first.tables, body, true) == Outcome(Response(400, Error("Failed to save budget")), first.tables)
  {
    var body := BudgetBody("Food", Number(50.0), Given(Some(4.5), Some(4)), Given(Some(2024.0), Some(2024)));
    var s0 := Tables(map[], map[], 0);
    assert FindTriple(s0, "Food", 4, 2024) == None;
    var s1 := SaveBudgetOutcome(s0, body, true).tables;
    assert s1 == Tables(map[0 := Budget(0, "Food", 50.0, 4, 2024)], map[], 1);
    assert FindTriple(s1, "Food", 4, 2024) == Some(0);
  }

  /** The string "1e1" casts to 10: a save of it updates the stored month-10 budget rather than a month-1 one. */
  lemma SaveBudgetExponentMonth()
    ensures var s := Tables(map[0 := Budget(0, "Food", 80.0, 10, 2024)], map[], 1);
      var body := BudgetBody("Food", Number(50.0), Given(Some(10.0), Some(1)), Given(Some(2024.0), Some(2024)));
      SaveBudgetOutcome(s, body, true)
        == Outcome(Response(201, OneBudget(Budget(0, "Food", 50.0, 10, 2024))), Tables(map[0 := Budget(0, "Food", 50.0, 10, 2024)], map[], 1))
  {
    var s := Tables(map[0 := Budget(0, "Food", 80.0, 10, 2024)], map[], 1);
    FindBudgetOfIntegers(s, "Food", 10, 2024);
    assert FindTriple(s, "Food", 10, 2024) == Some(0);
  }

  /** A month the cast cannot read ("4abc") answers 400 before anything is stored. */
  lemma SaveBudgetUncastableMonth(s: Tables, category: string, amount: AmountInput, parsed: Option<int>, year: BodyNumber)
    requires category != [] && !amount.Undefined? && !year.Unset?
    ensures SaveBudgetOutcome(s, BudgetBody(category, amount, Given(None, parsed), year), true)
         == Outcome(Response(400, Error("Failed to save budget")), s)
  {
  }

  // ---------------------------------------------------------- budget delete

  /** `DELETE /api/budgets/:id` on the store `s`. */
  function DeleteBudgetOutcome(s: Tables, key: Key, up: bool): Outcome {
    if !up || key.Malformed? then Outcome(Response(400, Error("Failed to delete budget")), s)
    else if key.n !in s.budgets then Outcome(Response(404, Error("Budget not found")), s)
    else Outcome(Response(200, OneBudget(s.budgets[key.n])), DeleteBudget(s, key.n))
  }

  method DeleteBudgetById(db: Database, key: Key, up: bool) returns (resp: Response)
    requires db.Valid()
    modifies db
    ensures db.Valid()
    ensures Outcome(resp, db.State()) == DeleteBudgetOutcome(old(db.State()), key, up)
  {
    if !up || key.Malformed? {
      return Response(400, Error("Failed to delete budget"));
    }
    if key.n !in db.budgets {
      return Response(404, Error("Budget not found"));
    }
    var budget := db.budgets[key.n];
    db.RemoveBudget(key.n);
    resp := Response(200, OneBudget(budget));
  }

  /**
   * Deleting a stored budget answers it and removes it alone; an unknown id
   * answers 404 and changes nothing; so a second delete of the same id is a 404.
   */
  lemma DeleteBudgetSpec(s: Tables, id: nat)
    ensures var o := DeleteBudgetOutcome(s, Id(id), true);
      && (id in s.budgets ==> o.resp == Response(200, OneBudget(s.budgets[id]))
                               && o.tables.budgets == s.budgets - {id} && o.tables.transactions == s.transactions)
      && (id !in s.budgets ==> o == Outcome(Response(404, Error("Budget not found")), s))
      && DeleteBudgetOutcome(o.tables, Id(id), true) == Outcome(Response(404, Error("Budget not found")), o.tables)
  {
  }

  // ------------------------------------------------------ transaction create

  const MissingTransactionFields := "Please provide amount, description, and date"

  /** `category || (amount > 0 ? 'Income' : 'Other')` */
  function DefaultCategory(category: string, amount: real): (r: string)
    ensures category != "" ==> r == category
    ensures category == "" ==> r == (if amount > 0.0 then "Income" else "Other")
  {
    if category != "" then category else if amount > 0.0 then "Income" else "Other"
  }

  /** A body the create handler turns away before touching the store. */
  predicate TransactionBodyIncomplete(body: TransactionBody) {
    !Truthy(body.amount) || body.description == "" || body.date.NoDate?
  }

  /**
   * `POST /api/transactions` on the store `s`. The `!amount` test sees the
   * value as sent; the record holds what `parseFloat` reads, and a `NaN` or an
   * unreadable date fails the schema.
   */
  function CreateTransactionOutcome(s: Tables, body: TransactionBody, up: bool): Outcome {
    if TransactionBodyIncomplete(body) then Outcome(Response(400, Error(MissingTransactionFields)), s)
    else if !up || body.date.BadDate? || body.amount.parsed.None? then
      Outcome(Response(400, Error("Failed to add transaction")), s)
    else
      var a := body.amount.parsed.value;
      var r := SaveNewTransaction(s, a, body.description, body.date.day, DefaultCategory(body.category, a));
      if r.Saved? then Outcome(Response(201, OneTransaction(r.doc)), r.tables)
      else Outcome(Response(400, Error("Failed to add transaction")), s)
  }

  method PostTransaction(db: Database, body: TransactionBody, up: bool) returns (resp: Response)
    requires db.Valid()
    modifies db
    ensures db.Valid()
    ensures Outcome(resp, db.State()) == CreateTransactionOutcome(old(db.State()), body, up)
  {
    if !Truthy(body.amount) || body.description == "" || body.date.NoDate? {
      return Response(400, Error(MissingTransactionFields));
    }
    if !up || body.date.BadDate? || body.amount.parsed.None? {
      return Response(400, Error("Failed to add transaction"));
    }
    var amount := body.amount.parsed.value;
    var category := DefaultCategory(body.category, amount);
    var saved := db.InsertTransaction(amount, body.description, body.date.day, category);
    if saved.Invalid? {
      return Response(400, Error("Failed to add transaction"));
    }
    resp := Response(201, OneTransaction(saved.doc));
  }

  /** A falsy amount (the number 0 included), description or date answers 400 and inserts nothing. */
  lemma CreateTransactionNeedsFields(s: Tables, body: TransactionBody, up: bool)
    requires TransactionBodyIncomplete(body)
    ensures CreateTransactionOutcome(s, body, up) == Outcome(Response(400, Error(MissingTransactionFields)), s)
  {
  }

  /**
   * A create succeeds exactly when the fields are given, the store is up, the
   * amount reads as a number, the date is a calendar day and the category,
   * after defaulting, is in the enum. It then adds one transaction under a fresh id, answers it, and
   * changes nothing else; any other answer changes nothing.
   */
  lemma CreateTransactionSpec(s: Tables, body: TransactionBody, up: bool)
    requires ValidTables(s)
    ensures var o := CreateTransactionOutcome(s, body, up);
      && (o.resp.status == 201 <==>
            && !TransactionBodyIncomplete(body) && up && body.amount.parsed.Some?
            && body.date.OnDay? && ValidDate(body.date.day)
            && DefaultCategory(body.category, body.amount.parsed.value) in TransactionCategories)
      && (o.resp.status != 201 ==> o.tables == s)
      && (o.resp.status == 201 ==>
            && o.resp.body == OneTransaction(Transaction(s.nextId, body.amount.parsed.value, body.description, body.date.day,
                                                          DefaultCategory(body.category, body.amount.parsed.value)))
            && o.tables.transactions == s.transactions[s.nextId := o.resp.body.transaction]
            && s.nextId !in s.transactions
            && o.tables.budgets == s.budgets
            && ValidTables(o.tables))
  {
    if !TransactionBodyIncomplete(body) && up && body.date.OnDay? && body.amount.parsed.Some? {
      var a := body.amount.parsed.value;
      SaveNewTransactionKeepsValid(s, a, body.description, body.date.day, DefaultCategory(body.category, a));
    }
  }

  /**
   * A number input's text "0" is truthy: it passes the `!amount` test, and a
   * record of amount 0 is stored under `Other`.
   */
  lemma CreateZeroText()
    ensures var body := TransactionBody(Sent(true, Some(0.0)), "Coffee", OnDay(Date(2024, 3, 9)), "");
      CreateTransactionOutcome(Tables(map[], map[], 0), body, true)
        == Outcome(Response(201, OneTransaction(Transaction(0, 0.0, "Coffee", Date(2024, 3, 9), "Other"))),
                   Tables(map[], map[0 := Transaction(0, 0.0, "Coffee", Date(2024, 3, 9), "Other")], 1))
  {
    assert "Other" == TransactionCategories[13];
    assert ValidDate(Date(2024, 3, 9));
  }

  // ------------------------------------------------------ transaction update

  /**
   * The field assignments of the update handler: `amount` when defined,
   * `description`, `date` and `category` when truthy. An unreadable date or
   * amount is not assigned here: its `save` fails.
   */
  function Patch(t: Transaction, body: TransactionBody): (r: Transaction)
    requires !body.date.BadDate? && !Unreadable(body.amount)
    ensures r.id == t.id
    ensures r.amount == if body.amount.Sent? then body.amount.parsed.value else t.amount
    ensures r.description == if body.description != "" then body.description else t.description
    ensures r.date == if body.date.OnDay? then body.date.day else t.date
    ensures r.category == if body.category != "" then body.category else t.category
  {
    t.(amount := if body.amount.Sent? then body.amount.parsed.value else t.amount,
       description := if body.description != "" then body.description else t.description,
       date := if body.date.OnDay? then body.date.day else t.date,
       category := if body.category != "" then body.category else t.category)
  }

  /** `PUT /api/transactions/:id` on the store `s`. */
  function UpdateTransactionOutcome(s: Tables, key: Key, body: TransactionBody, up: bool): Outcome
    requires ValidTables(s)
  {
    if !up || key.Malformed? then Outcome(Response(400, Error("Failed to update transaction")), s)
    else if key.n !in s.transactions then Outcome(Response(404, Error("Transaction not found")), s)
    else if body.date.BadDate? || Unreadable(body.amount) then
      Outcome(Response(400, Error("Failed to update transaction")), s)
    else
      var r := SaveTransaction(s, Patch(s.transactions[key.n], body));
      if r.Saved? then Outcome(Response(200, OneTransaction(r.doc)), r.tables)
      else Outcome(Response(400, Error("Failed to update transaction")), s)
  }

  method PutTransaction(db: Database, key: Key, body: TransactionBody, up: bool) returns (resp: Response)
    requires db.Valid()
    modifies db
    ensures db.Valid()
    ensures Outcome(resp, db.State()) == UpdateTransactionOutcome(old(db.State()), key, body, up)
  {
    if !up || key.Malformed? {
      return Response(400, Error("Failed to update transaction"));
    }
    if key.n !in db.transactions {
      return Response(404, Error("Transaction not found"));
    }
    var transaction := db.transactions[key.n];
    if body.date.BadDate? || Unreadable(body.amount) {
      return Response(400, Error("Failed to update transaction"));
    }
    var saved := db.UpdateTransaction(Patch(transaction, body));
    if saved.Invalid? {
      return Response(400, Error("Failed to update transaction"));
    }
    resp := Response(200, OneTransaction(saved.doc));
  }

  /**
   * An unknown id answers 404 and changes nothing. A successful update
   * replaces the amount when it is defined and the description, date and
   * category when they are non-empty, which needs a readable amount and date, keeps every other field and every
   * other record, and answers the updated transaction.
   */
  lemma UpdateTransactionSpec(s: Tables, id: nat, body: TransactionBody)
    requires ValidTables(s)
    ensures var o := UpdateTransactionOutcome(s, Id(id), body, true);
      && (id !in s.transactions ==> o == Outcome(Response(404, Error("Transaction not found")), s))
      && (o.resp.status != 200 ==> o.tables == s)
      && (o.resp.status == 200 ==>
            && id in s.transactions && o.resp.body.OneTransaction?
            && var t, t' := s.transactions[id], o.resp.body.transaction;
            && t'.id == id
            && !Unreadable(body.amount) && !body.date.BadDate?
            && t'.amount == (if body.amount.Sent? then body.amount.parsed.value else t.amount)
            && t'.description == (if body.description != "" then body.description else t.description)
            && t'.date == (if body.date.OnDay? then body.date.day else t.date)
            && t'.category == (if body.category != "" then body.category else t.category)
            && o.tables.transactions == s.transactions[id := t']
            && o.tables.budgets == s.budgets && o.tables.nextId == s.nextId
            && ValidTables(o.tables))
  {
    if id in s.transactions && !body.date.BadDate? && !Unreadable(body.amount) {
      SaveTransactionKeepsValid(s, Patch(s.transactions[id], body));
    }
  }

  // ------------------------------------------------------ transaction delete

  /** `DELETE /api/transactions/:id` on the store `s`. */
  function DeleteTransactionOutcome(s: Tables, key: Key, up: bool): Outcome {
    if !up || key.Malformed? then Outcome(Response(400, Error("Failed to delete transaction")), s)
    else if key.n !in s.transactions then Outcome(Response(404, Error("Transaction not found")), s)
    else Outcome(Response(200, OneTransaction(s.transactions[key.n])), DeleteTransaction(s, key.n))
  }

  method DeleteTransactionById(db: Database, key: Key, up: bool) returns (resp: Response)
    requires db.Valid()
    modifies db
    ensures db.Valid()
    ensures Outcome(resp, db.State()) == DeleteTransactionOutcome(old(db.State()), key, up)
  {
    if !up || key.Malformed? {
      return Response(400, Error("Failed to delete transaction"));
    }
    if key.n !in db.transactions {
      return Response(404, Error("Transaction not found"));
    }
    var transaction := db.transactions[key.n];
    db.RemoveTransaction(key.n);
    resp := Response(200, OneTransaction(transaction));
  }

  /**
   * Deleting a stored transaction answers it and removes it alone; an
   * unknown id answers 404 and changes nothing; so a second delete is a 404.
   */
  lemma DeleteTransactionSpec(s: Tables, id: nat)
    ensures var o := DeleteTransactionOutcome(s, Id(id), true);
      && (id in s.transactions ==> o.resp == Response(200, OneTransaction(s.transactions[id]))
                                    && o.tables.transactions == s.transactions - {id} && o.tables.budgets == s.budgets)
      && (id !in s.transactions ==> o == Outcome(Response(404, Error("Transaction not found")), s))
      && DeleteTransactionOutcome(o.tables, Id(id), true) == Outcome(Response(404, Error("Transaction not found")), o.tables)
  {
  }
}
