/**
 * The route handlers of server/index.js where they differ from
 * api/index.js: storage errors answer 500 instead of an empty list, a
 * report request without month or year answers 400, and the update of a
 * transaction reads a `category` its destructuring never declared. The
 * categories, budget save, budget delete, transaction create and
 * transaction delete handlers of server/index.js are the ones of module
 * `Api`.
 */
module Server {
  import opened Wrappers
  import Calendar
  import opened Models
  import opened Http
  import opened Store
  import opened BudgetVsActual
  import Api

  /** `GET /api/budgets`: a failure answers 500. */
  method GetBudgets(db: Database, month: Param, year: Param, up: bool) returns (resp: Response)
    ensures !up || Api.QueryFails(month, year) ==> resp == Response(500, Error("Failed to fetch budgets"))
    ensures up && !Api.QueryFails(month, year) ==> resp == Response(200, Budgets(Api.ListedBudgets(db.State(), month, year)))
  {
    if !up || Api.QueryFails(month, year) {
      return Response(500, Error("Failed to fetch budgets"));
    }
    resp := Api.GetBudgets(db, month, year, up);
  }

  /** `GET /api/budget-vs-actual`: missing parameters answer 400 and failures 500. */
  method GetBudgetVsActual(db: Database, month: Param, year: Param, up: bool) returns (resp: Response)
    ensures !BothGiven(month, year) ==> resp == Response(400, Error("Please provide month and year"))
    ensures BothGiven(month, year) && (!up || month.Unparsable? || year.Unparsable?) ==>
      resp == Response(500, Error("Failed to fetch budget vs actual data"))
    ensures month.Parsed? && year.Parsed? && up ==> resp == Response(200, Rows(Api.StoreReport(db.State(), month.n, year.n)))
  {
    if !BothGiven(month, year) {
      return Response(400, Error("Please provide month and year"));
    }
    if !up || month.Unparsable? || year.Unparsable? {
      return Response(500, Error("Failed to fetch budget vs actual data"));
    }
    resp := Api.GetBudgetVsActual(db, month, year, up);
  }

  /** `GET /api/transactions`: a failure answers 500. */
  method GetTransactions(db: Database, up: bool) returns (resp: Response)
    ensures !up ==> resp == Response(500, Error("Failed to fetch transactions"))
    ensures up ==> resp == Response(200, Transactions(Api.ListedTransactions(db.State())))
  {
    if !up {
      return Response(500, Error("Failed to fetch transactions"));
    }
    resp := Api.GetTransactions(db, up);
  }

  /**
   * `PUT /api/transactions/:id` as written: once the transaction is found,
   * the assignment `transaction.category = category || ...` evaluates an
   * undeclared name, so the handler throws before `save` and answers from
   * its `catch`. The fields already assigned live only in the fetched
   * document, which is discarded.
   */
  function UpdateTransactionOutcome(s: Tables, key: Key, body: TransactionBody, up: bool): Api.Outcome {
    if !up || key.Malformed? then Api.Outcome(Response(400, Error("Failed to update transaction")), s)
    else if key.n !in s.transactions then Api.Outcome(Response(404, Error("Transaction not found")), s)
    else Api.Outcome(Response(400, Error("Failed to update transaction")), s)
  }

  /** The handler never changes the store, so it needs no `modifies` clause. */
  method PutTransaction(db: Database, key: Key, body: TransactionBody, up: bool) returns (resp: Response)
    ensures Api.Outcome(resp, db.State()) == UpdateTransactionOutcome(db.State(), key, body, up)
  {
    if !up || key.Malformed? {
      return Response(400, Error("Failed to update transaction"));
    }
    if key.n !in db.transactions {
      return Response(404, Error("Transaction not found"));
    }
    // The amount, description and date assignments reach only the fetched copy, which is dropped.
    resp := Response(400, Error("Failed to update transaction"));
  }

  /**
   * No update ever succeeds: every answer is 400 or 404, the store is
   * never changed, and an unknown id still answers 404.
   */
  lemma UpdateNeverSaves(s: Tables, key: Key, body: TransactionBody, up: bool)
    ensures var o := UpdateTransactionOutcome(s, key, body, up);
      && o.tables == s
      && (o.resp.status == 400 || o.resp.status == 404)
      && (o.resp.status == 404 <==> up && key.Id? && key.n !in s.transactions)
  {
  }

  /**
   * Wherever the update of api/index.js succeeds, the one of
   * server/index.js answers 400 and leaves the transaction as it was.
   */
  lemma UpdateDiffersFromApi(s: Tables, id: nat, body: TransactionBody)
    requires ValidTables(s)
    requires Api.UpdateTransactionOutcome(s, Id(id), body, true).resp.status == 200
    ensures UpdateTransactionOutcome(s, Id(id), body, true) == Api.Outcome(Response(400, Error("Failed to update transaction")), s)
  {
    Api.UpdateTransactionSpec(s, id, body);
  }

  /**
   * A concrete case: one stored transaction and a request that renames it.
   * api/index.js stores the new description, server/index.js does not.
   */
  lemma RenameIsLost()
    ensures var t := Transaction(0, -12.5, "Lunch", Calendar.Date(2023, 4, 3), "Food");
      var s := Tables(map[], map[0 := t], 1);
      var body := TransactionBody(Undefined, "Dinner", NoDate, "");
      && Api.UpdateTransactionOutcome(s, Id(0), body, true).tables.transactions[0].description == "Dinner"
      && UpdateTransactionOutcome(s, Id(0), body, true).tables.transactions[0].description == "Lunch"
  {
    var t := Transaction(0, -12.5, "Lunch", Calendar.Date(2023, 4, 3), "Food");
    var s := Tables(map[], map[0 := t], 1);
    var body := TransactionBody(Undefined, "Dinner", NoDate, "");
    assert ValidTransaction(t) by { Models.CategoryEnums(); assert t.category == TransactionCategories[2]; }
    var renamed := t.(description := "Dinner");
    assert Api.Patch(t, body) == renamed;
    assert ValidTransaction(renamed);
    assert ValidTables(s);
  }
}
