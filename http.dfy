/** The JSON shapes the endpoints answer with, and the query parameters they read. */
module Http {
  import opened Wrappers
  import opened Calendar
  import opened Models

  /** One line of the budget-vs-actual report. */
  datatype Row = Row(category: string, budgetAmount: real, actualAmount: real, difference: real, percentUsed: real)

  datatype Body =
    | NoBody                                  // `res.status(200).end()`
    | Error(message: string)                  // `{ error: message }`
    | Rows(rows: seq<Row>)
    | Budgets(budgets: seq<Budget>)
    | OneBudget(budget: Budget)
    | Transactions(transactions: seq<Transaction>)
    | OneTransaction(transaction: Transaction)
    | Names(names: seq<string>)

  datatype Response = Response(status: int, body: Body)

  /**
   * A query-string parameter: missing or empty (falsy), a string `parseInt`
   * reads as the integer `n`, or a non-empty string it reads as `NaN`.
   */
  datatype Param = Absent | Parsed(n: int) | Unparsable

  /** A `:id` route parameter: a well-formed id, or a string that cannot be cast to one. */
  datatype Key = Id(n: nat) | Malformed

  /** A `date` field: missing or empty, a parsed calendar day, or a string `new Date` cannot read. */
  datatype DateInput = NoDate | OnDay(day: Date) | BadDate

  /**
   * A numeric field of a JSON request body as the budget save reads it:
   * missing or falsy (`undefined`, `null`, `0`, `""`), or a value with two
   * readings: what the store's `Number` cast makes of it in a query (`None`
   * when the cast throws), and what `parseInt` reads from it (`None` for
   * `NaN`). The JSON number 4.5 is `Given(Some(4.5), Some(4))`, the string
   * "1e1" is `Given(Some(10.0), Some(1))` and "4abc" is `Given(None, Some(4))`.
   */
  datatype BodyNumber = Unset | Given(cast: Option<real>, parsed: Option<int>)

  /** A value both readings agree on: an integer sent as a number or as plain decimal digits. */
  predicate Plain(x: BodyNumber) {
    x.Given? && x.cast.Some? && x.parsed.Some? && x.cast.value == x.parsed.value as real
  }

  /**
   * The `amount` of a request body: undefined, or a sent value with its
   * JavaScript truthiness and what `parseFloat` reads from it (`None` for
   * `NaN`). The number 0, `""` and `null` are falsy; a number input's text
   * "0" is truthy and reads as 0; the text "abc" is truthy and reads as `NaN`.
   */
  datatype AmountInput = Undefined | Sent(truthy: bool, parsed: Option<real>)

  /** An amount sent as a JSON number: truthy unless it is 0, and read as itself. */
  function Number(x: real): (r: AmountInput)
    ensures r.Sent? && r.parsed == Some(x) && (r.truthy <==> x != 0.0)
  {
    Sent(x != 0.0, Some(x))
  }

  /** The amount passes the create handler's `!amount` test. */
  predicate Truthy(x: AmountInput) {
    x.Sent? && x.truthy
  }

  /** The amount is defined but `parseFloat` reads `NaN` from it, which the schema refuses. */
  predicate Unreadable(x: AmountInput) {
    x.Sent? && x.parsed.None?
  }

  /** The body of `POST /api/budgets`. An empty `category` is a missing one. */
  datatype BudgetBody = BudgetBody(category: string, amount: AmountInput, month: BodyNumber, year: BodyNumber)

  /** The body of `POST /api/transactions` and `PUT /api/transactions/:id`. Empty strings are missing fields. */
  datatype TransactionBody = TransactionBody(amount: AmountInput, description: string, date: DateInput, category: string)

  /** Both `month` and `year` pass the handlers' `!month || !year` test. */
  predicate BothGiven(month: Param, year: Param) {
    !month.Absent? && !year.Absent?
  }
}
