/**
 * The two record kinds of the document store and their schemas
 * (server/models/Budget.js, server/models/Transaction.js).
 * Ids are naturals handed out by the store; amounts are exact decimals.
 */
module Models {
  import opened Calendar

  /** The category list of `GET /api/categories`, which is also the Transaction schema's enum. */
  const TransactionCategories: seq<string> := [
    "Housing", "Transportation", "Food", "Utilities", "Insurance",
    "Healthcare", "Savings", "Personal", "Entertainment", "Education",
    "Clothing", "Gifts", "Income", "Other"
  ]

  /** The Budget schema's category enum: the same names without `Income`. */
  const BudgetCategories: seq<string> := [
    "Housing", "Transportation", "Food", "Utilities", "Insurance",
    "Healthcare", "Savings", "Personal", "Entertainment", "Education",
    "Clothing", "Gifts", "Other"
  ]

  /** A monthly spending limit for one category. `id` is assigned by the store, never by a caller. */
  datatype Budget = Budget(id: nat, category: string, amount: real, month: int, year: int)

  /** Money in (amount > 0) or out (amount < 0). An empty `category` stands for a missing one. */
  datatype Transaction = Transaction(id: nat, amount: real, description: string, date: Date, category: string)

  /** What the Budget schema accepts: an enum category, a non-negative amount, month 1..12, year from 2000. */
  predicate ValidBudget(b: Budget) {
    && b.category in BudgetCategories
    && b.amount >= 0.0
    && 1 <= b.month <= 12
    && b.year >= 2000
  }

  /** What the Transaction schema accepts: required description and date, an enum category. */
  predicate ValidTransaction(t: Transaction) {
    && t.description != ""
    && ValidDate(t.date)
    && t.category in TransactionCategories
  }

  /** The query `{ month, year }` on budgets. */
  function InPeriod(month: int, year: int): Budget -> bool {
    (b: Budget) => b.month == month && b.year == year
  }

  /** Two budgets collide on the schema's unique (category, month, year) index. */
  predicate SameTriple(a: Budget, b: Budget) {
    a.category == b.category && a.month == b.month && a.year == b.year
  }

  lemma CategoryEnums()
    ensures |TransactionCategories| == 14 && |BudgetCategories| == 13
    ensures TransactionCategories[12] == "Income" && TransactionCategories[13] == "Other"
    ensures "Income" !in BudgetCategories
    ensures forall c :: c in BudgetCategories <==> c in TransactionCategories && c != "Income"
  {
  }

  /** No valid budget is ever an `Income` budget. */
  lemma ValidBudgetNotIncome(b: Budget)
    requires ValidBudget(b)
    ensures b.category != "Income" && b.category != ""
  {
  }
}
