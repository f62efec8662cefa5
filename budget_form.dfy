/**
 * The budget form of client/src/components/BudgetForm.jsx: its category
 * choices, the checks `handleSubmit` makes before saving, the record it
 * sends, and what a save does to the form. The checks, the payload and the
 * form updaters are functions; the component's state and its handlers,
 * which set one piece of state after another, are a class. What
 * `fetchCategories` and `saveBudget` answer is passed in.
 */
module BudgetForm {
  import opened Wrappers
  import opened Models
  import opened Sequences

  // ------------------------------------------------------------ categories

  /** `category => category !== 'Income'` */
  function NotIncome(): string -> bool {
    (c: string) => c != "Income"
  }

  /** The fetched category list without `Income`, in the order it came. */
  function OfferedCategories(data: seq<string>): seq<string> {
    Filter(data, NotIncome())
  }

  /** A name is offered exactly when it was fetched and is not `Income`. */
  lemma OfferedMembers(data: seq<string>, c: string)
    ensures c in OfferedCategories(data) <==> c in data && c != "Income"
  {
    FilterMembership(data, NotIncome(), c);
  }

  /** From the list `GET /api/categories` answers, the form offers exactly the Budget schema's categories, in its order. */
  lemma OfferedFromServer()
    ensures OfferedCategories(TransactionCategories) == BudgetCategories
  {
    var p := NotIncome();
    var ts := TransactionCategories;
    assert ts[..13] == ts[..12] + [ts[12]];
    assert ts == ts[..13] + [ts[13]];
    assert All(ts[..12], p);
    FilterAll(ts[..12], p);
    FilterSnoc(ts[..12], ts[12], p);
    FilterSnoc(ts[..13], ts[13], p);
  }

  // ------------------------------------------------------------- the fields

  /**
   * What the amount input of type `number` holds: nothing, a number, or
   * text that is not a number.
   */
  datatype AmountText = Blank | Number(value: real) | NotNumber

  /** `formData`; month and year come from the selected period. */
  datatype FormData = FormData(category: string, amount: AmountText, month: int, year: int)

  /** `budgetData`, the record sent to `saveBudget`. */
  datatype BudgetData = BudgetData(category: string, amount: real, month: int, year: int)

  /** The verdict of the checks at the top of `handleSubmit`. */
  datatype Check = Invalid(message: string) | Valid(payload: BudgetData)

  const FillInAll := "Please fill in all fields"
  const InvalidAmount := "Please enter a valid amount"
  const SaveError := "An error occurred. Please try again."

  /** The two checks, in their order, then the payload with the amount as a number. */
  function Validate(f: FormData): Check {
    if f.category == "" || f.amount.Blank? then Invalid(FillInAll)
    else if f.amount.NotNumber? || f.amount.value < 0.0 then Invalid(InvalidAmount)
    else Valid(BudgetData(f.category, f.amount.value, f.month, f.year))
  }

  /**
   * A form without a category or without an amount is refused with the
   * first message; otherwise an amount that is not a number or is negative
   * is refused with the second; anything else is sent, with the category,
   * the amount, month and year of the form.
   */
  lemma ValidateSpec(f: FormData)
    ensures Validate(f) == Invalid(FillInAll) <==> f.category == "" || f.amount.Blank?
    ensures Validate(f) == Invalid(InvalidAmount) <==>
      f.category != "" && (f.amount.NotNumber? || (f.amount.Number? && f.amount.value < 0.0))
    ensures Validate(f).Valid? <==> f.category != "" && f.amount.Number? && f.amount.value >= 0.0
    ensures Validate(f).Valid? ==> Validate(f).payload == BudgetData(f.category, f.amount.value, f.month, f.year)
  {
  }

  /**
   * A payload that passed the checks, with an offered category and the
   * selector's month and a year from 2000, is one the Budget schema accepts.
   */
  lemma PayloadFitsSchema(f: FormData)
    requires Validate(f).Valid?
    requires f.category in OfferedCategories(TransactionCategories)
    requires 1 <= f.month <= 12 && f.year >= 2000
    ensures var p := Validate(f).payload;
      ValidBudget(Budget(0, p.category, p.amount, p.month, p.year))
  {
    OfferedFromServer();
  }

  /** `handleChange` on the category select. */
  function WithCategory(f: FormData, c: string): (r: FormData)
    ensures r.category == c && r.amount == f.amount && r.month == f.month && r.year == f.year
  {
    f.(category := c)
  }

  /** `handleChange` on the amount input. */
  function WithAmount(f: FormData, a: AmountText): (r: FormData)
    ensures r.category == f.category && r.amount == a && r.month == f.month && r.year == f.year
  {
    f.(amount := a)
  }

  /** The effect on a new selected period. */
  function WithPeriod(f: FormData, month: int, year: int): (r: FormData)
    ensures r.category == f.category && r.amount == f.amount && r.month == month && r.year == year
  {
    f.(month := month, year := year)
  }

  /** The updater after a successful save. */
  function Cleared(f: FormData): (r: FormData)
    ensures r.category == "" && r.amount == Blank && r.month == f.month && r.year == f.year
  {
    f.(category := "", amount := Blank)
  }

  /** A form cleared after a save cannot be sent again before it is filled in anew. */
  lemma ClearedRefused(f: FormData)
    ensures Validate(Cleared(f)) == Invalid(FillInAll)
  {
  }

  /** Filling in the cleared form again sends the same period with the new category and amount. */
  lemma RefillKeepsPeriod(f: FormData, c: string, amount: real)
    requires c != "" && amount >= 0.0
    ensures Validate(WithAmount(WithCategory(Cleared(f), c), Number(amount))) == Valid(BudgetData(c, amount, f.month, f.year))
  {
  }

  // ------------------------------------------------------------ the component

  /** What `saveBudget` gives back: the saved budget, nothing usable, or an error. */
  datatype SaveOutcome = Saved(result: Budget) | NoResult | Threw

  /** The state of one mounted form. */
  class Form {
    var formData: FormData
    var categories: seq<string>
    var loading: bool
    var loadingCategories: bool
    var error: string
    var success: bool

    /** The initial state for the selected period. */
    constructor(selectedMonth: int, selectedYear: int)
      ensures formData == FormData("", Blank, selectedMonth, selectedYear)
      ensures categories == [] && !loading && loadingCategories && error == "" && !success
    {
      formData := FormData("", Blank, selectedMonth, selectedYear);
      categories := [];
      loading := false;
      loadingCategories := true;
      error := "";
      success := false;
    }

    /** `loadCategories`: a fetched list is offered without `Income`, a failure leaves the list as it was. */
    method LoadCategories(fetched: Option<seq<string>>)
      modifies this
      ensures categories == (if fetched.Some? then OfferedCategories(fetched.value) else old(categories))
      ensures !loadingCategories
      ensures formData == old(formData) && loading == old(loading) && error == old(error) && success == old(success)
    {
      loadingCategories := true;
      if fetched.Some? {
        categories := OfferedCategories(fetched.value);
      }
      loadingCategories := false;
    }

    /** The effect on a new selected period. */
    method PeriodChanged(selectedMonth: int, selectedYear: int)
      modifies this
      ensures formData == WithPeriod(old(formData), selectedMonth, selectedYear)
      ensures categories == old(categories) && loading == old(loading) && loadingCategories == old(loadingCategories)
      ensures error == old(error) && success == old(success)
    {
      formData := WithPeriod(formData, selectedMonth, selectedYear);
    }

    /**
     * `handleSubmit`: a refused form only shows its message and sends
     * nothing. A sent form clears the message first; a saved budget then
     * shows the success banner, clears category and amount and is handed
     * to `onBudgetSaved`; an error shows the retry message and keeps the
     * form as it was. Loading has ended when the handler returns.
     * `outcome` is what the save answers to the record in `sent`.
     */
    method Submit(outcome: SaveOutcome) returns (sent: Option<BudgetData>, handed: Option<Budget>)
      modifies this
      ensures Validate(old(formData)).Invalid? ==>
        && sent == None && handed == None
        && error == Validate(old(formData)).message
        && formData == old(formData) && success == old(success) && loading == old(loading)
      ensures Validate(old(formData)).Valid? ==>
        && sent == Some(Validate(old(formData)).payload)
        && !loading
        && (outcome.Saved? ==> formData == Cleared(old(formData)) && success && error == "" && handed == Some(outcome.result))
        && (outcome.NoResult? ==> formData == old(formData) && success == old(success) && error == "" && handed == None)
        && (outcome.Threw? ==> formData == old(formData) && success == old(success) && error == SaveError && handed == None)
      ensures categories == old(categories) && loadingCategories == old(loadingCategories)
    {
      var check := Validate(formData);
      if check.Invalid? {
        error := check.message;
        return None, None;
      }
      error := "";
      loading := true;
      sent := Some(check.payload);
      handed := None;
      match outcome {
        case Saved(result) =>
          success := true;
          formData := Cleared(formData);
          handed := Some(result);
        case NoResult =>
        case Threw =>
          error := SaveError;
      }
      loading := false;
    }
  }
}
