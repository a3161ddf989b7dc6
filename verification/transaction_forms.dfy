/**
 * The expense and income forms as both add-transaction screens keep them
 * (the current one and the older `feature/add` one share the code): the
 * validators, the form states, the edit events, and the rules an edit and
 * a submit apply. The income form is generic in the job type, which
 * differs between the two screens.
 */
module TransactionForms {
  import opened Common
  import opened Text
  import opened Forms

  /** `expenseTags`; a fresh expense form starts on the first. */
  const ExpenseTags: seq<string> := ["Work", "Travel", "Personal"]

  const DescriptionEmpty: string := "Description cannot be empty"
  const JobMissing: string := "Job must be selected"

  /** `validateAmount`, `validateBaseEarned`, `validateTipsEarned`: the text must parse as a float. */
  function ValidateFloat(parse: FloatParser, text: string): (r: ValidationResult)
    ensures r.isSuccess <==> parse(text).Some?
    ensures r.isSuccess <==> r.message.None?
    ensures !r.isSuccess ==> r.message == Some(IncorrectFormat)
  {
    ParsedCheck(parse(text).Some?)
  }

  /** `validateHoursWorked`: the text must parse as an Int. */
  function ValidateHoursWorked(text: string): (r: ValidationResult)
    ensures r.isSuccess <==> ToIntOrNull(text).Some?
    ensures r.isSuccess <==> r.message.None?
    ensures !r.isSuccess ==> r.message == Some(IncorrectFormat)
  {
    ParsedCheck(ToIntOrNull(text).Some?)
  }

  /** `validateDescription`: fails exactly on the empty description. */
  function ValidateDescription(description: string): (r: ValidationResult)
    ensures r.isSuccess <==> description != ""
    ensures r.isSuccess <==> r.message.None?
    ensures !r.isSuccess ==> r.message == Some(DescriptionEmpty)
  {
    if description == "" then ValidationResult(false, Some(DescriptionEmpty)) else ValidationResult(true, None)
  }

  /** `validateJob`: fails exactly when no job is selected. */
  function ValidateJob<J>(job: Option<J>): (r: ValidationResult)
    ensures r.isSuccess <==> job.Some?
    ensures r.isSuccess <==> r.message.None?
    ensures !r.isSuccess ==> r.message == Some(JobMissing)
  {
    if job.None? then ValidationResult(false, Some(JobMissing)) else ValidationResult(true, None)
  }

  /** `AddExpenseUISate`. */
  datatype ExpenseForm = ExpenseForm(
    amount: string,
    date: int,
    tag: string,
    description: string,
    amountError: Option<string>,
    descriptionError: Option<string>)

  /** `AddIncomeUISate`. */
  datatype IncomeForm<J> = IncomeForm(
    job: Option<J>,
    baseEarned: string,
    tipsEarned: string,
    date: int,
    totalHoursWorked: string,
    jobError: Option<string>,
    baseEarnedError: Option<string>,
    tipsEarnedError: Option<string>,
    totalHoursWorkedError: Option<string>)

  /** The form `AddExpenseUISate()` builds on `today`: empty texts, the first tag, no errors. */
  function DefaultExpenseForm(today: int): ExpenseForm {
    ExpenseForm("", today, ExpenseTags[0], "", None, None)
  }

  /** The form `AddIncomeUISate()` builds on `today`: no job, empty texts, no errors. */
  function DefaultIncomeForm<J>(today: int): IncomeForm<J> {
    IncomeForm(None, "", "", today, "", None, None, None, None)
  }

  /** `AddExpenseFormEvent`; a picked date arrives already converted to a day. */
  datatype ExpenseEvent =
    | AmountChanged(amount: string)
    | DescriptionChanged(description: string)
    | TagChanged(tag: string)
    | ExpenseDateChanged(date: int)
    | ExpenseCancel
    | ExpenseSubmit

  /** `AddIncomeFormEvent`. */
  datatype IncomeEvent<J> =
    | JobChanged(job: J)
    | BaseEarnedChanged(baseEarned: string)
    | TipsEarnedChanged(tipsEarned: string)
    | TotalHoursWorkedChanged(totalHoursWorked: string)
    | IncomeDateChanged(date: int)
    | IncomeCancel
    | IncomeSubmit

  /** Every error the expense form shows is the failure of its validator on the current value. */
  predicate ExpenseExplained(s: ExpenseForm, parse: FloatParser) {
    && Explains(s.amountError, ValidateFloat(parse, s.amount))
    && Explains(s.descriptionError, ValidateDescription(s.description))
  }

  /** Every error the income form shows is the failure of its validator on the current value. */
  predicate IncomeExplained<J>(s: IncomeForm<J>, parse: FloatParser) {
    && Explains(s.jobError, ValidateJob(s.job))
    && Explains(s.baseEarnedError, ValidateFloat(parse, s.baseEarned))
    && Explains(s.tipsEarnedError, ValidateFloat(parse, s.tipsEarned))
    && Explains(s.totalHoursWorkedError, ValidateHoursWorked(s.totalHoursWorked))
  }

  predicate ExpenseValid(s: ExpenseForm, parse: FloatParser) {
    ValidateFloat(parse, s.amount).isSuccess && ValidateDescription(s.description).isSuccess
  }

  predicate IncomeValid<J>(s: IncomeForm<J>, parse: FloatParser) {
    && ValidateJob(s.job).isSuccess
    && ValidateFloat(parse, s.baseEarned).isSuccess
    && ValidateFloat(parse, s.tipsEarned).isSuccess
    && ValidateHoursWorked(s.totalHoursWorked).isSuccess
  }

  /** The expense form after an edit event (anything but submit). */
  function ExpenseAfterEdit(s: ExpenseForm, e: ExpenseEvent, parse: FloatParser, today: int): ExpenseForm
    requires !e.ExpenseSubmit?
  {
    match e
    case AmountChanged(a) =>
      s.(amount := a, amountError := ErrorAfterChange(s.amountError, ValidateFloat(parse, a).isSuccess))
    case DescriptionChanged(d) =>
      s.(description := d, descriptionError := ErrorAfterChange(s.descriptionError, ValidateDescription(d).isSuccess))
    case TagChanged(t) => s.(tag := t)
    case ExpenseDateChanged(d) => s.(date := d)
    case ExpenseCancel => DefaultExpenseForm(today)
  }

  /** The income form after an edit event (anything but submit). */
  function IncomeAfterEdit<J>(s: IncomeForm<J>, e: IncomeEvent<J>, parse: FloatParser, today: int): IncomeForm<J>
    requires !e.IncomeSubmit?
  {
    match e
    case JobChanged(j) =>
      s.(job := Some(j), jobError := ErrorAfterChange(s.jobError, ValidateJob(Some(j)).isSuccess))
    case BaseEarnedChanged(b) =>
      s.(baseEarned := b, baseEarnedError := ErrorAfterChange(s.baseEarnedError, ValidateFloat(parse, b).isSuccess))
    case TipsEarnedChanged(t) =>
      s.(tipsEarned := t, tipsEarnedError := ErrorAfterChange(s.tipsEarnedError, ValidateFloat(parse, t).isSuccess))
    case TotalHoursWorkedChanged(h) =>
      s.(totalHoursWorked := h,
         totalHoursWorkedError := ErrorAfterChange(s.totalHoursWorkedError, ValidateHoursWorked(h).isSuccess))
    case IncomeDateChanged(d) => s.(date := d)
    case IncomeCancel => DefaultIncomeForm(today)
  }

  /** The expense form after submit's validation pass: each failing field shows its message. */
  function ExpenseChecked(s: ExpenseForm, parse: FloatParser): ExpenseForm {
    s.(amountError := ErrorAfterSubmit(s.amountError, ValidateFloat(parse, s.amount)),
       descriptionError := ErrorAfterSubmit(s.descriptionError, ValidateDescription(s.description)))
  }

  /** The income form after submit's validation pass: each failing field shows its message. */
  function IncomeChecked<J>(s: IncomeForm<J>, parse: FloatParser): IncomeForm<J> {
    s.(jobError := ErrorAfterSubmit(s.jobError, ValidateJob(s.job)),
       baseEarnedError := ErrorAfterSubmit(s.baseEarnedError, ValidateFloat(parse, s.baseEarned)),
       tipsEarnedError := ErrorAfterSubmit(s.tipsEarnedError, ValidateFloat(parse, s.tipsEarned)),
       totalHoursWorkedError := ErrorAfterSubmit(s.totalHoursWorkedError, ValidateHoursWorked(s.totalHoursWorked)))
  }

  /** Edits keep every expense error explained by the current value. */
  lemma ExpenseEditKeepsExplained(s: ExpenseForm, e: ExpenseEvent, parse: FloatParser, today: int)
    requires ExpenseExplained(s, parse) && !e.ExpenseSubmit?
    ensures ExpenseExplained(ExpenseAfterEdit(s, e, parse, today), parse)
  {
  }

  /** Edits keep every income error explained by the current value. */
  lemma IncomeEditKeepsExplained<J>(s: IncomeForm<J>, e: IncomeEvent<J>, parse: FloatParser, today: int)
    requires IncomeExplained(s, parse) && !e.IncomeSubmit?
    ensures IncomeExplained(IncomeAfterEdit(s, e, parse, today), parse)
  {
  }

  /**
   * An edit stores the new value and clears that field's error exactly when
   * the value validates; an invalid value leaves the previous error as it was.
   */
  lemma AmountChangeClearsOnlyWhenValid(s: ExpenseForm, a: string, parse: FloatParser, today: int)
    ensures var t := ExpenseAfterEdit(s, AmountChanged(a), parse, today);
            && t.amount == a
            && (parse(a).Some? ==> t.amountError.None?)
            && (parse(a).None? ==> t.amountError == s.amountError)
            && t.descriptionError == s.descriptionError
  {
  }

  /**
   * After submit's checks each field shows an error exactly when it fails,
   * and that error is its validator's message; the form is valid exactly
   * when no error shows.
   */
  lemma ExpenseCheckedShowsFailures(s: ExpenseForm, parse: FloatParser)
    requires ExpenseExplained(s, parse)
    ensures var t := ExpenseChecked(s, parse);
            && ExpenseExplained(t, parse)
            && (t.amountError.Some? <==> parse(s.amount).None?)
            && (t.descriptionError.Some? <==> s.description == "")
            && (ExpenseValid(s, parse) <==> t.amountError.None? && t.descriptionError.None?)
  {
  }

  /** The income counterpart: all four checks run, each failing field shows its message. */
  lemma IncomeCheckedShowsFailures<J>(s: IncomeForm<J>, parse: FloatParser)
    requires IncomeExplained(s, parse)
    ensures var t := IncomeChecked(s, parse);
            && IncomeExplained(t, parse)
            && (t.jobError.Some? <==> s.job.None?)
            && (t.baseEarnedError.Some? <==> parse(s.baseEarned).None?)
            && (t.tipsEarnedError.Some? <==> parse(s.tipsEarned).None?)
            && (t.totalHoursWorkedError.Some? <==> ToIntOrNull(s.totalHoursWorked).None?)
            && (IncomeValid(s, parse) <==>
                  t.jobError.None? && t.baseEarnedError.None? && t.tipsEarnedError.None? && t.totalHoursWorkedError.None?)
  {
  }
}
