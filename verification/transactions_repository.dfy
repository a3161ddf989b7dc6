/**
 * The records and transfer models of the transaction store: the income and
 * expense documents as Kotlin reads them back (with their defaults), the
 * create/update models the screens send, and the ledger entries and totals
 * the home screen shows.
 */
module TransactionsRepository {
  import opened Common
  import opened Firestore
  import opened JobRepository

  datatype IncomeCreateModel = IncomeCreateModel(
    jobId: string,
    userId: string,
    season: int,
    baseEarned: real,
    tipsEarned: real,
    hoursWorked: int,
    date: int)

  datatype ExpenseCreateModel = ExpenseCreateModel(
    userId: string,
    season: int,
    amount: real,
    tag: string,
    description: string,
    date: int)

  /** An expense edit: no season and no user, so an edit cannot move an expense. */
  datatype ExpenseUpdateModel = ExpenseUpdateModel(amount: real, tag: string, description: string, date: int)

  /** An income edit: no season and no user. */
  datatype IncomeUpdateModel = IncomeUpdateModel(jobId: string, baseEarned: real, tipsEarned: real, hoursWorked: int, date: int)

  /** `TransactionType.Income` and `TransactionType.Expense`. */
  datatype TransactionType = IncomeTransaction | ExpenseTransaction

  /** One line of the ledger. */
  datatype TransactionGetModel = TransactionGetModel(
    uid: string,
    transactionType: TransactionType,
    totalAmount: real,
    date: int,
    description: string)

  datatype ExpenseGetModel = ExpenseGetModel(
    id: string,
    amount: real,
    date: int,
    description: string,
    season: int,
    tag: string,
    userId: string)

  datatype IncomeGetModel = IncomeGetModel(
    id: string,
    job: JobGetModel,
    userId: string,
    season: int,
    baseEarned: real,
    tipsEarned: real,
    hoursWorked: int,
    date: int)

  /** The ledger screen's data: the two totals and the merged entries. */
  datatype TotalTransactionsModel = TotalTransactionsModel(
    earnings: real,
    expenses: real,
    transactions: seq<TransactionGetModel>)

  /** The stored expense record. */
  datatype Expense = Expense(amount: real, date: int, description: string, season: int, tag: string, user: Option<Path>)

  /** The stored income record. */
  datatype Income = Income(
    job: Option<Path>,
    user: Option<Path>,
    season: int,
    baseEarned: real,
    tipsEarned: real,
    hoursWorked: int,
    date: int)

  /** The document written for an expense record; a null user is absent. */
  function ExpenseFields(x: Expense): ExpenseDoc {
    ExpenseDoc(Some(x.amount), Some(x.date), Some(x.description), Some(x.season), Some(x.tag), x.user)
  }

  /** The document written for an income record; null references are absent. */
  function IncomeFields(x: Income): IncomeDoc {
    IncomeDoc(x.job, x.user, Some(x.season), Some(x.baseEarned), Some(x.tipsEarned), Some(x.hoursWorked), Some(x.date))
  }

  /**
   * `toObject<Expense>()`: a missing amount reads as 0, a missing date as now,
   * missing texts as "", a missing season as the current year. The record
   * reproduces the document exactly when none of those fields was missing.
   */
  function ToExpense(d: ExpenseDoc, now: int, currentYear: int): (r: Expense)
    ensures ExpenseFields(r) == d <==>
      d.amount.Some? && d.date.Some? && d.description.Some? && d.season.Some? && d.tag.Some?
  {
    Expense(d.amount.GetOr(0.0), d.date.GetOr(now), d.description.GetOr(""), d.season.GetOr(currentYear),
      d.tag.GetOr(""), d.user)
  }

  /** `toObject<Income>()`, with the same reading of missing fields. */
  function ToIncome(d: IncomeDoc, now: int, currentYear: int): (r: Income)
    ensures IncomeFields(r) == d <==>
      d.season.Some? && d.baseEarned.Some? && d.tipsEarned.Some? && d.hoursWorked.Some? && d.date.Some?
  {
    Income(d.job, d.user, d.season.GetOr(currentYear), d.baseEarned.GetOr(0.0), d.tipsEarned.GetOr(0.0),
      d.hoursWorked.GetOr(0), d.date.GetOr(now))
  }

  const EmptyExpenseDoc: ExpenseDoc := ExpenseDoc(None, None, None, None, None, None)
  const EmptyIncomeDoc: IncomeDoc := IncomeDoc(None, None, None, None, None, None, None)

  /** The default records: zero amounts, empty texts, no references, today, this year. */
  lemma Defaults(now: int, currentYear: int)
    ensures ToExpense(EmptyExpenseDoc, now, currentYear) == Expense(0.0, now, "", currentYear, "", None)
    ensures ToIncome(EmptyIncomeDoc, now, currentYear) == Income(None, None, currentYear, 0.0, 0.0, 0, now)
  {
  }

  /** Stored records read back as themselves. */
  lemma RecordsRoundTrip(x: Expense, y: Income, now: int, currentYear: int)
    ensures ToExpense(ExpenseFields(x), now, currentYear) == x
    ensures ToIncome(IncomeFields(y), now, currentYear) == y
  {
  }
}
