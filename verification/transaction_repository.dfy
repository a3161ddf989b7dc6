/**
 * `TransactionRepositoryImpl`: adding, reading, editing and deleting single
 * incomes and expenses by id, and how those writes show up in the ledger.
 */
module TransactionRepository {
  import opened Common
  import opened Firestore
  import opened JobRepository
  import opened TransactionsRepository
  import opened Ledger

  /** The record `addIncome` writes: job `users/{userId}/jobs/{jobId}`, user `users/{userId}`. */
  function NewIncome(m: IncomeCreateModel): Income {
    Income(Some(UserJobPath(m.userId, m.jobId)), Some(UserPath(m.userId)), m.season, m.baseEarned, m.tipsEarned,
      m.hoursWorked, m.date)
  }

  /** The record `addExpense` writes, with user `users/{userId}`. */
  function NewExpense(m: ExpenseCreateModel): Expense {
    Expense(m.amount, m.date, m.description, m.season, m.tag, Some(UserPath(m.userId)))
  }

  /** `updateExpense` overwrites amount, date, description and tag. */
  function UpdatedExpense(d: ExpenseDoc, m: ExpenseUpdateModel): ExpenseDoc {
    d.(amount := Some(m.amount), date := Some(m.date), description := Some(m.description), tag := Some(m.tag))
  }

  /**
   * `updateIncome` overwrites job, baseEarned, tipsEarned, hoursWorked and date.
   * The new job reference is `jobs/{jobId}` in the top-level collection.
   */
  function UpdatedIncome(d: IncomeDoc, m: IncomeUpdateModel): IncomeDoc {
    d.(job := Some(TopJobPath(m.jobId)), baseEarned := Some(m.baseEarned), tipsEarned := Some(m.tipsEarned),
      hoursWorked := Some(m.hoursWorked), date := Some(m.date))
  }

  /**
   * `getExpense(id)`: nothing when the document is absent or has no user
   * reference (the failing `user!!` is caught); otherwise the record with its defaults.
   */
  function GetExpense(expenses: map<string, ExpenseDoc>, id: string, now: int, currentYear: int): (r: Option<ExpenseGetModel>)
    ensures r.Some? <==> id in expenses && expenses[id].user.Some?
    ensures r.Some? ==> r.value.id == id && r.value.userId == PathId(expenses[id].user.value)
  {
    if id !in expenses then None
    else
      var x := ToExpense(expenses[id], now, currentYear);
      if x.user.None? then None
      else Some(ExpenseGetModel(id, x.amount, x.date, x.description, x.season, x.tag, PathId(x.user.value)))
  }

  /**
   * `getIncome(id)`: needs the job and user references and then looks the job
   * up by the two ids in `users/{userId}/jobs/{jobId}`.
   */
  function GetIncome(incomes: map<string, IncomeDoc>, userJobs: map<string, map<string, JobDoc>>,
    employers: map<string, EmployerDoc>, id: string, now: int, currentYear: int): (r: Option<IncomeGetModel>)
    ensures r.Some? <==>
      id in incomes && incomes[id].job.Some? && incomes[id].user.Some? &&
      GetJob(userJobs, employers, PathId(incomes[id].user.value), PathId(incomes[id].job.value), now, currentYear).Some?
    ensures r.Some? ==> r.value.id == id && r.value.userId == PathId(incomes[id].user.value)
    ensures r.Some? ==>
      Some(r.value.job) == GetJob(userJobs, employers, r.value.userId, PathId(incomes[id].job.value), now, currentYear)
  {
    if id !in incomes then None
    else
      var d := incomes[id];
      if d.job.None? || d.user.None? then None
      else
        match GetJob(userJobs, employers, PathId(d.user.value), PathId(d.job.value), now, currentYear)
        case None => None
        case Some(job) =>
          var x := ToIncome(d, now, currentYear);
          Some(IncomeGetModel(id, job, PathId(d.user.value), x.season, x.baseEarned, x.tipsEarned, x.hoursWorked, x.date))
  }

  /** An added expense reads back with the submitted values. */
  lemma AddExpenseThenGet(expenses: map<string, ExpenseDoc>, m: ExpenseCreateModel, newId: string, now: int, currentYear: int)
    ensures GetExpense(expenses[newId := ExpenseFields(NewExpense(m))], newId, now, currentYear) ==
      Some(ExpenseGetModel(newId, m.amount, m.date, m.description, m.season, m.tag, m.userId))
  {
  }

  /** An added income reads back with the submitted values once its job resolves. */
  lemma AddIncomeThenGet(incomes: map<string, IncomeDoc>, userJobs: map<string, map<string, JobDoc>>,
    employers: map<string, EmployerDoc>, m: IncomeCreateModel, newId: string, now: int, currentYear: int)
    ensures GetIncome(incomes[newId := IncomeFields(NewIncome(m))], userJobs, employers, newId, now, currentYear) ==
      match GetJob(userJobs, employers, m.userId, m.jobId, now, currentYear)
      case None => None
      case Some(job) => Some(IncomeGetModel(newId, job, m.userId, m.season, m.baseEarned, m.tipsEarned, m.hoursWorked, m.date))
  {
  }

  /** After `updateExpense`, the expense reads back with the new values and its old season and user. */
  lemma UpdateExpenseThenGet(expenses: map<string, ExpenseDoc>, id: string, m: ExpenseUpdateModel, now: int, currentYear: int)
    requires GetExpense(expenses, id, now, currentYear).Some?
    ensures GetExpense(expenses[id := UpdatedExpense(expenses[id], m)], id, now, currentYear) ==
      Some(GetExpense(expenses, id, now, currentYear).value.(amount := m.amount, date := m.date,
        description := m.description, tag := m.tag))
  {
  }

  /**
   * After `updateIncome`, `getIncome` still finds the job, because it looks it
   * up by id under the user, and keeps the stored season and user.
   */
  lemma UpdateIncomeThenGet(incomes: map<string, IncomeDoc>, userJobs: map<string, map<string, JobDoc>>,
    employers: map<string, EmployerDoc>, id: string, m: IncomeUpdateModel, now: int, currentYear: int)
    requires id in incomes && incomes[id].user.Some?
    requires GetJob(userJobs, employers, PathId(incomes[id].user.value), m.jobId, now, currentYear).Some?
    ensures GetIncome(incomes[id := UpdatedIncome(incomes[id], m)], userJobs, employers, id, now, currentYear) ==
      Some(IncomeGetModel(id, GetJob(userJobs, employers, PathId(incomes[id].user.value), m.jobId, now, currentYear).value,
        PathId(incomes[id].user.value), incomes[id].season.GetOr(currentYear), m.baseEarned, m.tipsEarned,
        m.hoursWorked, m.date))
  {
  }

  /**
   * The ledger, unlike `getIncome`, follows the stored reference itself: once
   * `updateIncome` points it at `jobs/{jobId}` and no such top-level document
   * exists, the entry reads "Salary from null" even though the user's job exists.
   */
  lemma {:induction false} UpdatedIncomeLosesPosition(d: IncomeDoc, m: IncomeUpdateModel, id: string,
    topJobs: map<string, JobDoc>, userJobs: map<string, map<string, JobDoc>>)
    requires m.jobId !in topJobs
    ensures ToIncomeTransaction(Entry(id, UpdatedIncome(d, m)), topJobs, userJobs).value.description == "Salary from null"
  {
    var p := TopJobPath(m.jobId);
    assert JobAt(topJobs, userJobs, p) == None;
  }

  /** Before the update, an income added for a job with a position shows that position. */
  lemma {:induction false} AddedIncomeShowsPosition(m: IncomeCreateModel, id: string,
    topJobs: map<string, JobDoc>, userJobs: map<string, map<string, JobDoc>>, position: string)
    requires m.jobId in JobsOf(userJobs, m.userId) && JobsOf(userJobs, m.userId)[m.jobId].position == Some(position)
    ensures ToIncomeTransaction(Entry(id, IncomeFields(NewIncome(m))), topJobs, userJobs).value.description ==
      "Salary from " + position
  {
    var p := UserJobPath(m.userId, m.jobId);
    assert JobAt(topJobs, userJobs, p) == Some(JobsOf(userJobs, m.userId)[m.jobId]);
  }

  /** A record that is not in the collection is not listed, whatever the store order. */
  lemma {:induction false} AbsentExpenseNotListed(userId: string, incomesSnap: seq<Entry<IncomeDoc>>,
    expensesSnap: seq<Entry<ExpenseDoc>>, expenses: map<string, ExpenseDoc>, topJobs: map<string, JobDoc>,
    userJobs: map<string, map<string, JobDoc>>, id: string)
    requires Enumerates(expensesSnap, expenses) && id !in expenses
    ensures !ListedAs(GetAllTransactions(userId, incomesSnap, expensesSnap, topJobs, userJobs).transactions, id, ExpenseTransaction)
  {
    var r := GetAllTransactions(userId, incomesSnap, expensesSnap, topJobs, userJobs);
    forall t | t in r.transactions && t.transactionType == ExpenseTransaction
      ensures t.uid != id
    {
      ListedEntries(userId, incomesSnap, expensesSnap, topJobs, userJobs, t);
      assert t !in IncomeTransactions(UserIncomes(incomesSnap, userId), topJobs, userJobs);
      var x :| x in UserExpenses(expensesSnap, userId) && ToExpenseTransaction(x) == Some(t);
      assert x in expensesSnap;
    }
  }

  lemma {:induction false} AbsentIncomeNotListed(userId: string, incomesSnap: seq<Entry<IncomeDoc>>,
    expensesSnap: seq<Entry<ExpenseDoc>>, incomes: map<string, IncomeDoc>, topJobs: map<string, JobDoc>,
    userJobs: map<string, map<string, JobDoc>>, id: string)
    requires Enumerates(incomesSnap, incomes) && id !in incomes
    ensures !ListedAs(GetAllTransactions(userId, incomesSnap, expensesSnap, topJobs, userJobs).transactions, id, IncomeTransaction)
  {
    var r := GetAllTransactions(userId, incomesSnap, expensesSnap, topJobs, userJobs);
    forall t | t in r.transactions && t.transactionType == IncomeTransaction
      ensures t.uid != id
    {
      ListedEntries(userId, incomesSnap, expensesSnap, topJobs, userJobs, t);
      assert t !in ExpenseTransactions(UserExpenses(expensesSnap, userId));
      var x :| x in UserIncomes(incomesSnap, userId) && ToIncomeTransactionFn(topJobs, userJobs)(x) == Some(t);
      assert x in incomesSnap;
    }
  }

  /** An expense added for the user is listed in the user's ledger. */
  lemma {:induction false} AddedExpenseListed(incomesSnap: seq<Entry<IncomeDoc>>, expensesSnap: seq<Entry<ExpenseDoc>>,
    expenses: map<string, ExpenseDoc>, topJobs: map<string, JobDoc>, userJobs: map<string, map<string, JobDoc>>,
    m: ExpenseCreateModel, newId: string)
    requires Enumerates(expensesSnap, expenses[newId := ExpenseFields(NewExpense(m))])
    ensures ListedAs(GetAllTransactions(m.userId, incomesSnap, expensesSnap, topJobs, userJobs).transactions, newId, ExpenseTransaction)
  {
    assert newId in expenses[newId := ExpenseFields(NewExpense(m))];
    var e :| e in expensesSnap && e.id == newId;
    assert e.doc == ExpenseFields(NewExpense(m));
    ExpenseListedIff(m.userId, incomesSnap, expensesSnap, topJobs, userJobs, e);
  }

  class TransactionRepositoryImpl {
    const db: Db

    constructor (db: Db)
      ensures this.db == db
    {
      this.db := db;
    }

    /** `addIncome`: stores the new record under the store-chosen id `newId` and returns its reference. */
    method AddIncome(m: IncomeCreateModel, newId: string) returns (ref: Path)
      requires newId !in db.incomes
      modifies db`incomes
      ensures db.incomes == old(db.incomes)[newId := IncomeFields(NewIncome(m))]
      ensures ref == ["incomes", newId]
    {
      var income := NewIncome(m);
      db.incomes := db.incomes[newId := IncomeFields(income)];
      ref := ["incomes", newId];
    }

    /** `addExpense`: stores the new record under the store-chosen id `newId` and returns its reference. */
    method AddExpense(m: ExpenseCreateModel, newId: string) returns (ref: Path)
      requires newId !in db.expenses
      modifies db`expenses
      ensures db.expenses == old(db.expenses)[newId := ExpenseFields(NewExpense(m))]
      ensures ref == ["expenses", newId]
    {
      var expense := NewExpense(m);
      db.expenses := db.expenses[newId := ExpenseFields(expense)];
      ref := ["expenses", newId];
    }

    /** `updateExpense`: overwrites four fields; updating a missing document fails and changes nothing. */
    method UpdateExpense(expenseId: string, m: ExpenseUpdateModel) returns (found: bool)
      modifies db`expenses
      ensures found <==> expenseId in old(db.expenses)
      ensures found ==> db.expenses == old(db.expenses)[expenseId := UpdatedExpense(old(db.expenses)[expenseId], m)]
      ensures !found ==> db.expenses == old(db.expenses)
    {
      found := expenseId in db.expenses;
      if found {
        db.expenses := db.expenses[expenseId := UpdatedExpense(db.expenses[expenseId], m)];
      }
    }

    /** `updateIncome`: overwrites five fields; updating a missing document fails and changes nothing. */
    method UpdateIncome(incomeId: string, m: IncomeUpdateModel) returns (found: bool)
      modifies db`incomes
      ensures found <==> incomeId in old(db.incomes)
      ensures found ==> db.incomes == old(db.incomes)[incomeId := UpdatedIncome(old(db.incomes)[incomeId], m)]
      ensures !found ==> db.incomes == old(db.incomes)
    {
      found := incomeId in db.incomes;
      if found {
        db.incomes := db.incomes[incomeId := UpdatedIncome(db.incomes[incomeId], m)];
      }
    }

    /** `deleteIncome`: removes the document if present. */
    method DeleteIncome(incomeId: string)
      modifies db`incomes
      ensures db.incomes == old(db.incomes) - {incomeId}
    {
      db.incomes := db.incomes - {incomeId};
    }

    /** `deleteExpense`: removes the document if present. */
    method DeleteExpense(expenseId: string)
      modifies db`expenses
      ensures db.expenses == old(db.expenses) - {expenseId}
    {
      db.expenses := db.expenses - {expenseId};
    }
  }
}
