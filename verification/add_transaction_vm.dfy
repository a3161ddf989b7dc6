/**
 * The add-transaction screen: an expense form and an income form, each
 * edited field by field and submitted through the transaction store.
 * A field's error only ever describes the value now in that field; a
 * submit shows every failing field's error and writes nothing unless all
 * fields pass.
 */
module AddTransaction {
  import opened Common
  import opened Text
  import opened Firestore
  import opened Forms
  import opened TransactionForms
  import opened JobRepository
  import opened TransactionsRepository
  import opened TransactionRepository
  import opened UserRepository

  /** What the screen's callbacks and the coroutine observe, in order. */
  datatype Effect = Logout | Success | Crash

  /** The expense a valid form submits for `uid`, filed under `season`. */
  function ExpenseToCreate(s: ExpenseForm, parse: FloatParser, uid: string, season: int): ExpenseCreateModel
    requires ExpenseValid(s, parse)
  {
    ExpenseCreateModel(uid, season, parse(s.amount).value, s.tag, s.description, s.date)
  }

  /** The income a valid form submits for `uid`, filed under `season`. */
  function IncomeToCreate(s: IncomeForm<JobGetModel>, parse: FloatParser, uid: string, season: int): IncomeCreateModel
    requires IncomeValid(s, parse)
  {
    IncomeCreateModel(s.job.value.id, uid, season, parse(s.baseEarned).value, parse(s.tipsEarned).value,
      ToIntOrNull(s.totalHoursWorked).value, s.date)
  }

  /** A submitted income is filed against the selected job in the user's own jobs, with the current year as season. */
  lemma SubmittedIncomeRecord(s: IncomeForm<JobGetModel>, parse: FloatParser, uid: string, season: int)
    requires IncomeValid(s, parse)
    ensures var x := NewIncome(IncomeToCreate(s, parse, uid, season));
            && x.job == Some(UserJobPath(uid, s.job.value.id))
            && x.user == Some(UserPath(uid))
            && x.season == season && x.date == s.date
            && x.baseEarned == parse(s.baseEarned).value && x.tipsEarned == parse(s.tipsEarned).value
            && x.hoursWorked == ToIntOrNull(s.totalHoursWorked).value
  {
  }

  class AddTransactionViewModel {
    const users: UserRepositoryImpl
    const transactions: TransactionRepositoryImpl
    const parseFloat: FloatParser
    /** `DateUtils.currentYear`, fixed when the app starts. */
    const currentYear: int
    var expenseState: ExpenseForm
    var incomeState: IncomeForm<JobGetModel>
    /** The `lateinit` user: `None` until the loading coroutine has assigned it. */
    var user: Option<User>
    var jobs: seq<JobGetModel>
    var effects: seq<Effect>

    predicate Valid()
      reads this, users
    {
      && ExpenseExplained(expenseState, parseFloat)
      && IncomeExplained(incomeState, parseFloat)
      && users.Valid()
    }

    constructor (users: UserRepositoryImpl, transactions: TransactionRepositoryImpl,
                 parseFloat: FloatParser, currentYear: int, today: int)
      requires users.Valid()
      ensures Valid()
      ensures this.users == users && this.transactions == transactions
      ensures this.parseFloat == parseFloat && this.currentYear == currentYear
      ensures expenseState == DefaultExpenseForm(today) && incomeState == DefaultIncomeForm(today)
      ensures user.None? && jobs == [] && effects == []
    {
      this.users, this.transactions := users, transactions;
      this.parseFloat, this.currentYear := parseFloat, currentYear;
      expenseState := DefaultExpenseForm(today);
      incomeState := DefaultIncomeForm(today);
      user, jobs, effects := None, [], [];
    }

    /**
     * The loading coroutine started by `init`. Without a user it signs out,
     * clears the cache and then dies on `userResult!!`; otherwise it keeps
     * the user and lists that user's jobs from `jobsSnap`, the snapshot the
     * jobs query returns over the user's jobs collection.
     */
    method Init(s: Session, jobsSnap: seq<Entry<JobDoc>>, now: int)
      requires Valid()
      requires var u := if users.cachedUser.Some? then users.cachedUser else LoadedUser(s, users.db.users);
               u.Some? ==> Enumerates(jobsSnap, JobsOf(transactions.db.userJobs, u.value.uid))
      modifies this, users`cachedUser
      ensures Valid()
      ensures expenseState == old(expenseState) && incomeState == old(incomeState)
      ensures old(users.cachedUser).None? && LoadedUser(s, users.db.users).None? ==>
                && effects == old(effects) + [Logout, Crash]
                && user == old(user) && jobs == old(jobs) && users.cachedUser.None?
      ensures old(users.cachedUser).Some? || LoadedUser(s, users.db.users).Some? ==>
                && user.Some? && user.value.uid == (if old(users.cachedUser).Some? then old(users.cachedUser).value.uid
                                                   else LoadedUser(s, users.db.users).value.uid)
                && jobs == GetJobs(jobsSnap, transactions.db.employers, now, currentYear)
                && effects == old(effects)
      ensures old(users.cachedUser).Some? || LoadedUser(s, users.db.users).Some? ==>
                var stored := JobsOf(transactions.db.userJobs, user.value.uid);
                forall j :: j in jobs <==>
                  exists id :: id in stored && stored[id].deleted == Some(false) &&
                    MapJobDocument(id, Some(stored[id]), transactions.db.employers, now, currentYear) == Some(j)
    {
      var userResult := users.GetUser(s);
      if userResult.None? {
        effects := effects + [Logout];
        users.ClearUserCache();
        effects := effects + [Crash];
        return;
      }
      user := userResult;
      jobs := GetJobs(jobsSnap, transactions.db.employers, now, currentYear);
      GetJobsOfStore(jobsSnap, JobsOf(transactions.db.userJobs, user.value.uid), transactions.db.employers, now, currentYear);
    }

    /**
     * `onExpenseEvent`. `today` is the date a reset puts back; `newId` is the
     * id the store assigns if this event adds an expense.
     */
    method OnExpenseEvent(e: ExpenseEvent, today: int, newId: string)
      requires Valid() && newId !in transactions.db.expenses
      modifies this, transactions.db`expenses
      ensures Valid()
      ensures incomeState == old(incomeState) && user == old(user) && jobs == old(jobs)
      ensures !e.ExpenseSubmit? ==>
                && expenseState == ExpenseAfterEdit(old(expenseState), e, parseFloat, today)
                && transactions.db.expenses == old(transactions.db.expenses) && effects == old(effects)
      ensures e.ExpenseSubmit? && !ExpenseValid(old(expenseState), parseFloat) ==>
                && expenseState == ExpenseChecked(old(expenseState), parseFloat)
                && transactions.db.expenses == old(transactions.db.expenses) && effects == old(effects)
      ensures e.ExpenseSubmit? && ExpenseValid(old(expenseState), parseFloat) && user.None? ==>
                && expenseState == old(expenseState)
                && transactions.db.expenses == old(transactions.db.expenses) && effects == old(effects) + [Crash]
      ensures e.ExpenseSubmit? && ExpenseValid(old(expenseState), parseFloat) && user.Some? ==>
                && transactions.db.expenses == old(transactions.db.expenses)[newId :=
                     ExpenseFields(NewExpense(ExpenseToCreate(old(expenseState), parseFloat, user.value.uid, currentYear)))]
                && effects == old(effects) + [Success]
                && expenseState == DefaultExpenseForm(today)
    {
      match e
      case AmountChanged(a) =>
        expenseState := expenseState.(amount := a);
        if ValidateFloat(parseFloat, a).isSuccess && expenseState.amountError.Some? {
          expenseState := expenseState.(amountError := None);
        }
      case DescriptionChanged(d) =>
        expenseState := expenseState.(description := d);
        if ValidateDescription(d).isSuccess && expenseState.descriptionError.Some? {
          expenseState := expenseState.(descriptionError := None);
        }
      case ExpenseCancel =>
        expenseState := DefaultExpenseForm(today);
      case ExpenseSubmit =>
        AddExpense(today, newId);
      case ExpenseDateChanged(d) =>
        expenseState := expenseState.(date := d);
      case TagChanged(t) =>
        expenseState := expenseState.(tag := t);
    }

    /** `addExpense`: validate every field, then add the expense, report success and reset. */
    method AddExpense(today: int, newId: string)
      requires Valid() && newId !in transactions.db.expenses
      modifies this`expenseState, this`effects, transactions.db`expenses
      ensures Valid()
      ensures !ExpenseValid(old(expenseState), parseFloat) ==>
                && expenseState == ExpenseChecked(old(expenseState), parseFloat)
                && transactions.db.expenses == old(transactions.db.expenses) && effects == old(effects)
      ensures ExpenseValid(old(expenseState), parseFloat) && user.None? ==>
                && expenseState == old(expenseState)
                && transactions.db.expenses == old(transactions.db.expenses) && effects == old(effects) + [Crash]
      ensures ExpenseValid(old(expenseState), parseFloat) && user.Some? ==>
                && transactions.db.expenses == old(transactions.db.expenses)[newId :=
                     ExpenseFields(NewExpense(ExpenseToCreate(old(expenseState), parseFloat, user.value.uid, currentYear)))]
                && effects == old(effects) + [Success]
                && expenseState == DefaultExpenseForm(today)
    {
      ghost var s0 := expenseState;
      ExpenseCheckedShowsFailures(s0, parseFloat);
      var hasError := false;
      var amountResult := ValidateFloat(parseFloat, expenseState.amount);
      if amountResult.message.Some? {
        expenseState := expenseState.(amountError := amountResult.message);
        hasError := true;
      }
      var descriptionResult := ValidateDescription(expenseState.description);
      if descriptionResult.message.Some? {
        expenseState := expenseState.(descriptionError := descriptionResult.message);
        hasError := true;
      }
      assert expenseState == ExpenseChecked(s0, parseFloat);
      if hasError {
        return;
      }
      if user.None? {
        effects := effects + [Crash];
        return;
      }
      var m := ExpenseCreateModel(user.value.uid, currentYear, parseFloat(expenseState.amount).value,
        expenseState.tag, expenseState.description, expenseState.date);
      var ref := transactions.AddExpense(m, newId);
      effects := effects + [Success];
      expenseState := DefaultExpenseForm(today);
    }

    /**
     * `onIncomeEvent`. `today` is the date a reset puts back; `newId` is the
     * id the store assigns if this event adds an income.
     */
    method OnIncomeEvent(e: IncomeEvent<JobGetModel>, today: int, newId: string)
      requires Valid() && newId !in transactions.db.incomes
      modifies this, transactions.db`incomes
      ensures Valid()
      ensures expenseState == old(expenseState) && user == old(user) && jobs == old(jobs)
      ensures !e.IncomeSubmit? ==>
                && incomeState == IncomeAfterEdit(old(incomeState), e, parseFloat, today)
                && transactions.db.incomes == old(transactions.db.incomes) && effects == old(effects)
      ensures e.IncomeSubmit? && !IncomeValid(old(incomeState), parseFloat) ==>
                && incomeState == IncomeChecked(old(incomeState), parseFloat)
                && transactions.db.incomes == old(transactions.db.incomes) && effects == old(effects)
      ensures e.IncomeSubmit? && IncomeValid(old(incomeState), parseFloat) && user.None? ==>
                && incomeState == old(incomeState)
                && transactions.db.incomes == old(transactions.db.incomes) && effects == old(effects) + [Crash]
      ensures e.IncomeSubmit? && IncomeValid(old(incomeState), parseFloat) && user.Some? ==>
                && transactions.db.incomes == old(transactions.db.incomes)[newId :=
                     IncomeFields(NewIncome(IncomeToCreate(old(incomeState), parseFloat, user.value.uid, currentYear)))]
                && effects == old(effects) + [Success]
                && incomeState == DefaultIncomeForm(today)
    {
      match e
      case BaseEarnedChanged(b) =>
        incomeState := incomeState.(baseEarned := b);
        if ValidateFloat(parseFloat, incomeState.baseEarned).isSuccess && incomeState.baseEarnedError.Some? {
          incomeState := incomeState.(baseEarnedError := None);
        }
      case JobChanged(j) =>
        incomeState := incomeState.(job := Some(j));
        if ValidateJob(incomeState.job).isSuccess && incomeState.jobError.Some? {
          incomeState := incomeState.(jobError := None);
        }
      case TipsEarnedChanged(t) =>
        incomeState := incomeState.(tipsEarned := t);
        if ValidateFloat(parseFloat, incomeState.tipsEarned).isSuccess && incomeState.tipsEarnedError.Some? {
          incomeState := incomeState.(tipsEarnedError := None);
        }
      case TotalHoursWorkedChanged(h) =>
        incomeState := incomeState.(totalHoursWorked := h);
        if ValidateHoursWorked(incomeState.totalHoursWorked).isSuccess && incomeState.totalHoursWorkedError.Some? {
          incomeState := incomeState.(totalHoursWorkedError := None);
        }
      case IncomeDateChanged(d) =>
        incomeState := incomeState.(date := d);
      case IncomeCancel =>
        incomeState := DefaultIncomeForm(today);
      case IncomeSubmit =>
        AddIncome(today, newId);
    }

    /** `addIncome`: run all four validators, then add the income, report success and reset. */
    method AddIncome(today: int, newId: string)
      requires Valid() && newId !in transactions.db.incomes
      modifies this`incomeState, this`effects, transactions.db`incomes
      ensures Valid()
      ensures !IncomeValid(old(incomeState), parseFloat) ==>
                && incomeState == IncomeChecked(old(incomeState), parseFloat)
                && transactions.db.incomes == old(transactions.db.incomes) && effects == old(effects)
      ensures IncomeValid(old(incomeState), parseFloat) && user.None? ==>
                && incomeState == old(incomeState)
                && transactions.db.incomes == old(transactions.db.incomes) && effects == old(effects) + [Crash]
      ensures IncomeValid(old(incomeState), parseFloat) && user.Some? ==>
                && transactions.db.incomes == old(transactions.db.incomes)[newId :=
                     IncomeFields(NewIncome(IncomeToCreate(old(incomeState), parseFloat, user.value.uid, currentYear)))]
                && effects == old(effects) + [Success]
                && incomeState == DefaultIncomeForm(today)
    {
      ghost var s0 := incomeState;
      IncomeCheckedShowsFailures(s0, parseFloat);
      var hasError := false;
      var jobResult := ValidateJob(incomeState.job);
      if jobResult.message.Some? {
        incomeState := incomeState.(jobError := jobResult.message);
        hasError := true;
      }
      var baseEarnedResult := ValidateFloat(parseFloat, incomeState.baseEarned);
      if baseEarnedResult.message.Some? {
        incomeState := incomeState.(baseEarnedError := baseEarnedResult.message);
        hasError := true;
      }
      var tipsEarnedResult := ValidateFloat(parseFloat, incomeState.tipsEarned);
      if tipsEarnedResult.message.Some? {
        incomeState := incomeState.(tipsEarnedError := tipsEarnedResult.message);
        hasError := true;
      }
      var hoursResult := ValidateHoursWorked(incomeState.totalHoursWorked);
      if hoursResult.message.Some? {
        incomeState := incomeState.(totalHoursWorkedError := hoursResult.message);
        hasError := true;
      }
      assert incomeState == IncomeChecked(s0, parseFloat);
      if hasError {
        return;
      }
      if user.None? {
        effects := effects + [Crash];
        return;
      }
      var m := IncomeCreateModel(incomeState.job.value.id, user.value.uid, currentYear,
        parseFloat(incomeState.baseEarned).value, parseFloat(incomeState.tipsEarned).value,
        ToIntOrNull(incomeState.totalHoursWorked).value, incomeState.date);
      var ref := transactions.AddIncome(m, newId);
      effects := effects + [Success];
      incomeState := DefaultIncomeForm(today);
    }
  }
}
