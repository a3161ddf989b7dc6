/**
 * `getAllTransactions(userId)`: the user's incomes and expenses summed into
 * two totals, turned into ledger entries (some records are dropped), merged
 * incomes first and sorted newest first by a stable sort.
 *
 * The snapshots are the store's listing of the whole `incomes` and
 * `expenses` collections in store order; the query `whereEqualTo("user", …)`
 * is the filter `UserIncomes`/`UserExpenses`.
 */
module Ledger {
  import opened Common
  import opened Firestore
  import opened Collections
  import opened TransactionsRepository

  /** `baseEarned + tipsEarned`, a missing field counting as 0. */
  function IncomeAmount(e: Entry<IncomeDoc>): real {
    e.doc.baseEarned.GetOr(0.0) + e.doc.tipsEarned.GetOr(0.0)
  }

  /** `amount`, a missing field counting as 0. */
  function ExpenseAmount(e: Entry<ExpenseDoc>): real {
    e.doc.amount.GetOr(0.0)
  }

  function IncomeOfUser(userId: string): Entry<IncomeDoc> -> bool {
    (e: Entry<IncomeDoc>) => e.doc.user == Some(UserPath(userId))
  }

  function ExpenseOfUser(userId: string): Entry<ExpenseDoc> -> bool {
    (e: Entry<ExpenseDoc>) => e.doc.user == Some(UserPath(userId))
  }

  /** The query result: the incomes whose `user` reference is `users/{userId}`. */
  function UserIncomes(snap: seq<Entry<IncomeDoc>>, userId: string): seq<Entry<IncomeDoc>> {
    Filter(snap, IncomeOfUser(userId))
  }

  function UserExpenses(snap: seq<Entry<ExpenseDoc>>, userId: string): seq<Entry<ExpenseDoc>> {
    Filter(snap, ExpenseOfUser(userId))
  }

  /** The `position` of the job document a reference points at; null when the document or the field is missing. */
  function JobPosition(topJobs: map<string, JobDoc>, userJobs: map<string, map<string, JobDoc>>, ref: Path): Option<string> {
    match JobAt(topJobs, userJobs, ref)
    case None => None
    case Some(j) => j.position
  }

  /** A string template renders null as "null". */
  function Template(s: Option<string>): string {
    s.GetOr("null")
  }

  /**
   * The ledger entry of one income, dropped only when the job reference or the
   * date is missing. A job reference that resolves to no document still gives
   * an entry, whose description then reads "Salary from null".
   */
  function ToIncomeTransaction(e: Entry<IncomeDoc>, topJobs: map<string, JobDoc>, userJobs: map<string, map<string, JobDoc>>)
    : (r: Option<TransactionGetModel>)
    ensures r.Some? <==> e.doc.job.Some? && e.doc.date.Some?
    ensures r.Some? ==> r.value.uid == e.id && r.value.transactionType == IncomeTransaction
    ensures r.Some? ==> r.value.totalAmount == IncomeAmount(e) && r.value.date == e.doc.date.value
    ensures r.Some? ==>
              var job := JobAt(topJobs, userJobs, e.doc.job.value);
              r.value.description ==
                "Salary from " + (if job.Some? && job.value.position.Some? then job.value.position.value else "null")
  {
    if e.doc.job.None? || e.doc.date.None? then None
    else
      var position := JobPosition(topJobs, userJobs, e.doc.job.value);
      Some(TransactionGetModel(e.id, IncomeTransaction, IncomeAmount(e), e.doc.date.value,
        "Salary from " + Template(position)))
  }

  /**
   * The ledger entry of one expense, dropped only when the amount or the date
   * is missing; a missing description reads "No Description".
   */
  function ToExpenseTransaction(e: Entry<ExpenseDoc>): (r: Option<TransactionGetModel>)
    ensures r.Some? <==> e.doc.amount.Some? && e.doc.date.Some?
    ensures r.Some? ==> r.value.uid == e.id && r.value.transactionType == ExpenseTransaction
    ensures r.Some? ==> r.value.totalAmount == ExpenseAmount(e) && r.value.date == e.doc.date.value
    ensures r.Some? ==> r.value.description == e.doc.description.GetOr("No Description")
  {
    if e.doc.amount.None? || e.doc.date.None? then None
    else Some(TransactionGetModel(e.id, ExpenseTransaction, e.doc.amount.value, e.doc.date.value,
      e.doc.description.GetOr("No Description")))
  }

  function ToIncomeTransactionFn(topJobs: map<string, JobDoc>, userJobs: map<string, map<string, JobDoc>>)
    : Entry<IncomeDoc> -> Option<TransactionGetModel>
  {
    (e: Entry<IncomeDoc>) => ToIncomeTransaction(e, topJobs, userJobs)
  }

  function IncomeTransactions(incomes: seq<Entry<IncomeDoc>>, topJobs: map<string, JobDoc>,
    userJobs: map<string, map<string, JobDoc>>): seq<TransactionGetModel>
  {
    MapNotNull(incomes, ToIncomeTransactionFn(topJobs, userJobs))
  }

  function ExpenseTransactions(expenses: seq<Entry<ExpenseDoc>>): seq<TransactionGetModel> {
    MapNotNull(expenses, ToExpenseTransaction)
  }

  predicate SortedDesc(s: seq<TransactionGetModel>) {
    forall i, j :: 0 <= i < j < |s| ==> s[i].date >= s[j].date
  }

  /** The entries dated `d`, in order. Keeping every such run intact is what makes a sort stable. */
  function WithDate(s: seq<TransactionGetModel>, d: int): seq<TransactionGetModel> {
    if s == [] then [] else (if s[0].date == d then [s[0]] else []) + WithDate(s[1..], d)
  }

  lemma {:induction false} WithDateAppend(a: seq<TransactionGetModel>, b: seq<TransactionGetModel>, d: int)
    ensures WithDate(a + b, d) == WithDate(a, d) + WithDate(b, d)
    decreases |a|
  {
    if a == [] {
      assert a + b == b;
    } else {
      assert (a + b)[1..] == a[1..] + b;
      WithDateAppend(a[1..], b, d);
    }
  }

  lemma {:induction false} WithDateMember(s: seq<TransactionGetModel>, d: int, x: TransactionGetModel)
    ensures x in WithDate(s, d) <==> x in s && x.date == d
    decreases |s|
  {
    if s != [] {
      WithDateMember(s[1..], d, x);
      assert x in s <==> x == s[0] || x in s[1..];
    }
  }

  /** Inserts `x` before the first entry that is not newer, so it stays ahead of entries with its own date. */
  function Insert(x: TransactionGetModel, s: seq<TransactionGetModel>): (r: seq<TransactionGetModel>)
    requires SortedDesc(s)
    ensures SortedDesc(r)
    ensures multiset(r) == multiset(s) + multiset{x}
    ensures r[0] == x || (s != [] && r[0] == s[0])
  {
    if s == [] || s[0].date <= x.date then
      [x] + s
    else
      var rest := Insert(x, s[1..]);
      assert s == [s[0]] + s[1..];
      assert rest[0].date <= s[0].date;
      [s[0]] + rest
  }

  /** Inserting keeps every other entry's place among those of its date. */
  lemma {:induction false} InsertWithDate(x: TransactionGetModel, s: seq<TransactionGetModel>, d: int)
    requires SortedDesc(s)
    ensures WithDate(Insert(x, s), d) == (if x.date == d then [x] else []) + WithDate(s, d)
    decreases |s|
  {
    var r := Insert(x, s);
    if s == [] || s[0].date <= x.date {
      assert r == [x] + s;
      WithDateAppend([x], s, d);
    } else {
      var tail := s[1..];
      assert SortedDesc(tail) by {
        forall i, j | 0 <= i < j < |tail| ensures tail[i].date >= tail[j].date {
          assert tail[i] == s[i + 1] && tail[j] == s[j + 1];
        }
      }
      InsertWithDate(x, tail, d);
      assert r == [s[0]] + Insert(x, tail);
      WithDateAppend([s[0]], Insert(x, tail), d);
      assert s == [s[0]] + tail;
      WithDateAppend([s[0]], tail, d);
    }
  }

  /** `sortedByDescending { it.date }`: newest first, as a stable sort. */
  function SortByDateDesc(s: seq<TransactionGetModel>): (r: seq<TransactionGetModel>)
    ensures SortedDesc(r)
    ensures multiset(r) == multiset(s)
  {
    if s == [] then []
    else
      assert s == [s[0]] + s[1..];
      Insert(s[0], SortByDateDesc(s[1..]))
  }

  /** The sort is stable: the entries of each date keep their original order. */
  lemma {:induction false} SortByDateDescStable(s: seq<TransactionGetModel>, d: int)
    ensures WithDate(SortByDateDesc(s), d) == WithDate(s, d)
    decreases |s|
  {
    if s != [] {
      SortByDateDescStable(s[1..], d);
      InsertWithDate(s[0], SortByDateDesc(s[1..]), d);
    }
  }

  /**
   * A newest-first order that keeps each date's entries in their original
   * order is unique, so any stable sort by date gives `SortByDateDesc`.
   */
  lemma {:induction false} StableOrderUnique(a: seq<TransactionGetModel>, b: seq<TransactionGetModel>)
    requires SortedDesc(a) && SortedDesc(b)
    requires forall d :: WithDate(a, d) == WithDate(b, d)
    ensures a == b
    decreases |a|
  {
    if a == [] || b == [] {
      if a != [] {
        WithDateMember(a, a[0].date, a[0]);
      } else if b != [] {
        WithDateMember(b, b[0].date, b[0]);
      }
    } else {
      WithDateMember(a, a[0].date, a[0]);
      WithDateMember(b, a[0].date, a[0]);
      WithDateMember(b, b[0].date, b[0]);
      WithDateMember(a, b[0].date, b[0]);
      var i :| 0 <= i < |b| && b[i] == a[0];
      var k :| 0 <= k < |a| && a[k] == b[0];
      assert a[0].date == b[0].date;
      var d := a[0].date;
      assert WithDate(a, d) == [a[0]] + WithDate(a[1..], d);
      assert WithDate(b, d) == [b[0]] + WithDate(b[1..], d);
      assert a[0] == WithDate(a, d)[0] == WithDate(b, d)[0] == b[0];
      forall d' ensures WithDate(a[1..], d') == WithDate(b[1..], d') {
        var head := if a[0].date == d' then [a[0]] else [];
        assert WithDate(a, d') == head + WithDate(a[1..], d');
        assert WithDate(b, d') == head + WithDate(b[1..], d');
        assert WithDate(a[1..], d') == WithDate(a, d')[|head|..];
        assert WithDate(b[1..], d') == WithDate(b, d')[|head|..];
      }
      StableOrderUnique(a[1..], b[1..]);
      assert a == [a[0]] + a[1..] && b == [b[0]] + b[1..];
    }
  }

  /** `getAllTransactions(userId)`. */
  function GetAllTransactions(userId: string, incomesSnap: seq<Entry<IncomeDoc>>, expensesSnap: seq<Entry<ExpenseDoc>>,
    topJobs: map<string, JobDoc>, userJobs: map<string, map<string, JobDoc>>): (r: TotalTransactionsModel)
    ensures SortedDesc(r.transactions)
    ensures multiset(r.transactions) ==
      multiset(IncomeTransactions(UserIncomes(incomesSnap, userId), topJobs, userJobs)) +
      multiset(ExpenseTransactions(UserExpenses(expensesSnap, userId)))
  {
    var incomes := UserIncomes(incomesSnap, userId);
    var expenses := UserExpenses(expensesSnap, userId);
    TotalTransactionsModel(
      SumOf(incomes, IncomeAmount),
      SumOf(expenses, ExpenseAmount),
      SortByDateDesc(IncomeTransactions(incomes, topJobs, userJobs) + ExpenseTransactions(expenses)))
  }

  /**
   * Among entries of one date, the incomes come first, then the expenses,
   * each in the order the store listed them.
   */
  lemma IncomesFirstOnEqualDates(userId: string, incomesSnap: seq<Entry<IncomeDoc>>, expensesSnap: seq<Entry<ExpenseDoc>>,
    topJobs: map<string, JobDoc>, userJobs: map<string, map<string, JobDoc>>, d: int)
    ensures WithDate(GetAllTransactions(userId, incomesSnap, expensesSnap, topJobs, userJobs).transactions, d) ==
      WithDate(IncomeTransactions(UserIncomes(incomesSnap, userId), topJobs, userJobs), d) +
      WithDate(ExpenseTransactions(UserExpenses(expensesSnap, userId)), d)
  {
    var a := IncomeTransactions(UserIncomes(incomesSnap, userId), topJobs, userJobs);
    var b := ExpenseTransactions(UserExpenses(expensesSnap, userId));
    SortByDateDescStable(a + b, d);
    WithDateAppend(a, b, d);
  }

  /**
   * The earnings total is the sum of baseEarned + tipsEarned over every income
   * of the user, and the expenses total the sum of every amount, listed or not.
   */
  lemma TotalsOverAllRecords(userId: string, incomesSnap: seq<Entry<IncomeDoc>>, expensesSnap: seq<Entry<ExpenseDoc>>,
    topJobs: map<string, JobDoc>, userJobs: map<string, map<string, JobDoc>>)
    ensures GetAllTransactions(userId, incomesSnap, expensesSnap, topJobs, userJobs).earnings ==
      SumOf(UserIncomes(incomesSnap, userId), IncomeAmount)
    ensures GetAllTransactions(userId, incomesSnap, expensesSnap, topJobs, userJobs).expenses ==
      SumOf(UserExpenses(expensesSnap, userId), ExpenseAmount)
  {
  }

  /** Listing the same records in another store order changes neither total nor which entries are listed. */
  lemma StoreOrderIrrelevant(userId: string, incomes1: seq<Entry<IncomeDoc>>, incomes2: seq<Entry<IncomeDoc>>,
    expenses1: seq<Entry<ExpenseDoc>>, expenses2: seq<Entry<ExpenseDoc>>,
    topJobs: map<string, JobDoc>, userJobs: map<string, map<string, JobDoc>>)
    requires multiset(incomes1) == multiset(incomes2) && multiset(expenses1) == multiset(expenses2)
    ensures GetAllTransactions(userId, incomes1, expenses1, topJobs, userJobs).earnings ==
      GetAllTransactions(userId, incomes2, expenses2, topJobs, userJobs).earnings
    ensures GetAllTransactions(userId, incomes1, expenses1, topJobs, userJobs).expenses ==
      GetAllTransactions(userId, incomes2, expenses2, topJobs, userJobs).expenses
    ensures multiset(GetAllTransactions(userId, incomes1, expenses1, topJobs, userJobs).transactions) ==
      multiset(GetAllTransactions(userId, incomes2, expenses2, topJobs, userJobs).transactions)
  {
    FilterPermutation(incomes1, incomes2, IncomeOfUser(userId));
    FilterPermutation(expenses1, expenses2, ExpenseOfUser(userId));
    var i1, i2 := UserIncomes(incomes1, userId), UserIncomes(incomes2, userId);
    var e1, e2 := UserExpenses(expenses1, userId), UserExpenses(expenses2, userId);
    SumOfPermutation(i1, i2, IncomeAmount);
    SumOfPermutation(e1, e2, ExpenseAmount);
    MapNotNullPermutation(i1, i2, ToIncomeTransactionFn(topJobs, userJobs));
    MapNotNullPermutation(e1, e2, ToExpenseTransaction);
  }

  function TotalAmount(t: TransactionGetModel): real {
    t.totalAmount
  }

  function IncomeListed(): Entry<IncomeDoc> -> bool {
    (e: Entry<IncomeDoc>) => e.doc.job.Some? && e.doc.date.Some?
  }

  function IncomeUnlisted(): Entry<IncomeDoc> -> bool {
    (e: Entry<IncomeDoc>) => !(e.doc.job.Some? && e.doc.date.Some?)
  }

  function ExpenseListed(): Entry<ExpenseDoc> -> bool {
    (e: Entry<ExpenseDoc>) => e.doc.amount.Some? && e.doc.date.Some?
  }

  function ExpenseUnlisted(): Entry<ExpenseDoc> -> bool {
    (e: Entry<ExpenseDoc>) => !(e.doc.amount.Some? && e.doc.date.Some?)
  }

  lemma {:induction false} ListedIncomeSum(incomes: seq<Entry<IncomeDoc>>, topJobs: map<string, JobDoc>,
    userJobs: map<string, map<string, JobDoc>>)
    ensures SumOf(IncomeTransactions(incomes, topJobs, userJobs), TotalAmount) == SumOf(Filter(incomes, IncomeListed()), IncomeAmount)
    decreases |incomes|
  {
    if incomes != [] {
      ListedIncomeSum(incomes[1..], topJobs, userJobs);
      var rest := IncomeTransactions(incomes[1..], topJobs, userJobs);
      var kept := Filter(incomes[1..], IncomeListed());
      match ToIncomeTransaction(incomes[0], topJobs, userJobs)
      case Some(t) =>
        assert ([t] + rest)[1..] == rest;
        assert ([incomes[0]] + kept)[1..] == kept;
      case None =>
    }
  }

  lemma {:induction false} ListedExpenseSum(expenses: seq<Entry<ExpenseDoc>>)
    ensures SumOf(ExpenseTransactions(expenses), TotalAmount) == SumOf(Filter(expenses, ExpenseListed()), ExpenseAmount)
    decreases |expenses|
  {
    if expenses != [] {
      ListedExpenseSum(expenses[1..]);
      var rest := ExpenseTransactions(expenses[1..]);
      var kept := Filter(expenses[1..], ExpenseListed());
      match ToExpenseTransaction(expenses[0])
      case Some(t) =>
        assert ([t] + rest)[1..] == rest;
        assert ([expenses[0]] + kept)[1..] == kept;
      case None =>
    }
  }

  /**
   * The totals are taken before records are dropped: each is the sum of the
   * listed entries' amounts plus the amounts of the user's records that are
   * not listed.
   */
  lemma TotalsIncludeUnlisted(userId: string, incomesSnap: seq<Entry<IncomeDoc>>, expensesSnap: seq<Entry<ExpenseDoc>>,
    topJobs: map<string, JobDoc>, userJobs: map<string, map<string, JobDoc>>)
    ensures GetAllTransactions(userId, incomesSnap, expensesSnap, topJobs, userJobs).earnings ==
      SumOf(IncomeTransactions(UserIncomes(incomesSnap, userId), topJobs, userJobs), TotalAmount) +
      SumOf(Filter(UserIncomes(incomesSnap, userId), IncomeUnlisted()), IncomeAmount)
    ensures GetAllTransactions(userId, incomesSnap, expensesSnap, topJobs, userJobs).expenses ==
      SumOf(ExpenseTransactions(UserExpenses(expensesSnap, userId)), TotalAmount) +
      SumOf(Filter(UserExpenses(expensesSnap, userId), ExpenseUnlisted()), ExpenseAmount)
  {
    var incomes := UserIncomes(incomesSnap, userId);
    var expenses := UserExpenses(expensesSnap, userId);
    SumOfSplit(incomes, IncomeAmount, IncomeListed(), IncomeUnlisted());
    SumOfSplit(expenses, ExpenseAmount, ExpenseListed(), ExpenseUnlisted());
    ListedIncomeSum(incomes, topJobs, userJobs);
    ListedExpenseSum(expenses);
  }

  /** One undated income of 100: the earnings total is 100 while the ledger is empty. */
  lemma {:induction false} UndatedIncomeStillCounted(userId: string)
    ensures var income := Entry("i1", IncomeDoc(Some(UserJobPath(userId, "j1")), Some(UserPath(userId)), None,
        Some(100.0), None, None, None));
      var r := GetAllTransactions(userId, [income], [], map[], map[]);
      r.earnings == 100.0 && r.transactions == [] && r.earnings != SumOf(r.transactions, TotalAmount)
  {
    var income := Entry("i1", IncomeDoc(Some(UserJobPath(userId, "j1")), Some(UserPath(userId)), None,
        Some(100.0), None, None, None));
    assert IncomeOfUser(userId)(income);
    assert UserIncomes([income], userId) == [income];
    assert IncomeTransactions([income], map[], map[]) == [];
    assert SumOf([income], IncomeAmount) == 100.0;
  }

  /** Some entry of `ts` has this id and type. */
  predicate ListedAs(ts: seq<TransactionGetModel>, id: string, ty: TransactionType) {
    exists t :: t in ts && t.uid == id && t.transactionType == ty
  }

  /** The ledger lists exactly the income entries and the expense entries. */
  lemma ListedEntries(userId: string, incomesSnap: seq<Entry<IncomeDoc>>, expensesSnap: seq<Entry<ExpenseDoc>>,
    topJobs: map<string, JobDoc>, userJobs: map<string, map<string, JobDoc>>, t: TransactionGetModel)
    ensures t in GetAllTransactions(userId, incomesSnap, expensesSnap, topJobs, userJobs).transactions <==>
      t in IncomeTransactions(UserIncomes(incomesSnap, userId), topJobs, userJobs) ||
      t in ExpenseTransactions(UserExpenses(expensesSnap, userId))
  {
    var r := GetAllTransactions(userId, incomesSnap, expensesSnap, topJobs, userJobs);
    assert t in r.transactions <==> t in multiset(r.transactions);
  }

  /**
   * An income record is listed exactly when it is the user's and has a job
   * reference and a date (ids are unique within a snapshot).
   */
  lemma IncomeListedIff(userId: string, incomesSnap: seq<Entry<IncomeDoc>>, expensesSnap: seq<Entry<ExpenseDoc>>,
    topJobs: map<string, JobDoc>, userJobs: map<string, map<string, JobDoc>>, e: Entry<IncomeDoc>)
    requires UniqueIds(incomesSnap) && e in incomesSnap
    ensures ListedAs(GetAllTransactions(userId, incomesSnap, expensesSnap, topJobs, userJobs).transactions, e.id, IncomeTransaction)
      <==> e.doc.user == Some(UserPath(userId)) && e.doc.job.Some? && e.doc.date.Some?
  {
    var r := GetAllTransactions(userId, incomesSnap, expensesSnap, topJobs, userJobs);
    var incomes := UserIncomes(incomesSnap, userId);
    var expenses := UserExpenses(expensesSnap, userId);
    var listed := IncomeTransactions(incomes, topJobs, userJobs);
    var f := ToIncomeTransactionFn(topJobs, userJobs);
    if e.doc.user == Some(UserPath(userId)) && e.doc.job.Some? && e.doc.date.Some? {
      assert e in incomes;
      var t := f(e).value;
      assert t in listed;
      ListedEntries(userId, incomesSnap, expensesSnap, topJobs, userJobs, t);
    }
    if t :| t in r.transactions && t.uid == e.id && t.transactionType == IncomeTransaction {
      ListedEntries(userId, incomesSnap, expensesSnap, topJobs, userJobs, t);
      assert t !in ExpenseTransactions(expenses);
      var x :| x in incomes && f(x) == Some(t);
      var i :| 0 <= i < |incomesSnap| && incomesSnap[i] == x;
      var j :| 0 <= j < |incomesSnap| && incomesSnap[j] == e;
      assert i == j;
    }
  }

  /**
   * An expense record is listed exactly when it is the user's and has an
   * amount and a date (ids are unique within a snapshot).
   */
  lemma ExpenseListedIff(userId: string, incomesSnap: seq<Entry<IncomeDoc>>, expensesSnap: seq<Entry<ExpenseDoc>>,
    topJobs: map<string, JobDoc>, userJobs: map<string, map<string, JobDoc>>, e: Entry<ExpenseDoc>)
    requires UniqueIds(expensesSnap) && e in expensesSnap
    ensures ListedAs(GetAllTransactions(userId, incomesSnap, expensesSnap, topJobs, userJobs).transactions, e.id, ExpenseTransaction)
      <==> e.doc.user == Some(UserPath(userId)) && e.doc.amount.Some? && e.doc.date.Some?
  {
    var r := GetAllTransactions(userId, incomesSnap, expensesSnap, topJobs, userJobs);
    var incomes := UserIncomes(incomesSnap, userId);
    var expenses := UserExpenses(expensesSnap, userId);
    var listed := ExpenseTransactions(expenses);
    var f := ToIncomeTransactionFn(topJobs, userJobs);
    if e.doc.user == Some(UserPath(userId)) && e.doc.amount.Some? && e.doc.date.Some? {
      assert e in expenses;
      var t := ToExpenseTransaction(e).value;
      assert t in listed;
      ListedEntries(userId, incomesSnap, expensesSnap, topJobs, userJobs, t);
    }
    if t :| t in r.transactions && t.uid == e.id && t.transactionType == ExpenseTransaction {
      ListedEntries(userId, incomesSnap, expensesSnap, topJobs, userJobs, t);
      assert t !in IncomeTransactions(incomes, topJobs, userJobs);
      var x :| x in expenses && ToExpenseTransaction(x) == Some(t);
      var i :| 0 <= i < |expensesSnap| && expensesSnap[i] == x;
      var j :| 0 <= j < |expensesSnap| && expensesSnap[j] == e;
      assert i == j;
    }
  }
}
