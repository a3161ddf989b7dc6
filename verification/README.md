# WatWallet core, modelled in Dafny

WatWallet is an Android app for students with seasonal jobs. It records
incomes earned at jobs and expenses, and shows them as a ledger. This
project models its core:

- **Repositories over Firestore.**
  - Employers: search by name, the first N, look up by id, create.
  - Jobs under a user: create, list, get, soft delete, update.
  - Incomes and expenses: add, get, update, delete.
  - The home ledger: listed entries newest first, plus earning and expense totals.
  - The cached signed-in user.
- **Form validation** on the transaction, sign-in and registration screens. Every error shown next to a field is that field's validator failing on its current value.
- **View models** of the add-transaction, legacy add-expense and add-income, login, register, home, profile and job screens.
  - Each screen is a class whose fields are its state flows.
  - Each coroutine body is one atomic method.
  - Requests, callbacks and crashes go into an effect log.
- **Navigation destinations**: route templates and the route builders.
- **The money input field**: the amount filter applied as the user types.

The Firestore store is a class `Db` holding maps from document ids to
records with optional fields. A query snapshot is a sequence of (id, record)
pairs that enumerates a collection in some order. Ids chosen by the store,
the clock, the current year, the signed-in account and answers from services
outside the core (authentication, geocoder) are parameters. Dates are day
numbers. Amounts are reals. Parsing floats and formatting them are opaque
functions passed in. A Kotlin `!!`, `first()` on an empty list or an unset
`lateinit` is the effect `Crash`, and nothing happens after it.

Files:
- `common.dfy` (Option), `text.dfy` (Int parsing and printing, lower-casing, substring search), `collections.dfy` (filter, mapNotNull, sums and permutation facts), `firestore.dfy` (documents, paths, snapshots).
- `employer_repository.dfy`, `job_repository.dfy`, `transactions_repository.dfy`, `ledger.dfy`, `transaction_repository.dfy`, `user_repository.dfy`.
- `forms.dfy`, `transaction_forms.dfy`, `add_transaction_vm.dfy`, `season_jobs.dfy`, `add_expense_vm.dfy`, `add_income_vm.dfy`, `login_vm.dfy`, `register_vm.dfy`, `home_vm.dfy`, `profile_vm.dfy`.
- `job_form.dfy`, `job_vm.dfy`, `add_job_vm.dfy`, `navigation.dfy`, `money_input.dfy`.

## Model

| member | source | states |
|---|---|---|
| Text.ToIntOrNull | app/src/main/java/com/example/watwallet/feature/addtransaction/viewmodel/AddTransactionViewModel.kt:117-124 | `toIntOrNull`: a result exactly when the text is one or more ASCII digits after an optional '+' or '-' and its value fits in 32 bits, and the result is that value |
| Text.ToIntOrNullExamples | app/src/main/java/com/example/watwallet/feature/addtransaction/viewmodel/AddTransactionViewModel.kt:117-124 | the empty text, a lone "-" and "x5" give null, "+7" and "-12" parse, 2147483648 is out of range and -2147483648 is the least Int |
| Text.IntToStringRoundTrip | app/src/main/java/com/example/watwallet/app/MainNavigation.kt:128-129 | an Int written into a route with `"$n"` parses back to the same Int |
| Text.Lowercase | app/src/main/java/com/example/watwallet/data/repository/EmployerRepositoryImpl.kt:18-25 | lower-casing keeps the length and maps every character by `LowerChar` |
| Text.Contains | app/src/main/java/com/example/watwallet/data/repository/EmployerRepositoryImpl.kt:25 | `contains` holds exactly when the term occurs as a contiguous run at some index |
| EmployerRepository.Search | app/src/main/java/com/example/watwallet/data/repository/EmployerRepositoryImpl.kt:12-30 | a failed read gives no hits; otherwise a hit is exactly a named document whose lower-cased name contains the lower-cased term |
| EmployerRepository.SearchKeepsOrder | app/src/main/java/com/example/watwallet/data/repository/EmployerRepositoryImpl.kt:20-26 | hits are a subsequence of the named employers in store order |
| EmployerRepository.SearchEmptyTerm | app/src/main/java/com/example/watwallet/data/repository/EmployerRepositoryImpl.kt:18-26 | an empty term returns every named employer, in store order |
| EmployerRepository.Get | app/src/main/java/com/example/watwallet/data/repository/EmployerRepositoryImpl.kt:45-55 | a non-positive limit fails; otherwise the first `count` (or all) documents in order, each with its id and name or "" |
| EmployerRepository.GetById | app/src/main/java/com/example/watwallet/data/repository/EmployerRepositoryImpl.kt:57-64 | found exactly when the document exists, with its id and its name or "" |
| EmployerRepository.EmployerRepositoryImpl.Create | app/src/main/java/com/example/watwallet/data/repository/EmployerRepositoryImpl.kt:32-43 | the document is stored unless the write fails; a result comes back exactly when the read-back succeeds and carries the submitted name |
| JobRepository.ToJob | app/src/main/java/com/example/watwallet/data/repository/JobRepositoryImpl.kt:53-64 | `toObject<Job>()` fills defaults; writing the record back reproduces the document exactly when no defaulted field was missing |
| JobRepository.JobRoundTrip | app/src/main/java/com/example/watwallet/data/repository/JobRepositoryImpl.kt:53-64 | a stored job record reads back as itself |
| JobRepository.WithJob | app/src/main/java/com/example/watwallet/data/repository/JobRepositoryImpl.kt:88-89 | writing one job document changes that document and no other in any user's jobs |
| JobRepository.MapJobDocument | app/src/main/java/com/example/watwallet/data/repository/JobRepositoryImpl.kt:115-144 | a job is produced exactly when the document exists and its employer reference resolves; it carries the document id and the employer id |
| JobRepository.GetJobs | app/src/main/java/com/example/watwallet/data/repository/JobRepositoryImpl.kt:95-101 | the listing holds exactly the jobs whose `deleted` field is false and whose employer resolves |
| JobRepository.GetJobsOfStore | app/src/main/java/com/example/watwallet/data/repository/JobRepositoryImpl.kt:95-101 | over a snapshot of the user's jobs, the listing is exactly the mapped stored jobs whose `deleted` field is false, in whatever order the snapshot comes |
| JobRepository.SoftDeletedNotListed | app/src/main/java/com/example/watwallet/data/repository/JobRepositoryImpl.kt:95-106 | after `deleteJob` the job is absent from every listing |
| JobRepository.SoftDeletedStillFound | app/src/main/java/com/example/watwallet/data/repository/JobRepositoryImpl.kt:103-113 | `getJob` returns the same after `deleteJob` as before |
| JobRepository.CreateThenGet | app/src/main/java/com/example/watwallet/data/repository/JobRepositoryImpl.kt:70-113 | a created job is found by id with the submitted values when its employer exists, and not found otherwise |
| JobRepository.CreateThenListed | app/src/main/java/com/example/watwallet/data/repository/JobRepositoryImpl.kt:70-101 | a created job with an existing employer appears in every listing of the user's jobs |
| JobRepository.UpdateThenGet | app/src/main/java/com/example/watwallet/data/repository/JobRepositoryImpl.kt:146-161 | after `updateJob` the job reads back with the new values, its old season, and unchanged `active`/`deleted` flags |
| JobRepository.JobRepositoryImpl.CreateJob | app/src/main/java/com/example/watwallet/data/repository/JobRepositoryImpl.kt:70-93 | the new record is stored under the user's jobs, or nothing changes when the write fails |
| JobRepository.JobRepositoryImpl.DeleteJob | app/src/main/java/com/example/watwallet/data/repository/JobRepositoryImpl.kt:103-106 | sets `deleted` on that job only; a missing job fails and changes nothing |
| JobRepository.JobRepositoryImpl.UpdateJob | app/src/main/java/com/example/watwallet/data/repository/JobRepositoryImpl.kt:146-161 | overwrites the edited fields of that job only; a missing job fails and changes nothing |
| TransactionsRepository.ToExpense | app/src/main/java/com/example/watwallet/data/repository/TransactionsRepository.kt:75-82 | `toObject<Expense>()` fills defaults; the record reproduces the document exactly when no defaulted field was missing |
| TransactionsRepository.ToIncome | app/src/main/java/com/example/watwallet/data/repository/TransactionsRepository.kt:84-92 | the same for `toObject<Income>()` |
| TransactionsRepository.Defaults | app/src/main/java/com/example/watwallet/data/repository/TransactionsRepository.kt:75-92 | an empty document reads as zero amounts, empty texts, no references, now and the current year |
| TransactionsRepository.RecordsRoundTrip | app/src/main/java/com/example/watwallet/data/repository/TransactionsRepository.kt:75-92 | stored expense and income records read back as themselves |
| Ledger.ToIncomeTransaction | app/src/main/java/com/example/watwallet/data/repository/TransactionRepositoryImpl.kt:143-156 | an income is listed exactly when it has a job reference and a date, with its id, type, base+tips total and date, described "Salary from " and the referenced job's position, or "null" when that job or its position is missing |
| Ledger.ToExpenseTransaction | app/src/main/java/com/example/watwallet/data/repository/TransactionRepositoryImpl.kt:158-170 | an expense is listed exactly when it has an amount and a date; a missing description reads "No Description" |
| Ledger.Insert | app/src/main/java/com/example/watwallet/data/repository/TransactionRepositoryImpl.kt:173-174 | inserting into a newest-first list keeps it newest-first and adds exactly that entry |
| Ledger.SortByDateDesc | app/src/main/java/com/example/watwallet/data/repository/TransactionRepositoryImpl.kt:173-174 | `sortedByDescending { it.date }` returns a newest-first permutation of its input |
| Ledger.SortByDateDescStable | app/src/main/java/com/example/watwallet/data/repository/TransactionRepositoryImpl.kt:173-174 | the sort is stable: entries of one date keep their original order |
| Ledger.StableOrderUnique | app/src/main/java/com/example/watwallet/data/repository/TransactionRepositoryImpl.kt:173-174 | any two newest-first lists with the same per-date runs are equal, so the stable sort is determined |
| Ledger.GetAllTransactions | app/src/main/java/com/example/watwallet/data/repository/TransactionRepositoryImpl.kt:125-182 | the ledger is newest first and is a permutation of the user's listed incomes and expenses |
| Ledger.IncomesFirstOnEqualDates | app/src/main/java/com/example/watwallet/data/repository/TransactionRepositoryImpl.kt:173-174 | within one date, incomes precede expenses, each in store order |
| Ledger.TotalsOverAllRecords | app/src/main/java/com/example/watwallet/data/repository/TransactionRepositoryImpl.kt:133-140 | earnings sum base+tips over every income of the user; expenses sum every amount |
| Ledger.StoreOrderIrrelevant | app/src/main/java/com/example/watwallet/data/repository/TransactionRepositoryImpl.kt:127-174 | permuting the snapshots changes neither total nor the multiset of listed entries |
| Ledger.TotalsIncludeUnlisted | app/src/main/java/com/example/watwallet/data/repository/TransactionRepositoryImpl.kt:133-170 | each total equals the listed entries' amounts plus those of the user's records that are not listed |
| Ledger.UndatedIncomeStillCounted | app/src/main/java/com/example/watwallet/data/repository/TransactionRepositoryImpl.kt:133-156 | an income without a date counts in the earnings but is not listed, so the totals need not match the list |
| Ledger.ListedEntries | app/src/main/java/com/example/watwallet/data/repository/TransactionRepositoryImpl.kt:143-174 | an entry is in the ledger exactly when it comes from an income or an expense of the user |
| Ledger.IncomeListedIff | app/src/main/java/com/example/watwallet/data/repository/TransactionRepositoryImpl.kt:143-156 | an income record is listed exactly when it is the user's and has a job reference and a date |
| Ledger.ExpenseListedIff | app/src/main/java/com/example/watwallet/data/repository/TransactionRepositoryImpl.kt:158-170 | an expense record is listed exactly when it is the user's and has an amount and a date |
| TransactionRepository.GetExpense | app/src/main/java/com/example/watwallet/data/repository/TransactionRepositoryImpl.kt:47-66 | found exactly when the document exists and has a user reference, with its id and user id |
| TransactionRepository.GetIncome | app/src/main/java/com/example/watwallet/data/repository/TransactionRepositoryImpl.kt:68-98 | found exactly when the document has job and user references and the job is found under that user |
| TransactionRepository.AddExpenseThenGet | app/src/main/java/com/example/watwallet/data/repository/TransactionRepositoryImpl.kt:33-66 | an added expense reads back with the submitted values |
| TransactionRepository.AddIncomeThenGet | app/src/main/java/com/example/watwallet/data/repository/TransactionRepositoryImpl.kt:17-98 | an added income reads back with the submitted values when its job resolves, and not otherwise |
| TransactionRepository.UpdateExpenseThenGet | app/src/main/java/com/example/watwallet/data/repository/TransactionRepositoryImpl.kt:100-109 | after `updateExpense` the expense reads back with the four new values and its old season and user |
| TransactionRepository.UpdateIncomeThenGet | app/src/main/java/com/example/watwallet/data/repository/TransactionRepositoryImpl.kt:111-123 | after `updateIncome` the income reads back with the new values and its old season and user |
| TransactionRepository.UpdatedIncomeLosesPosition | app/src/main/java/com/example/watwallet/data/repository/TransactionRepositoryImpl.kt:111-123 | `updateIncome` points the job reference at the top-level `jobs` collection, so the ledger then reads "Salary from null" when no such document exists |
| TransactionRepository.AddedIncomeShowsPosition | app/src/main/java/com/example/watwallet/data/repository/TransactionRepositoryImpl.kt:17-31 | an income added for a job with a position is listed as "Salary from <position>" |
| TransactionRepository.AbsentExpenseNotListed | app/src/main/java/com/example/watwallet/data/repository/TransactionRepositoryImpl.kt:188-190 | a deleted (absent) expense is never listed |
| TransactionRepository.AbsentIncomeNotListed | app/src/main/java/com/example/watwallet/data/repository/TransactionRepositoryImpl.kt:184-186 | a deleted (absent) income is never listed |
| TransactionRepository.AddedExpenseListed | app/src/main/java/com/example/watwallet/data/repository/TransactionRepositoryImpl.kt:33-45 | an added expense is listed in its user's ledger |
| TransactionRepository.TransactionRepositoryImpl.AddIncome | app/src/main/java/com/example/watwallet/data/repository/TransactionRepositoryImpl.kt:17-31 | stores the income record under the new id and returns its reference |
| TransactionRepository.TransactionRepositoryImpl.AddExpense | app/src/main/java/com/example/watwallet/data/repository/TransactionRepositoryImpl.kt:33-45 | stores the expense record under the new id and returns its reference |
| TransactionRepository.TransactionRepositoryImpl.UpdateExpense | app/src/main/java/com/example/watwallet/data/repository/TransactionRepositoryImpl.kt:100-109 | overwrites four fields of that expense only; a missing document fails and changes nothing |
| TransactionRepository.TransactionRepositoryImpl.UpdateIncome | app/src/main/java/com/example/watwallet/data/repository/TransactionRepositoryImpl.kt:111-123 | overwrites five fields of that income only; a missing document fails and changes nothing |
| TransactionRepository.TransactionRepositoryImpl.DeleteIncome | app/src/main/java/com/example/watwallet/data/repository/TransactionRepositoryImpl.kt:184-186 | removes that income and nothing else |
| TransactionRepository.TransactionRepositoryImpl.DeleteExpense | app/src/main/java/com/example/watwallet/data/repository/TransactionRepositoryImpl.kt:188-190 | removes that expense and nothing else |
| UserRepository.LoadedUser | app/src/main/java/com/example/watwallet/data/repository/UserRepositoryImpl.kt:41-73 | a user exactly when signed in, with a token, a user document and an e-mail, and nothing throws; uid, e-mail and token from the account, missing fields as "" |
| UserRepository.UserRepositoryImpl.constructor | app/src/main/java/com/example/watwallet/data/repository/UserRepositoryImpl.kt:26-31 | starts with an empty cache |
| UserRepository.UserRepositoryImpl.LoadUserData | app/src/main/java/com/example/watwallet/data/repository/UserRepositoryImpl.kt:41-73 | returns the load; a successful load replaces the cache, a failed one leaves it |
| UserRepository.UserRepositoryImpl.GetUser | app/src/main/java/com/example/watwallet/data/repository/UserRepositoryImpl.kt:33-39 | a cached user is returned without loading; otherwise a load |
| UserRepository.UserRepositoryImpl.UpdateUserInfo | app/src/main/java/com/example/watwallet/data/repository/UserRepositoryImpl.kt:77-79 | a load that bypasses the cache |
| UserRepository.UserRepositoryImpl.ClearUserCache | app/src/main/java/com/example/watwallet/data/repository/UserRepositoryImpl.kt:81-83 | empties the cache |
| UserRepository.ClearThenGet | app/src/main/java/com/example/watwallet/data/repository/UserRepositoryImpl.kt:33-39 | after clearing, `getUser` reloads from the current session |
| UserRepository.GetTwice | app/src/main/java/com/example/watwallet/data/repository/UserRepositoryImpl.kt:33-39 | a second `getUser` returns the first one's user even if the session ended |
| Forms.ParsedCheck | app/src/main/java/com/example/watwallet/feature/addtransaction/viewmodel/AddTransactionViewModel.kt:71-79 | number validators succeed exactly on a parse, with no message, and fail with "Incorrect Format" |
| Forms.NonEmptyCheck | app/src/main/java/com/example/watwallet/feature/auth/viewmodel/LoginViewModel.kt:29-41 | sign-in validators fail exactly on null or empty text with the field's message, and succeed with "Success" |
| Forms.ErrorAfterChange | app/src/main/java/com/example/watwallet/feature/addtransaction/viewmodel/AddTransactionViewModel.kt:207-212 | a field change clears the error exactly when the new value validates |
| Forms.ErrorAfterSubmit | app/src/main/java/com/example/watwallet/feature/addtransaction/viewmodel/AddTransactionViewModel.kt:255-258 | a submit shows a verdict's message when it has one and otherwise keeps the error |
| Forms.ErrorAfterFailure | app/src/main/java/com/example/watwallet/feature/auth/viewmodel/LoginViewModel.kt:97-102 | a sign-in submit shows a failing verdict's message and otherwise keeps the error |
| TransactionForms.ValidateFloat | app/src/main/java/com/example/watwallet/feature/addtransaction/viewmodel/AddTransactionViewModel.kt:72-79 | succeeds exactly when the text parses as a float; failure says "Incorrect Format" |
| TransactionForms.ValidateHoursWorked | app/src/main/java/com/example/watwallet/feature/addtransaction/viewmodel/AddTransactionViewModel.kt:117-124 | succeeds exactly when the text parses as an Int |
| TransactionForms.ValidateDescription | app/src/main/java/com/example/watwallet/feature/addtransaction/viewmodel/AddTransactionViewModel.kt:81-87 | fails exactly on the empty description, with "Description cannot be empty" |
| TransactionForms.ValidateJob | app/src/main/java/com/example/watwallet/feature/addtransaction/viewmodel/AddTransactionViewModel.kt:91-97 | fails exactly when no job is selected, with "Job must be selected" |
| TransactionForms.ExpenseEditKeepsExplained | app/src/main/java/com/example/watwallet/feature/addtransaction/viewmodel/AddTransactionViewModel.kt:205-240 | expense edits keep every shown error the failure of its validator on the current value |
| TransactionForms.IncomeEditKeepsExplained | app/src/main/java/com/example/watwallet/feature/addtransaction/viewmodel/AddTransactionViewModel.kt:161-203 | income edits keep every shown error the failure of its validator on the current value |
| TransactionForms.AmountChangeClearsOnlyWhenValid | app/src/main/java/com/example/watwallet/feature/addtransaction/viewmodel/AddTransactionViewModel.kt:207-212 | an amount edit stores the text, clears the error only for a parsable amount, and leaves the other error |
| TransactionForms.ExpenseCheckedShowsFailures | app/src/main/java/com/example/watwallet/feature/addtransaction/viewmodel/AddTransactionViewModel.kt:253-268 | after submit's checks a field shows an error exactly when it fails; the form is valid exactly when none shows |
| TransactionForms.IncomeCheckedShowsFailures | app/src/main/java/com/example/watwallet/feature/addtransaction/viewmodel/AddTransactionViewModel.kt:288-317 | the same for all four income checks |
| AddTransaction.SubmittedIncomeRecord | app/src/main/java/com/example/watwallet/feature/addtransaction/viewmodel/AddTransactionViewModel.kt:319-329 | a submitted income references the job in the user's own jobs, the user, the given season and the parsed values |
| AddTransaction.AddTransactionViewModel.constructor | app/src/main/java/com/example/watwallet/feature/addtransaction/viewmodel/AddTransactionViewModel.kt:138-147 | both forms start at their defaults, with no user and no jobs |
| AddTransaction.AddTransactionViewModel.Init | app/src/main/java/com/example/watwallet/feature/addtransaction/viewmodel/AddTransactionViewModel.kt:149-159 | with no user it signs out, clears the cache and crashes; otherwise it keeps the user, and its jobs are exactly the mapped, non-deleted jobs stored under that user |
| AddTransaction.AddTransactionViewModel.OnExpenseEvent | app/src/main/java/com/example/watwallet/feature/addtransaction/viewmodel/AddTransactionViewModel.kt:205-240 | edits follow `ExpenseAfterEdit`; submit behaves as `AddExpense` |
| AddTransaction.AddTransactionViewModel.AddExpense | app/src/main/java/com/example/watwallet/feature/addtransaction/viewmodel/AddTransactionViewModel.kt:250-283 | an invalid form shows its errors and writes nothing; a valid one adds the expense, reports success and resets, or crashes without a user |
| AddTransaction.AddTransactionViewModel.OnIncomeEvent | app/src/main/java/com/example/watwallet/feature/addtransaction/viewmodel/AddTransactionViewModel.kt:161-203 | edits follow `IncomeAfterEdit`; submit behaves as `AddIncome` |
| AddTransaction.AddTransactionViewModel.AddIncome | app/src/main/java/com/example/watwallet/feature/addtransaction/viewmodel/AddTransactionViewModel.kt:285-333 | an invalid form shows its errors and writes nothing; a valid one adds the income, reports success and resets, or crashes without a user |
| SeasonJobs.FirstCurrentSeason | app/src/main/java/com/example/watwallet/feature/add/viewmodel/AddExpenseViewModel.kt:139 | the season of the first season job whose season is current; none exactly when no season is current |
| SeasonJobs.SeasonJobsJobs | app/src/main/java/com/example/watwallet/feature/add/viewmodel/AddIncomeViewModel.kt:109-111 | the jobs of the season jobs, in order |
| AddExpense.ExpenseRequest | app/src/main/java/com/example/watwallet/feature/add/viewmodel/AddExpenseViewModel.kt:136-145 | the transfer object carries the user, the season, the parsed amount and the form's texts and date |
| AddExpense.AddExpenseViewModel.constructor | app/src/main/java/com/example/watwallet/feature/add/viewmodel/AddExpenseViewModel.kt:69-73 | starts at the default form with no user |
| AddExpense.AddExpenseViewModel.Init | app/src/main/java/com/example/watwallet/feature/add/viewmodel/AddExpenseViewModel.kt:75-84 | with no user it signs out, clears the cache and crashes; otherwise it keeps the user |
| AddExpense.AddExpenseViewModel.OnEvent | app/src/main/java/com/example/watwallet/feature/add/viewmodel/AddExpenseViewModel.kt:86-111 | edits follow `ExpenseAfterEdit`; submit behaves as `AddTransaction` |
| AddExpense.AddExpenseViewModel.ResetState | app/src/main/java/com/example/watwallet/feature/add/viewmodel/AddExpenseViewModel.kt:113-115 | back to the default form |
| AddExpense.AddExpenseViewModel.AddTransaction | app/src/main/java/com/example/watwallet/feature/add/viewmodel/AddExpenseViewModel.kt:117-149 | an invalid form shows its errors; a valid one crashes without a user or current season, and otherwise sends the request, reports success and resets |
| AddIncome.IncomeRequest | app/src/main/java/com/example/watwallet/feature/add/viewmodel/AddIncomeViewModel.kt:189-197 | the transfer object carries the job, user and season ids and the parsed values, hours within Int range |
| AddIncome.PreselectKeepsJobError | app/src/main/java/com/example/watwallet/feature/add/viewmodel/AddIncomeViewModel.kt:112 | preselecting a job leaves an earlier "Job must be selected" error next to a selected job |
| AddIncome.AddIncomeViewModel.constructor | app/src/main/java/com/example/watwallet/feature/add/viewmodel/AddIncomeViewModel.kt:94-99 | starts at the default form with no user and no jobs |
| AddIncome.AddIncomeViewModel.Init | app/src/main/java/com/example/watwallet/feature/add/viewmodel/AddIncomeViewModel.kt:101-114 | with no user it signs out, clears the cache and crashes; otherwise the jobs are the user's season jobs and the first is selected, or it crashes when there are none |
| AddIncome.AddIncomeViewModel.OnEvent | app/src/main/java/com/example/watwallet/feature/add/viewmodel/AddIncomeViewModel.kt:116-152 | edits follow `IncomeAfterEdit`; submit behaves as `AddTransaction` |
| AddIncome.AddIncomeViewModel.ResetState | app/src/main/java/com/example/watwallet/feature/add/viewmodel/AddIncomeViewModel.kt:154-156 | back to the default form, with no job even after loading chose one |
| AddIncome.AddIncomeViewModel.AddTransaction | app/src/main/java/com/example/watwallet/feature/add/viewmodel/AddIncomeViewModel.kt:158-201 | an invalid form shows its errors; a valid one crashes without a user or current season, and otherwise sends the request, reports success and resets |
| Login.ValidateEmail | app/src/main/java/com/example/watwallet/feature/auth/viewmodel/LoginViewModel.kt:29-41 | succeeds exactly on a non-empty e-mail; the message is "Success" or "Email cannot be empty" |
| Login.ValidatePassword | app/src/main/java/com/example/watwallet/feature/auth/viewmodel/LoginViewModel.kt:43-55 | succeeds exactly on a non-empty password; the message is "Success" or "Password cannot be empty" |
| Login.LoginEditKeepsExplained | app/src/main/java/com/example/watwallet/feature/auth/viewmodel/LoginViewModel.kt:69-89 | edits keep every shown error the failure of its validator on the current value |
| Login.LoginCheckedShowsFailures | app/src/main/java/com/example/watwallet/feature/auth/viewmodel/LoginViewModel.kt:95-112 | after the checks a field shows an error exactly when it is empty; the form is valid exactly when none shows |
| Login.LoginTraceShape | app/src/main/java/com/example/watwallet/feature/auth/viewmodel/LoginViewModel.kt:91-123 | loading goes up first; an invalid form never signs in and ends lowered; a valid one signs in once with the form's values and reports exactly one outcome |
| Login.LoginViewModel.constructor | app/src/main/java/com/example/watwallet/feature/auth/viewmodel/LoginViewModel.kt:63-67 | an empty form, loading down |
| Login.LoginViewModel.OnLoginEvent | app/src/main/java/com/example/watwallet/feature/auth/viewmodel/LoginViewModel.kt:69-89 | the form after an edit is `LoginAfterEdit` |
| Login.LoginViewModel.Login | app/src/main/java/com/example/watwallet/feature/auth/viewmodel/LoginViewModel.kt:91-123 | the form shows the checks' errors; the effects are `LoginTrace`; loading stays up only when the error message is missing |
| Register.ValidateEmail | app/src/main/java/com/example/watwallet/feature/auth/viewmodel/RegisterViewModel.kt:39-51 | the sign-in screen's e-mail check: succeeds exactly on a non-empty e-mail; the message is "Success" or "Email cannot be empty" |
| Register.ValidatePassword | app/src/main/java/com/example/watwallet/feature/auth/viewmodel/RegisterViewModel.kt:53-65 | the sign-in screen's password check: succeeds exactly on a non-empty password; the message is "Success" or "Password cannot be empty" |
| Register.ValidateName | app/src/main/java/com/example/watwallet/feature/auth/viewmodel/RegisterViewModel.kt:67-79 | succeeds exactly on a non-empty name, with its message |
| Register.ValidateSurname | app/src/main/java/com/example/watwallet/feature/auth/viewmodel/RegisterViewModel.kt:81-93 | succeeds exactly on a non-empty surname, with its message |
| Register.ValidatePhone | app/src/main/java/com/example/watwallet/feature/auth/viewmodel/RegisterViewModel.kt:95-107 | succeeds exactly on a non-empty phone, with its message |
| Register.RegisterEditKeepsExplained | app/src/main/java/com/example/watwallet/feature/auth/viewmodel/RegisterViewModel.kt:121-162 | edits keep every shown error the failure of its validator on the current value |
| Register.RegisterCheckedShowsFailures | app/src/main/java/com/example/watwallet/feature/auth/viewmodel/RegisterViewModel.kt:164-206 | after the five checks a field shows an error exactly when it is empty; the form is valid exactly when none shows |
| Register.RegisterTraceShape | app/src/main/java/com/example/watwallet/feature/auth/viewmodel/RegisterViewModel.kt:164-223 | loading goes up first; an invalid form lowers it once per empty field and never signs up; a valid one signs up once and reports success or the message, falling back to "Error registering user" |
| Register.CheckFields | app/src/main/java/com/example/watwallet/feature/auth/viewmodel/RegisterViewModel.kt:168-206 | the five checks leave the checked form, one loading-off write per empty field, and an error flag exactly when the form is invalid |
| Register.RegisterViewModel.constructor | app/src/main/java/com/example/watwallet/feature/auth/viewmodel/RegisterViewModel.kt:110-119 | an empty form, loading down |
| Register.RegisterViewModel.OnRegisterEvent | app/src/main/java/com/example/watwallet/feature/auth/viewmodel/RegisterViewModel.kt:121-162 | the form after an edit is `RegisterAfterEdit` |
| Register.RegisterViewModel.Register | app/src/main/java/com/example/watwallet/feature/auth/viewmodel/RegisterViewModel.kt:164-223 | the form shows the checks' errors; the effects are `RegisterTrace`; loading ends down |
| Home.InitialHomeState | app/src/main/java/com/example/watwallet/feature/home/viewmodel/HomeViewModel.kt:24-27 | the screen starts loading with empty totals and no transactions |
| Home.EditDTO | app/src/main/java/com/example/watwallet/feature/home/viewmodel/HomeViewModel.kt:128-138 | the edit form copies the expense's ids, texts and date, with the amount formatted |
| Home.EditTouchesOneField | app/src/main/java/com/example/watwallet/feature/home/viewmodel/HomeViewModel.kt:73-99 | each edit event changes exactly its own field of the selected expense |
| Home.UpdatedExpense | app/src/main/java/com/example/watwallet/feature/home/viewmodel/HomeViewModel.kt:147-157 | the expense to store exists exactly when the amount parses, with the form's other fields |
| Home.UnchangedEditRoundTrip | app/src/main/java/com/example/watwallet/feature/home/viewmodel/HomeViewModel.kt:128-157 | submitting an unedited form stores the expense unchanged when the amount's text parses back to it |
| Home.HomeViewModel.constructor | app/src/main/java/com/example/watwallet/feature/home/viewmodel/HomeViewModel.kt:49-71 | initial state, all flags down, nothing selected |
| Home.HomeViewModel.LoadTransactions | app/src/main/java/com/example/watwallet/feature/home/viewmodel/HomeViewModel.kt:101-106 | loading ends and the overview is the repository's answer for the user |
| Home.HomeViewModel.RefreshTransactions | app/src/main/java/com/example/watwallet/feature/home/viewmodel/HomeViewModel.kt:108-111 | only the overview is replaced |
| Home.HomeViewModel.DeleteTransaction | app/src/main/java/com/example/watwallet/feature/home/viewmodel/HomeViewModel.kt:113-121 | raise deleting, delete, refresh, lower deleting, then success; the finding and editing flows read the deleting flag |
| Home.HomeViewModel.GetExpense | app/src/main/java/com/example/watwallet/feature/home/viewmodel/HomeViewModel.kt:123-142 | a found expense becomes the selection as an edit form; otherwise the selection stays; finding goes up then down |
| Home.HomeViewModel.UnselectExpense | app/src/main/java/com/example/watwallet/feature/home/viewmodel/HomeViewModel.kt:162-164 | the selection is cleared |
| Home.HomeViewModel.OnEditExpenseEvent | app/src/main/java/com/example/watwallet/feature/home/viewmodel/HomeViewModel.kt:73-99 | an edit with nothing selected crashes; otherwise the selection follows `SelectionAfterEdit` |
| Home.HomeViewModel.UpdateExpense | app/src/main/java/com/example/watwallet/feature/home/viewmodel/HomeViewModel.kt:144-160 | with no selection or an unparsable amount it crashes with editing up; otherwise it sends the update and lowers editing |
| Home.HomeViewModel.OnSubmit | app/src/main/java/com/example/watwallet/feature/home/viewmodel/HomeViewModel.kt:88-91 | the update, then the success callback unless the update crashed |
| Profile.AfterLoad | app/src/main/java/com/example/watwallet/feature/profile/viewmodel/ProfileViewModel.kt:29-38 | loading ends and the user is the load's result; a failed load shows the given message, a successful one keeps the error |
| Profile.ProfileViewModel.constructor | app/src/main/java/com/example/watwallet/feature/profile/viewmodel/ProfileViewModel.kt:21-26 | starts loading with no user and no error |
| Profile.ProfileViewModel.Init | app/src/main/java/com/example/watwallet/feature/profile/viewmodel/ProfileViewModel.kt:26-38 | the user from `getUser`, or "Couldn't load user"; a cached user stays cached, and with an empty cache the cache becomes the load's result |
| Profile.ProfileViewModel.Logout | app/src/main/java/com/example/watwallet/feature/profile/viewmodel/ProfileViewModel.kt:40-47 | signs out, clears the cache and the shown user, then reports success |
| Profile.ProfileViewModel.LoadUserInfo | app/src/main/java/com/example/watwallet/feature/profile/viewmodel/ProfileViewModel.kt:49-59 | a fresh load: the user, or "Couldn't load user state"; the cache follows the load |
| Profile.ProfileViewModel.DeleteJob | app/src/main/java/com/example/watwallet/feature/profile/viewmodel/ProfileViewModel.kt:61-66 | requests the soft delete, then reloads the user: the state follows the load, and the cache takes a loaded user and otherwise keeps its old one |
| JobForm.DefaultJobForm | app/src/main/java/com/example/watwallet/feature/profile/job/data/JobUIState.kt:8-17 | empty texts, nothing selected, not loading, both dates today |
| JobForm.EditsAreIndependent | app/src/main/java/com/example/watwallet/feature/profile/job/viewmodel/JobViewModel.kt:60-153 | setters of different fields commute, the same field is last-write-wins, and none touches the location text or loading |
| JobForm.NullableText | app/src/main/java/com/example/watwallet/feature/profile/job/viewmodel/JobViewModel.kt:189 | a missing name is written "null" |
| JobForm.LocationInfoParts | app/src/main/java/com/example/watwallet/feature/profile/job/viewmodel/JobViewModel.kt:189 | the location text is the place name, the separator, then the country name |
| JobForm.SeparatorsDiffer | app/src/main/java/com/example/watwallet/feature/profile/addjob/viewmodel/AddJobViewModel.kt:183-223 | the texts written with ", " and "," always differ, by one character |
| JobForm.Draft | app/src/main/java/com/example/watwallet/feature/profile/job/viewmodel/JobViewModel.kt:182-204 | a job is built exactly when a location and an employer are selected, carrying the form's fields |
| JobForm.FirstAddress | app/src/main/java/com/example/watwallet/feature/profile/job/viewmodel/JobViewModel.kt:168 | no answer is no location, a non-empty answer gives its first address, an empty answer throws |
| JobForm.Filled | app/src/main/java/com/example/watwallet/feature/profile/job/viewmodel/JobViewModel.kt:162-175 | the form takes the fetched job's fields and location, and loading ends |
| JobForm.FilledDraft | app/src/main/java/com/example/watwallet/feature/profile/job/viewmodel/JobViewModel.kt:155-227 | filling then submitting resends the job unchanged except for the location text, which survives only when already in "<place><sep><country>" form |
| JobView.Resolved | app/src/main/java/com/example/watwallet/feature/profile/job/viewmodel/JobViewModel.kt:159-167 | the employer is the reference's id with the document's name or "" |
| JobView.JobViewModel.constructor | app/src/main/java/com/example/watwallet/feature/profile/job/viewmodel/JobViewModel.kt:37-58 | the default form and empty search state |
| JobView.JobViewModel.Init | app/src/main/java/com/example/watwallet/feature/profile/job/viewmodel/JobViewModel.kt:80-83 | the first ten employers become the search results |
| JobView.JobViewModel.OnJobDescriptionChange | app/src/main/java/com/example/watwallet/feature/profile/job/viewmodel/JobViewModel.kt:60-62 | sets only the description; `EditsAreIndependent` gives the setters' independence |
| JobView.JobViewModel.OnSelectStartDate | app/src/main/java/com/example/watwallet/feature/profile/job/viewmodel/JobViewModel.kt:64-69 | sets only the start date |
| JobView.JobViewModel.OnSelectEndDate | app/src/main/java/com/example/watwallet/feature/profile/job/viewmodel/JobViewModel.kt:71-76 | sets only the end date |
| JobView.JobViewModel.SelectEmployer | app/src/main/java/com/example/watwallet/feature/profile/job/viewmodel/JobViewModel.kt:127-129 | sets only the selected employer |
| JobView.JobViewModel.UnselectEmployer | app/src/main/java/com/example/watwallet/feature/profile/job/viewmodel/JobViewModel.kt:131-133 | clears the employer |
| JobView.JobViewModel.OnJobPositionUpdate | app/src/main/java/com/example/watwallet/feature/profile/job/viewmodel/JobViewModel.kt:143-145 | sets only the position |
| JobView.JobViewModel.OnLocationSearchChange | app/src/main/java/com/example/watwallet/feature/profile/job/viewmodel/JobViewModel.kt:147-149 | stores the query |
| JobView.JobViewModel.OnLocationSelect | app/src/main/java/com/example/watwallet/feature/profile/job/viewmodel/JobViewModel.kt:151-153 | sets only the selected location |
| JobView.JobViewModel.OnEmployerFieldChange | app/src/main/java/com/example/watwallet/feature/profile/job/viewmodel/JobViewModel.kt:120-125 | stores the query; a blank one empties the results |
| JobView.JobViewModel.CreateEmployer | app/src/main/java/com/example/watwallet/feature/profile/job/viewmodel/JobViewModel.kt:135-141 | the employer becomes the result, even none; the callback runs only for a created one |
| JobView.JobViewModel.GetJobInfo | app/src/main/java/com/example/watwallet/feature/profile/job/viewmodel/JobViewModel.kt:155-180 | the form is filled from the job, its employer and the geocoded location, then the dates are reported; an empty geocoder answer crashes with loading up |
| JobView.JobViewModel.OnAddJob | app/src/main/java/com/example/watwallet/feature/profile/job/viewmodel/JobViewModel.kt:182-204 | no user, location or employer crashes; otherwise the job is created for the user under the fixed season, then success |
| JobView.JobViewModel.OnUpdateJob | app/src/main/java/com/example/watwallet/feature/profile/job/viewmodel/JobViewModel.kt:206-227 | no location or employer crashes; otherwise the update is sent with an empty user id, then success |
| AddJob.AddThenUpdateRewritesLocation | app/src/main/java/com/example/watwallet/feature/profile/addjob/viewmodel/AddJobViewModel.kt:183-223 | adding then updating from one form sends the same job except the location text, which loses the space after the comma |
| AddJob.AddJobViewModel.constructor | app/src/main/java/com/example/watwallet/feature/profile/addjob/viewmodel/AddJobViewModel.kt:31-62 | the default form and empty search state |
| AddJob.AddJobViewModel.OnJobDescriptionChange | app/src/main/java/com/example/watwallet/feature/profile/addjob/viewmodel/AddJobViewModel.kt:65-67 | sets only the description; `EditsAreIndependent` gives the setters' independence |
| AddJob.AddJobViewModel.OnSelectStartDate | app/src/main/java/com/example/watwallet/feature/profile/addjob/viewmodel/AddJobViewModel.kt:69-76 | sets only the start date |
| AddJob.AddJobViewModel.OnSelectEndDate | app/src/main/java/com/example/watwallet/feature/profile/addjob/viewmodel/AddJobViewModel.kt:78-85 | sets only the end date |
| AddJob.AddJobViewModel.SelectEmployer | app/src/main/java/com/example/watwallet/feature/profile/addjob/viewmodel/AddJobViewModel.kt:130-132 | sets only the selected employer |
| AddJob.AddJobViewModel.UnselectEmployer | app/src/main/java/com/example/watwallet/feature/profile/addjob/viewmodel/AddJobViewModel.kt:134-136 | clears the employer |
| AddJob.AddJobViewModel.OnJobPositionUpdate | app/src/main/java/com/example/watwallet/feature/profile/addjob/viewmodel/AddJobViewModel.kt:146-148 | sets only the position |
| AddJob.AddJobViewModel.OnLocationSearchChange | app/src/main/java/com/example/watwallet/feature/profile/addjob/viewmodel/AddJobViewModel.kt:150-152 | stores the query |
| AddJob.AddJobViewModel.OnLocationSelect | app/src/main/java/com/example/watwallet/feature/profile/addjob/viewmodel/AddJobViewModel.kt:154-156 | sets only the selected location |
| AddJob.AddJobViewModel.OnEmployerFieldChange | app/src/main/java/com/example/watwallet/feature/profile/addjob/viewmodel/AddJobViewModel.kt:123-128 | stores the query; a blank one empties the results |
| AddJob.AddJobViewModel.CreateEmployer | app/src/main/java/com/example/watwallet/feature/profile/addjob/viewmodel/AddJobViewModel.kt:138-144 | the employer becomes the result; the callback runs only for a created one |
| AddJob.AddJobViewModel.GetJobInfo | app/src/main/java/com/example/watwallet/feature/profile/addjob/viewmodel/AddJobViewModel.kt:158-181 | a missing job only ends loading; a found one fills the form and reports its dates; an empty geocoder answer crashes |
| AddJob.AddJobViewModel.OnAddJob | app/src/main/java/com/example/watwallet/feature/profile/addjob/viewmodel/AddJobViewModel.kt:183-202 | no location or employer crashes; otherwise the job with location text "<place>, <country>", then success |
| AddJob.AddJobViewModel.OnUpdateJob | app/src/main/java/com/example/watwallet/feature/profile/addjob/viewmodel/AddJobViewModel.kt:204-223 | the same with location text "<place>,<country>" |
| Navigation.Instantiate | app/src/main/java/com/example/watwallet/core/navigation/NavigationItem.kt:19-31 | a template is filled exactly when it ends with the placeholder, which the value replaces |
| Navigation.RouteBuildersFillTemplates | app/src/main/java/com/example/watwallet/core/navigation/NavigationItem.kt:19-31 | `createRoute` and both `createUpdateRoute`s fill their destination's template |
| Navigation.DefaultRoutes | app/src/main/java/com/example/watwallet/core/navigation/NavigationItem.kt:12-29 | the add default is its route for tab 0, parameterless destinations default to their template, and "addJob/null" differs from the filled add-job template only in case |
| Navigation.RouteLeadsBack | app/src/main/java/com/example/watwallet/core/navigation/NavigationItem.kt:14-32 | reading a destination's template back gives that destination |
| Navigation.RoutesDistinct | app/src/main/java/com/example/watwallet/core/navigation/NavigationItem.kt:14-32 | no two destinations share a route template |
| Navigation.BarItems | app/src/main/java/com/example/watwallet/core/navigation/NavigationItem.kt:35-39 | the bar shows Home, Add and Profile, in order |
| MoneyInput.AcceptsIsRegex | app/src/main/java/com/example/watwallet/ui/components/MoneyInputField.kt:34 | the computed test accepts exactly the texts matching `^\d*\.?\d{0,2}$` |
| MoneyInput.OnValueChange | app/src/main/java/com/example/watwallet/ui/components/MoneyInputField.kt:33-37 | an accepted edit replaces the value; a rejected one leaves it |
| MoneyInput.AcceptedShape | app/src/main/java/com/example/watwallet/ui/components/MoneyInputField.kt:34 | accepted text is the digits 0-9 with at most one point and at most two digits after it |
| MoneyInput.ForeignCharRejected | app/src/main/java/com/example/watwallet/ui/components/MoneyInputField.kt:34 | any character other than a digit or a point is refused |
| MoneyInput.PrefixClosed | app/src/main/java/com/example/watwallet/ui/components/MoneyInputField.kt:33-37 | every prefix of an accepted text is accepted, so deleting from the end never locks the field |
| MoneyInput.Examples | app/src/main/java/com/example/watwallet/ui/components/MoneyInputField.kt:34 | partial amounts are accepted; signs, exponents, commas, spaces and a third decimal are not |

## Left out

- Floating point: `Float`/`Double` rounding, `toFloatOrNull`/`toFloat` and `toString()` of amounts are opaque functions. The model assumes nothing about what they parse or print, only what the app does with their answers.
- Timestamps and time zones: instants and `LocalDate`s are integer day numbers, and the millisecond-to-date conversions of the date pickers are not modelled.
- Text.ToIntOrNull: reads only the ASCII digits 0-9. Kotlin's `toIntOrNull` also accepts other Unicode decimal digits, which the model rejects.
- Text.Lowercase: maps only the ASCII letters A-Z. Unicode case mapping of other letters is not modelled.
- `isBlank()` uses the whitespace of `Char.isWhitespace()`: U+0009-U+000D, U+001C-U+0020, U+00A0, U+1680, U+2000-U+200A, U+2028, U+2029, U+202F, U+205F and U+3000.
- MoneyInput.AcceptsIsRegex: reads `\d` in `^\d*\.?\d{0,2}$` as the ASCII digits 0-9. Android's regular expressions also match other Unicode decimal digits there, which the model refuses.
- Exceptions: a Firestore call that throws in a `try` block is a failed answer given as a parameter. Network errors and retries are not modelled.
- The authentication backend: sign-in and sign-up answers and the signed-in account are parameters. `AuthRepository`'s implementation is not part of this model.
- The Android geocoder is a parameter giving its answer for a location text. The debounced employer and location search pipelines started in the job screens' `init` are left out; they are timing-driven flows.
- Coroutines run one body at a time, atomically. Interleavings of concurrent launches are not modelled. In particular, `OnSubmit` on the home screen reports success without waiting for the update launched just before it.
- Some view models call repository interfaces whose signatures the implementations in the core do not match: the legacy add screens, the home screen, both job screens and profile's `softDeleteJob`. Their calls are logged as request effects, and the answers are parameters.
- `HomeViewModel` reads `Firebase.auth.currentUser!!` at construction. The model takes the user id as a constructor argument, so construction without a signed-in user (a crash) is not modelled.
- The current job screen sends the employer as a document reference built from its uid. The model sends the employer record.
- Dependency injection, Compose screens, navigation hosts and logging are not modelled.
- AddIncome.AddIncomeViewModel.Init: its validity promise is weaker than that of the other events. When a job error is already shown, preselecting the first season job leaves the error "Job must be selected" next to a selected job, so `Valid()` is kept only when no job error was shown or nothing changed (see `AddIncome.PreselectKeepsJobError`).
