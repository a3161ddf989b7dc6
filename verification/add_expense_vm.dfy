/**
 * The older add-expense screen (`feature/add`). Its form, events and
 * validators are the expense form of `TransactionForms`; what differs is
 * the submit, which files the expense under the user's first current
 * season and hands a transfer object to a repository call whose
 * implementation is not part of this model, so the call is recorded as a
 * request.
 */
module AddExpense {
  import opened Common
  import opened Forms
  import opened TransactionForms
  import opened SeasonJobs

  /** `CreateExpenseDTO`, with the date already a day number. */
  datatype CreateExpenseDTO = CreateExpenseDTO(
    userId: string,
    seasonId: string,
    amount: real,
    description: string,
    tag: string,
    date: int)

  /** The outside calls and callbacks, in the order they happen. */
  datatype Effect = Logout | ClearUserCache | Crash | AddExpenseRequest(dto: CreateExpenseDTO) | Success

  /** The transfer object a valid form sends for user `u` in season `season`. */
  function ExpenseRequest(s: ExpenseForm, parse: FloatParser, u: SeasonUser, season: Season): (r: CreateExpenseDTO)
    requires ExpenseValid(s, parse)
    ensures r.userId == u.uid && r.seasonId == season.id
    ensures Some(r.amount) == parse(s.amount)
    ensures r.description == s.description && r.description != ""
    ensures r.tag == s.tag && r.date == s.date
  {
    CreateExpenseDTO(u.uid, season.id, parse(s.amount).value, s.description, s.tag, s.date)
  }

  class AddExpenseViewModel {
    const parseFloat: FloatParser
    var state: ExpenseForm
    /** The `lateinit` user: `None` until the loading coroutine has assigned it. */
    var user: Option<SeasonUser>
    var effects: seq<Effect>

    predicate Valid()
      reads this
    {
      ExpenseExplained(state, parseFloat)
    }

    constructor (parseFloat: FloatParser, today: int)
      ensures Valid()
      ensures this.parseFloat == parseFloat
      ensures state == DefaultExpenseForm(today) && user.None? && effects == []
    {
      this.parseFloat := parseFloat;
      state := DefaultExpenseForm(today);
      user, effects := None, [];
    }

    /**
     * The loading coroutine started by `init`, given what `getUser` returned.
     * Without a user it signs out, clears the cache and dies on `userResult!!`.
     */
    method Init(userResult: Option<SeasonUser>)
      requires Valid()
      modifies this`user, this`effects
      ensures Valid()
      ensures userResult.None? ==> user == old(user) && effects == old(effects) + [Logout, ClearUserCache, Crash]
      ensures userResult.Some? ==> user == userResult && effects == old(effects)
    {
      if userResult.None? {
        effects := effects + [Logout, ClearUserCache, Crash];
        return;
      }
      user := userResult;
    }

    /** `onEvent`; `today` is the date a reset puts back. */
    method OnEvent(e: ExpenseEvent, today: int)
      requires Valid()
      modifies this`state, this`effects
      ensures Valid()
      ensures !e.ExpenseSubmit? ==> state == ExpenseAfterEdit(old(state), e, parseFloat, today) && effects == old(effects)
      ensures e.ExpenseSubmit? ==> SubmitOutcome(old(state), old(effects), today)
    {
      match e
      case AmountChanged(a) =>
        state := state.(amount := a);
        if ValidateFloat(parseFloat, a).isSuccess && state.amountError.Some? {
          state := state.(amountError := None);
        }
      case DescriptionChanged(d) =>
        state := state.(description := d);
        if ValidateDescription(d).isSuccess && state.descriptionError.Some? {
          state := state.(descriptionError := None);
        }
      case ExpenseCancel =>
        ResetState(today);
      case ExpenseSubmit =>
        AddTransaction(today);
      case ExpenseDateChanged(d) =>
        state := state.(date := d);
      case TagChanged(t) =>
        state := state.(tag := t);
    }

    /** `resetState`. */
    method ResetState(today: int)
      modifies this`state
      ensures state == DefaultExpenseForm(today) && Valid()
    {
      state := DefaultExpenseForm(today);
    }

    /**
     * What a submit leaves, from form `s0` and effects `e0`: an invalid form
     * shows its errors and sends nothing; a valid one dies when there is no
     * user yet or no current season, and otherwise sends the request,
     * reports success and resets.
     */
    ghost predicate SubmitOutcome(s0: ExpenseForm, e0: seq<Effect>, today: int)
      reads this
    {
      if !ExpenseValid(s0, parseFloat) then
        state == ExpenseChecked(s0, parseFloat) && effects == e0
      else if user.None? || FirstCurrentSeason(user.value.seasonJobs).None? then
        state == s0 && effects == e0 + [Crash]
      else
        && effects == e0 + [AddExpenseRequest(ExpenseRequest(s0, parseFloat, user.value,
                                                              FirstCurrentSeason(user.value.seasonJobs).value)), Success]
        && state == DefaultExpenseForm(today)
    }

    /** `addTransaction`: validate both fields, then send the expense, report success and reset. */
    method AddTransaction(today: int)
      requires Valid()
      modifies this`state, this`effects
      ensures Valid()
      ensures SubmitOutcome(old(state), old(effects), today)
    {
      ghost var s0 := state;
      ExpenseCheckedShowsFailures(s0, parseFloat);
      var hasError := false;
      var amountResult := ValidateFloat(parseFloat, state.amount);
      if amountResult.message.Some? {
        state := state.(amountError := amountResult.message);
        hasError := true;
      }
      var descriptionResult := ValidateDescription(state.description);
      if descriptionResult.message.Some? {
        state := state.(descriptionError := descriptionResult.message);
        hasError := true;
      }
      assert state == ExpenseChecked(s0, parseFloat);
      if hasError {
        return;
      }
      if user.None? {
        effects := effects + [Crash];
        return;
      }
      var season := FirstCurrentSeason(user.value.seasonJobs);
      if season.None? {
        effects := effects + [Crash];
        return;
      }
      var dto := CreateExpenseDTO(user.value.uid, season.value.id, parseFloat(state.amount).value,
        state.description, state.tag, state.date);
      effects := effects + [AddExpenseRequest(dto), Success];
      ResetState(today);
    }
  }
}
