/**
 * The home screen: the overview of totals and transactions, deleting a
 * transaction, and the edit-expense dialog over a selected expense. The
 * screen is written against an older repository interface (an overview
 * with the totals as text, an expense carrying its own id, season id and
 * user id, a delete by id and type) that the repository implementation
 * modelled here does not provide, so its repository calls are recorded
 * as requests and their answers are parameters.
 */
module Home {
  import opened Common
  import opened Forms
  import opened TransactionsRepository

  /** `OverallTransactionsDTO`; the entries are kept abstract as `T`. */
  datatype Overview<T> = Overview(earnings: string, expenses: string, transactions: seq<T>)

  /** `HomeScreenUIState`. */
  datatype HomeScreenState<T> = HomeScreenState(loading: bool, transactionsInfo: Overview<T>)

  /** The state before the first load: loading, with empty totals and no entries. */
  function InitialHomeState<T>(): (r: HomeScreenState<T>)
    ensures r.loading && r.transactionsInfo.earnings == "" && r.transactionsInfo.expenses == ""
    ensures r.transactionsInfo.transactions == []
  {
    HomeScreenState(true, Overview("", "", []))
  }

  /** The expense as the older interface returns it; the date is a day number. */
  datatype StoredExpense = StoredExpense(
    uid: string,
    amount: real,
    date: int,
    description: string,
    seasonId: string,
    userId: string,
    tag: string)

  /** `ExpenseEditDTO`: the selected expense, with the amount as editable text. */
  datatype ExpenseEditDTO = ExpenseEditDTO(
    uid: string,
    amount: string,
    date: int,
    description: string,
    seasonId: string,
    tag: string,
    userId: string)

  /** `Float.toString()`: how the amount is written into the edit field; kept abstract. */
  type FloatFormatter = real -> string

  /** `EditExpenseFormEvent` other than submit, which is `OnSubmit` below. */
  datatype EditExpenseEvent =
    | AmountChanged(amount: string)
    | DescriptionChanged(description: string)
    | TagChanged(tag: string)
    | SelectedDateChanged(date: int)
    | Cancel

  /** Flag writes, repository requests and callbacks, in the order they happen. */
  datatype Effect =
    | Deleting(on: bool)
    | Finding(on: bool)
    | Editing(on: bool)
    | FetchAllRequest(userId: string)
    | DeleteRequest(id: string, transactionType: TransactionType)
    | FetchExpenseRequest(id: string)
    | UpdateExpenseRequest(expense: StoredExpense)
    | Success
    | Crash

  /** What `getExpense` puts into the dialog for a fetched expense. */
  function EditDTO(e: StoredExpense, format: FloatFormatter): (r: ExpenseEditDTO)
    ensures r.uid == e.uid && r.seasonId == e.seasonId && r.userId == e.userId
    ensures r.amount == format(e.amount) && r.date == e.date
    ensures r.description == e.description && r.tag == e.tag
  {
    ExpenseEditDTO(e.uid, format(e.amount), e.date, e.description, e.seasonId, e.tag, e.userId)
  }

  /**
   * The selection after an edit event, `None` where `it!!` throws: each
   * field event needs a selected expense and changes only its own field;
   * cancel clears the selection.
   */
  function SelectionAfterEdit(selected: Option<ExpenseEditDTO>, e: EditExpenseEvent): Option<ExpenseEditDTO>
    requires selected.Some? || e.Cancel?
  {
    match e
    case AmountChanged(a) => Some(selected.value.(amount := a))
    case DescriptionChanged(d) => Some(selected.value.(description := d))
    case TagChanged(t) => Some(selected.value.(tag := t))
    case SelectedDateChanged(d) => Some(selected.value.(date := d))
    case Cancel => None
  }

  /** An edit changes exactly the field it names and keeps the expense's identity, season and owner. */
  lemma EditTouchesOneField(selected: Option<ExpenseEditDTO>, e: EditExpenseEvent)
    requires selected.Some? && !e.Cancel?
    ensures var r := SelectionAfterEdit(selected, e).value;
            var s := selected.value;
            && r.uid == s.uid && r.seasonId == s.seasonId && r.userId == s.userId
            && (e.AmountChanged? ==> r == s.(amount := e.amount))
            && (e.DescriptionChanged? ==> r == s.(description := e.description))
            && (e.TagChanged? ==> r == s.(tag := e.tag))
            && (e.SelectedDateChanged? ==> r == s.(date := e.date))
  {
  }

  /**
   * The expense `updateExpense` sends for the selection, `None` where the
   * amount text is not a float (`toFloat()` throws): the edited amount,
   * date, description and tag under the selected expense's id, season and
   * user.
   */
  function UpdatedExpense(dto: ExpenseEditDTO, parse: FloatParser): (r: Option<StoredExpense>)
    ensures r.None? <==> parse(dto.amount).None?
    ensures r.Some? ==>
              && r.value.uid == dto.uid && r.value.seasonId == dto.seasonId && r.value.userId == dto.userId
              && Some(r.value.amount) == parse(dto.amount)
              && r.value.date == dto.date && r.value.description == dto.description && r.value.tag == dto.tag
  {
    match parse(dto.amount)
    case None => None
    case Some(a) => Some(StoredExpense(dto.uid, a, dto.date, dto.description, dto.seasonId, dto.userId, dto.tag))
  }

  /** Selecting a fetched expense and submitting it unedited sends back what was fetched when the text form of the amount reads back as the amount. */
  lemma UnchangedEditRoundTrip(e: StoredExpense, format: FloatFormatter, parse: FloatParser)
    requires parse(format(e.amount)) == Some(e.amount)
    ensures UpdatedExpense(EditDTO(e, format), parse) == Some(e)
  {
  }

  class HomeViewModel<T> {
    /** The signed-in user's id, read once at construction. */
    const userId: string
    const parseFloat: FloatParser
    const formatFloat: FloatFormatter
    var state: HomeScreenState<T>
    var deleting: bool
    var finding: bool
    var editing: bool
    var selectedExpense: Option<ExpenseEditDTO>
    var effects: seq<Effect>

    /** The exposed `finding` flow, which reads the deleting flag. */
    function FindingFlow(): bool
      reads this
    {
      deleting
    }

    /** The exposed `editing` flow, which reads the deleting flag too. */
    function EditingFlow(): bool
      reads this
    {
      deleting
    }

    /** The fields as constructed; `init`'s load is `LoadTransactions`. */
    constructor (userId: string, parseFloat: FloatParser, formatFloat: FloatFormatter)
      ensures this.userId == userId && this.parseFloat == parseFloat && this.formatFloat == formatFloat
      ensures state == InitialHomeState() && !deleting && !finding && !editing
      ensures selectedExpense.None? && effects == []
    {
      this.userId := userId;
      this.parseFloat := parseFloat;
      this.formatFloat := formatFloat;
      state := InitialHomeState();
      deleting, finding, editing := false, false, false;
      selectedExpense := None;
      effects := [];
    }

    /** `loadTransactions`, with `result` what the repository returns for the user. */
    method LoadTransactions(result: Overview<T>)
      modifies this`state, this`effects
      ensures state == HomeScreenState(false, result)
      ensures effects == old(effects) + [FetchAllRequest(userId)]
    {
      effects := effects + [FetchAllRequest(userId)];
      state := state.(loading := false, transactionsInfo := result);
    }

    /** `refreshTransactions`: like the load, but the loading flag is left as it is. */
    method RefreshTransactions(result: Overview<T>)
      modifies this`state, this`effects
      ensures state == old(state).(transactionsInfo := result)
      ensures effects == old(effects) + [FetchAllRequest(userId)]
    {
      effects := effects + [FetchAllRequest(userId)];
      state := state.(transactionsInfo := result);
    }

    /**
     * `deleteTransaction`, with `refreshed` what the refresh returns: raise
     * the deleting flag, delete, refresh, lower the flag, report success.
     */
    method DeleteTransaction(id: string, transactionType: TransactionType, refreshed: Overview<T>)
      modifies this`state, this`deleting, this`effects
      ensures state == old(state).(transactionsInfo := refreshed) && !deleting
      ensures effects == old(effects) + [Deleting(true), DeleteRequest(id, transactionType),
                                         FetchAllRequest(userId), Deleting(false), Success]
      ensures !FindingFlow() && !EditingFlow()
    {
      deleting := true;
      effects := effects + [Deleting(true), DeleteRequest(id, transactionType)];
      RefreshTransactions(refreshed);
      deleting := false;
      effects := effects + [Deleting(false), Success];
    }

    /**
     * `getExpense`, with `found` what the repository returns: the finding
     * flag goes up and down around the fetch, a found expense becomes the
     * selection, and a missing one leaves the selection as it was. The
     * exposed finding flow does not move at all.
     */
    method GetExpense(id: string, found: Option<StoredExpense>)
      modifies this`finding, this`selectedExpense, this`effects
      ensures selectedExpense == if found.Some? then Some(EditDTO(found.value, formatFloat)) else old(selectedExpense)
      ensures !finding
      ensures effects == old(effects) + [Finding(true), FetchExpenseRequest(id), Finding(false)]
      ensures FindingFlow() == old(FindingFlow())
    {
      finding := true;
      effects := effects + [Finding(true), FetchExpenseRequest(id)];
      if found.Some? {
        selectedExpense := Some(EditDTO(found.value, formatFloat));
      }
      finding := false;
      effects := effects + [Finding(false)];
    }

    /** `unselectExpense`. */
    method UnselectExpense()
      modifies this`selectedExpense
      ensures selectedExpense.None?
    {
      selectedExpense := None;
    }

    /** `onEditExpenseEvent` for the field events and cancel; a field event with nothing selected dies on `it!!`. */
    method OnEditExpenseEvent(e: EditExpenseEvent)
      modifies this`selectedExpense, this`effects
      ensures old(selectedExpense).None? && !e.Cancel? ==>
                selectedExpense == old(selectedExpense) && effects == old(effects) + [Crash]
      ensures old(selectedExpense).Some? || e.Cancel? ==>
                selectedExpense == SelectionAfterEdit(old(selectedExpense), e) && effects == old(effects)
    {
      if e.Cancel? {
        UnselectExpense();
        return;
      }
      if selectedExpense.None? {
        effects := effects + [Crash];
        return;
      }
      match e
      case AmountChanged(a) => selectedExpense := Some(selectedExpense.value.(amount := a));
      case DescriptionChanged(d) => selectedExpense := Some(selectedExpense.value.(description := d));
      case TagChanged(t) => selectedExpense := Some(selectedExpense.value.(tag := t));
      case SelectedDateChanged(d) => selectedExpense := Some(selectedExpense.value.(date := d));
    }

    /**
     * `updateExpense`: raise the editing flag, send the selection with its
     * amount parsed, lower the flag. Nothing selected (`!!`) or an amount
     * that is not a float (`toFloat()`) dies after the flag went up.
     */
    method UpdateExpense()
      modifies this`editing, this`effects
      ensures selectedExpense.None? || UpdatedExpense(selectedExpense.value, parseFloat).None? ==>
                editing && effects == old(effects) + [Editing(true), Crash]
      ensures selectedExpense.Some? && UpdatedExpense(selectedExpense.value, parseFloat).Some? ==>
                && !editing
                && effects == old(effects) + [Editing(true),
                                              UpdateExpenseRequest(UpdatedExpense(selectedExpense.value, parseFloat).value),
                                              Editing(false)]
    {
      editing := true;
      effects := effects + [Editing(true)];
      if selectedExpense.None? {
        effects := effects + [Crash];
        return;
      }
      var update := UpdatedExpense(selectedExpense.value, parseFloat);
      if update.None? {
        effects := effects + [Crash];
        return;
      }
      effects := effects + [UpdateExpenseRequest(update.value)];
      editing := false;
      effects := effects + [Editing(false)];
    }

    /** The submit event: start the update, then report success without waiting on its outcome. */
    method OnSubmit()
      modifies this`editing, this`effects
      ensures var ok := selectedExpense.Some? && UpdatedExpense(selectedExpense.value, parseFloat).Some?;
              && (!ok ==> effects == old(effects) + [Editing(true), Crash])
              && (ok ==> effects == old(effects) + [Editing(true),
                                                    UpdateExpenseRequest(UpdatedExpense(selectedExpense.value, parseFloat).value),
                                                    Editing(false), Success])
    {
      UpdateExpense();
      if effects[|effects| - 1] == Crash {
        return;
      }
      effects := effects + [Success];
    }
  }
}
