/**
 * The older add-income screen (`feature/add`). Its form, events and
 * validators are the income form of `TransactionForms` over season jobs.
 * Loading preselects the user's first job; the submit files the income
 * under the user's first current season and hands a transfer object to a
 * repository call whose implementation is not part of this model, so the
 * call is recorded as a request.
 */
module AddIncome {
  import opened Common
  import opened Text
  import opened Forms
  import opened TransactionForms
  import opened SeasonJobs

  /** `CreateIncomeDTO`, with the date already a day number. */
  datatype CreateIncomeDTO = CreateIncomeDTO(
    jobId: string,
    userId: string,
    seasonId: string,
    baseEarned: real,
    tipsEarned: real,
    hoursWorked: int,
    date: int)

  /** The outside calls and callbacks, in the order they happen. */
  datatype Effect = Logout | ClearUserCache | Crash | AddIncomeRequest(dto: CreateIncomeDTO) | Success

  type Form = IncomeForm<SeasonJobJob>

  /** The transfer object a valid form sends for user `u` in season `season`. */
  function IncomeRequest(s: Form, parse: FloatParser, u: SeasonUser, season: Season): (r: CreateIncomeDTO)
    requires IncomeValid(s, parse)
    ensures r.jobId == s.job.value.uid && r.userId == u.uid && r.seasonId == season.id
    ensures Some(r.baseEarned) == parse(s.baseEarned) && Some(r.tipsEarned) == parse(s.tipsEarned)
    ensures Some(r.hoursWorked) == ToIntOrNull(s.totalHoursWorked) && IntMin <= r.hoursWorked <= IntMax
    ensures r.date == s.date
  {
    CreateIncomeDTO(s.job.value.uid, u.uid, season.id, parse(s.baseEarned).value, parse(s.tipsEarned).value,
      ToIntOrNull(s.totalHoursWorked).value, s.date)
  }

  /**
   * Preselecting a job does not touch the job error: a "Job must be selected"
   * shown by a submit made before loading finished stays next to the job
   * loading then selects.
   */
  lemma PreselectKeepsJobError(s: Form, j: SeasonJobJob, parse: FloatParser)
    requires s.jobError == Some(JobMissing)
    ensures var t := s.(job := Some(j));
            t.job.Some? && t.jobError == Some(JobMissing) && !IncomeExplained(t, parse)
  {
  }

  class AddIncomeViewModel {
    const parseFloat: FloatParser
    var state: Form
    /** The `lateinit` user: `None` until the loading coroutine has assigned it. */
    var user: Option<SeasonUser>
    var jobs: seq<SeasonJobJob>
    var effects: seq<Effect>

    predicate Valid()
      reads this
    {
      IncomeExplained(state, parseFloat)
    }

    constructor (parseFloat: FloatParser, today: int)
      ensures Valid()
      ensures this.parseFloat == parseFloat
      ensures state == DefaultIncomeForm(today) && user.None? && jobs == [] && effects == []
    {
      this.parseFloat := parseFloat;
      state := DefaultIncomeForm(today);
      user, jobs, effects := None, [], [];
    }

    /**
     * The loading coroutine started by `init`, given what `getUser` returned.
     * Without a user it signs out, clears the cache and dies on `userResult!!`.
     * With one, the jobs are the user's season jobs in order and the first
     * is selected; `jobs.first()` dies when there are none.
     */
    method Init(userResult: Option<SeasonUser>)
      requires Valid()
      modifies this`user, this`jobs, this`state, this`effects
      ensures old(state).jobError.None? || state == old(state) ==> Valid()
      ensures userResult.None? ==>
                && user == old(user) && jobs == old(jobs) && state == old(state)
                && effects == old(effects) + [Logout, ClearUserCache, Crash]
      ensures userResult.Some? ==>
                && user == userResult
                && jobs == SeasonJobsJobs(userResult.value.seasonJobs)
      ensures userResult.Some? && jobs == [] ==> state == old(state) && effects == old(effects) + [Crash]
      ensures userResult.Some? && jobs != [] ==>
                && state == old(state).(job := Some(userResult.value.seasonJobs[0].job))
                && effects == old(effects)
    {
      if userResult.None? {
        effects := effects + [Logout, ClearUserCache, Crash];
        return;
      }
      user := userResult;
      jobs := SeasonJobsJobs(user.value.seasonJobs);
      if jobs == [] {
        effects := effects + [Crash];
        return;
      }
      state := state.(job := Some(jobs[0]));
    }

    /** `onEvent`; `today` is the date a reset puts back. */
    method OnEvent(e: IncomeEvent<SeasonJobJob>, today: int)
      requires Valid()
      modifies this`state, this`effects
      ensures Valid()
      ensures !e.IncomeSubmit? ==> state == IncomeAfterEdit(old(state), e, parseFloat, today) && effects == old(effects)
      ensures e.IncomeSubmit? ==> SubmitOutcome(old(state), old(effects), today)
    {
      match e
      case BaseEarnedChanged(b) =>
        state := state.(baseEarned := b);
        if ValidateFloat(parseFloat, state.baseEarned).isSuccess && state.baseEarnedError.Some? {
          state := state.(baseEarnedError := None);
        }
      case JobChanged(j) =>
        state := state.(job := Some(j));
        if ValidateJob(state.job).isSuccess && state.jobError.Some? {
          state := state.(jobError := None);
        }
      case TipsEarnedChanged(t) =>
        state := state.(tipsEarned := t);
        if ValidateFloat(parseFloat, state.tipsEarned).isSuccess && state.tipsEarnedError.Some? {
          state := state.(tipsEarnedError := None);
        }
      case TotalHoursWorkedChanged(h) =>
        state := state.(totalHoursWorked := h);
        if ValidateHoursWorked(state.totalHoursWorked).isSuccess && state.totalHoursWorkedError.Some? {
          state := state.(totalHoursWorkedError := None);
        }
      case IncomeDateChanged(d) =>
        state := state.(date := d);
      case IncomeCancel =>
        ResetState(today);
      case IncomeSubmit =>
        AddTransaction(today);
    }

    /** `resetState`: back to the default form, which has no job selected even after loading chose one. */
    method ResetState(today: int)
      modifies this`state
      ensures state == DefaultIncomeForm(today) && state.job.None? && Valid()
    {
      state := DefaultIncomeForm(today);
    }

    /**
     * What a submit leaves, from form `s0` and effects `e0`: an invalid form
     * shows its errors and sends nothing; a valid one dies when there is no
     * user yet or no current season, and otherwise sends the request,
     * reports success and resets.
     */
    ghost predicate SubmitOutcome(s0: Form, e0: seq<Effect>, today: int)
      reads this
    {
      if !IncomeValid(s0, parseFloat) then
        state == IncomeChecked(s0, parseFloat) && effects == e0
      else if user.None? || FirstCurrentSeason(user.value.seasonJobs).None? then
        state == s0 && effects == e0 + [Crash]
      else
        && effects == e0 + [AddIncomeRequest(IncomeRequest(s0, parseFloat, user.value,
                                                            FirstCurrentSeason(user.value.seasonJobs).value)), Success]
        && state == DefaultIncomeForm(today)
    }

    /** `addTransaction`: run all four validators, then send the income, report success and reset. */
    method AddTransaction(today: int)
      requires Valid()
      modifies this`state, this`effects
      ensures Valid()
      ensures SubmitOutcome(old(state), old(effects), today)
    {
      ghost var s0 := state;
      IncomeCheckedShowsFailures(s0, parseFloat);
      var hasError := false;
      var jobResult := ValidateJob(state.job);
      if jobResult.message.Some? {
        state := state.(jobError := jobResult.message);
        hasError := true;
      }
      var baseEarnedResult := ValidateFloat(parseFloat, state.baseEarned);
      if baseEarnedResult.message.Some? {
        state := state.(baseEarnedError := baseEarnedResult.message);
        hasError := true;
      }
      var tipsEarnedResult := ValidateFloat(parseFloat, state.tipsEarned);
      if tipsEarnedResult.message.Some? {
        state := state.(tipsEarnedError := tipsEarnedResult.message);
        hasError := true;
      }
      var hoursResult := ValidateHoursWorked(state.totalHoursWorked);
      if hoursResult.message.Some? {
        state := state.(totalHoursWorkedError := hoursResult.message);
        hasError := true;
      }
      assert state == IncomeChecked(s0, parseFloat);
      if hasError {
        return;
      }
      if user.None? {
        effects := effects + [Crash];
        return;
      }
      var season := FirstCurrentSeason(user.value.seasonJobs);
      if season.None? {
        effects := effects + [Crash];
        return;
      }
      var dto := CreateIncomeDTO(state.job.value.uid, user.value.uid, season.value.id,
        parseFloat(state.baseEarned).value, parseFloat(state.tipsEarned).value,
        ToIntOrNull(state.totalHoursWorked).value, state.date);
      effects := effects + [AddIncomeRequest(dto), Success];
      ResetState(today);
    }
  }
}
