/**
 * The older job screen (`AddJobViewModel`): the same job form as the
 * current screen, but the stored job comes back with its employer already
 * resolved and may be missing, and the update writes the location text
 * without a space after the comma.
 */
module AddJob {
  import opened Common
  import opened Text
  import opened JobForm

  /** The requests, callbacks and crashes, in the order they happen. */
  datatype Effect =
    | CreateEmployerRequest(name: string)
    | EmployerCreated(employer: EmployerRef)
    | FetchJobRequest(jobId: string)
    | Loaded(startDate: int, endDate: int)
    | CreateJobRequest(job: JobDraft)
    | UpdateJobRequest(jobId: string, job: JobDraft)
    | Success
    | Crash

  /** The location text the add sends. */
  const AddSeparator: string := ", "

  /** The location text the update sends. */
  const UpdateSeparator: string := ","

  /**
   * Adding a job and then updating it from the same form send the same job
   * except for the location text, which always differs: the update drops the
   * space after the comma.
   */
  lemma AddThenUpdateRewritesLocation(s: JobFormState)
    requires s.location.Some? && s.employer.Some?
    ensures var added := Draft(s, AddSeparator).value;
            var updated := Draft(s, UpdateSeparator).value;
            && updated == added.(locationInfo := updated.locationInfo)
            && updated.locationInfo != added.locationInfo
            && |added.locationInfo| == |updated.locationInfo| + 1
  {
    SeparatorsDiffer(s.location);
  }

  class AddJobViewModel {
    var jobForm: JobFormState
    var employerSearchField: string
    var employersSearchResults: seq<EmployerRef>
    var locationSearchField: string
    var effects: seq<Effect>

    constructor (today: int)
      ensures jobForm == DefaultJobForm(today)
      ensures employerSearchField == "" && employersSearchResults == [] && locationSearchField == ""
      ensures effects == []
    {
      jobForm := DefaultJobForm(today);
      employerSearchField, employersSearchResults, locationSearchField := "", [], "";
      effects := [];
    }

    method OnJobDescriptionChange(value: string)
      modifies this`jobForm
      ensures jobForm == ApplyEdit(old(jobForm), DescriptionEdit(value))
    {
      jobForm := jobForm.(description := value);
    }

    /** `onSelectStartDate`, with the picked instant already a day number. */
    method OnSelectStartDate(date: int)
      modifies this`jobForm
      ensures jobForm == ApplyEdit(old(jobForm), StartDateEdit(date))
    {
      jobForm := jobForm.(startDate := date);
    }

    /** `onSelectEndDate`, with the picked instant already a day number. */
    method OnSelectEndDate(date: int)
      modifies this`jobForm
      ensures jobForm == ApplyEdit(old(jobForm), EndDateEdit(date))
    {
      jobForm := jobForm.(endDate := date);
    }

    method SelectEmployer(employer: EmployerRef)
      modifies this`jobForm
      ensures jobForm == ApplyEdit(old(jobForm), EmployerEdit(Some(employer)))
    {
      jobForm := jobForm.(employer := Some(employer));
    }

    method UnselectEmployer()
      modifies this`jobForm
      ensures jobForm == ApplyEdit(old(jobForm), EmployerEdit(None))
    {
      jobForm := jobForm.(employer := None);
    }

    method OnJobPositionUpdate(value: string)
      modifies this`jobForm
      ensures jobForm == ApplyEdit(old(jobForm), PositionEdit(value))
    {
      jobForm := jobForm.(position := value);
    }

    method OnLocationSelect(value: Address)
      modifies this`jobForm
      ensures jobForm == ApplyEdit(old(jobForm), LocationEdit(value))
    {
      jobForm := jobForm.(location := Some(value));
    }

    /** `onLocationSearchChange`: only the query is stored; the geocoder search it drives is not modelled. */
    method OnLocationSearchChange(value: string)
      modifies this`locationSearchField
      ensures locationSearchField == value
    {
      locationSearchField := value;
    }

    /** `onEmployerFieldChange`: store the query; a blank one empties the results. */
    method OnEmployerFieldChange(value: string)
      modifies this`employerSearchField, this`employersSearchResults
      ensures employerSearchField == value
      ensures employersSearchResults == if IsBlank(value) then [] else old(employersSearchResults)
    {
      employerSearchField := value;
      if IsBlank(value) {
        employersSearchResults := [];
      }
    }

    /** `createEmployer`: the form's employer becomes the result; the callback runs only for a created employer. */
    method CreateEmployer(name: string, created: Option<EmployerRef>)
      modifies this`jobForm, this`effects
      ensures jobForm == ApplyEdit(old(jobForm), EmployerEdit(created))
      ensures effects == old(effects) + [CreateEmployerRequest(name)]
                         + (if created.Some? then [EmployerCreated(created.value)] else [])
    {
      effects := effects + [CreateEmployerRequest(name)];
      jobForm := jobForm.(employer := created);
      if created.Some? {
        effects := effects + [EmployerCreated(created.value)];
      }
    }

    /**
     * `getJobInfo`, with `job` what the repository returns and `geocoded`
     * the geocoder's answer for its location text. A missing job only ends
     * loading. A found one fills the form and reports the job's dates; an
     * empty geocoder answer dies on `first()` with loading still up.
     */
    method GetJobInfo(jobId: string, job: Option<FetchedJob>, geocoded: Option<seq<Address>>)
      modifies this`jobForm, this`effects
      ensures job.None? ==>
                jobForm == old(jobForm).(loading := false) && effects == old(effects) + [FetchJobRequest(jobId)]
      ensures job.Some? && FirstAddress(geocoded).None? ==>
                jobForm == old(jobForm).(loading := true) && effects == old(effects) + [FetchJobRequest(jobId), Crash]
      ensures job.Some? && FirstAddress(geocoded).Some? ==>
                && jobForm == Filled(old(jobForm), job.value, FirstAddress(geocoded).value)
                && effects == old(effects) + [FetchJobRequest(jobId), Loaded(job.value.startDate, job.value.endDate)]
    {
      jobForm := jobForm.(loading := true);
      effects := effects + [FetchJobRequest(jobId)];
      if job.None? {
        jobForm := jobForm.(loading := false);
        return;
      }
      var location := FirstAddress(geocoded);
      if location.None? {
        effects := effects + [Crash];
        return;
      }
      jobForm := Filled(jobForm, job.value, location.value);
      effects := effects + [Loaded(job.value.startDate, job.value.endDate)];
    }

    /** `onAddJob`: the form with the location text "<place>, <country>", then success; no location or employer dies on `!!`. */
    method OnAddJob()
      modifies this`effects
      ensures Draft(jobForm, AddSeparator).None? ==> effects == old(effects) + [Crash]
      ensures Draft(jobForm, AddSeparator).Some? ==>
                effects == old(effects) + [CreateJobRequest(Draft(jobForm, AddSeparator).value), Success]
    {
      var draft := Draft(jobForm, AddSeparator);
      if draft.None? {
        effects := effects + [Crash];
        return;
      }
      effects := effects + [CreateJobRequest(draft.value), Success];
    }

    /** `onUpdateJob`: the form for the job id with the location text "<place>,<country>", then success. */
    method OnUpdateJob(jobId: string)
      modifies this`effects
      ensures Draft(jobForm, UpdateSeparator).None? ==> effects == old(effects) + [Crash]
      ensures Draft(jobForm, UpdateSeparator).Some? ==>
                effects == old(effects) + [UpdateJobRequest(jobId, Draft(jobForm, UpdateSeparator).value), Success]
    {
      var draft := Draft(jobForm, UpdateSeparator);
      if draft.None? {
        effects := effects + [Crash];
        return;
      }
      effects := effects + [UpdateJobRequest(jobId, draft.value), Success];
    }
  }
}
