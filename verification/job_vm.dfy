/**
 * The current job screen (`JobViewModel`): the job form with its setters,
 * the employer search field, creating an employer, filling the form from a
 * stored job, and adding or updating the job. The screen calls a job and
 * employer repository interface that the implementations modelled here do
 * not match, so its calls are recorded as requests and their answers are
 * parameters.
 */
module JobView {
  import opened Common
  import opened Text
  import opened JobForm

  /** The season document every new job is filed under. */
  const FixedSeasonId: string := "GpA2hWiQ3RJKZVsJjk2q"

  /** The number of employers loaded when the screen opens. */
  const InitialEmployerCount: int := 10

  /** The job as the repository returns it: the employer is a reference to be fetched. */
  datatype StoredJob = StoredJob(
    employerId: string,
    position: string,
    description: string,
    locationInfo: string,
    startDate: int,
    endDate: int)

  /** The requests, callbacks and crashes, in the order they happen. */
  datatype Effect =
    | FetchEmployersRequest(count: int)
    | CreateEmployerRequest(name: string)
    | EmployerCreated(employer: EmployerRef)
    | FetchJobRequest(jobId: string)
    | FetchEmployerRequest(employerId: string)
    | Loaded(startDate: int, endDate: int)
    | CreateJobRequest(userId: string, job: JobDraft, seasonId: string)
    | UpdateJobRequest(userId: string, jobId: string, job: JobDraft)
    | Success
    | Crash

  /** The stored job with its employer resolved: the reference's id and the document's name, or "" without one. */
  function Resolved(j: StoredJob, employerName: Option<string>): (r: FetchedJob)
    ensures r.employer == EmployerRef(j.employerId, employerName.GetOr(""))
    ensures r.position == j.position && r.description == j.description && r.locationInfo == j.locationInfo
    ensures r.startDate == j.startDate && r.endDate == j.endDate
  {
    FetchedJob(EmployerRef(j.employerId, employerName.GetOr("")), j.position, j.description, j.locationInfo,
               j.startDate, j.endDate)
  }

  class JobViewModel {
    var jobForm: JobFormState
    var employerSearchField: string
    var employersSearchResults: seq<EmployerRef>
    var locationSearchField: string
    var effects: seq<Effect>

    constructor (today: int)
      ensures jobForm == DefaultJobForm(today)
      ensures employerSearchField == "" && employersSearchResults == [] && locationSearchField == ""
      ensures effects == []
    {
      jobForm := DefaultJobForm(today);
      employerSearchField, employersSearchResults, locationSearchField := "", [], "";
      effects := [];
    }

    /** The first coroutine `init` starts: the first employers, with `result` what the repository returns. */
    method Init(result: seq<EmployerRef>)
      modifies this`employersSearchResults, this`effects
      ensures employersSearchResults == result
      ensures effects == old(effects) + [FetchEmployersRequest(InitialEmployerCount)]
    {
      effects := effects + [FetchEmployersRequest(InitialEmployerCount)];
      employersSearchResults := result;
    }

    method OnJobDescriptionChange(value: string)
      modifies this`jobForm
      ensures jobForm == ApplyEdit(old(jobForm), DescriptionEdit(value))
    {
      jobForm := jobForm.(description := value);
    }

    /** `onSelectStartDate`, with the picked instant already a day number. */
    method OnSelectStartDate(date: int)
      modifies this`jobForm
      ensures jobForm == ApplyEdit(old(jobForm), StartDateEdit(date))
    {
      jobForm := jobForm.(startDate := date);
    }

    /** `onSelectEndDate`, with the picked instant already a day number. */
    method OnSelectEndDate(date: int)
      modifies this`jobForm
      ensures jobForm == ApplyEdit(old(jobForm), EndDateEdit(date))
    {
      jobForm := jobForm.(endDate := date);
    }

    method SelectEmployer(employer: EmployerRef)
      modifies this`jobForm
      ensures jobForm == ApplyEdit(old(jobForm), EmployerEdit(Some(employer)))
    {
      jobForm := jobForm.(employer := Some(employer));
    }

    method UnselectEmployer()
      modifies this`jobForm
      ensures jobForm == ApplyEdit(old(jobForm), EmployerEdit(None))
    {
      jobForm := jobForm.(employer := None);
    }

    method OnJobPositionUpdate(value: string)
      modifies this`jobForm
      ensures jobForm == ApplyEdit(old(jobForm), PositionEdit(value))
    {
      jobForm := jobForm.(position := value);
    }

    method OnLocationSelect(value: Address)
      modifies this`jobForm
      ensures jobForm == ApplyEdit(old(jobForm), LocationEdit(value))
    {
      jobForm := jobForm.(location := Some(value));
    }

    /** `onLocationSearchChange`: only the query is stored; the geocoder search it drives is not modelled. */
    method OnLocationSearchChange(value: string)
      modifies this`locationSearchField
      ensures locationSearchField == value
    {
      locationSearchField := value;
    }

    /** `onEmployerFieldChange`: store the query; a blank one empties the results. */
    method OnEmployerFieldChange(value: string)
      modifies this`employerSearchField, this`employersSearchResults
      ensures employerSearchField == value
      ensures employersSearchResults == if IsBlank(value) then [] else old(employersSearchResults)
    {
      employerSearchField := value;
      if IsBlank(value) {
        employersSearchResults := [];
      }
    }

    /**
     * `createEmployer`, with `created` what the repository returns: the
     * form's employer becomes the result, even when there is none, and the
     * callback runs only for a created employer.
     */
    method CreateEmployer(name: string, created: Option<EmployerRef>)
      modifies this`jobForm, this`effects
      ensures jobForm == ApplyEdit(old(jobForm), EmployerEdit(created))
      ensures effects == old(effects) + [CreateEmployerRequest(name)]
                         + (if created.Some? then [EmployerCreated(created.value)] else [])
    {
      effects := effects + [CreateEmployerRequest(name)];
      jobForm := jobForm.(employer := created);
      if created.Some? {
        effects := effects + [EmployerCreated(created.value)];
      }
    }

    /**
     * `getJobInfo`, with `job` the stored job, `employerName` the name on its
     * employer document and `geocoded` the geocoder's answer for its location
     * text: loading goes up, the form is filled and loading goes down, then
     * the form's dates are reported. An empty geocoder answer dies on
     * `first()` with loading still up.
     */
    method GetJobInfo(jobId: string, job: StoredJob, employerName: Option<string>, geocoded: Option<seq<Address>>)
      modifies this`jobForm, this`effects
      ensures FirstAddress(geocoded).None? ==>
                && jobForm == old(jobForm).(loading := true)
                && effects == old(effects) + [FetchJobRequest(jobId), FetchEmployerRequest(job.employerId), Crash]
      ensures FirstAddress(geocoded).Some? ==>
                && jobForm == Filled(old(jobForm), Resolved(job, employerName), FirstAddress(geocoded).value)
                && effects == old(effects) + [FetchJobRequest(jobId), FetchEmployerRequest(job.employerId),
                                              Loaded(job.startDate, job.endDate)]
    {
      jobForm := jobForm.(loading := true);
      effects := effects + [FetchJobRequest(jobId), FetchEmployerRequest(job.employerId)];
      var location := FirstAddress(geocoded);
      if location.None? {
        effects := effects + [Crash];
        return;
      }
      jobForm := Filled(jobForm, Resolved(job, employerName), location.value);
      effects := effects + [Loaded(jobForm.startDate, jobForm.endDate)];
    }

    /**
     * `onAddJob`, with `currentUser` the signed-in user's id: the job is
     * filed for that user under the fixed season, with the location text
     * "<place>, <country>", then success is reported. No signed-in user, no
     * location or no employer dies on `!!` before anything is sent.
     */
    method OnAddJob(currentUser: Option<string>)
      modifies this`effects
      ensures currentUser.None? || Draft(jobForm, ", ").None? ==> effects == old(effects) + [Crash]
      ensures currentUser.Some? && Draft(jobForm, ", ").Some? ==>
                effects == old(effects) + [CreateJobRequest(currentUser.value, Draft(jobForm, ", ").value, FixedSeasonId), Success]
    {
      if currentUser.None? {
        effects := effects + [Crash];
        return;
      }
      var draft := Draft(jobForm, ", ");
      if draft.None? {
        effects := effects + [Crash];
        return;
      }
      effects := effects + [CreateJobRequest(currentUser.value, draft.value, FixedSeasonId), Success];
    }

    /**
     * `onUpdateJob`: the form goes to the job id with an empty user id and
     * the location text "<place>, <country>", then success is reported.
     */
    method OnUpdateJob(jobId: string)
      modifies this`effects
      ensures Draft(jobForm, ", ").None? ==> effects == old(effects) + [Crash]
      ensures Draft(jobForm, ", ").Some? ==>
                effects == old(effects) + [UpdateJobRequest("", jobId, Draft(jobForm, ", ").value), Success]
    {
      var draft := Draft(jobForm, ", ");
      if draft.None? {
        effects := effects + [Crash];
        return;
      }
      effects := effects + [UpdateJobRequest("", jobId, draft.value), Success];
    }
  }
}
